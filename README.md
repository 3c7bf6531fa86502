# RecyclerAdapter item store, in Dafny

A model of the generic list adapter `RecyclerAdapter<T>` of the ITalker Android client
(`common/src/main/java/com/wzh/common/widget/recycler/RecyclerAdapter.java`): the ordered
item list it owns and changes in place, the change notification each change sends to the
rendering surface, view-holder binding, in-place update through a holder, and click /
long-click dispatch to a registered listener.

Files:

- `wrappers.dfy` — `Option`, standing for a Java reference that may be null.
- `item_store.dfy` — module `ItemStore`: each mutation as a function from the old list to an
  `Outcome` (new list, notifications sent); the notifications as the datatype `Event`
  (`Inserted`, `RangeInserted`, `DataSetChanged`, `Changed`); `Redraw`, what a rendering
  surface does on each notification; runs of several calls (`Op`, `Run`, `Shown`), a
  reference list read from the last call backwards (`Expected`) and a closed form for runs
  that only append (`AppendedBy`), with the lemmas relating them.
- `recycler_adapter.dfy` — module `Recycler`: the classes `RecyclerAdapter` (fields
  `items` for `mDataList`, `listener` for `mListener`, and two ghost logs: `notified`, every
  notify call, and `delivered`, every listener callback) and `ViewHolder` (fields `data` for
  `mData`, `callback` for the owning adapter). Each mutating method is specified by the
  matching `ItemStore` function; `Perform` runs any `ItemStore.Op` on an adapter with
  exactly the effect `ItemStore.Apply` gives it, and `PerformAll` runs a whole sequence of
  them with exactly the effect `ItemStore.Run` gives it, so the lemmas about runs hold of
  the class.

The holder's adapter position (`getAdapterPosition`) is supplied by the platform; it is a
parameter of `Update`, `UpdateData`, `OnClick` and `OnLongClick`.

Unlike `clear`, `replace` returns before notifying when its batch is null or empty
(lines 190-192), although it has already cleared the list (line 189).
`ItemStore.SurfaceFollowsCall` states the effect: after any call a surface in step with the
list stays in step, except exactly after such a replace on a non-empty list, which leaves
the old rows displayed. The adapter class models `replace` as written; see "## Findings".

## Model

| member | source | states |
|---|---|---|
| `ItemStore.RemoveAt` | common/src/main/java/com/wzh/common/widget/recycler/RecyclerAdapter.java:203 | `List.remove(pos)` shortens the list by one, keeps the elements before pos and shifts the later ones left |
| `ItemStore.InsertAt` | common/src/main/java/com/wzh/common/widget/recycler/RecyclerAdapter.java:204 | `List.add(pos, t)` lengthens the list by one, puts t at pos, keeps the elements before and shifts the later ones right |
| `ItemStore.UpdateReplacesOneItem` | common/src/main/java/com/wzh/common/widget/recycler/RecyclerAdapter.java:197-207 | update at a valid position replaces exactly that element (length and every other element kept) and sends exactly one `Changed(pos)` |
| `ItemStore.OneEventPerCall` | common/src/main/java/com/wzh/common/widget/recycler/RecyclerAdapter.java:137-207 | every mutating call sends at most one notification, never one per item; none exactly for an empty or null batch, a negative update position, or a replace with an empty batch; ignored calls leave the list unchanged |
| `ItemStore.SurfaceFollowsCall` | common/src/main/java/com/wzh/common/widget/recycler/RecyclerAdapter.java:137-207 | replaying a call's notifications on a surface showing the old list yields the new list if and only if the call is not a replace with an empty batch on a non-empty list |
| `ItemStore.RunNotifiesAtMostOncePerCall` | common/src/main/java/com/wzh/common/widget/recycler/RecyclerAdapter.java:147-166 | any run of calls sends no more notifications than it has calls, however large the batches |
| `ItemStore.SurfaceFollowsRun` | common/src/main/java/com/wzh/common/widget/recycler/RecyclerAdapter.java:137-207 | over any run without a silent reset, a surface that starts in step with the list ends in step with it |
| `ItemStore.AppendOnlyRun` | common/src/main/java/com/wzh/common/widget/recycler/RecyclerAdapter.java:137-166 | any run of add and batch-add calls can be made, keeps the starting list as a prefix followed by every appended item in call order (empty and null batches adding nothing), and sends only insertion notifications |
| `ItemStore.ReplaceEmptyLeavesStaleRow` | common/src/main/java/com/wzh/common/widget/recycler/RecyclerAdapter.java:188-195 | replace with a null batch on a one-item list empties the list, sends nothing, and a surface showing that item keeps showing it |
| `ItemStore.ReplaceAnnouncedKeepsSurface` | common/src/main/java/com/wzh/common/widget/recycler/RecyclerAdapter.java:188-195 | a replace that always announces the reset leaves the same list as the written one, sends exactly one notification, and keeps the surface in step for every batch |
| `ItemStore.RunMatchesExpected` | common/src/main/java/com/wzh/common/widget/recycler/RecyclerAdapter.java:137-207 | the list after any run of add / add-batch / clear / replace / update calls equals the reference list: since the last clear or replace, items appended in call order, updates overwriting in place |
| `Recycler.ViewHolder.constructor` | common/src/main/java/com/wzh/common/widget/recycler/RecyclerAdapter.java:263-270 | a new holder has no bound record and no callback |
| `Recycler.ViewHolder.Bind` | common/src/main/java/com/wzh/common/widget/recycler/RecyclerAdapter.java:277-280 | binding stores the record as the holder's data and changes nothing else |
| `Recycler.ViewHolder.UpdateData` | common/src/main/java/com/wzh/common/widget/recycler/RecyclerAdapter.java:294-298 | with a callback, the owning adapter performs update for this holder's position; without one, nothing changes |
| `Recycler.RecyclerAdapter.constructor` | common/src/main/java/com/wzh/common/widget/recycler/RecyclerAdapter.java:36-38 | starts with an empty list, no listener, nothing notified or delivered |
| `Recycler.RecyclerAdapter.WithListener` | common/src/main/java/com/wzh/common/widget/recycler/RecyclerAdapter.java:40-42 | starts with an empty list and the given listener |
| `Recycler.RecyclerAdapter.WithData` | common/src/main/java/com/wzh/common/widget/recycler/RecyclerAdapter.java:44-47 | starts with the given list and listener |
| `Recycler.RecyclerAdapter.ItemCount` | common/src/main/java/com/wzh/common/widget/recycler/RecyclerAdapter.java:127-130 | the item count is the list length |
| `Recycler.RecyclerAdapter.ItemViewType` | common/src/main/java/com/wzh/common/widget/recycler/RecyclerAdapter.java:55-58 | the view type at a valid position is the subclass's view type for that position and the record stored there |
| `Recycler.RecyclerAdapter.CreateViewHolder` | common/src/main/java/com/wzh/common/widget/recycler/RecyclerAdapter.java:77-99 | a new holder is wired back to this adapter as its callback and is not yet bound |
| `Recycler.RecyclerAdapter.OnBindViewHolder` | common/src/main/java/com/wzh/common/widget/recycler/RecyclerAdapter.java:116-122 | the holder's data becomes the record at the position; the adapter is not changed |
| `Recycler.RecyclerAdapter.Add` | common/src/main/java/com/wzh/common/widget/recycler/RecyclerAdapter.java:137-140 | the item is appended after the existing ones and exactly one `Inserted(old length)` is logged; listener and deliveries unchanged |
| `Recycler.RecyclerAdapter.AddArray` | common/src/main/java/com/wzh/common/widget/recycler/RecyclerAdapter.java:147-153 | a non-null, non-empty array is appended in order with one `RangeInserted(old length, array length)`; a null or empty array changes nothing and logs nothing |
| `Recycler.RecyclerAdapter.AddAll` | common/src/main/java/com/wzh/common/widget/recycler/RecyclerAdapter.java:160-166 | the same for a collection: one range notification for the whole batch, nothing for a null or empty one |
| `Recycler.RecyclerAdapter.Clear` | common/src/main/java/com/wzh/common/widget/recycler/RecyclerAdapter.java:178-181 | the list becomes empty and exactly one `DataSetChanged` is logged |
| `Recycler.RecyclerAdapter.Replace` | common/src/main/java/com/wzh/common/widget/recycler/RecyclerAdapter.java:188-195 | a non-empty batch becomes the whole list with one `DataSetChanged`; a null or empty batch empties the list and logs nothing |
| `Recycler.RecyclerAdapter.Update` | common/src/main/java/com/wzh/common/widget/recycler/RecyclerAdapter.java:197-207 | at a position in range, that element becomes t, everything else is kept and one `Changed(pos)` is logged; at a negative position nothing changes |
| `Recycler.RecyclerAdapter.OnClick` | common/src/main/java/com/wzh/common/widget/recycler/RecyclerAdapter.java:209-220 | with a listener, one click delivery carrying the holder and the record at its position; without one, nothing; the adapter's own code does not change the list |
| `Recycler.RecyclerAdapter.OnLongClick` | common/src/main/java/com/wzh/common/widget/recycler/RecyclerAdapter.java:222-233 | reports handled if and only if a listener is set, and then delivers one long-click with the record; the adapter's own code does not change the list |
| `Recycler.Perform` | common/src/main/java/com/wzh/common/widget/recycler/RecyclerAdapter.java:137-207 | each mutating call, chosen as an `ItemStore.Op`, changes the adapter's list and notification log exactly as `ItemStore.Apply` says and leaves listener and deliveries alone |
| `Recycler.PerformAll` | common/src/main/java/com/wzh/common/widget/recycler/RecyclerAdapter.java:137-207 | any allowed sequence of mutating calls, made one after the other on an adapter, leaves its list and notification log as `ItemStore.Run` gives them, and keeps listener and deliveries |
| `Recycler.RecyclerAdapter.SetListener` | common/src/main/java/com/wzh/common/widget/recycler/RecyclerAdapter.java:240-242 | the listener becomes the given one (or none) and nothing else changes |

## Left out

- Android view machinery: layout inflation, the view tag that maps a root view back to its
  holder (the holder is passed directly), annotation-based view binding, and the holder's
  `onBind` rendering. What the surface does on a notification is modelled only abstractly,
  by `ItemStore.Redraw`.
- `getAdapterPosition` is the platform's; the position is a parameter.
- The subclass's `getItemViewType(int, T)` is a function parameter of `ItemViewType`; the
  subclass's `onCreateViewHolder(View, int)` is replaced by a fresh `ViewHolder`, so the
  view type argument is not modelled.
- `getItems` (lines 172-174) hands out the list object itself, and the `WithData`
  constructor keeps the caller's list object; the model holds the list as a value, so
  aliasing between the adapter and outside code is not captured.
- What a listener does on a callback is not modelled; calls to it are recorded in the ghost
  log `delivered`. `AdapterListenerImpl` has only empty callbacks and is not modelled.
- Recycler.RecyclerAdapter.OnClick, Recycler.RecyclerAdapter.OnLongClick: a listener that
  calls back into the adapter (`update`, `clear`, `replace`, ...) from its callback is
  assumed absent; the frames let these methods change only the delivery log, so the list
  is unchanged only as far as the adapter's own code goes.
- Recycler.RecyclerAdapter.WithData: Java accepts a null list here (lines 44-47), and every
  later call that reads or changes the list then throws NullPointerException:
  `getItemCount`, `getItemViewType`, `onBindViewHolder`, `add(T)`, a non-empty batch add,
  `clear`, `replace`, `update` at a position of 0 or more, and a click or long-click with a
  listener set (`setListener`, `getItems`, an empty or null batch add, `update` at a
  negative position and a click without a listener still work). The model's list is a
  value and cannot be null, so that error path is dropped. Likewise `getItemViewType` and
  `onBindViewHolder` throw for a position outside the list (lines 57, 119); `ItemViewType`
  and `OnBindViewHolder` require a position inside it instead.
- Update at a position at or past the end throws in Java (`remove`); it is a precondition.
  Likewise a click or long-click with a listener set and an out-of-range position (the
  platform's "no position" is -1) throws when the record is read; that is a precondition
  of `OnClick` and `OnLongClick`, required only when a listener is set.
- List sizes are unbounded integers; Java's 32-bit `int` sizes are not modelled, since no
  operation here does arithmetic that could wrap.
- Single-threaded use only: the adapter is mutated on the UI thread, and no concurrent
  mutation is modelled.
- The rest of the application (activities, presenters, the network interface) is not part
  of this model.

## Findings

| source | as written | input that shows it | evidently intended | confidence | as-written member | corrected member |
|---|---|---|---|---|---|---|
| common/src/main/java/com/wzh/common/widget/recycler/RecyclerAdapter.java:188-195 | `replace` clears the list, then returns before `notifyDataSetChanged` when the batch is null or empty | a one-item list, then `replace(null)`: the list is empty, nothing is notified, the surface still shows one row | announce the reset whatever the batch, as `clear` does | medium, not executed | `ItemStore.ReplaceEmptyLeavesStaleRow` | `ItemStore.ReplaceAnnouncedKeepsSurface` |

The adapter class keeps `replace` as written; `ItemStore.ReplaceItemsAnnounced` is the
corrected operation, proved to give the same list and to keep the surface in step.
