/**
 * The item store of the generic list adapter, as values: what each mutation makes of the
 * list and which change notifications it sends to the rendering surface.
 * The class in recycler_adapter.dfy is specified by these functions.
 */
module ItemStore {
  import opened Wrappers

  /** A change notification sent to the rendering surface (the adapter's notify* calls). */
  datatype Event =
    | Inserted(position: nat)                // notifyItemInserted
    | RangeInserted(start: nat, count: nat)  // notifyItemRangeInserted
    | DataSetChanged                         // notifyDataSetChanged
    | Changed(position: nat)                 // notifyItemChanged

  /** The list after a mutation, and the notifications the mutation sent, oldest first. */
  datatype Outcome<T> = Outcome(items: seq<T>, events: seq<Event>)

  /** The records a batch argument carries; a null batch carries none. */
  function BatchItems<T>(batch: Option<seq<T>>): (b: seq<T>)
  {
    match batch
    case None => []
    case Some(b) => b
  }

  // ---------------------------------------------------------------------------------------
  // The two java.util.List primitives that update is built from.

  /** List.remove(int): drops the element at i and shifts the rest left. */
  function RemoveAt<T>(s: seq<T>, i: nat): (r: seq<T>)
    requires i < |s|
    ensures |r| == |s| - 1
    ensures forall j :: 0 <= j < i ==> r[j] == s[j]
    ensures forall j :: i <= j < |r| ==> r[j] == s[j + 1]
  {
    s[..i] + s[i + 1..]
  }

  /** List.add(int, E): puts x at index i and shifts the elements from i on right. */
  function InsertAt<T>(s: seq<T>, i: nat, x: T): (r: seq<T>)
    requires i <= |s|
    ensures |r| == |s| + 1 && r[i] == x
    ensures forall j :: 0 <= j < i ==> r[j] == s[j]
    ensures forall j :: i < j < |r| ==> r[j] == s[j - 1]
  {
    s[..i] + [x] + s[i..]
  }

  // ---------------------------------------------------------------------------------------
  // One function per mutating operation of the adapter.

  /** add(T): append, then notifyItemInserted(size - 1). */
  function AddItem<T>(s: seq<T>, x: T): (o: Outcome<T>)
  {
    Outcome(s + [x], [Inserted(|s|)])
  }

  /** add(T...) and add(Collection): a null or empty batch is ignored; otherwise the whole
      batch is appended and announced by ONE range notification. */
  function AddItems<T>(s: seq<T>, batch: Option<seq<T>>): (o: Outcome<T>)
  {
    if batch.Some? && |batch.value| > 0 then
      Outcome(s + batch.value, [RangeInserted(|s|, |batch.value|)])
    else
      Outcome(s, [])
  }

  /** clear(): empty the list, then notifyDataSetChanged. */
  function ClearItems<T>(s: seq<T>): (o: Outcome<T>)
  {
    Outcome([], [DataSetChanged])
  }

  /** replace(Collection): the list is cleared first; a null or empty batch returns before
      anything is notified. */
  function ReplaceItems<T>(s: seq<T>, batch: Option<seq<T>>): (o: Outcome<T>)
  {
    if batch.None? || |batch.value| == 0 then
      Outcome([], [])
    else
      Outcome(batch.value, [DataSetChanged])
  }

  /** update(t, holder) with the holder's adapter position: a negative position (the holder
      is detached) is dropped; otherwise remove(pos), add(pos, t), notifyItemChanged(pos).
      A position at or past the end makes remove throw, so the caller must not pass one. */
  function UpdateItem<T>(s: seq<T>, t: T, position: int): (o: Outcome<T>)
    requires position < |s|
  {
    if position >= 0 then
      Outcome(InsertAt(RemoveAt(s, position), position, t), [Changed(position)])
    else
      Outcome(s, [])
  }

  /** Remove-then-insert at the same index is a point update: one element replaced, the
      length and every other element kept. */
  lemma UpdateReplacesOneItem<T>(s: seq<T>, t: T, position: int)
    requires 0 <= position < |s|
    ensures UpdateItem(s, t, position).items == s[position := t]
    ensures UpdateItem(s, t, position).events == [Changed(position)]
  {
  }

  // ---------------------------------------------------------------------------------------
  // Operations as data, so that runs of several calls can be stated.

  datatype Op<T> =
    | Add(item: T)
    | AddBatch(batch: Option<seq<T>>)
    | Clear
    | Replace(batch: Option<seq<T>>)
    | Update(item: T, position: int)

  /** What update demands of its caller: never a position past the end, where remove throws. */
  predicate Allowed<T>(s: seq<T>, op: Op<T>)
  {
    op.Update? ==> op.position < |s|
  }

  function Apply<T>(s: seq<T>, op: Op<T>): (o: Outcome<T>)
    requires Allowed(s, op)
  {
    match op
    case Add(x) => AddItem(s, x)
    case AddBatch(b) => AddItems(s, b)
    case Clear => ClearItems(s)
    case Replace(b) => ReplaceItems(s, b)
    case Update(t, p) => UpdateItem(s, t, p)
  }

  /** An operation that leaves both the list and the notification log alone. */
  predicate Ignored<T>(op: Op<T>)
  {
    match op
    case AddBatch(b) => BatchItems(b) == []
    case Update(_, p) => p < 0
    case _ => false
  }

  /** replace with a null or empty batch on a non-empty list: the list changes, nothing is
      notified. */
  predicate SilentReset<T>(s: seq<T>, op: Op<T>)
  {
    op.Replace? && BatchItems(op.batch) == [] && s != []
  }

  /** Every call sends at most one notification, however many items it adds; it sends none
      exactly when the call is ignored or is a replace with an empty batch. */
  lemma OneEventPerCall<T>(s: seq<T>, op: Op<T>)
    requires Allowed(s, op)
    ensures |Apply(s, op).events| <= 1
    ensures Apply(s, op).events == [] <==> Ignored(op) || (op.Replace? && BatchItems(op.batch) == [])
    ensures Ignored(op) ==> Apply(s, op).items == s
  {
  }

  // ---------------------------------------------------------------------------------------
  // What the rendering surface makes of a notification.

  /** How a surface that displays `shown` redraws on e while the adapter holds `current`:
      it re-binds the announced positions from the adapter and shifts the other rows;
      a full reset re-reads everything. An event whose positions do not fit is ignored. */
  function Redraw<T>(shown: seq<T>, e: Event, current: seq<T>): (r: seq<T>)
  {
    match e
    case Inserted(i) =>
      if i <= |shown| && i < |current| then InsertAt(shown, i, current[i]) else shown
    case RangeInserted(start, count) =>
      if start <= |shown| && start + count <= |current| then
        shown[..start] + current[start..start + count] + shown[start..]
      else shown
    case DataSetChanged => current
    case Changed(i) =>
      if i < |shown| && i < |current| then shown[i := current[i]] else shown
  }

  function Replay<T>(shown: seq<T>, events: seq<Event>, current: seq<T>): (r: seq<T>)
    decreases |events|
  {
    if events == [] then shown
    else Replay(Redraw(shown, events[0], current), events[1..], current)
  }

  /** A surface in step with the list stays in step after a call, unless the call is a
      silent reset: replace with an empty batch leaves the old rows on screen. */
  lemma SurfaceFollowsCall<T>(s: seq<T>, op: Op<T>)
    requires Allowed(s, op)
    ensures Replay(s, Apply(s, op).events, Apply(s, op).items) == Apply(s, op).items
            <==> !SilentReset(s, op)
  {
  }

  /** A concrete silent reset: replace with a null batch on a one-item list empties the list
      and sends nothing, so the surface keeps showing the removed row. */
  lemma ReplaceEmptyLeavesStaleRow<T>(x: T)
    ensures ReplaceItems([x], None).items == [] && ReplaceItems([x], None).events == []
    ensures Replay([x], ReplaceItems([x], None).events, ReplaceItems([x], None).items) == [x]
  {
  }

  /** replace with the reset announced in every case, including a null or empty batch:
      the list becomes the same as with ReplaceItems, and one DataSetChanged is sent. */
  function ReplaceItemsAnnounced<T>(s: seq<T>, batch: Option<seq<T>>): (o: Outcome<T>)
  {
    Outcome(BatchItems(batch), [DataSetChanged])
  }

  /** The announced replace leaves the same list as the one written, and keeps a surface in
      step with the list whatever the batch. */
  lemma ReplaceAnnouncedKeepsSurface<T>(s: seq<T>, batch: Option<seq<T>>)
    ensures ReplaceItemsAnnounced(s, batch).items == ReplaceItems(s, batch).items
    ensures |ReplaceItemsAnnounced(s, batch).events| == 1
    ensures Replay(s, ReplaceItemsAnnounced(s, batch).events, ReplaceItemsAnnounced(s, batch).items)
            == ReplaceItemsAnnounced(s, batch).items
  {
  }

  // ---------------------------------------------------------------------------------------
  // Runs of several calls on one adapter.

  /** Every call of the run meets what it demands of its caller at the moment it is made. */
  predicate Runnable<T>(s: seq<T>, ops: seq<Op<T>>)
    decreases |ops|
  {
    ops == [] || (Allowed(s, ops[0]) && Runnable(Apply(s, ops[0]).items, ops[1..]))
  }

  /** The final list and all notifications of a run. */
  function Run<T>(s: seq<T>, ops: seq<Op<T>>): (o: Outcome<T>)
    requires Runnable(s, ops)
    decreases |ops|
  {
    if ops == [] then Outcome(s, [])
    else
      var o := Apply(s, ops[0]);
      var rest := Run(o.items, ops[1..]);
      Outcome(rest.items, o.events + rest.events)
  }

  /** What the surface displays after a run, each call's notifications taken against the
      list as that call left it. */
  function Shown<T>(shown: seq<T>, s: seq<T>, ops: seq<Op<T>>): (r: seq<T>)
    requires Runnable(s, ops)
    decreases |ops|
  {
    if ops == [] then shown
    else
      var o := Apply(s, ops[0]);
      Shown(Replay(shown, o.events, o.items), o.items, ops[1..])
  }

  predicate NoSilentReset<T>(s: seq<T>, ops: seq<Op<T>>)
    requires Runnable(s, ops)
    decreases |ops|
  {
    ops == [] || (!SilentReset(s, ops[0]) && NoSilentReset(Apply(s, ops[0]).items, ops[1..]))
  }

  /** A reference list, read from the last call backwards: the last clear or replace
      decides the start, and every later call appends or overwrites. */
  function Expected<T>(s: seq<T>, ops: seq<Op<T>>): (r: seq<T>)
    decreases |ops|
  {
    if ops == [] then s
    else
      var before := Expected(s, ops[..|ops| - 1]);
      match ops[|ops| - 1]
      case Add(x) => before + [x]
      case AddBatch(b) => before + BatchItems(b)
      case Clear => []
      case Replace(b) => BatchItems(b)
      case Update(t, p) => if 0 <= p < |before| then before[p := t] else before
  }

  /** A call that only appends: add or a batch add. */
  predicate Appends<T>(op: Op<T>)
  {
    op.Add? || op.AddBatch?
  }

  /** The items one call appends: the item of an add, the records of a batch add. */
  function AddedBy<T>(op: Op<T>): (r: seq<T>)
  {
    match op
    case Add(x) => [x]
    case AddBatch(b) => BatchItems(b)
    case _ => []
  }

  /** The items a run's appending calls add, in call order. */
  function AppendedBy<T>(ops: seq<Op<T>>): (r: seq<T>)
    decreases |ops|
  {
    if ops == [] then [] else AddedBy(ops[0]) + AppendedBy(ops[1..])
  }

  /** A run of appending calls can always be made, keeps the starting list as a prefix and
      puts everything appended after it in call order, and sends only insertion
      notifications. */
  lemma {:induction false} AppendOnlyRun<T>(s: seq<T>, ops: seq<Op<T>>)
    requires forall i :: 0 <= i < |ops| ==> Appends(ops[i])
    ensures Runnable(s, ops)
    ensures Run(s, ops).items == s + AppendedBy(ops)
    ensures forall e :: e in Run(s, ops).events ==> e.Inserted? || e.RangeInserted?
    decreases |ops|
  {
    if ops != [] {
      var op, rest := ops[0], ops[1..];
      assert Appends(op);
      var o := Apply(s, op);
      assert o.items == s + AddedBy(op);
      assert forall e :: e in o.events ==> e.Inserted? || e.RangeInserted?;
      assert forall i :: 0 <= i < |rest| ==> Appends(rest[i]) by {
        forall i | 0 <= i < |rest| ensures Appends(rest[i]) {
          assert rest[i] == ops[i + 1];
        }
      }
      AppendOnlyRun(o.items, rest);
      assert s + AddedBy(op) + AppendedBy(rest) == s + AppendedBy(ops);
    }
  }

  /** A run never sends more notifications than it makes calls. */
  lemma {:induction false} RunNotifiesAtMostOncePerCall<T>(s: seq<T>, ops: seq<Op<T>>)
    requires Runnable(s, ops)
    ensures |Run(s, ops).events| <= |ops|
    decreases |ops|
  {
    if ops != [] {
      OneEventPerCall(s, ops[0]);
      RunNotifiesAtMostOncePerCall(Apply(s, ops[0]).items, ops[1..]);
    }
  }

  /** Without silent resets, a surface that starts in step with the list ends in step. */
  lemma {:induction false} SurfaceFollowsRun<T>(s: seq<T>, ops: seq<Op<T>>)
    requires Runnable(s, ops) && NoSilentReset(s, ops)
    ensures Shown(s, s, ops) == Run(s, ops).items
    decreases |ops|
  {
    if ops != [] {
      SurfaceFollowsCall(s, ops[0]);
      SurfaceFollowsRun(Apply(s, ops[0]).items, ops[1..]);
    }
  }

  /** Running one more call is applying it to the list the run left. */
  lemma {:induction false} RunSnoc<T>(s: seq<T>, ops: seq<Op<T>>, op: Op<T>)
    requires Runnable(s, ops + [op])
    ensures Runnable(s, ops) && Allowed(Run(s, ops).items, op)
    ensures Run(s, ops + [op]).items == Apply(Run(s, ops).items, op).items
    decreases |ops|
  {
    if ops == [] {
      assert ops + [op] == [op];
    } else {
      assert (ops + [op])[0] == ops[0];
      assert (ops + [op])[1..] == ops[1..] + [op];
      RunSnoc(Apply(s, ops[0]).items, ops[1..], op);
    }
  }

  /** The list a run leaves is the reference list: length and order follow the calls. */
  lemma {:induction false} RunMatchesExpected<T>(s: seq<T>, ops: seq<Op<T>>)
    requires Runnable(s, ops)
    ensures Run(s, ops).items == Expected(s, ops)
    decreases |ops|
  {
    if ops != [] {
      var init, last := ops[..|ops| - 1], ops[|ops| - 1];
      assert ops == init + [last];
      RunSnoc(s, init, last);
      RunMatchesExpected(s, init);
      var before := Run(s, init).items;
      match last
      case Add(x) =>
      case AddBatch(b) =>
        assert BatchItems(b) == [] ==> before + BatchItems(b) == before;
      case Clear =>
      case Replace(b) =>
      case Update(t, p) =>
        if p >= 0 {
          UpdateReplacesOneItem(before, t, p);
        }
    }
  }
}
