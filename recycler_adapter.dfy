/**
 * The generic list adapter and its view holder as objects: the adapter owns the item list
 * and the listener and changes them in place; each mutation is logged as the change
 * notification it sends. The holder keeps the record it was last bound to and a back
 * reference to the adapter that created it.
 *
 * The holder's adapter position comes from the platform, so it is a parameter wherever
 * the Java code asks for it.
 */
module Recycler {
  import opened Wrappers
  import opened ItemStore

  /** Identity of a registered AdapterListener; what its callbacks do is not modelled. */
  datatype Listener = Listener(id: nat)

  /** A callback the adapter made on its listener. */
  datatype Delivery<T> =
    | ItemClick(listener: Listener, holder: ViewHolder<T>, data: T)
    | ItemLongClick(listener: Listener, holder: ViewHolder<T>, data: T)

  class ViewHolder<T> {
    var data: Option<T>                // mData, unset until the holder is first bound
    var callback: RecyclerAdapter?<T>  // the adapter that created the holder, if any

    constructor ()
      ensures data == None && callback == null
    {
      data := None;
      callback := null;
    }

    /** bind: remember the record; rendering it (onBind) is the subclass's business. */
    method Bind(d: T)
      modifies this`data
      ensures data == Some(d)
    {
      data := Some(d);
    }

    /** updateData: ask the owning adapter, if there is one, to put d in this holder's place. */
    method UpdateData(d: T, position: int)
      requires callback != null ==> position < |callback.items|
      modifies callback
      ensures callback != null ==>
        callback.items == UpdateItem(old(callback.items), d, position).items &&
        callback.notified == old(callback.notified) + UpdateItem(old(callback.items), d, position).events &&
        callback.listener == old(callback.listener) &&
        callback.delivered == old(callback.delivered)
    {
      if callback != null {
        callback.Update(d, position);
      }
    }
  }

  class RecyclerAdapter<T> {
    var items: seq<T>                      // mDataList
    var listener: Option<Listener>         // mListener
    ghost var notified: seq<Event>         // every notify* call so far, oldest first
    ghost var delivered: seq<Delivery<T>>  // every listener callback so far, oldest first

    constructor ()
      ensures items == [] && listener == None
      ensures notified == [] && delivered == []
    {
      items, listener := [], None;
      notified, delivered := [], [];
    }

    constructor WithListener(listener: Option<Listener>)
      ensures items == [] && this.listener == listener
      ensures notified == [] && delivered == []
    {
      items, this.listener := [], listener;
      notified, delivered := [], [];
    }

    constructor WithData(data: seq<T>, listener: Option<Listener>)
      ensures items == data && this.listener == listener
      ensures notified == [] && delivered == []
    {
      items, this.listener := data, listener;
      notified, delivered := [], [];
    }

    /** getItemCount: the number of records the surface may ask for. */
    function ItemCount(): (n: nat)
      reads this
      ensures n == |items|
    {
      |items|
    }

    /** getItemViewType(int): the view type the subclass assigns to the record at position. */
    function ItemViewType(position: int, viewTypeOf: (int, T) -> int): (r: int)
      reads this
      requires 0 <= position < ItemCount()
      ensures r == viewTypeOf(position, items[position])
    {
      viewTypeOf(position, items[position])
    }

    /** onCreateViewHolder: a new holder wired back to this adapter, not yet bound. */
    method CreateViewHolder() returns (holder: ViewHolder<T>)
      ensures fresh(holder)
      ensures holder.callback == this && holder.data == None
    {
      holder := new ViewHolder();
      holder.callback := this;
    }

    /** onBindViewHolder: bind the record at position into the holder; the list is untouched. */
    method OnBindViewHolder(holder: ViewHolder<T>, position: int)
      requires 0 <= position < |items|
      modifies holder`data
      ensures holder.data == Some(items[position])
    {
      holder.Bind(items[position]);
    }

    method Add(x: T)
      modifies this
      ensures items == AddItem(old(items), x).items
      ensures notified == old(notified) + AddItem(old(items), x).events
      ensures listener == old(listener) && delivered == old(delivered)
    {
      items := items + [x];
      notified := notified + [Inserted(|items| - 1)];
    }

    /** add(T...): the varargs overload; a null array stands for a null batch. */
    method AddArray(batch: array?<T>)
      modifies this
      ensures items == AddItems(old(items), if batch == null then None else Some(batch[..])).items
      ensures notified == old(notified) + AddItems(old(items), if batch == null then None else Some(batch[..])).events
      ensures listener == old(listener) && delivered == old(delivered)
    {
      if batch != null && batch.Length > 0 {
        var start := |items|;
        items := items + batch[..];
        notified := notified + [RangeInserted(start, batch.Length)];
      }
    }

    /** add(Collection): the collection overload. */
    method AddAll(batch: Option<seq<T>>)
      modifies this
      ensures items == AddItems(old(items), batch).items
      ensures notified == old(notified) + AddItems(old(items), batch).events
      ensures listener == old(listener) && delivered == old(delivered)
    {
      if batch.Some? && |batch.value| > 0 {
        var start := |items|;
        items := items + batch.value;
        notified := notified + [RangeInserted(start, |batch.value|)];
      }
    }

    method Clear()
      modifies this
      ensures items == ClearItems(old(items)).items
      ensures notified == old(notified) + ClearItems(old(items)).events
      ensures listener == old(listener) && delivered == old(delivered)
    {
      items := [];
      notified := notified + [DataSetChanged];
    }

    method Replace(batch: Option<seq<T>>)
      modifies this
      ensures items == ReplaceItems(old(items), batch).items
      ensures notified == old(notified) + ReplaceItems(old(items), batch).events
      ensures listener == old(listener) && delivered == old(delivered)
      ensures BatchItems(batch) == [] ==> items == [] && notified == old(notified)
    {
      items := [];
      if batch.None? || |batch.value| == 0 {
        return;
      }
      items := items + batch.value;
      notified := notified + [DataSetChanged];
    }

    /** update(t, holder), with the holder's adapter position passed in. */
    method Update(t: T, position: int)
      requires position < |items|
      modifies this
      ensures items == UpdateItem(old(items), t, position).items
      ensures notified == old(notified) + UpdateItem(old(items), t, position).events
      ensures listener == old(listener) && delivered == old(delivered)
      ensures position >= 0 ==>
        items == old(items)[position := t] && notified == old(notified) + [Changed(position)]
      ensures position < 0 ==> items == old(items) && notified == old(notified)
    {
      if position >= 0 {
        UpdateReplacesOneItem(items, t, position);
        items := RemoveAt(items, position);
        items := InsertAt(items, position, t);
        notified := notified + [Changed(position)];
      }
    }

    /** onClick on the holder's root view: the listener, if set, gets the holder's record.
        The record is looked up only when a listener is set, so only then must the
        position be valid. */
    method OnClick(holder: ViewHolder<T>, position: int)
      requires listener.Some? ==> 0 <= position < |items|
      modifies this`delivered
      ensures delivered == old(delivered) +
        (if listener.Some? then [ItemClick(listener.value, holder, items[position])] else [])
    {
      if listener.Some? {
        delivered := delivered + [ItemClick(listener.value, holder, items[position])];
      }
    }

    /** onLongClick: handled exactly when a listener is set, which then gets the record. */
    method OnLongClick(holder: ViewHolder<T>, position: int) returns (handled: bool)
      requires listener.Some? ==> 0 <= position < |items|
      modifies this`delivered
      ensures handled <==> listener.Some?
      ensures delivered == old(delivered) +
        (if listener.Some? then [ItemLongClick(listener.value, holder, items[position])] else [])
    {
      if listener.Some? {
        delivered := delivered + [ItemLongClick(listener.value, holder, items[position])];
        return true;
      }
      return false;
    }

    method SetListener(l: Option<Listener>)
      modifies this`listener
      ensures listener == l
    {
      listener := l;
    }
  }

  /** One mutating call on an adapter, chosen by op: the class then does exactly what the
      ItemStore function for that call describes, so the run lemmas there hold of the
      adapter's list and notification log. */
  method Perform<T>(a: RecyclerAdapter<T>, op: Op<T>)
    requires Allowed(a.items, op)
    modifies a
    ensures a.items == Apply(old(a.items), op).items
    ensures a.notified == old(a.notified) + Apply(old(a.items), op).events
    ensures a.listener == old(a.listener) && a.delivered == old(a.delivered)
  {
    match op
    case Add(x) => a.Add(x);
    case AddBatch(b) => a.AddAll(b);
    case Clear => a.Clear();
    case Replace(b) => a.Replace(b);
    case Update(t, p) => a.Update(t, p);
  }

  /** A whole run of mutating calls on one adapter, one call after the other: the list and
      notification log end as ItemStore.Run says, so every lemma about runs (the surface
      staying in step, at most one notification per call, the reference list) holds of the
      adapter itself. */
  method PerformAll<T>(a: RecyclerAdapter<T>, ops: seq<Op<T>>)
    requires Runnable(a.items, ops)
    modifies a
    ensures a.items == Run(old(a.items), ops).items
    ensures a.notified == old(a.notified) + Run(old(a.items), ops).events
    ensures a.listener == old(a.listener) && a.delivered == old(a.delivered)
  {
    var i := 0;
    while i < |ops|
      invariant 0 <= i <= |ops|
      invariant Runnable(a.items, ops[i..])
      invariant Run(old(a.items), ops).items == Run(a.items, ops[i..]).items
      invariant old(a.notified) + Run(old(a.items), ops).events == a.notified + Run(a.items, ops[i..]).events
      invariant a.listener == old(a.listener) && a.delivered == old(a.delivered)
    {
      assert ops[i..][0] == ops[i];
      assert ops[i..][1..] == ops[i + 1..];
      Perform(a, ops[i]);
      i := i + 1;
    }
  }

  /** Two walk-throughs: a batch append sends one range notification, and a holder whose
      record was cleared away (its position is then -1) updates nothing. */
  method Scenarios<T>(a: T, b: T, c: T, d: T, e: T, b2: T)
  {
    var adapter := new RecyclerAdapter<T>();
    adapter.Add(a);
    adapter.Add(b);
    adapter.Add(c);
    assert adapter.items == [a, b, c];
    adapter.AddAll(Some([d, e]));
    assert adapter.items == [a, b, c, d, e];
    assert adapter.notified == [Inserted(0), Inserted(1), Inserted(2), RangeInserted(3, 2)];

    var holder := adapter.CreateViewHolder();
    adapter.OnBindViewHolder(holder, 1);
    assert holder.data == Some(b);
    adapter.Clear();
    holder.UpdateData(b2, -1);
    assert adapter.items == [];
    assert adapter.notified[|adapter.notified| - 1] == DataSetChanged;

    var handled := adapter.OnLongClick(holder, -1);
    assert !handled && adapter.delivered == [];
    adapter.SetListener(Some(Listener(7)));
    adapter.Replace(Some([a]));
    handled := adapter.OnLongClick(holder, 0);
    assert handled && adapter.delivered == [ItemLongClick(Listener(7), holder, a)];
  }
}
