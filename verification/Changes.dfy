/** Differentials of a data stream: how handlers make them and how an observer replays them onto its list. */
module Changes {
  import opened Common
  import opened Reservations

  type Items = seq<ReservationData>

  datatype Change = Added(items: Items) | Updated(items: Items) | Removed(ids: seq<int>) | Initialized | Cleared

  // ---------------------------------------------------------------- replaying

  /** Overwrites the first item with the same identifier, if there is one. */
  function Overwrite(view: Items, item: ReservationData): Items {
    if |view| == 0 then []
    else if view[0].header.id == item.header.id then [item] + view[1..]
    else [view[0]] + Overwrite(view[1..], item)
  }

  function OverwriteAll(view: Items, items: Items): Items
    decreases |items|
  {
    if |items| == 0 then view else OverwriteAll(Overwrite(view, items[0]), items[1..])
  }

  function Erase(view: Items, ids: seq<int>): Items {
    if |view| == 0 then []
    else (if view[0].header.id in ids then [] else [view[0]]) + Erase(view[1..], ids)
  }

  function Apply(view: Items, change: Change): Items {
    match change
    case Added(items) => view + items
    case Updated(items) => OverwriteAll(view, items)
    case Removed(ids) => Erase(view, ids)
    case Initialized => view
    case Cleared => []
  }

  function Replay(view: Items, changes: seq<Change>): Items
    decreases |changes|
  {
    if |changes| == 0 then view else Replay(Apply(view, changes[0]), changes[1..])
  }

  lemma {:induction false} ReplayConcat(view: Items, a: seq<Change>, b: seq<Change>)
    ensures Replay(view, a + b) == Replay(Replay(view, a), b)
    decreases |a|
  {
    if |a| == 0 {
      assert a + b == b;
    } else {
      assert (a + b)[1..] == a[1..] + b;
      ReplayConcat(Apply(view, a[0]), a[1..], b);
    }
  }

  class VectorDataStreamObserver {
    var items: Items

    constructor ()
      ensures items == []
    {
      items := [];
    }

    method AddItems(added: Items)
      modifies this
      ensures items == Apply(old(items), Added(added))
    {
      items := items + added;
    }

    method UpdateItems(updated: Items)
      modifies this
      ensures items == Apply(old(items), Updated(updated))
    {
      for i := 0 to |updated|
        invariant OverwriteAll(items, updated[i..]) == OverwriteAll(old(items), updated)
      {
        var k := FindItem(items, updated[i].header.id);
        OverwriteAt(items, updated[i], k);
        assert updated[i..][1..] == updated[i + 1..];
        if k < |items| {
          items := items[k := updated[i]];
        }
      }
    }

    method RemoveItems(ids: seq<int>)
      modifies this
      ensures items == Apply(old(items), Removed(ids))
    {
      var kept: Items := [];
      for i := 0 to |items|
        invariant items == old(items)
        invariant kept + Erase(items[i..], ids) == Erase(items, ids)
      {
        assert items[i..][0] == items[i] && items[i..][1..] == items[i + 1..];
        Associative(kept, [items[i]], Erase(items[i + 1..], ids));
        assert [] + Erase(items[i + 1..], ids) == Erase(items[i + 1..], ids);
        if items[i].header.id !in ids {
          kept := kept + [items[i]];
        }
      }
      items := kept;
    }

    method Clear()
      modifies this
      ensures items == Apply(old(items), Cleared)
    {
      items := [];
    }
  }

  method FindItem(items: Items, id: int) returns (k: nat)
    ensures k <= |items| && (k < |items| ==> items[k].header.id == id)
    ensures forall i :: 0 <= i < k ==> items[i].header.id != id
  {
    k := 0;
    while k < |items| && items[k].header.id != id
      invariant k <= |items|
      invariant forall i :: 0 <= i < k ==> items[i].header.id != id
    {
      k := k + 1;
    }
  }

  lemma {:induction false} OverwriteAt(view: Items, item: ReservationData, k: nat)
    requires k <= |view| && (k < |view| ==> view[k].header.id == item.header.id)
    requires forall i :: 0 <= i < k ==> view[i].header.id != item.header.id
    ensures Overwrite(view, item) == if k < |view| then view[k := item] else view
  {
    if k > 0 {
      OverwriteAt(view[1..], item, k - 1);
    }
  }

  // ---------------------------------------------------------------- what a handler publishes

  /** None: the handler for all reservations. Some: the one for a single identifier. */
  type Filter = Option<int>

  function Select(filter: Filter, items: Items): Items {
    if filter.None? || |items| == 0 then items
    else (if items[0].header.id == filter.value then [items[0]] else []) + Select(filter, items[1..])
  }

  /** The differentials for one stream; a filtered list that is empty is not sent. */
  function Publish(filter: Filter, change: Change): seq<Change> {
    if filter.None? then [change]
    else
      match change
      case Added(items) => var some := Select(filter, items); if |some| == 0 then [] else [Added(some)]
      case Updated(items) => var some := Select(filter, items); if |some| == 0 then [] else [Updated(some)]
      case Removed(ids) => if filter.value in ids then [Removed([filter.value])] else []
      case Initialized => [Initialized]
      case Cleared => [Cleared]
  }

  lemma {:induction false} SelectedHaveId(id: int, items: Items)
    ensures forall x :: x in Select(Some(id), items) <==> x in items && x.header.id == id
  {
    if |items| > 0 {
      SelectedHaveId(id, items[1..]);
    }
  }

  /** The change mentions nothing but this identifier, and something. */
  predicate Concerns(change: Change, id: int) {
    match change
    case Added(items) => |items| > 0 && forall x :: x in items ==> x.header.id == id
    case Updated(items) => |items| > 0 && forall x :: x in items ==> x.header.id == id
    case Removed(ids) => ids == [id]
    case _ => true
  }

  /** Whether a change mentions the identifier at all. */
  predicate Mentions(change: Change, id: int) {
    match change
    case Added(items) => exists x :: x in items && x.header.id == id
    case Updated(items) => exists x :: x in items && x.header.id == id
    case Removed(ids) => id in ids
    case _ => true
  }

  /** A stream for one identifier is told of a change exactly if the change mentions the identifier, once, and
      of nothing else. */
  lemma ToldIffMentioned(id: int, change: Change)
    ensures var told := Publish(Some(id), change);
            if Mentions(change, id) then |told| == 1 && Concerns(told[0], id) else told == []
  {
    match change
    case Added(items) => SelectedHaveId(id, items); NoneSelected(id, items);
    case Updated(items) => SelectedHaveId(id, items); NoneSelected(id, items);
    case _ =>
  }

  lemma {:induction false} NoneSelected(id: int, items: Items)
    ensures Select(Some(id), items) == [] <==> !(exists x :: x in items && x.header.id == id)
  {
    var some := Select(Some(id), items);
    SelectedHaveId(id, items);
    assert |some| > 0 ==> some[0] in some;
  }

  lemma {:induction false} SelectConcat(filter: Filter, a: Items, b: Items)
    ensures Select(filter, a + b) == Select(filter, a) + Select(filter, b)
    decreases |a|
  {
    if |a| == 0 {
      assert a + b == b;
    } else {
      assert (a + b)[1..] == a[1..] + b;
      SelectConcat(filter, a[1..], b);
    }
  }

  lemma {:induction false} SelectOverwrite(filter: Filter, view: Items, item: ReservationData)
    ensures Select(filter, Overwrite(view, item)) ==
            if filter.None? || filter.value == item.header.id then Overwrite(Select(filter, view), item)
            else Select(filter, view)
  {
    if filter.Some? && |view| > 0 {
      var rest := view[1..];
      SelectOverwrite(filter, rest, item);
      assert ([item] + rest)[1..] == rest && ([view[0]] + Overwrite(rest, item))[1..] == Overwrite(rest, item);
      assert ([view[0]] + Select(filter, rest))[1..] == Select(filter, rest)
             && [] + Select(filter, rest) == Select(filter, rest);
    }
  }

  lemma {:induction false} SelectOverwriteAll(filter: Filter, view: Items, items: Items)
    ensures Select(filter, OverwriteAll(view, items)) == OverwriteAll(Select(filter, view), Select(filter, items))
    decreases |items|
  {
    if filter.Some? && |items| > 0 {
      SelectOverwrite(filter, view, items[0]);
      SelectOverwriteAll(filter, Overwrite(view, items[0]), items[1..]);
      if filter.value == items[0].header.id {
        assert Select(filter, items)[1..] == Select(filter, items[1..]);
      } else {
        assert Select(filter, items) == Select(filter, items[1..]);
      }
    }
  }

  lemma {:induction false} SelectErase(filter: Filter, view: Items, ids: seq<int>)
    requires filter.Some?
    ensures Select(filter, Erase(view, ids)) ==
            if filter.value in ids then Erase(Select(filter, view), [filter.value]) else Select(filter, view)
  {
    if |view| > 0 {
      var rest, left := view[1..], Erase(view[1..], ids);
      SelectErase(filter, rest, ids);
      assert [] + left == left && [] + Select(filter, rest) == Select(filter, rest);
      if view[0].header.id !in ids {
        assert ([view[0]] + left)[0] == view[0] && ([view[0]] + left)[1..] == left;
      }
      if view[0].header.id == filter.value {
        assert Select(filter, view)[0] == view[0] && Select(filter, view)[1..] == Select(filter, rest);
      }
    }
  }

  /** Filtering commutes with every change: a stream for one identifier always shows what the unfiltered
      stream shows under that identifier. */
  lemma {:induction false} FilterCommutes(filter: Filter, view: Items, change: Change)
    ensures Replay(Select(filter, view), Publish(filter, change)) == Select(filter, Apply(view, change))
  {
    if filter.Some? {
      match change
      case Added(items) =>
        SelectConcat(filter, view, items);
        assert Select(filter, view) + [] == Select(filter, view);
      case Updated(items) => SelectOverwriteAll(filter, view, items);
      case Removed(ids) => SelectErase(filter, view, ids);
      case _ =>
    }
  }
}
