/** Streams on the main thread: each hands the changes it is given to its observer, and the change queue
    gives each stream those that were published for it. */
module DataStreams {
  import opened Changes
  import opened Replication

  class DataStream {
    const filter: Filter
    var streamId: int
    var isInitialized: bool
    var observer: VectorDataStreamObserver?

    constructor (filter: Filter)
      ensures this.filter == filter && streamId == 0 && !isInitialized && observer == null
    {
      this.filter, streamId, isInitialized, observer := filter, 0, false, null;
    }

    /** A stream is connected once. */
    method Connect(streamId: int, observer: VectorDataStreamObserver?)
      requires this.streamId == 0 && this.observer == null
      modifies this
      ensures this.streamId == streamId && this.observer == observer && isInitialized == old(isInitialized)
    {
      this.streamId, this.observer := streamId, observer;
    }

    predicate IsValid()
      reads this
    {
      observer != null
    }

    method Disconnect()
      modifies this
      ensures !IsValid() && streamId == old(streamId) && isInitialized == old(isInitialized)
    {
      observer := null;
    }

    method ApplyChange(change: Change)
      modifies this`isInitialized, observer
      ensures observer != null ==> observer.items == Apply(old(observer.items), change)
      ensures isInitialized == (old(isInitialized) || (observer != null && change.Initialized?))
    {
      if observer != null {
        match change
        case Added(items) => observer.AddItems(items);
        case Updated(items) => observer.UpdateItems(items);
        case Removed(ids) => observer.RemoveItems(ids);
        case Initialized => isInitialized := true;
        case Cleared => observer.Clear();
      }
    }
  }

  /** The streams that still have an observer, in order. */
  function Listening(streams: seq<DataStream>): seq<DataStream>
    reads streams
  {
    if |streams| == 0 then []
    else Listening(streams[..|streams| - 1]) + if streams[|streams| - 1].IsValid() then [streams[|streams| - 1]] else []
  }

  /** Different streams have different identifiers; an observer may listen to several. */
  ghost predicate UniqueIds(streams: seq<DataStream>)
    reads streams
  {
    forall s, t :: s in streams && t in streams && s != t ==> s.streamId != t.streamId
  }

  /** The streams that an observer listens to. */
  ghost function IdsOf(streams: seq<DataStream>, observer: VectorDataStreamObserver?): set<int>
    reads streams
  {
    set s | s in streams && s.observer == observer :: s.streamId
  }

  /** The changes for any of these streams, in order. */
  function ForAny(ids: set<int>, diffs: seq<Differential>): seq<Change> {
    if |diffs| == 0 then []
    else (if diffs[0].streamId in ids then [diffs[0].change] else []) + ForAny(ids, diffs[1..])
  }

  lemma {:induction false} ForAnyOfOne(id: int, diffs: seq<Differential>)
    ensures ForAny({id}, diffs) == For(id, diffs)
  {
    if |diffs| > 0 {
      ForAnyOfOne(id, diffs[1..]);
    }
  }

  lemma {:induction false} ForAnySnoc(ids: set<int>, diffs: seq<Differential>, d: Differential)
    ensures ForAny(ids, diffs + [d]) == ForAny(ids, diffs) + if d.streamId in ids then [d.change] else []
  {
    if |diffs| == 0 {
      assert diffs + [d] == [d] && [d][1..] == [];
      assert ForAny(ids, [d][1..]) == [];
    } else {
      assert (diffs + [d])[0] == diffs[0] && (diffs + [d])[1..] == diffs[1..] + [d];
      ForAnySnoc(ids, diffs[1..], d);
      var first := if diffs[0].streamId in ids then [diffs[0].change] else [];
      var more := if d.streamId in ids then [d.change] else [];
      assert first + (ForAny(ids, diffs[1..]) + more) == (first + ForAny(ids, diffs[1..])) + more;
    }
  }

  lemma {:induction false} ListeningIs(streams: seq<DataStream>)
    ensures forall s :: s in streams && s.IsValid() ==> s in Listening(streams)
    ensures forall i :: 0 <= i < |Listening(streams)| ==>
            Listening(streams)[i] in streams && Listening(streams)[i].IsValid()
  {
    if |streams| > 0 {
      var last := |streams| - 1;
      ListeningIs(streams[..last]);
      assert forall s :: s in streams <==> s in streams[..last] || s == streams[last];
    }
  }

  lemma {:induction false} ReplayPrefix(view: Items, ids: set<int>, diffs: seq<Differential>, n: nat)
    requires n < |diffs|
    ensures ForAny(ids, diffs[..n + 1])
            == ForAny(ids, diffs[..n]) + if diffs[n].streamId in ids then [diffs[n].change] else []
    ensures Replay(view, ForAny(ids, diffs[..n + 1])) ==
            var before := Replay(view, ForAny(ids, diffs[..n]));
            if diffs[n].streamId in ids then Apply(before, diffs[n].change) else before
  {
    var before := ForAny(ids, diffs[..n]);
    assert diffs[..n + 1] == diffs[..n] + [diffs[n]];
    ForAnySnoc(ids, diffs[..n], diffs[n]);
    if diffs[n].streamId in ids {
      ReplayConcat(view, before, [diffs[n].change]);
      ReplayOne(Replay(view, before), diffs[n].change);
    } else {
      assert before + [] == before;
    }
  }

  class ChangeQueue {
    var dataStreams: seq<DataStream>
    var changes: seq<Differential>

    constructor ()
      ensures dataStreams == [] && changes == []
    {
      dataStreams, changes := [], [];
    }

    method AddStream(stream: DataStream)
      modifies this`dataStreams
      ensures dataStreams == old(dataStreams) + [stream]
    {
      dataStreams := dataStreams + [stream];
    }

    method HasUninitializedStreams() returns (any: bool)
      ensures any <==> exists s :: s in dataStreams && !s.isInitialized
    {
      for i := 0 to |dataStreams|
        invariant forall k :: 0 <= k < i ==> dataStreams[k].isInitialized
      {
        if !dataStreams[i].isInitialized {
          return true;
        }
      }
      return false;
    }

    method AddChanges(list: seq<Differential>)
      modifies this`changes
      ensures changes == old(changes) + list
    {
      if |list| > 0 {
        changes := changes + list;
      }
    }

    method AddStreamChange(streamId: int, change: Change)
      modifies this`changes
      ensures changes == old(changes) + [Differential(streamId, change)]
    {
      changes := changes + [Differential(streamId, change)];
    }

    method DropInvalidStreams()
      modifies this`dataStreams
      ensures dataStreams == old(Listening(dataStreams))
    {
      var kept := [];
      assert dataStreams[..0] == [];
      for i := 0 to |dataStreams|
        invariant dataStreams == old(dataStreams)
        invariant kept == Listening(dataStreams[..i])
      {
        assert dataStreams[..i + 1][..i] == dataStreams[..i];
        if dataStreams[i].IsValid() {
          kept := kept + [dataStreams[i]];
        }
      }
      assert dataStreams[..|dataStreams|] == dataStreams;
      dataStreams := kept;
    }

    method FindStream(streamId: int) returns (k: nat)
      ensures k <= |dataStreams| && (k < |dataStreams| ==> dataStreams[k].streamId == streamId)
      ensures forall i :: 0 <= i < k ==> dataStreams[i].streamId != streamId
    {
      k := 0;
      while k < |dataStreams| && dataStreams[k].streamId != streamId
        invariant k <= |dataStreams|
        invariant forall i :: 0 <= i < k ==> dataStreams[i].streamId != streamId
      {
        k := k + 1;
      }
    }

    method ApplyOne(d: Differential)
      requires UniqueIds(dataStreams) && forall s :: s in dataStreams ==> s.IsValid()
      modifies dataStreams, set s | s in dataStreams && s.observer != null :: s.observer
      ensures forall s :: s in dataStreams ==> s.streamId == old(s.streamId) && s.observer == old(s.observer)
      ensures forall s :: s in dataStreams ==>
        s.observer != null && s.observer.items ==
          if d.streamId in old(IdsOf(dataStreams, s.observer)) then Apply(old(s.observer.items), d.change)
          else old(s.observer.items)
      ensures forall s :: s in dataStreams ==>
        s.isInitialized == (old(s.isInitialized) || (s.streamId == d.streamId && d.change.Initialized?))
    {
      var k := FindStream(d.streamId);
      if k < |dataStreams| {
        assert dataStreams[k] in dataStreams && dataStreams[k].IsValid();
        dataStreams[k].ApplyChange(d.change);
      }
    }

    /** Every listening observer replays the changes queued for its streams, each once and in order. */
    method ApplyStreamChanges()
      requires UniqueIds(dataStreams)
      modifies this, dataStreams, set s | s in dataStreams && s.observer != null :: s.observer
      ensures changes == [] && dataStreams == old(Listening(dataStreams))
      ensures forall s :: s in old(dataStreams) ==> s.streamId == old(s.streamId) && s.observer == old(s.observer)
      ensures forall s :: s in old(dataStreams) && old(s.IsValid()) ==>
        s.observer != null && s.observer.items ==
          Replay(old(s.observer.items), ForAny(old(IdsOf(dataStreams, s.observer)), old(changes)))
      ensures forall s :: s in old(dataStreams) && old(s.IsValid()) ==>
        (s.isInitialized <==> old(s.isInitialized) || Initialized in For(s.streamId, old(changes)))
    {
      ghost var all, listening := dataStreams, Listening(dataStreams);
      ListeningIs(all);
      assert forall i :: 0 <= i < |listening| ==> listening[i] in all && listening[i].observer != null;
      DropInvalidStreams();
      assert dataStreams == listening;
      assert forall s :: s in dataStreams ==> s in all && s.observer != null;
      assert forall s :: s in all && s.observer != null ==> IdsOf(dataStreams, s.observer) == IdsOf(all, s.observer);
      ApplyEach(changes);
      changes := [];
    }

    method ApplyEach(taken: seq<Differential>)
      requires UniqueIds(dataStreams) && forall s :: s in dataStreams ==> s.IsValid()
      modifies dataStreams, set s | s in dataStreams && s.observer != null :: s.observer
      ensures forall s :: s in dataStreams ==> s.streamId == old(s.streamId) && s.observer == old(s.observer)
      ensures forall s :: s in dataStreams ==>
        s.observer != null &&
        s.observer.items == Replay(old(s.observer.items), ForAny(old(IdsOf(dataStreams, s.observer)), taken))
      ensures forall s :: s in dataStreams ==>
        (s.isInitialized <==> old(s.isInitialized) || Initialized in For(s.streamId, taken))
    {
      for n := 0 to |taken|
        invariant forall s :: s in dataStreams ==> s.streamId == old(s.streamId) && s.observer == old(s.observer)
        invariant forall s :: s in dataStreams ==>
          s.observer.items == Replay(old(s.observer.items), ForAny(old(IdsOf(dataStreams, s.observer)), taken[..n]))
        invariant forall s :: s in dataStreams ==>
          (s.isInitialized <==> old(s.isInitialized) || Initialized in ForAny({s.streamId}, taken[..n]))
      {
        assert forall s :: s in dataStreams ==> IdsOf(dataStreams, s.observer) == old(IdsOf(dataStreams, s.observer));
        ApplyOne(taken[n]);
        forall s | s in dataStreams
          ensures Replay(old(s.observer.items), ForAny(old(IdsOf(dataStreams, s.observer)), taken[..n + 1]))
                  == s.observer.items
          ensures Initialized in ForAny({s.streamId}, taken[..n + 1]) <==>
                  Initialized in ForAny({s.streamId}, taken[..n])
                  || (s.streamId == taken[n].streamId && taken[n].change.Initialized?)
        {
          ReplayPrefix(old(s.observer.items), old(IdsOf(dataStreams, s.observer)), taken, n);
          ReplayPrefix([], {s.streamId}, taken, n);
        }
      }
      assert taken[..|taken|] == taken;
      forall s | s in dataStreams ensures ForAny({s.streamId}, taken) == For(s.streamId, taken) {
        ForAnyOfOne(s.streamId, taken);
      }
    }
  }

  /** An observer of one stream replays that stream's changes. */
  lemma {:induction false} OnlyStreamOf(streams: seq<DataStream>, s: DataStream, diffs: seq<Differential>)
    requires s in streams && forall t :: t in streams && t.observer == s.observer ==> t == s
    ensures ForAny(IdsOf(streams, s.observer), diffs) == For(s.streamId, diffs)
  {
    assert IdsOf(streams, s.observer) == {s.streamId};
    ForAnyOfOne(s.streamId, diffs);
  }
}
