/** The worker's side of replication: handlers make differentials, batches run inside a transaction. */
module SqliteBackends {
  import opened Common
  import opened Reservations
  import opened Storage
  import opened SqliteStorages
  import opened Changes
  import opened Replication
  import opened DataStreams
  import opened ViewsAndTables

  // ---------------------------------------------------------------- handlers

  method FilterItems(items: Items, id: int) returns (filtered: Items)
    ensures filtered == Select(Some(id), items)
  {
    filtered := [];
    for i := 0 to |items|
      invariant filtered + Select(Some(id), items[i..]) == Select(Some(id), items)
    {
      assert items[i..][0] == items[i] && items[i..][1..] == items[i + 1..];
      Associative(filtered, [items[i]], Select(Some(id), items[i + 1..]));
      assert [] + Select(Some(id), items[i + 1..]) == Select(Some(id), items[i + 1..]);
      if items[i].header.id == id {
        filtered := filtered + [items[i]];
      }
    }
  }

  /** The default handler passes a change on; the handler for one identifier filters it. */
  method Handle(stream: DataStream, change: Change) returns (diffs: seq<Differential>)
    ensures diffs == Tagged(stream.streamId, Publish(stream.filter, change))
  {
    var told := [change];
    if stream.filter.Some? {
      var id := stream.filter.value;
      match change {
        case Added(items) =>
          var filtered := FilterItems(items, id);
          told := if |filtered| == 0 then [] else [Added(filtered)];
        case Updated(items) =>
          var filtered := FilterItems(items, id);
          told := if |filtered| == 0 then [] else [Updated(filtered)];
        case Removed(ids) => told := if id in ids then [Removed([id])] else [];
        case _ =>
      }
    }
    diffs := Tagged(stream.streamId, told);
  }

  /** What a new stream is sent, closed by the mark that it is complete; loading may throw. */
  method LoadFor(stream: DataStream, storage: SqliteStorage) returns (r: Result<seq<Differential>, Failure>)
    ensures var snapshot := Snapshot(storage.tables, stream.filter);
            r == if snapshot.Ok? then Ok(SnapshotOf(Target(stream.streamId, stream.filter), storage.tables))
                 else Err(snapshot.error)
  {
    var changes: seq<Change> := [];
    if stream.filter.None? {
      var loaded := storage.LoadAllReservations();
      if loaded.Err? {
        return Err(loaded.error);
      }
      changes := [Added(loaded.value)];
    } else {
      var loaded := storage.LoadReservationById(stream.filter.value);
      if loaded.Err? {
        return Err(loaded.error);
      }
      if loaded.value.Some? {
        changes := [Added([loaded.value.value])];
      }
    }
    r := Ok(Tagged(stream.streamId, changes + [Initialized]));
  }

  // ---------------------------------------------------------------- all streams

  /** What matters of a stream here: where its changes go, and which of them. */
  datatype Target = Target(id: int, filter: Filter)

  function Targets(streams: seq<DataStream>): (targets: seq<Target>)
    reads streams`streamId
    ensures |targets| == |streams|
    ensures forall i :: 0 <= i < |streams| ==> targets[i] == Target(streams[i].streamId, streams[i].filter)
  {
    if |streams| == 0 then []
    else
      var last := |streams| - 1;
      Targets(streams[..last]) + [Target(streams[last].streamId, streams[last].filter)]
  }

  function SnapshotOf(target: Target, t: Tables): seq<Differential> {
    Tagged(target.id, if Snapshot(t, target.filter).Ok? then Snapshot(t, target.filter).value else [])
  }

  function SnapshotsOf(targets: seq<Target>, t: Tables): seq<Differential> {
    if |targets| == 0 then []
    else
      var last := |targets| - 1;
      SnapshotsOf(targets[..last], t) + SnapshotOf(targets[last], t)
  }

  /** How many of the streams, from the first on, have a snapshot. */
  function Loadable(targets: seq<Target>, t: Tables): (n: nat)
    ensures n <= |targets| && (n < |targets| ==> Snapshot(t, targets[n].filter).Err?)
    ensures forall k :: 0 <= k < n ==> Snapshot(t, targets[k].filter).Ok?
  {
    if |targets| == 0 || Snapshot(t, targets[0].filter).Err? then 0
    else
      var rest := targets[1..];
      assert forall k :: 1 <= k < |targets| ==> targets[k] == rest[k - 1];
      1 + Loadable(rest, t)
  }

  /** From well-formed tables every stream can be started. */
  lemma {:induction false} WellFormedIsLoadable(targets: seq<Target>, t: Tables)
    requires WellFormed(t)
    ensures Loadable(targets, t) == |targets| && targets[..|targets|] == targets
  {
    var n := Loadable(targets, t);
    if n < |targets| {
      SnapshotShowsTheStore(t, targets[n].filter);
    }
  }

  function PublishTo(targets: seq<Target>, change: Change): seq<Differential> {
    if |targets| == 0 then []
    else
      var last := |targets| - 1;
      PublishTo(targets[..last], change) + Tagged(targets[last].id, Publish(targets[last].filter, change))
  }

  function PublishEach(targets: seq<Target>, changes: seq<Change>): seq<Differential>
    decreases |changes|
  {
    if |changes| == 0 then []
    else
      var last := |changes| - 1;
      PublishEach(targets, changes[..last]) + PublishTo(targets, changes[last])
  }

  lemma {:induction false} SnapshotsUpTo(queued: seq<Differential>, targets: seq<Target>, i: nat, t: Tables)
    requires i < |targets|
    ensures (queued + SnapshotsOf(targets[..i], t)) + SnapshotOf(targets[i], t)
            == queued + SnapshotsOf(targets[..i + 1], t)
  {
    assert targets[..i + 1][..i] == targets[..i];
  }

  lemma {:induction false} PublishUpTo(targets: seq<Target>, i: nat, change: Change)
    requires i < |targets|
    ensures PublishTo(targets[..i + 1], change)
            == PublishTo(targets[..i], change) + Tagged(targets[i].id, Publish(targets[i].filter, change))
  {
    assert targets[..i + 1][..i] == targets[..i];
  }

  ghost predicate DistinctIds(targets: seq<Target>) {
    forall i, j :: 0 <= i < j < |targets| ==> targets[i].id != targets[j].id
  }

  lemma ForLast(targets: seq<Target>, change: Change, id: int)
    requires |targets| > 0
    ensures var last := |targets| - 1;
            For(id, PublishTo(targets, change)) == For(id, PublishTo(targets[..last], change))
            + if targets[last].id == id then Publish(targets[last].filter, change) else []
  {
    var last := |targets| - 1;
    var mine := Publish(targets[last].filter, change);
    ForConcat(id, PublishTo(targets[..last], change), Tagged(targets[last].id, mine));
    ForTagged(id, targets[last].id, mine);
  }

  lemma {:induction false} NotFor(targets: seq<Target>, change: Change, id: int)
    requires forall i :: 0 <= i < |targets| ==> targets[i].id != id
    ensures For(id, PublishTo(targets, change)) == []
  {
    if |targets| > 0 {
      ForLast(targets, change, id);
      NotFor(targets[..|targets| - 1], change, id);
    }
  }

  lemma {:induction false} ForPublishTo(targets: seq<Target>, change: Change, k: nat)
    requires k < |targets| && DistinctIds(targets)
    ensures For(targets[k].id, PublishTo(targets, change)) == Publish(targets[k].filter, change)
  {
    var last, id := |targets| - 1, targets[k].id;
    ForLast(targets, change, id);
    if k == last {
      NotFor(targets[..last], change, id);
    } else {
      ForPublishTo(targets[..last], change, k);
    }
  }

  lemma {:induction false} ForPublishEach(targets: seq<Target>, changes: seq<Change>, k: nat)
    requires k < |targets| && DistinctIds(targets)
    ensures For(targets[k].id, PublishEach(targets, changes)) == PublishEvery(targets[k].filter, changes)
    decreases |changes|
  {
    if |changes| > 0 {
      var last := |changes| - 1;
      ForPublishEach(targets, changes[..last], k);
      ForConcat(targets[k].id, PublishEach(targets, changes[..last]), PublishTo(targets, changes[last]));
      ForPublishTo(targets, changes[last], k);
    }
  }

  /** If an observer's list and what is queued for its stream show the tables, they still do so with the
      changes of a committed batch queued behind. */
  lemma {:induction false} BatchIsShown(targets: seq<Target>, store: Store, ops: seq<Operation>, k: nat,
                                        view: Items, queue: seq<Differential>)
    requires k < |targets| && DistinctIds(targets)
    requires WellFormed(store.tables) && CommitsInStep(store, ops) && AllSuccessful(RunBatch(store, ops).results)
    requires Replay(view, For(targets[k].id, queue)) == Select(targets[k].filter, Loaded(store))
    ensures var run := RunBatch(store, ops);
            && LoadAll(run.store.tables) == Ok(Loaded(run.store))
            && Replay(view, For(targets[k].id, queue + PublishEach(targets, run.changes)))
               == Select(targets[k].filter, Loaded(run.store))
  {
    var run, id := RunBatch(store, ops), targets[k].id;
    CommitIsLoaded(store, ops);
    ForPublishEach(targets, run.changes, k);
    EveryIsShown(targets[k].filter, run.changes, Loaded(store));
    ForConcat(id, queue, PublishEach(targets, run.changes));
    ReplayConcat(view, For(id, queue), For(id, PublishEach(targets, run.changes)));
  }

  function Ids(targets: seq<Target>): seq<int> {
    if |targets| == 0 then [] else Ids(targets[..|targets| - 1]) + [targets[|targets| - 1].id]
  }

  /** The same differentials as those of the interleaved runs. */
  lemma {:induction false} PublishToIsPublishAll(targets: seq<Target>, filters: map<int, Filter>, change: Change)
    requires forall i :: 0 <= i < |targets| ==> targets[i].id in filters && filters[targets[i].id] == targets[i].filter
    ensures PublishTo(targets, change) == PublishAll(Ids(targets), filters, change)
  {
    if |targets| > 0 {
      var last := |targets| - 1;
      var id := targets[last].id;
      PublishToIsPublishAll(targets[..last], filters, change);
      PublishAllConcat(Ids(targets[..last]), [id], filters, change);
      assert [id][1..] == [] && PublishAll([id], filters, change) == Tagged(id, Publish(filters[id], change)) + [];
    }
  }

  lemma {:induction false} PublishAllConcat(a: seq<int>, b: seq<int>, filters: map<int, Filter>, change: Change)
    ensures PublishAll(a + b, filters, change) == PublishAll(a, filters, change) + PublishAll(b, filters, change)
    decreases |a|
  {
    if |a| == 0 {
      assert a + b == b;
    } else {
      assert (a + b)[1..] == a[1..] + b;
      PublishAllConcat(a[1..], b, filters, change);
    }
  }

  class DataStreamManager {
    var uninitialized: seq<DataStream>
    var active: seq<DataStream>

    constructor ()
      ensures uninitialized == [] && active == []
    {
      uninitialized, active := [], [];
    }

    method AddNewStream(stream: DataStream)
      modifies this
      ensures uninitialized == old(uninitialized) + [stream] && active == old(active)
    {
      uninitialized := uninitialized + [stream];
    }

    method RemoveStream(stream: DataStream)
      modifies this
      ensures uninitialized == Dropped(old(uninitialized), stream) && active == Dropped(old(active), stream)
    {
      uninitialized := Drop(uninitialized, stream);
      active := Drop(active, stream);
    }

    method ForeachStream(change: Change) returns (diffs: seq<Differential>)
      ensures diffs == PublishTo(Targets(active), change)
    {
      diffs := [];
      for i := 0 to |active|
        invariant diffs == PublishTo(Targets(active)[..i], change)
      {
        var told := Handle(active[i], change);
        PublishUpTo(Targets(active), i, change);
        diffs := diffs + told;
      }
      assert Targets(active)[..|active|] == Targets(active);
    }

    /** The new streams become active, and each is sent its snapshot, up to the first that cannot be loaded. */
    method Initialize(changeQueue: ChangeQueue, storage: SqliteStorage) returns (failure: Option<Failure>)
      modifies this`uninitialized, this`active, changeQueue`changes
      ensures uninitialized == [] && active == old(active) + old(uninitialized)
      ensures var targets := old(Targets(uninitialized));
              var n := Loadable(targets, storage.tables);
              && changeQueue.changes == old(changeQueue.changes) + SnapshotsOf(targets[..n], storage.tables)
              && failure == if n == |targets| then None else Some(Snapshot(storage.tables, targets[n].filter).error)
    {
      var streams := uninitialized;
      uninitialized, active := [], active + streams;
      failure := StartStreams(streams, changeQueue, storage);
    }
  }

  method StartStreams(streams: seq<DataStream>, changeQueue: ChangeQueue, storage: SqliteStorage)
      returns (failure: Option<Failure>)
    modifies changeQueue`changes
    ensures var targets := old(Targets(streams));
            var n := Loadable(targets, storage.tables);
            && changeQueue.changes == old(changeQueue.changes) + SnapshotsOf(targets[..n], storage.tables)
            && failure == if n == |targets| then None else Some(Snapshot(storage.tables, targets[n].filter).error)
  {
    ghost var targets, queued, t := Targets(streams), changeQueue.changes, storage.tables;
    ghost var n := Loadable(targets, t);
    for i := 0 to |streams|
      invariant i <= n && storage.tables == t && |targets| == |streams|
      invariant forall k :: 0 <= k < |streams| ==> targets[k] == Target(streams[k].streamId, streams[k].filter)
      invariant changeQueue.changes == queued + SnapshotsOf(targets[..i], t)
    {
      failure := StartStream(streams[i], changeQueue, storage);
      if failure.Some? {
        assert i == n;
        return;
      }
      assert i < n;
      SnapshotsUpTo(queued, targets, i, t);
    }
    assert n == |streams|;
    return None;
  }

  method StartStream(stream: DataStream, changeQueue: ChangeQueue, storage: SqliteStorage)
      returns (failure: Option<Failure>)
    modifies changeQueue`changes
    ensures var snapshot := Snapshot(storage.tables, stream.filter);
            if snapshot.Err? then failure == Some(snapshot.error) && changeQueue.changes == old(changeQueue.changes)
            else failure.None? && changeQueue.changes ==
                   old(changeQueue.changes) + SnapshotOf(Target(stream.streamId, stream.filter), storage.tables)
  {
    var changes := LoadFor(stream, storage);
    if changes.Err? {
      return Some(changes.error);
    }
    PushAll(changes.value, changeQueue);
    return None;
  }

  method PushAll(changes: seq<Differential>, changeQueue: ChangeQueue)
    modifies changeQueue`changes
    ensures changeQueue.changes == old(changeQueue.changes) + changes
  {
    for i := 0 to |changes|
      invariant changeQueue.changes == old(changeQueue.changes) + changes[..i]
    {
      changeQueue.AddStreamChange(changes[i].streamId, changes[i].change);
    }
  }

  // ---------------------------------------------------------------- the backend

  lemma ExecuteIgnoresTheRecord(t: Tables, updates: seq<(int, int)>, op: Operation)
    ensures var a, b := Execute(Store(t, updates), op), Execute(Store(t, []), op);
            a.store.tables == b.store.tables && a.result == b.result && a.change == b.change
  {
  }

  /** A batch run is what has been done so far and the run of the rest. */
  ghost predicate Continues(run: BatchRun, results: seq<TaskResult>, done: seq<Change>, store: Store,
                            rest: seq<Operation>) {
    var more := RunBatch(store, rest);
    run.results == results + more.results && run.changes == done + more.changes && run.store == more.store
  }

  lemma ContinuesAfter(run: BatchRun, results: seq<TaskResult>, done: seq<Change>, store: Store, rest: seq<Operation>)
    requires Continues(run, results, done, store, rest) && |rest| > 0 && AllSuccessful(results)
    ensures var out := Execute(store, rest[0]);
            if out.result.Error? then run.results == results + [out.result] && !AllSuccessful(run.results)
            else AllSuccessful(results + [out.result])
                 && Continues(run, results + [out.result], done + Changed(out), out.store, rest[1..])
  {
    var out := Execute(store, rest[0]);
    var more := RunBatch(out.store, rest[1..]);
    if out.result.Successful? {
      assert results + ([out.result] + more.results) == (results + [out.result]) + more.results;
      assert done + (Changed(out) + more.changes) == (done + Changed(out)) + more.changes;
    } else {
      assert run.results == results + [out.result] && run.results[|results|].Error?;
    }
  }

  lemma {:induction false} PublishChanged(targets: seq<Target>, done: seq<Change>, out: Outcome)
    ensures PublishEach(targets, done) + (if out.change.Some? then PublishTo(targets, out.change.value) else [])
            == PublishEach(targets, done + Changed(out))
  {
    if out.change.Some? {
      assert (done + [out.change.value])[..|done|] == done;
    } else {
      assert done + [] == done;
    }
  }

  class SqliteBackend {
    const storage: SqliteStorage
    const changeQueue: ChangeQueue
    const dataStreams: DataStreamManager
    var operationsQueue: seq<seq<Operation>>
    var nextStreamId: int

    constructor ()
      ensures fresh(storage) && fresh(changeQueue) && fresh(dataStreams)
      ensures storage.tables == EMPTY && operationsQueue == [] && nextStreamId == 1
      ensures changeQueue.dataStreams == [] && changeQueue.changes == []
      ensures dataStreams.uninitialized == [] && dataStreams.active == []
    {
      storage := new SqliteStorage();
      changeQueue := new ChangeQueue();
      dataStreams := new DataStreamManager();
      operationsQueue, nextStreamId := [], 1;
    }

    method QueueOperations(ops: seq<Operation>)
      modifies this
      ensures operationsQueue == old(operationsQueue) + [ops] && nextStreamId == old(nextStreamId)
    {
      operationsQueue := operationsQueue + [ops];
    }

    method CreateStream(filter: Filter, observer: VectorDataStreamObserver?) returns (stream: DataStream)
      modifies this`nextStreamId, changeQueue, dataStreams
      ensures fresh(stream) && stream.filter == filter && stream.observer == observer && !stream.isInitialized
      ensures stream.streamId == old(nextStreamId) && nextStreamId == old(nextStreamId) + 1
      ensures changeQueue.dataStreams == old(changeQueue.dataStreams) + [stream]
              && changeQueue.changes == old(changeQueue.changes)
      ensures dataStreams.uninitialized == old(dataStreams.uninitialized) + [stream]
              && dataStreams.active == old(dataStreams.active)
    {
      stream := new DataStream(filter);
      stream.Connect(nextStreamId, observer);
      nextStreamId := nextStreamId + 1;
      changeQueue.AddStream(stream);
      dataStreams.AddNewStream(stream);
    }

    /** One operation: the tables, the answer, and what the active streams are to be told. */
    method ExecuteOperation(op: Operation) returns (result: TaskResult, told: seq<Differential>)
      modifies storage`tables
      ensures var out := Execute(Store(old(storage.tables), []), op);
              && storage.tables == out.store.tables && result == out.result
              && told == if out.change.Some? then PublishTo(Targets(dataStreams.active), out.change.value) else []
    {
      told := [];
      match op {
        case EraseAllData =>
          storage.DeleteAll();
          told := dataStreams.ForeachStream(Cleared);
          result := Successful(None);
        case StoreItem(NoItem) => result := Successful(None);
        case StoreItem(PersonItem) => result := Error("Not implemented yet!");
        case StoreItem(ReservationItem(r)) =>
          var stored := storage.StoreNewReservationAndAtoms(r);
          told := dataStreams.ForeachStream(Added([stored]));
          result := Successful(Some(stored.header.id));
        case UpdateItem(NoItem) => result := Error("Trying to update empty item");
        case UpdateItem(PersonItem) => result := Error("Could not update item (internal db error)");
        case UpdateItem(ReservationItem(r)) =>
          if r.header.id == 0 {
            result := Error("Cannot update hotel without id");
          } else {
            var ok, updated := storage.UpdateReservation(r);
            if ok {
              told := dataStreams.ForeachStream(Updated([updated]));
              result := Successful(None);
            } else {
              result := Error("Could not update item (internal db error)");
            }
          }
        case DeleteItem(isReservation, id) =>
          if isReservation {
            storage.DeleteReservationById(id);
            told := dataStreams.ForeachStream(Removed([id]));
            result := Successful(Some(id));
          } else {
            result := Error("Unknown data type");
          }
      }
    }

    /** The operations up to the first that fails, and what the active streams are to be told of them. */
    method ExecuteAll(ops: seq<Operation>) returns (results: seq<TaskResult>, rollback: bool, told: seq<Differential>)
      modifies storage`tables
      ensures var run := RunBatch(Store(old(storage.tables), []), ops);
              && results == run.results && rollback == !AllSuccessful(results)
              && (!rollback ==>
                    storage.tables == run.store.tables && told == PublishEach(Targets(dataStreams.active), run.changes))
    {
      results, rollback, told := [], false, [];
      ghost var run := RunBatch(Store(storage.tables, []), ops);
      ghost var store, done, targets := Store(storage.tables, []), [], Targets(dataStreams.active);
      assert ops[0..] == ops;
      for i := 0 to |ops|
        invariant !rollback && AllSuccessful(results) && store.tables == storage.tables
        invariant Continues(run, results, done, store, ops[i..])
        invariant Targets(dataStreams.active) == targets && told == PublishEach(targets, done)
      {
        ghost var out := Execute(store, ops[i]);
        assert ops[i..][0] == ops[i] && ops[i..][1..] == ops[i + 1..];
        ContinuesAfter(run, results, done, store, ops[i..]);
        ExecuteIgnoresTheRecord(store.tables, store.updates, ops[i]);
        PublishChanged(targets, done, out);
        var result, more := ExecuteOperation(ops[i]);
        results, told := results + [result], told + more;
        if result.Error? {
          rollback := true;
          return;
        }
        store, done := out.store, done + Changed(out);
      }
      assert results + [] == results && done + [] == done;
    }

    /** What the active streams are told of a batch. */
    ghost function PublishedBy(store: Store, ops: seq<Operation>): seq<Differential>
      reads dataStreams`active, dataStreams.active`streamId
    {
      var run := RunBatch(store, ops);
      if AllSuccessful(run.results) then PublishEach(Targets(dataStreams.active), run.changes) else []
    }

    /** A batch commits all of its operations and queues all of their changes behind those already there, or
        changes nothing and queues nothing; the results end at the first error. */
    method ProcessBatch(ops: seq<Operation>) returns (results: seq<TaskResult>)
      modifies storage`tables, storage`saved, changeQueue`changes
      ensures results == RunBatch(Store(old(storage.tables), []), ops).results
      ensures storage.tables == Committed(Store(old(storage.tables), []), ops).tables
      ensures changeQueue.changes == old(changeQueue.changes) + PublishedBy(Store(old(storage.tables), []), ops)
    {
      ghost var run, queued := RunBatch(Store(storage.tables, []), ops), changeQueue.changes;
      assert queued + [] == queued;
      storage.BeginTransaction();
      var rollback, transactionChanges;
      results, rollback, transactionChanges := ExecuteAll(ops);
      if rollback {
        storage.RollbackTransaction();
      } else {
        storage.CommitTransaction();
        changeQueue.AddChanges(transactionChanges);
      }
    }
  }
}
