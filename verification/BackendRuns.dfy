/** Runs of the backend: the worker thread, which is the only one to touch the database, and the main thread,
    which creates and drops streams, queues batches and applies what has been published. */
module BackendRuns {
  import opened Common
  import opened Runs
  import opened Storage
  import opened Changes
  import opened Replication
  import opened ViewsAndTables

  /** The observer's side of a stream. The received changes are a record; nothing depends on them. */
  datatype Observed = Observed(connected: bool, initialized: bool, view: Items, received: seq<Change>)

  /** Where the worker is in its loop. Taken: it has taken the queued batches and not yet the new streams.
      Starting: it initializes those. Working: between batches. Publishing: committed, not yet published. The
      executed operations are a record. */
  datatype Worker =
    | Taken
    | Starting(streams: seq<int>, outgoing: seq<Differential>)
    | Working
    | InBatch(
        rest: seq<Operation>,
        executed: seq<Operation>,
        working: Store,
        changes: seq<Differential>,
        failed: bool)
    | Publishing(outgoing: seq<Differential>)

  datatype State = State(
    store: Store,
    batches: seq<seq<Operation>>,
    tasks: seq<seq<Operation>>,
    worker: Worker,
    filters: map<int, Filter>,
    uninitialized: seq<int>,
    active: seq<int>,
    queue: seq<Differential>,
    published: seq<Differential>, // a record of everything that was ever queued
    applying: seq<Differential>,
    registered: seq<int>,
    observers: map<int, Observed>,
    nextStreamId: int,
    queued: seq<seq<Operation>>,     // records of the batches that were ever queued,
    processed: seq<seq<Operation>>)  // and of those that the worker is done with

  datatype Event =
    // main thread
    | QueueOperations(batch: seq<Operation>)
    | CreateStream(filter: Filter)
    | Disconnect(id: int)
    | RemoveStream(id: int)
    | SwapChanges
    | ApplyChange
    // worker thread
    | TakeTasks
    | TakeStreams
    | LoadSnapshot
    | PushSnapshotChange
    | StreamsStarted
    | BeginBatch
    | ExecuteOperation
    | EndBatch
    | PublishChanges

  function Initial(t: Tables): State {
    State(Store(t, []), [], [], Working, map[], [], [], [], [], [], [], map[], 1, [], [])
  }

  function Connected(registered: seq<int>, observers: map<int, Observed>): seq<int> {
    if |registered| == 0 then []
    else (if registered[0] in observers && observers[registered[0]].connected then [registered[0]] else [])
         + Connected(registered[1..], observers)
  }

  function Receive(o: Observed, change: Change): Observed {
    o.(view := Apply(o.view, change), received := o.received + [change],
       initialized := o.initialized || change.Initialized?)
  }

  /** A snapshot that cannot be loaded ends the worker thread, and the run. */
  predicate Enabled(st: State, e: Event) {
    match e
    case QueueOperations(_) => true
    case CreateStream(_) => true
    case Disconnect(id) => id in st.observers
    case RemoveStream(id) => id in st.observers && !st.observers[id].connected
    case SwapChanges => |st.applying| == 0
    case ApplyChange => |st.applying| > 0
    case TakeTasks => st.worker.Working? && |st.tasks| == 0
    case TakeStreams => st.worker.Taken?
    case LoadSnapshot =>
      && st.worker.Starting? && |st.worker.outgoing| == 0 && |st.worker.streams| > 0
      && st.worker.streams[0] in st.filters && Snapshot(st.store.tables, st.filters[st.worker.streams[0]]).Ok?
    case PushSnapshotChange => st.worker.Starting? && |st.worker.outgoing| > 0
    case StreamsStarted => st.worker.Starting? && |st.worker.outgoing| == 0 && |st.worker.streams| == 0
    case BeginBatch => st.worker.Working? && |st.tasks| > 0
    case ExecuteOperation => st.worker.InBatch? && |st.worker.rest| > 0 && !st.worker.failed
    case EndBatch => st.worker.InBatch? && (|st.worker.rest| == 0 || st.worker.failed)
    case PublishChanges => st.worker.Publishing?
  }

  /** What the callers promise: a batch that commits leaves observers in step. */
  predicate Promised(st: State, e: Event) {
    e.EndBatch? && Enabled(st, e) && !st.worker.failed ==> CommitsInStep(st.store, st.worker.executed)
  }

  function Step(st: State, e: Event): State
    requires Enabled(st, e)
  {
    match e
    case QueueOperations(batch) => st.(batches := st.batches + [batch], queued := st.queued + [batch])
    case CreateStream(filter) =>
      var id := st.nextStreamId;
      st.(filters := st.filters[id := filter], observers := st.observers[id := Observed(true, false, [], [])],
          registered := st.registered + [id], uninitialized := st.uninitialized + [id], nextStreamId := id + 1)
    case Disconnect(id) => st.(observers := st.observers[id := st.observers[id].(connected := false)])
    case RemoveStream(id) => st.(uninitialized := Dropped(st.uninitialized, id), active := Dropped(st.active, id))
    case SwapChanges =>
      st.(registered := Connected(st.registered, st.observers), applying := st.queue, queue := [])
    case ApplyChange =>
      var d := st.applying[0];
      var rest := st.(applying := st.applying[1..]);
      if d.streamId in st.registered && d.streamId in st.observers && st.observers[d.streamId].connected then
        rest.(observers := st.observers[d.streamId := Receive(st.observers[d.streamId], d.change)])
      else rest
    case TakeTasks => st.(tasks := st.batches, batches := [], worker := Taken)
    case TakeStreams =>
      st.(active := st.active + st.uninitialized, uninitialized := [], worker := Starting(st.uninitialized, []))
    case LoadSnapshot =>
      var id := st.worker.streams[0];
      st.(worker := Starting(st.worker.streams[1..], Tagged(id, Snapshot(st.store.tables, st.filters[id]).value)))
    case PushSnapshotChange =>
      var d := st.worker.outgoing[0];
      st.(queue := st.queue + [d], published := st.published + [d],
          worker := Starting(st.worker.streams, st.worker.outgoing[1..]))
    case StreamsStarted => st.(worker := Working)
    case BeginBatch => st.(tasks := st.tasks[1..], worker := InBatch(st.tasks[0], [], st.store, [], false))
    case ExecuteOperation =>
      var w := st.worker;
      var out := Execute(w.working, w.rest[0]);
      st.(worker := InBatch(w.rest[1..], w.executed + [w.rest[0]], out.store,
                            w.changes + PublishSome(st.active, st.filters, out.change), out.result.Error?))
    case EndBatch =>
      var done := st.(processed := st.processed + [st.worker.executed + st.worker.rest]);
      if st.worker.failed then done.(worker := Working)
      else done.(store := st.worker.working, worker := Publishing(st.worker.changes))
    case PublishChanges =>
      st.(queue := st.queue + st.worker.outgoing, published := st.published + st.worker.outgoing, worker := Working)
  }

  // ---------------------------------------------------------------- the invariant

  function Outgoing(w: Worker): seq<Differential> {
    if w.Starting? || w.Publishing? then w.outgoing else []
  }

  function Drafted(w: Worker): seq<Differential> {
    if w.InBatch? then w.changes else []
  }

  predicate Awaiting(st: State, id: int) {
    id in st.uninitialized || (st.worker.Starting? && id in st.worker.streams)
  }

  /** A stream whose observer still listens and whose snapshot the worker has taken. */
  predicate Live(st: State, id: int) {
    id in st.observers && st.observers[id].connected && !Awaiting(st, id)
  }

  ghost predicate KnownDiffs(filters: map<int, Filter>, s: seq<Differential>) {
    forall d :: d in s ==> d.streamId in filters
  }

  ghost predicate ListsOk(st: State) {
    && NoDuplicates(st.active) && NoDuplicates(st.uninitialized)
    && KnownIds(st.filters, st.active) && KnownIds(st.filters, st.uninitialized)
    && (forall id :: id in st.uninitialized ==> id !in st.active)
    && (st.worker.Starting? ==>
          && NoDuplicates(st.worker.streams) && KnownIds(st.filters, st.worker.streams)
          && forall id :: id in st.worker.streams ==> id !in st.uninitialized)
  }

  ghost predicate DiffsOk(st: State) {
    && KnownDiffs(st.filters, st.published) && KnownDiffs(st.filters, st.queue) && KnownDiffs(st.filters, st.applying)
    && KnownDiffs(st.filters, Outgoing(st.worker)) && KnownDiffs(st.filters, Drafted(st.worker))
  }

  ghost predicate KeysOk(st: State) {
    && st.filters.Keys == st.observers.Keys
    && (forall id :: id in st.filters ==> id < st.nextStreamId)
    && (forall id :: id in st.observers && st.observers[id].connected ==>
          id in st.registered && (id in st.active || id in st.uninitialized))
  }

  /** The stream has been sent exactly what turns the empty list into its part of the store. */
  ghost predicate Shows(st: State, id: int, store: Store, sent: seq<Change>) {
    id in st.filters && Replay([], sent) == Select(st.filters[id], Loaded(store))
  }

  /** A stream that waits for its snapshot has been sent nothing. Any other has been sent its snapshot, and
      is going to be sent what the batch under way does to its part of a list. */
  ghost predicate TracedOk(st: State, id: int) {
    id in st.observers ==>
      if Awaiting(st, id) then
        For(id, st.published) == [] && For(id, Outgoing(st.worker)) == [] && For(id, Drafted(st.worker)) == []
      else
        st.observers[id].connected ==>
          && Initialized in For(id, st.published) + For(id, Outgoing(st.worker))
          && id in st.filters
          && (st.worker.InBatch? ==>
                For(id, st.worker.changes)
                == PublishEvery(st.filters[id], RunBatch(st.store, st.worker.executed).changes))
  }

  ghost predicate ShowsOk(st: State, id: int) {
    Live(st, id) ==> Shows(st, id, st.store, For(id, st.published) + For(id, Outgoing(st.worker)))
  }

  /** What was published for a connected stream is what its observer has received, in order, and what is
      still on the way. */
  ghost predicate DeliveredOk(st: State, id: int) {
    id in st.observers && st.observers[id].connected ==>
      var o := st.observers[id];
      && For(id, st.published) == o.received + (For(id, st.applying) + For(id, st.queue))
      && o.view == Replay([], o.received)
      && (o.initialized <==> Initialized in o.received)
  }

  /** The working store is what running the executed operations on the committed one gives. */
  ghost predicate BatchOk(st: State) {
    st.worker.InBatch? ==>
      var run := RunBatch(st.store, st.worker.executed);
      st.worker.working == run.store && (st.worker.failed <==> !AllSuccessful(run.results))
  }

  function UnderWay(w: Worker): seq<seq<Operation>> {
    if w.InBatch? then [w.executed + w.rest] else []
  }

  /** Every batch that was queued has been processed, is under way, or waits, in the order of queueing. */
  ghost predicate QueueOk(st: State) {
    st.queued == st.processed + (UnderWay(st.worker) + (st.tasks + st.batches))
  }

  /** What every run keeps, whatever is executed on whatever tables. */
  ghost predicate Wired(st: State) {
    && ListsOk(st) && DiffsOk(st) && KeysOk(st) && BatchOk(st) && QueueOk(st)
    && (forall id :: TracedOk(st, id))
    && (forall id :: DeliveredOk(st, id))
  }

  /** The committed store is that of the processed batches, one after another. */
  ghost predicate SerialOk(st: State, t: Tables) {
    Wired(st) && st.store == Serial(Store(t, []), st.processed)
  }

  ghost predicate RevisionsOk(st: State) {
    UpdatesOk(st.store) && (st.worker.InBatch? ==> UpdatesOk(st.worker.working))
  }

  /** What runs keep in which every batch that commits is in step. */
  ghost predicate Inv(st: State) {
    Wired(st) && WellFormed(st.store.tables) && forall id :: ShowsOk(st, id)
  }

  // ---------------------------------------------------------------- small facts

  lemma NoDuplicatesConcat(a: seq<int>, b: seq<int>)
    requires NoDuplicates(a) && NoDuplicates(b) && forall x :: x in a ==> x !in b
    ensures NoDuplicates(a + b)
  {
    var s := a + b;
    forall i, j | 0 <= i < j < |s| ensures s[i] != s[j] {
      if i < |a| <= j {
        assert s[i] in a && s[j] in b;
      }
    }
  }

  lemma NoDuplicatesHead(s: seq<int>)
    requires NoDuplicates(s) && |s| > 0
    ensures NoDuplicates(s[1..]) && s[0] !in s[1..]
  {
  }

  lemma {:induction false} DroppedIs(s: seq<int>, gone: int)
    requires NoDuplicates(s)
    ensures NoDuplicates(Dropped(s, gone))
    ensures forall id :: id in Dropped(s, gone) <==> id in s && id != gone
  {
    if |s| > 0 {
      NoDuplicatesHead(s);
      DroppedIs(s[1..], gone);
      assert forall id :: id in s <==> id == s[0] || id in s[1..];
      if s[0] != gone {
        NoDuplicatesConcat([s[0]], Dropped(s[1..], gone));
      }
    }
  }

  lemma {:induction false} DroppedKnown(filters: map<int, Filter>, s: seq<int>, gone: int)
    requires KnownIds(filters, s)
    ensures KnownIds(filters, Dropped(s, gone))
  {
    if |s| > 0 {
      DroppedKnown(filters, s[1..], gone);
    }
  }

  lemma {:induction false} ConnectedIs(registered: seq<int>, observers: map<int, Observed>)
    ensures forall id :: id in Connected(registered, observers) <==>
            id in registered && id in observers && observers[id].connected
  {
    if |registered| > 0 {
      ConnectedIs(registered[1..], observers);
      assert forall id :: id in registered <==> id == registered[0] || id in registered[1..];
    }
  }

  lemma {:induction false} ForUnknown(id: int, filters: map<int, Filter>, diffs: seq<Differential>)
    requires KnownDiffs(filters, diffs) && id !in filters
    ensures For(id, diffs) == []
  {
    ForOthers(id, diffs);
  }

  lemma {:induction false} ForOne(id: int, d: Differential)
    ensures For(id, [d]) == if d.streamId == id then [d.change] else []
  {
    assert [d][1..] == [] && For(id, [d][1..]) == [];
  }

  lemma {:induction false} ForHead(id: int, diffs: seq<Differential>)
    requires |diffs| > 0
    ensures For(id, diffs) == For(id, [diffs[0]]) + For(id, diffs[1..])
  {
    ForOne(id, diffs[0]);
  }

  // ---------------------------------------------------------------- one step

  lemma StepKeepsLists(st: State, e: Event)
    requires ListsOk(st) && KeysOk(st) && Enabled(st, e)
    ensures ListsOk(Step(st, e))
  {
    match e
    case CreateStream(_) => NoDuplicatesConcat(st.uninitialized, [st.nextStreamId]);
    case RemoveStream(id) =>
      DroppedIs(st.active, id);
      DroppedIs(st.uninitialized, id);
      DroppedKnown(st.filters, st.active, id);
      DroppedKnown(st.filters, st.uninitialized, id);
    case TakeStreams => NoDuplicatesConcat(st.active, st.uninitialized);
    case LoadSnapshot => NoDuplicatesHead(st.worker.streams);
    case _ =>
  }

  lemma StepKeepsKeys(st: State, e: Event)
    requires ListsOk(st) && KeysOk(st) && Enabled(st, e)
    ensures KeysOk(Step(st, e))
  {
    match e
    case RemoveStream(id) =>
      DroppedIs(st.active, id);
      DroppedIs(st.uninitialized, id);
    case SwapChanges => ConnectedIs(st.registered, st.observers);
    case _ =>
  }

  lemma StepKeepsDiffs(st: State, e: Event)
    requires ListsOk(st) && DiffsOk(st) && Enabled(st, e)
    ensures DiffsOk(Step(st, e))
  {
    if e.ExecuteOperation? {
      var change := Execute(st.worker.working, st.worker.rest[0]).change;
      if change.Some? {
        ForPublishAll(0, st.active, st.filters, change.value);
      }
    }
  }

  lemma StepKeepsBatch(st: State, e: Event)
    requires BatchOk(st) && Enabled(st, e)
    ensures BatchOk(Step(st, e))
  {
    if e.ExecuteOperation? {
      var run, op := RunBatch(st.store, st.worker.executed), st.worker.rest[0];
      RunSnoc(st.store, st.worker.executed, op);
      SuccessfulSnoc(run.results, Execute(run.store, op).result);
    }
  }

  lemma SuccessfulSnoc(results: seq<TaskResult>, last: TaskResult)
    requires AllSuccessful(results)
    ensures AllSuccessful(results + [last]) <==> last.Successful?
  {
    assert (results + [last])[|results|] == last;
  }

  lemma OneMoreQueued<X>(a: seq<X>, b: seq<X>, c: seq<X>, d: seq<X>, x: X)
    ensures (a + (b + (c + d))) + [x] == a + (b + (c + (d + [x])))
  {
    Associative(c, d, [x]);
    Associative(b, c + d, [x]);
    Associative(a, b + (c + d), [x]);
  }

  lemma StepKeepsQueue(st: State, e: Event)
    requires QueueOk(st) && Enabled(st, e)
    ensures QueueOk(Step(st, e))
  {
    var under := UnderWay(st.worker);
    match e
    case QueueOperations(batch) => OneMoreQueued(st.processed, under, st.tasks, st.batches, batch);
    case BeginBatch =>
      assert [] + st.tasks[0] == st.tasks[0] && st.tasks == [st.tasks[0]] + st.tasks[1..];
      Associative([st.tasks[0]], st.tasks[1..], st.batches);
      assert under + (st.tasks + st.batches) == st.tasks + st.batches;
    case ExecuteOperation =>
      var w := st.worker;
      assert w.executed + w.rest == (w.executed + [w.rest[0]]) + w.rest[1..];
    case EndBatch =>
      Associative(st.processed, under, st.tasks + st.batches);
    case _ =>
  }

  lemma StepKeepsSerial(st: State, e: Event, t: Tables)
    requires SerialOk(st, t) && Enabled(st, e)
    ensures SerialOk(Step(st, e), t)
  {
    StepKeepsWired(st, e);
    if e.EndBatch? {
      var w, done := st.worker, st.processed + [st.worker.executed + st.worker.rest];
      assert done[..|done| - 1] == st.processed;
      if w.failed {
        RunStops(st.store, w.executed, w.rest);
      } else {
        assert w.executed + w.rest == w.executed;
      }
    }
  }

  lemma StepKeepsRevisions(st: State, e: Event)
    requires RevisionsOk(st) && Enabled(st, e)
    ensures RevisionsOk(Step(st, e))
  {
    if e.ExecuteOperation? {
      ExecuteKeepsUpdates(st.worker.working, st.worker.rest[0]);
    }
  }

  /** What has been sent does not change with what the main thread does to other parts of the state. */
  lemma TracedAlike(st: State, st': State, id: int)
    requires TracedOk(st, id) && st'.published == st.published && st'.worker == st.worker && st'.store == st.store
    requires id in st'.observers ==> id in st.observers
    requires id in st'.observers && st'.observers[id].connected ==> st.observers[id].connected
    requires id in st.filters ==> id in st'.filters && st'.filters[id] == st.filters[id]
    requires id in st'.observers && st'.observers[id].connected ==> (Awaiting(st', id) <==> Awaiting(st, id))
    requires Awaiting(st', id) ==> Awaiting(st, id)
    ensures TracedOk(st', id)
  {
  }

  lemma SentByMainThread(st: State, e: Event, id: int)
    requires TracedOk(st, id) && ListsOk(st) && DiffsOk(st) && KeysOk(st) && Enabled(st, e)
    requires e.QueueOperations? || e.CreateStream? || e.Disconnect? || e.RemoveStream? || e.SwapChanges?
             || e.ApplyChange?
    ensures TracedOk(Step(st, e), id)
  {
    if e.CreateStream? && id == st.nextStreamId {
      ForUnknown(id, st.filters, st.published);
      ForUnknown(id, st.filters, Outgoing(st.worker));
      ForUnknown(id, st.filters, Drafted(st.worker));
    } else {
      if e.RemoveStream? {
        DroppedIs(st.uninitialized, e.id);
      }
      TracedAlike(st, Step(st, e), id);
    }
  }

  lemma SentBySnapshot(st: State, id: int)
    requires TracedOk(st, id) && ListsOk(st) && KeysOk(st) && Enabled(st, LoadSnapshot)
    ensures TracedOk(Step(st, LoadSnapshot), id)
  {
    var first := st.worker.streams[0];
    var changes := Snapshot(st.store.tables, st.filters[first]).value;
    assert changes[|changes| - 1] == Initialized;
    ForTagged(id, first, changes);
    NoDuplicatesHead(st.worker.streams);
    assert first in st.worker.streams && [] + changes == changes;
    assert id in st.worker.streams <==> id == first || id in st.worker.streams[1..];
    assert id != first && !Awaiting(st, id) ==>
           For(id, st.published) + [] == For(id, st.published) + For(id, Outgoing(st.worker));
  }

  lemma {:induction false} ToldByExecution(st: State, id: int, change: Option<Change>)
    requires ListsOk(st) && KeysOk(st) && st.worker.InBatch? && id in st.observers
    ensures var told := For(id, PublishSome(st.active, st.filters, change));
            && (Awaiting(st, id) ==> told == [])
            && (!Awaiting(st, id) && st.observers[id].connected ==>
                  told == if change.Some? then Publish(st.filters[id], change.value) else [])
  {
    if change.Some? {
      ForPublishAll(id, st.active, st.filters, change.value);
    }
  }

  lemma {:induction false} PublishEverySome(filter: Filter, changes: seq<Change>, out: Outcome)
    ensures PublishEvery(filter, changes + Changed(out))
            == PublishEvery(filter, changes) + if out.change.Some? then Publish(filter, out.change.value) else []
  {
    if out.change.Some? {
      assert (changes + [out.change.value])[..|changes|] == changes;
    } else {
      assert changes + [] == changes;
    }
  }

  lemma SentByExecution(st: State, id: int)
    requires TracedOk(st, id) && ListsOk(st) && KeysOk(st) && BatchOk(st) && Enabled(st, ExecuteOperation)
    ensures TracedOk(Step(st, ExecuteOperation), id)
  {
    if id in st.observers {
      var w, op := st.worker, st.worker.rest[0];
      var out := Execute(w.working, op);
      ToldByExecution(st, id, out.change);
      ForConcat(id, w.changes, PublishSome(st.active, st.filters, out.change));
      if Live(st, id) {
        RunSnoc(st.store, w.executed, op);
        PublishEverySome(st.filters[id], RunBatch(st.store, w.executed).changes, out);
      }
    }
  }

  lemma SentByPush(st: State, id: int)
    requires TracedOk(st, id) && Enabled(st, PushSnapshotChange)
    ensures TracedOk(Step(st, PushSnapshotChange), id)
  {
    var d := st.worker.outgoing[0];
    ForConcat(id, st.published, [d]);
    ForHead(id, st.worker.outgoing);
    assert (For(id, st.published) + For(id, [d])) + For(id, st.worker.outgoing[1..])
           == For(id, st.published) + (For(id, [d]) + For(id, st.worker.outgoing[1..]));
  }

  lemma SentByCommit(st: State, e: Event, id: int)
    requires TracedOk(st, id) && Enabled(st, e) && (e.BeginBatch? || e.EndBatch?)
    ensures TracedOk(Step(st, e), id)
  {
    assert For(id, st.published) + [] == For(id, st.published);
  }

  lemma SentByPublishing(st: State, id: int)
    requires TracedOk(st, id) && Enabled(st, PublishChanges)
    ensures TracedOk(Step(st, PublishChanges), id)
  {
    ForConcat(id, st.published, st.worker.outgoing);
    assert For(id, st.published + st.worker.outgoing) + [] == For(id, st.published + st.worker.outgoing);
  }

  lemma SentByMoving(st: State, e: Event, id: int)
    requires TracedOk(st, id) && Enabled(st, e) && (e.TakeTasks? || e.TakeStreams? || e.StreamsStarted?)
    ensures TracedOk(Step(st, e), id)
  {
    assert Awaiting(Step(st, e), id) <==> Awaiting(st, id);
  }

  lemma StepKeepsSent(st: State, e: Event, id: int)
    requires TracedOk(st, id) && ListsOk(st) && DiffsOk(st) && KeysOk(st) && BatchOk(st) && Enabled(st, e)
    ensures TracedOk(Step(st, e), id)
  {
    match e
    case LoadSnapshot => SentBySnapshot(st, id);
    case PushSnapshotChange => SentByPush(st, id);
    case ExecuteOperation => SentByExecution(st, id);
    case BeginBatch => SentByCommit(st, e, id);
    case EndBatch => SentByCommit(st, e, id);
    case PublishChanges => SentByPublishing(st, id);
    case TakeTasks => SentByMoving(st, e, id);
    case TakeStreams => SentByMoving(st, e, id);
    case StreamsStarted => SentByMoving(st, e, id);
    case _ => SentByMainThread(st, e, id);
  }

  lemma StepKeepsDelivered(st: State, e: Event, id: int)
    requires DeliveredOk(st, id) && DiffsOk(st) && KeysOk(st) && Enabled(st, e)
    ensures DeliveredOk(Step(st, e), id)
  {
    match e
    case CreateStream(_) =>
      if id == st.nextStreamId {
        ForUnknown(id, st.filters, st.published);
        ForUnknown(id, st.filters, st.queue);
        ForUnknown(id, st.filters, st.applying);
      }
    case SwapChanges => assert For(id, st.applying) + For(id, st.queue) == For(id, st.queue) + For(id, []);
    case ApplyChange => DeliveredByApplying(st, id);
    case PushSnapshotChange => DeliveredByPublishing(st, Step(st, e), [st.worker.outgoing[0]], id);
    case PublishChanges => DeliveredByPublishing(st, Step(st, e), st.worker.outgoing, id);
    case _ =>
  }

  lemma DeliveredByPublishing(st: State, st': State, diffs: seq<Differential>, id: int)
    requires DeliveredOk(st, id) && st'.published == st.published + diffs && st'.queue == st.queue + diffs
    requires st'.observers == st.observers && st'.applying == st.applying
    ensures DeliveredOk(st', id)
  {
    ForConcat(id, st.published, diffs);
    ForConcat(id, st.queue, diffs);
    if id in st.observers && st.observers[id].connected {
      Associative(st.observers[id].received, For(id, st.applying) + For(id, st.queue), For(id, diffs));
      Associative(For(id, st.applying), For(id, st.queue), For(id, diffs));
    }
  }

  lemma DeliveredByApplying(st: State, id: int)
    requires DeliveredOk(st, id) && KeysOk(st) && Enabled(st, ApplyChange)
    ensures DeliveredOk(Step(st, ApplyChange), id)
  {
    var d := st.applying[0];
    ForHead(id, st.applying);
    ForOne(id, d);
    if d.streamId == id && id in st.observers && st.observers[id].connected {
      var o := st.observers[id];
      ReplayConcat([], o.received, [d.change]);
      ReplayOne(o.view, d.change);
      Associative([d.change], For(id, st.applying[1..]), For(id, st.queue));
      Associative(o.received, [d.change], For(id, st.applying[1..]) + For(id, st.queue));
    } else {
      assert [] + For(id, st.applying[1..]) == For(id, st.applying[1..]) || d.streamId == id;
    }
  }

  lemma StepKeepsWired(st: State, e: Event)
    requires Wired(st) && Enabled(st, e)
    ensures Wired(Step(st, e))
  {
    StepKeepsLists(st, e);
    StepKeepsKeys(st, e);
    StepKeepsDiffs(st, e);
    StepKeepsBatch(st, e);
    StepKeepsQueue(st, e);
    forall id ensures TracedOk(Step(st, e), id) {
      StepKeepsSent(st, e, id);
    }
    forall id ensures DeliveredOk(Step(st, e), id) {
      StepKeepsDelivered(st, e, id);
    }
  }

  // ---------------------------------------------------------------- showing the store

  /** A live stream shows, with the changes of the batch under way, what the batch does to the loaded list. */
  lemma {:induction false} DraftIsShown(st: State, id: int)
    requires TracedOk(st, id) && ShowsOk(st, id) && Live(st, id) && st.worker.InBatch?
    ensures Replay([], For(id, st.published) + For(id, st.worker.changes))
            == Select(st.filters[id], ShownAfter(st.store, st.worker.executed))
  {
    var changes := RunBatch(st.store, st.worker.executed).changes;
    assert For(id, st.published) + [] == For(id, st.published);
    ReplayConcat([], For(id, st.published), For(id, st.worker.changes));
    EveryIsShown(st.filters[id], changes, Loaded(st.store));
  }

  lemma ShownByCommit(st: State, id: int)
    requires Wired(st) && WellFormed(st.store.tables) && ShowsOk(st, id)
    requires Enabled(st, EndBatch) && Promised(st, EndBatch)
    ensures ShowsOk(Step(st, EndBatch), id)
  {
    assert TracedOk(st, id);
    if Live(st, id) && !st.worker.failed {
      DraftIsShown(st, id);
      CommitIsLoaded(st.store, st.worker.executed);
    }
  }

  lemma ShownBySnapshot(st: State, id: int)
    requires ListsOk(st) && WellFormed(st.store.tables) && TracedOk(st, id) && ShowsOk(st, id)
    requires Enabled(st, LoadSnapshot)
    ensures ShowsOk(Step(st, LoadSnapshot), id)
  {
    var first := st.worker.streams[0];
    var changes := Snapshot(st.store.tables, st.filters[first]).value;
    SnapshotShowsTheStore(st.store.tables, st.filters[first]);
    ForTagged(id, first, changes);
    NoDuplicatesHead(st.worker.streams);
    assert first in st.worker.streams && [] + changes == changes;
    assert id in st.worker.streams <==> id == first || id in st.worker.streams[1..];
    assert Live(st, id) ==> For(id, st.published) + [] == For(id, st.published) + For(id, Outgoing(st.worker));
  }

  lemma ShownByPublishing(st: State, e: Event, id: int)
    requires ShowsOk(st, id) && Enabled(st, e) && (e.PushSnapshotChange? || e.PublishChanges?)
    ensures ShowsOk(Step(st, e), id)
  {
    var outgoing := st.worker.outgoing;
    if e.PublishChanges? {
      ForConcat(id, st.published, outgoing);
      assert For(id, st.published + outgoing) + [] == For(id, st.published + outgoing);
    } else {
      ForConcat(id, st.published, [outgoing[0]]);
      ForHead(id, outgoing);
      Associative(For(id, st.published), For(id, [outgoing[0]]), For(id, outgoing[1..]));
    }
  }

  lemma StepKeepsShown(st: State, e: Event, id: int)
    requires Wired(st) && WellFormed(st.store.tables) && ShowsOk(st, id) && Enabled(st, e) && Promised(st, e)
    ensures ShowsOk(Step(st, e), id)
  {
    assert TracedOk(st, id);
    match e
    case LoadSnapshot => ShownBySnapshot(st, id);
    case PushSnapshotChange => ShownByPublishing(st, e, id);
    case PublishChanges => ShownByPublishing(st, e, id);
    case EndBatch => ShownByCommit(st, id);
    case RemoveStream(gone) => DroppedIs(st.uninitialized, gone);
    case _ =>
  }

  lemma StepKeepsInv(st: State, e: Event)
    requires Inv(st) && Enabled(st, e) && Promised(st, e)
    ensures Inv(Step(st, e))
  {
    StepKeepsWired(st, e);
    if e.EndBatch? && !st.worker.failed {
      CommitIsLoaded(st.store, st.worker.executed);
    }
    forall id ensures ShowsOk(Step(st, e), id) {
      StepKeepsShown(st, e, id);
    }
  }

  // ---------------------------------------------------------------- runs

  const MACHINE: Machine<State, Event> := Machine(Enabled, (s, e) => if Enabled(s, e) then Step(s, e) else s)

  /** The same machine with callers that keep their promise. */
  const PROMISING: Machine<State, Event> := MACHINE.(enabled := (s, e) => Enabled(s, e) && Promised(s, e))

  lemma {:induction false} RunKeepsInv(s: State, events: seq<Event>)
    requires Inv(s) && IsRun(PROMISING, s, events)
    ensures Inv(After(PROMISING, s, events))
  {
    forall s: State, e: Event | Inv(s) && Enabled(s, e) && Promised(s, e) ensures Inv(Step(s, e)) {
      StepKeepsInv(s, e);
    }
    RunKeeps(PROMISING, s => Inv(s), s, events);
  }

  lemma {:induction false} RunKeepsSerial(s: State, events: seq<Event>, t: Tables)
    requires SerialOk(s, t) && IsRun(MACHINE, s, events)
    ensures SerialOk(After(MACHINE, s, events), t)
  {
    forall s: State, e: Event | SerialOk(s, t) && Enabled(s, e) ensures SerialOk(Step(s, e), t) {
      StepKeepsSerial(s, e, t);
    }
    RunKeeps(MACHINE, s => SerialOk(s, t), s, events);
  }

  lemma InitialWired(t: Tables)
    ensures Wired(Initial(t))
  {
  }

  lemma InitialOk(t: Tables)
    requires WellFormed(t)
    ensures Inv(Initial(t))
  {
  }

  /** Everything on its way to a stream's observer, the next change first. */
  function Pending(st: State, id: int): seq<Change> {
    For(id, st.applying) + For(id, st.queue) + For(id, Outgoing(st.worker))
  }

  lemma {:induction false} PendingCompletesTheView(st: State, id: int)
    requires ShowsOk(st, id) && DeliveredOk(st, id) && Live(st, id)
    ensures st.observers[id].received + Pending(st, id) == For(id, st.published) + For(id, Outgoing(st.worker))
    ensures id in st.filters
            && Replay(st.observers[id].view, Pending(st, id)) == Select(st.filters[id], Loaded(st.store))
  {
    var received := st.observers[id].received;
    Associative(received, For(id, st.applying) + For(id, st.queue), For(id, Outgoing(st.worker)));
    ReplayConcat([], received, Pending(st, id));
  }

  predicate HasFilter(st: State, stream: int, filter: Filter) {
    stream in st.filters && st.filters[stream] == filter
  }

  /** With nothing on its way, the observer shows the store, and knows that it is complete. */
  lemma QuietView(st: State, id: int)
    requires Inv(st) && Live(st, id) && Pending(st, id) == []
    ensures LoadAll(st.store.tables).Ok? && id in st.filters && st.observers[id].initialized
    ensures st.observers[id].view == Select(st.filters[id], LoadAll(st.store.tables).value)
  {
    assert ShowsOk(st, id) && TracedOk(st, id) && DeliveredOk(st, id);
    PendingCompletesTheView(st, id);
    LoadAllIsContent(st.store.tables);
    assert st.observers[id].received + [] == st.observers[id].received;
  }

  /** In every reachable state, replaying what is pending onto an observer's list gives what loading the
      committed tables gives, in the same order, and loading never fails. */
  lemma {:induction false} ViewPlusPendingIsTheStore(t: Tables, events: seq<Event>, id: int)
    requires WellFormed(t) && IsRun(PROMISING, Initial(t), events) && Live(After(PROMISING, Initial(t), events), id)
    ensures var st := After(PROMISING, Initial(t), events);
            && LoadAll(st.store.tables).Ok? && id in st.filters
            && Replay(st.observers[id].view, Pending(st, id)) == Select(st.filters[id], LoadAll(st.store.tables).value)
  {
    var st := After(PROMISING, Initial(t), events);
    InitialOk(t);
    RunKeepsInv(Initial(t), events);
    assert ShowsOk(st, id) && TracedOk(st, id) && DeliveredOk(st, id);
    PendingCompletesTheView(st, id);
    LoadAllIsContent(st.store.tables);
  }

  lemma {:induction false} QuietViewIsTheStore(t: Tables, events: seq<Event>, id: int)
    requires WellFormed(t) && IsRun(PROMISING, Initial(t), events) && Live(After(PROMISING, Initial(t), events), id)
    requires Pending(After(PROMISING, Initial(t), events), id) == []
    ensures var st := After(PROMISING, Initial(t), events);
            && LoadAll(st.store.tables).Ok? && id in st.filters
            && st.observers[id].view == Select(st.filters[id], LoadAll(st.store.tables).value)
            && st.observers[id].initialized
  {
    InitialOk(t);
    RunKeepsInv(Initial(t), events);
    QuietView(After(PROMISING, Initial(t), events), id);
  }

  /** What was published for a listening stream has reached its observer once and in order, up to what is
      still queued, whatever has been executed. */
  lemma {:induction false} DeliveredOnceInOrder(t: Tables, events: seq<Event>, id: int)
    requires IsRun(MACHINE, Initial(t), events)
    ensures DeliveredOk(After(MACHINE, Initial(t), events), id)
  {
    RunKeepsSerial(Initial(t), events, t);
  }

  /** Over every run the committed store is that of executing the processed batches one after another, in the
      order of queueing and each once, where a batch with an error changes nothing. */
  lemma {:induction false} BatchesAreSerial(t: Tables, events: seq<Event>)
    requires IsRun(MACHINE, Initial(t), events)
    ensures var st := After(MACHINE, Initial(t), events);
            && st.store == Serial(Store(t, []), st.processed)
            && st.processed <= st.queued
            && (UnderWay(st.worker) + st.tasks + st.batches == [] ==> st.processed == st.queued)
  {
    RunKeepsSerial(Initial(t), events, t);
  }

  /** Over every run no two updates made from the same revision of a reservation have both succeeded; erasing
      everything starts the revisions anew. */
  lemma {:induction false} RevisionsAreUsedOnce(t: Tables, events: seq<Event>)
    requires IsRun(MACHINE, Initial(t), events) && forall id :: id in t.reservations ==> id < t.nextId
    ensures NoDuplicates(After(MACHINE, Initial(t), events).store.updates)
  {
    forall s: State, e: Event | RevisionsOk(s) && Enabled(s, e) ensures RevisionsOk(Step(s, e)) {
      StepKeepsRevisions(s, e);
    }
    RunKeeps(MACHINE, s => RevisionsOk(s), Initial(t), events);
  }

  /** A stream for one reservation is at all times the part of the stream of all of them with that
      identifier, even across erasures after which identifiers are used again. */
  lemma {:induction false} ByIdIsPartOfAll(t: Tables, events: seq<Event>, all: int, one: int, id: int)
    requires WellFormed(t) && IsRun(PROMISING, Initial(t), events)
    requires var st := After(PROMISING, Initial(t), events); Live(st, all) && Live(st, one)
    requires var st := After(PROMISING, Initial(t), events); HasFilter(st, all, None) && HasFilter(st, one, Some(id))
    ensures var st := After(PROMISING, Initial(t), events);
            Replay(st.observers[one].view, Pending(st, one)) ==
            Select(Some(id), Replay(st.observers[all].view, Pending(st, all)))
  {
    ViewPlusPendingIsTheStore(t, events, all);
    ViewPlusPendingIsTheStore(t, events, one);
  }

  // ---------------------------------------------------------------- without the promise

  /** Loading the committed tables gives what the observer shows once it has replayed what is pending. */
  ghost predicate InStepNow(st: State, id: int) {
    id in st.observers && LoadAll(st.store.tables) == Ok(Replay(st.observers[id].view, Pending(st, id)))
  }

  lemma LiveIsInStep(st: State, id: int)
    requires Inv(st) && Live(st, id) && HasFilter(st, id, None)
    ensures InStepNow(st, id)
  {
    assert ShowsOk(st, id) && DeliveredOk(st, id);
    PendingCompletesTheView(st, id);
    LoadAllIsContent(st.store.tables);
  }

  predicate CommitsNoNull(st: State, e: Event) {
    e.EndBatch? && st.worker.InBatch? ==> forall op :: op in st.worker.executed ==> CarriesNoNullPeriod(op)
  }

  /** A commit leaves the observer in step exactly if the batch is. */
  lemma CommitShownIff(st: State, id: int)
    requires Inv(st) && Live(st, id) && HasFilter(st, id, None)
    requires Enabled(st, EndBatch) && !st.worker.failed && CommitsNoNull(st, EndBatch)
    ensures InStepNow(Step(st, EndBatch), id) <==> CommitsInStep(st.store, st.worker.executed)
  {
    var st' := Step(st, EndBatch);
    StepKeepsWired(st, EndBatch);
    assert ShowsOk(st, id) && TracedOk(st, id) && DeliveredOk(st', id);
    var received := st.observers[id].received;
    Associative(received, For(id, st.applying) + For(id, st.queue), For(id, st.worker.changes));
    ReplayConcat([], received, Pending(st', id));
    DraftIsShown(st, id);
    CommitInStepIff(st.store, st.worker.executed);
  }

  lemma StepInStepIff(st: State, e: Event, id: int)
    requires Inv(st) && Live(st, id) && HasFilter(st, id, None)
    requires Enabled(st, e) && e != Disconnect(id) && CommitsNoNull(st, e)
    ensures Live(Step(st, e), id) && HasFilter(Step(st, e), id, None)
    ensures InStepNow(Step(st, e), id) <==> Promised(st, e)
  {
    StaysLive(st, e, id);
    if Promised(st, e) {
      StepKeepsInv(st, e);
      LiveIsInStep(Step(st, e), id);
    } else {
      CommitShownIff(st, id);
    }
  }

  lemma StaysLive(st: State, e: Event, id: int)
    requires Wired(st) && Live(st, id) && HasFilter(st, id, None) && Enabled(st, e) && e != Disconnect(id)
    ensures Live(Step(st, e), id) && HasFilter(Step(st, e), id, None)
  {
    if e.RemoveStream? {
      DroppedIs(st.uninitialized, e.id);
    }
  }

  ghost predicate Followed(st: State, id: int) {
    Inv(st) && Live(st, id) && HasFilter(st, id, None)
  }

  /** The observer keeps listening, and no batch that commits carries a null period. */
  predicate Ordinary(st: State, e: Event, id: int) {
    e != Disconnect(id) && CommitsNoNull(st, e)
  }

  /** And over runs: an observer of all reservations that keeps listening is in step at every moment exactly
      if every batch that commits is in step. Batches that are rolled back may contain anything. */
  lemma {:induction false} InStepThroughoutIff(st: State, events: seq<Event>, id: int)
    requires Followed(st, id) && IsRun(MACHINE, st, events)
    requires EachEvent(MACHINE, (s, e) => Ordinary(s, e, id), st, events, |events|)
    ensures EachState(MACHINE, s => InStepNow(s, id), st, events, |events|)
            <==> EachEvent(MACHINE, (s, e) => Promised(s, e), st, events, |events|)
  {
    forall s | Followed(s, id) ensures InStepNow(s, id) {
      LiveIsInStep(s, id);
    }
    forall s, e | Followed(s, id) && Enabled(s, e) && Ordinary(s, e, id)
      ensures InStepNow(Step(s, e), id) <==> Promised(s, e)
      ensures Promised(s, e) ==> Followed(Step(s, e), id)
    {
      StepInStepIff(s, e, id);
      if Promised(s, e) {
        StepKeepsInv(s, e);
      }
    }
    ThroughoutIff(MACHINE, s => Followed(s, id), s => InStepNow(s, id), (s, e) => Ordinary(s, e, id),
                  (s, e) => Promised(s, e), st, events);
  }
}
