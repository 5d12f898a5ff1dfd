/** That the backend gets its work done, and what its runs amount to in terms of what the callers have asked
    for: which streams they have created and dropped, and which batches they have queued. */
module BackendProgress {
  import opened Common
  import opened Runs
  import opened Storage
  import opened Changes
  import opened Replication
  import opened BackendRuns

  // ---------------------------------------------------------------- the worker comes to rest

  /** Nothing is left for the worker: it would go to sleep. */
  predicate Resting(st: State) {
    st.worker.Working? && st.tasks == [] && st.batches == [] && st.uninitialized == []
  }

  /** A step of the worker, which looks for work only if there is some. */
  predicate WorkerStep(st: State, e: Event) {
    match e
    case TakeTasks => !Resting(st)
    case TakeStreams => true
    case LoadSnapshot => true
    case PushSnapshotChange => true
    case StreamsStarted => true
    case BeginBatch => true
    case ExecuteOperation => true
    case EndBatch => true
    case PublishChanges => true
    case _ => false
  }

  function BatchesLeft(batches: seq<seq<Operation>>): nat {
    if |batches| == 0 then 0 else BatchesLeft(batches[..|batches| - 1]) + |batches[|batches| - 1]| + 3
  }

  function WorkerLeft(w: Worker): nat {
    match w
    case Taken => 3
    case Starting(streams, outgoing) => 4 * |streams| + |outgoing| + 2
    case Working => 0
    case InBatch(rest, _, _, _, _) => |rest| + 2
    case Publishing(_) => 1
  }

  /** An upper bound for the steps that the worker still has to take. */
  function Left(st: State): nat {
    BatchesLeft(st.tasks) + BatchesLeft(st.batches) + 4 * |st.uninitialized| + WorkerLeft(st.worker)
    + if st.batches != [] || (st.uninitialized != [] && !st.worker.Taken?) then 4 else 0
  }

  lemma {:induction false} FirstBatchLeft(batches: seq<seq<Operation>>)
    requires |batches| > 0
    ensures BatchesLeft(batches) == |batches[0]| + 3 + BatchesLeft(batches[1..])
  {
    if |batches| > 1 {
      FirstBatchLeft(batches[..|batches| - 1]);
      assert batches[..|batches| - 1][1..] == batches[1..][..|batches| - 2];
    }
  }

  lemma WorkerStepCosts(st: State, e: Event)
    requires Enabled(st, e) && WorkerStep(st, e)
    ensures Left(Step(st, e)) < Left(st)
  {
    if e.BeginBatch? {
      FirstBatchLeft(st.tasks);
    }
  }

  /** Left alone, the worker takes a bounded number of steps before it rests. */
  lemma {:induction false} WorkerRunsAreBounded(st: State, events: seq<Event>)
    requires IsRun(MACHINE, st, events) && EachEvent(MACHINE, (s, e) => WorkerStep(s, e), st, events, |events|)
    ensures |events| + Left(After(MACHINE, st, events)) <= Left(st)
    decreases |events|
  {
    if |events| > 0 {
      var rest := events[1..];
      assert At(MACHINE, st, events, 0) == st;
      WorkerStepCosts(st, events[0]);
      forall i | 0 <= i < |rest| ensures WorkerStep(At(MACHINE, Step(st, events[0]), rest, i), rest[i]) {
        assert events[..i + 1][1..] == rest[..i];
        assert WorkerStep(At(MACHINE, st, events, i + 1), events[i + 1]);
      }
      WorkerRunsAreBounded(Step(st, events[0]), rest);
    }
  }

  /** And it always has a step to take until it rests: with the tables well formed, every snapshot can be
      loaded. */
  lemma WorkerGoesOn(st: State) returns (e: Event)
    requires Wired(st) && WellFormed(st.store.tables) && !Resting(st)
    ensures Enabled(st, e) && WorkerStep(st, e)
  {
    match st.worker
    case Taken => e := TakeStreams;
    case Working => e := if |st.tasks| > 0 then BeginBatch else TakeTasks;
    case InBatch(rest, _, _, _, failed) => e := if |rest| > 0 && !failed then ExecuteOperation else EndBatch;
    case Publishing(_) => e := PublishChanges;
    case Starting(streams, outgoing) =>
      if |outgoing| > 0 {
        e := PushSnapshotChange;
      } else if |streams| > 0 {
        SnapshotShowsTheStore(st.store.tables, st.filters[streams[0]]);
        e := LoadSnapshot;
      } else {
        e := StreamsStarted;
      }
  }

  /** At rest every batch that was queued has been processed, and every connected stream has had its snapshot. */
  lemma RestingIsDone(st: State)
    requires Wired(st) && Resting(st)
    ensures st.processed == st.queued
    ensures forall id :: Live(st, id) <==> id in st.observers && st.observers[id].connected
  {
    assert st.queued == st.processed + [];
  }

  // ---------------------------------------------------------------- streams that are gone

  lemma StepKeepsDisconnected(st: State, e: Event, id: int)
    requires Wired(st) && Enabled(st, e) && id in st.observers
    ensures id in Step(st, e).observers
    ensures Step(st, e).observers[id].connected <==> st.observers[id].connected && e != Disconnect(id)
    ensures !st.observers[id].connected ==> Step(st, e).observers[id] == st.observers[id]
  {
  }

  /** Once disconnected, an observer sees nothing any more. */
  lemma {:induction false} DisconnectedIsLeftAlone(st: State, events: seq<Event>, id: int)
    requires Wired(st) && IsRun(MACHINE, st, events) && id in st.observers && !st.observers[id].connected
    ensures var st' := After(MACHINE, st, events); id in st'.observers && st'.observers[id] == st.observers[id]
    decreases |events|
  {
    if |events| > 0 {
      StepKeepsWired(st, events[0]);
      StepKeepsDisconnected(st, events[0], id);
      DisconnectedIsLeftAlone(Step(st, events[0]), events[1..], id);
    }
  }

  /** The worker does not know the stream any more, and has nothing left to publish to it. */
  ghost predicate Gone(st: State, id: int) {
    && id in st.observers && !Awaiting(st, id) && id !in st.active
    && For(id, Outgoing(st.worker)) == [] && For(id, Drafted(st.worker)) == []
  }

  lemma {:induction false} StepKeepsGone(st: State, e: Event, id: int)
    requires Wired(st) && Enabled(st, e) && Gone(st, id)
    ensures Gone(Step(st, e), id) && For(id, Step(st, e).published) == For(id, st.published)
  {
    match e
    case RemoveStream(other) =>
      DroppedIs(st.active, other);
      DroppedIs(st.uninitialized, other);
    case LoadSnapshot => ForTagged(id, st.worker.streams[0], Snapshot(st.store.tables,
                                                                      st.filters[st.worker.streams[0]]).value);
    case PushSnapshotChange =>
      ForHead(id, st.worker.outgoing);
      ForConcat(id, st.published, [st.worker.outgoing[0]]);
      ForOne(id, st.worker.outgoing[0]);
    case ExecuteOperation =>
      var out := Execute(st.worker.working, st.worker.rest[0]);
      ForConcat(id, st.worker.changes, PublishSome(st.active, st.filters, out.change));
      if out.change.Some? {
        ForPublishAll(id, st.active, st.filters, out.change.value);
      }
    case PublishChanges => ForConcat(id, st.published, st.worker.outgoing);
    case _ =>
  }

  /** Nothing is ever published again for a stream that is gone. */
  lemma {:induction false} GoneIsToldNothing(st: State, events: seq<Event>, id: int)
    requires Wired(st) && IsRun(MACHINE, st, events) && Gone(st, id)
    ensures var st' := After(MACHINE, st, events); Gone(st', id) && For(id, st'.published) == For(id, st.published)
    decreases |events|
  {
    if |events| > 0 {
      StepKeepsWired(st, events[0]);
      StepKeepsGone(st, events[0], id);
      GoneIsToldNothing(Step(st, events[0]), events[1..], id);
    }
  }

  /** Between batches, removing a stream is enough for that. */
  lemma RemovedIsGone(st: State, id: int)
    requires Wired(st) && Enabled(st, RemoveStream(id)) && (st.worker.Working? || st.worker.Taken?)
    ensures Gone(Step(st, RemoveStream(id)), id)
  {
    DroppedIs(st.active, id);
    DroppedIs(st.uninitialized, id);
  }

  // ---------------------------------------------------------------- what the callers have asked for

  /** The filters of the streams created, in order. */
  function CreatedIn(events: seq<Event>): seq<Filter> {
    if |events| == 0 then []
    else (if events[0].CreateStream? then [events[0].filter] else []) + CreatedIn(events[1..])
  }

  function QueuedIn(events: seq<Event>): seq<seq<Operation>> {
    if |events| == 0 then []
    else (if events[0].QueueOperations? then [events[0].batch] else []) + QueuedIn(events[1..])
  }

  lemma {:induction false} QueuedAsAsked(st: State, events: seq<Event>)
    requires IsRun(MACHINE, st, events)
    ensures After(MACHINE, st, events).queued == st.queued + QueuedIn(events)
    decreases |events|
  {
    if |events| > 0 {
      var next := Step(st, events[0]);
      var here := if events[0].QueueOperations? then [events[0].batch] else [];
      QueuedAsAsked(next, events[1..]);
      assert next.queued == st.queued + here;
      Associative(st.queued, here, QueuedIn(events[1..]));
    } else {
      assert st.queued + [] == st.queued;
    }
  }

  /** A run adds as many streams as were asked for. */
  lemma {:induction false} AsManyAsAsked(st: State, events: seq<Event>)
    requires IsRun(MACHINE, st, events)
    ensures After(MACHINE, st, events).nextStreamId == st.nextStreamId + |CreatedIn(events)|
    decreases |events|
  {
    if |events| > 0 {
      AsManyAsAsked(Step(st, events[0]), events[1..]);
    }
  }

  lemma {:induction false} FilterStays(st: State, events: seq<Event>, id: int)
    requires IsRun(MACHINE, st, events) && id in st.filters && id < st.nextStreamId
    ensures HasFilter(After(MACHINE, st, events), id, st.filters[id])
    decreases |events|
  {
    if |events| > 0 {
      FilterStays(Step(st, events[0]), events[1..], id);
    }
  }

  /** They have the filters asked for, in order. */
  lemma {:induction false} CreatedAsAsked(st: State, events: seq<Event>, k: nat)
    requires IsRun(MACHINE, st, events) && k < |CreatedIn(events)|
    ensures HasFilter(After(MACHINE, st, events), st.nextStreamId + k, CreatedIn(events)[k])
    decreases |events|
  {
    var next := Step(st, events[0]);
    if events[0].CreateStream? && k == 0 {
      FilterStays(next, events[1..], st.nextStreamId);
    } else {
      CreatedAsAsked(next, events[1..], if events[0].CreateStream? then k - 1 else k);
    }
  }

  /** An observer is connected from the creation of its stream until it is disconnected. */
  lemma {:induction false} ConnectedAsAsked(st: State, events: seq<Event>, id: int)
    requires Wired(st) && IsRun(MACHINE, st, events) && id in After(MACHINE, st, events).observers
    ensures After(MACHINE, st, events).observers[id].connected
            <==> (id in st.observers ==> st.observers[id].connected) && Disconnect(id) !in events
    decreases |events|
  {
    if |events| > 0 {
      var next := Step(st, events[0]);
      StepKeepsWired(st, events[0]);
      ConnectedAsAsked(next, events[1..], id);
      if id in st.observers {
        StepKeepsDisconnected(st, events[0], id);
      }
      assert Disconnect(id) in events <==> events[0] == Disconnect(id) || Disconnect(id) in events[1..];
    }
  }

  lemma {:induction false} PromisingRun(st: State, events: seq<Event>)
    requires IsRun(PROMISING, st, events)
    ensures IsRun(MACHINE, st, events) && After(MACHINE, st, events) == After(PROMISING, st, events)
    decreases |events|
  {
    if |events| > 0 {
      PromisingRun(Step(st, events[0]), events[1..]);
    }
  }

  /** From what was asked for to what is seen: when the worker rests and nothing is on its way to an observer,
      each stream that was created and not disconnected shows its part of what loading gives after all
      batches that were ever queued, one after another. */
  lemma {:induction false} SettledViews(t: Tables, events: seq<Event>, k: nat)
    requires WellFormed(t) && IsRun(PROMISING, Initial(t), events)
    requires Resting(After(PROMISING, Initial(t), events)) && Pending(After(PROMISING, Initial(t), events), k + 1) == []
    requires k < |CreatedIn(events)| && Disconnect(k + 1) !in events
    ensures var st, loaded := After(PROMISING, Initial(t), events),
                              LoadAll(Serial(Store(t, []), QueuedIn(events)).tables);
            && loaded.Ok? && k + 1 in st.observers
            && st.observers[k + 1].view == Select(CreatedIn(events)[k], loaded.value)
            && st.observers[k + 1].initialized
  {
    var st := After(PROMISING, Initial(t), events);
    PromisingRun(Initial(t), events);
    InitialOk(t);
    RunKeepsInv(Initial(t), events);
    CreatedAsAsked(Initial(t), events, k);
    ConnectedAsAsked(Initial(t), events, k + 1);
    RestingIsDone(st);
    QueuedAsAsked(Initial(t), events);
    assert [] + QueuedIn(events) == QueuedIn(events);
    BatchesAreSerial(t, events);
    QuietView(st, k + 1);
  }
}
