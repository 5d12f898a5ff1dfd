/** The backend's worker thread against the main thread: batches run in transactions and publish
    differentials, new streams get a snapshot first, and observers replay what reaches them.

    Every region under a lock is one step; the steps of the two threads are interleaved arbitrarily. */
module Replication {
  import opened Common
  import opened Reservations
  import opened Storage
  import opened Changes
  import opened StorageEffects

  // ---------------------------------------------------------------- operations

  /** What an operation carries; a person cannot be stored, and NoItem is a null pointer. */
  datatype Item = ReservationItem(r: ReservationData) | PersonItem | NoItem

  datatype Operation =
    | EraseAllData
    | StoreItem(item: Item)
    | UpdateItem(item: Item)
    | DeleteItem(isReservation: bool, id: int)

  /** The tables, with a record of the updates that succeeded since the last time everything was erased:
      the identifier, and the revision the update was made from. Nothing depends on the record. */
  datatype Store = Store(tables: Tables, updates: seq<(int, int)>)

  datatype TaskResult = Successful(id: Option<int>) | Error(message: string)

  datatype Outcome = Outcome(store: Store, result: TaskResult, change: Option<Change>)

  function Execute(store: Store, op: Operation): Outcome {
    match op
    case EraseAllData => Outcome(Store(EMPTY, []), Successful(None), Some(Cleared))
    case StoreItem(NoItem) => Outcome(store, Successful(None), None)
    case StoreItem(PersonItem) => Outcome(store, Error("Not implemented yet!"), None)
    case StoreItem(ReservationItem(r)) =>
      var (t, stored) := StoreNew(store.tables, r);
      Outcome(store.(tables := t), Successful(Some(stored.header.id)), Some(Added([stored])))
    case UpdateItem(NoItem) => Outcome(store, Error("Trying to update empty item"), None)
    case UpdateItem(PersonItem) => Outcome(store, Error("Could not update item (internal db error)"), None)
    case UpdateItem(ReservationItem(r)) =>
      if r.header.id == 0 then Outcome(store, Error("Cannot update hotel without id"), None)
      else if !Matches(store.tables, r.header) then
        Outcome(store, Error("Could not update item (internal db error)"), None)
      else
        var (t, updated) := Update(store.tables, r);
        Outcome(Store(t, store.updates + [(r.header.id, r.header.revision)]), Successful(None),
                Some(Updated([updated])))
    case DeleteItem(isReservation, id) =>
      if isReservation then
        Outcome(store.(tables := Delete(store.tables, id)), Successful(Some(id)), Some(Removed([id])))
      else Outcome(store, Error("Unknown data type"), None)
  }

  function Loaded(store: Store): Items { Content(store.tables, store.tables.nextId) }

  function Applied(view: Items, change: Option<Change>): Items {
    if change.Some? then Apply(view, change.value) else view
  }

  /** The condition under which the published change does to a list what the operation does to the store. */
  predicate InStep(store: Store, op: Operation) {
    match op
    case StoreItem(ReservationItem(r)) => Storable(r)
    case UpdateItem(ReservationItem(r)) =>
      r.header.id == 0 || !Matches(store.tables, r.header) || UpdateInStep(store.tables, r)
    case _ => true
  }

  lemma ExecuteEffect(store: Store, op: Operation)
    requires WellFormed(store.tables) && InStep(store, op)
    ensures var out := Execute(store, op);
            WellFormed(out.store.tables) && Loaded(out.store) == Applied(Loaded(store), out.change)
  {
    match op
    case StoreItem(ReservationItem(r)) => StoreNewEffect(store.tables, r);
    case UpdateItem(ReservationItem(r)) =>
      if r.header.id != 0 && Matches(store.tables, r.header) {
        UpdateInStepHolds(store.tables, r);
        OverwriteAllOne(Loaded(store), Update(store.tables, r).1);
      }
    case DeleteItem(_, id) => DeleteEffect(store.tables, id);
    case _ =>
  }

  predicate CarriesNoNullPeriod(op: Operation) {
    match op
    case StoreItem(ReservationItem(r)) => NoNullAtoms(r.atoms)
    case UpdateItem(ReservationItem(r)) => NoNullAtoms(r.atoms)
    case _ => true
  }

  /** And it is the exact condition. */
  lemma ExecuteInStepIff(store: Store, op: Operation)
    requires WellFormed(store.tables) && CarriesNoNullPeriod(op)
    ensures var out := Execute(store, op);
            LoadAll(out.store.tables) == Ok(Applied(Loaded(store), out.change)) <==> InStep(store, op)
  {
    if InStep(store, op) {
      ExecuteEffect(store, op);
      LoadAllIsContent(Execute(store, op).store.tables);
    }
    match op
    case StoreItem(ReservationItem(r)) => StoreNewInStepIff(store.tables, r);
    case UpdateItem(ReservationItem(r)) =>
      if r.header.id != 0 && Matches(store.tables, r.header) {
        UpdateInStepIff(store.tables, r);
      }
    case _ =>
  }

  /** A deleted reservation keeps its row, so an update made from the revision it had still succeeds. It
      brings the reservation back into the tables, but no observer is told to add it. */
  lemma DeletedComesBack(store: Store, r: ReservationData)
    requires WellFormed(store.tables) && Matches(store.tables, r.header) && Storable(r)
    ensures var deleted := Execute(store, DeleteItem(true, r.header.id)).store;
            var out := Execute(deleted, UpdateItem(ReservationItem(r)));
            !HasId(Loaded(deleted), r.header.id) && out.result.Successful? && Present(out.store.tables, r.header.id)
            && LoadAll(out.store.tables) != Ok(Applied(Loaded(deleted), out.change))
  {
    var deleted, op := Execute(store, DeleteItem(true, r.header.id)).store, UpdateItem(ReservationItem(r));
    DeleteEffect(store.tables, r.header.id);
    AtomsForWithout(store.tables.atoms, r.header.id, r.header.id);
    AbsentIsNotListed(deleted.tables, r.header.id, deleted.tables.nextId);
    UpdateReplacesAtoms(deleted.tables, r);
    ExecuteInStepIff(deleted, op);
  }

  /** Every update recorded was made from a revision that its reservation has left behind, and no reservation
      has an identifier that is still to be given out. */
  ghost predicate UpdatesOk(s: Store) {
    && (forall id :: id in s.tables.reservations ==> id < s.tables.nextId)
    && NoDuplicates(s.updates)
    && forall k :: k in s.updates ==> k.0 in s.tables.reservations && k.1 < s.tables.reservations[k.0].revision
  }

  lemma ExecuteKeepsUpdates(s: Store, op: Operation)
    requires UpdatesOk(s)
    ensures UpdatesOk(Execute(s, op).store)
  {
  }

  /** Of two updates made from the same revision of a reservation, the second is refused. */
  lemma StaleUpdateIsRefused(s: Store, r: ReservationData)
    requires UpdatesOk(s) && (r.header.id, r.header.revision) in s.updates
    ensures Execute(s, UpdateItem(ReservationItem(r))).result.Error?
  {
  }

  // ---------------------------------------------------------------- batches

  function Changed(out: Outcome): seq<Change> {
    if out.change.Some? then [out.change.value] else []
  }

  datatype BatchRun = BatchRun(store: Store, results: seq<TaskResult>, changes: seq<Change>)

  /** The operations of a batch in order, up to the first that fails. */
  function RunBatch(store: Store, ops: seq<Operation>): BatchRun
    decreases |ops|
  {
    if |ops| == 0 then BatchRun(store, [], [])
    else
      var out := Execute(store, ops[0]);
      if out.result.Error? then BatchRun(out.store, [out.result], [])
      else
        var rest := RunBatch(out.store, ops[1..]);
        BatchRun(rest.store, [out.result] + rest.results, Changed(out) + rest.changes)
  }

  predicate AllSuccessful(results: seq<TaskResult>) {
    forall i :: 0 <= i < |results| ==> results[i].Successful?
  }

  /** The results end at the first error. */
  lemma {:induction false} ResultsEndAtError(store: Store, ops: seq<Operation>)
    ensures var results := RunBatch(store, ops).results;
            if AllSuccessful(results) then |results| == |ops|
            else 0 < |results| <= |ops| && Last(results).Error? && AllSuccessful(results[..|results| - 1])
    decreases |ops|
  {
    if |ops| > 0 {
      var out, results := Execute(store, ops[0]), RunBatch(store, ops).results;
      if out.result.Successful? {
        var rest := RunBatch(out.store, ops[1..]).results;
        ResultsEndAtError(out.store, ops[1..]);
        SuccessfulCons(out.result, rest);
        if !AllSuccessful(rest) {
          assert results[..|results| - 1] == [out.result] + rest[..|rest| - 1];
          SuccessfulCons(out.result, rest[..|rest| - 1]);
        }
      } else {
        assert results == [out.result] && results[0].Error?;
      }
    }
  }

  lemma SuccessfulCons(first: TaskResult, rest: seq<TaskResult>)
    ensures AllSuccessful([first] + rest) <==> first.Successful? && AllSuccessful(rest)
  {
    var all := [first] + rest;
    assert all[0] == first && forall i :: 0 <= i < |rest| ==> all[i + 1] == rest[i];
    if AllSuccessful(all) {
      forall i | 0 <= i < |rest| ensures rest[i].Successful? {
        assert all[i + 1].Successful?;
      }
    }
  }

  /** One operation more. */
  lemma {:induction false} RunSnoc(store: Store, done: seq<Operation>, op: Operation)
    requires AllSuccessful(RunBatch(store, done).results)
    ensures var run := RunBatch(store, done);
            var out := Execute(run.store, op);
            RunBatch(store, done + [op]) == BatchRun(out.store, run.results + [out.result], run.changes + Changed(out))
    decreases |done|
  {
    if |done| == 0 {
      var out := Execute(store, op);
      assert done + [op] == [op] && [op][1..] == [];
      assert RunBatch(out.store, [op][1..]) == BatchRun(out.store, [], []);
      assert Changed(out) + [] == Changed(out) == [] + Changed(out);
    } else {
      var out := Execute(store, done[0]);
      var rest := RunBatch(out.store, done[1..]);
      assert RunBatch(store, done).results[0] == out.result;
      SuccessfulCons(out.result, rest.results);
      assert (done + [op])[0] == done[0] && (done + [op])[1..] == done[1..] + [op];
      RunSnoc(out.store, done[1..], op);
      var last := Execute(rest.store, op);
      Associative([out.result], rest.results, [last.result]);
      Associative(Changed(out), rest.changes, Changed(last));
    }
  }

  /** What comes after the first error is not executed. */
  lemma {:induction false} RunStops(store: Store, done: seq<Operation>, rest: seq<Operation>)
    requires !AllSuccessful(RunBatch(store, done).results)
    ensures RunBatch(store, done + rest) == RunBatch(store, done)
    decreases |done|
  {
    if |done| > 0 {
      var out := Execute(store, done[0]);
      assert (done + rest)[0] == done[0] && (done + rest)[1..] == done[1..] + rest;
      if out.result.Successful? {
        SuccessfulCons(out.result, RunBatch(out.store, done[1..]).results);
        RunStops(out.store, done[1..], rest);
      }
    }
  }

  /** The store after a batch: all of it or nothing. */
  function Committed(store: Store, ops: seq<Operation>): Store {
    var run := RunBatch(store, ops);
    if AllSuccessful(run.results) then run.store else store
  }

  /** Batches one after another. */
  function Serial(store: Store, batches: seq<seq<Operation>>): Store {
    if |batches| == 0 then store else Committed(Serial(store, batches[..|batches| - 1]), batches[|batches| - 1])
  }

  /** Each operation of the batch is in step when its turn comes. */
  predicate BatchInStep(store: Store, ops: seq<Operation>)
    decreases |ops|
  {
    |ops| > 0 ==>
      && InStep(store, ops[0])
      && (Execute(store, ops[0]).result.Successful? ==> BatchInStep(Execute(store, ops[0]).store, ops[1..]))
  }

  /** A list that shows the store before the batch shows the store after it once the changes are replayed. */
  lemma {:induction false} BatchEffect(store: Store, ops: seq<Operation>)
    requires WellFormed(store.tables) && BatchInStep(store, ops)
    ensures var run := RunBatch(store, ops);
            AllSuccessful(run.results) ==>
              WellFormed(run.store.tables) && LoadAll(run.store.tables) == Ok(Replay(Loaded(store), run.changes))
    decreases |ops|
  {
    var run := RunBatch(store, ops);
    if |ops| == 0 {
      LoadAllIsContent(store.tables);
    } else if AllSuccessful(run.results) {
      var out := Execute(store, ops[0]);
      assert run.results[0] == out.result;
      var rest := RunBatch(out.store, ops[1..]);
      assert rest.results == run.results[1..];
      ExecuteEffect(store, ops[0]);
      BatchEffect(out.store, ops[1..]);
      if out.change.Some? {
        ReplayConcat(Loaded(store), [out.change.value], rest.changes);
        ReplayOne(Loaded(store), out.change.value);
      } else {
        assert run.changes == rest.changes;
      }
    }
  }

  // ---------------------------------------------------------------- differentials

  datatype Differential = Differential(streamId: int, change: Change)

  function Tagged(id: int, changes: seq<Change>): seq<Differential> {
    seq(|changes|, i requires 0 <= i < |changes| => Differential(id, changes[i]))
  }

  /** A change as it goes to the active streams, in their order; a stream without a handler gets nothing. */
  function PublishAll(active: seq<int>, filters: map<int, Filter>, change: Change): seq<Differential> {
    if |active| == 0 then []
    else (if active[0] in filters then Tagged(active[0], Publish(filters[active[0]], change)) else [])
         + PublishAll(active[1..], filters, change)
  }

  function PublishSome(active: seq<int>, filters: map<int, Filter>, change: Option<Change>): seq<Differential> {
    if change.Some? then PublishAll(active, filters, change.value) else []
  }

  /** The changes for one stream. */
  function For(id: int, diffs: seq<Differential>): seq<Change> {
    if |diffs| == 0 then []
    else (if diffs[0].streamId == id then [diffs[0].change] else []) + For(id, diffs[1..])
  }

  lemma {:induction false} ForConcat(id: int, a: seq<Differential>, b: seq<Differential>)
    ensures For(id, a + b) == For(id, a) + For(id, b)
    decreases |a|
  {
    if |a| == 0 {
      assert a + b == b;
    } else {
      assert (a + b)[1..] == a[1..] + b;
      ForConcat(id, a[1..], b);
      var first := if a[0].streamId == id then [a[0].change] else [];
      assert (first + For(id, a[1..])) + For(id, b) == first + (For(id, a[1..]) + For(id, b));
    }
  }

  lemma {:induction false} ForTagged(id: int, tag: int, changes: seq<Change>)
    ensures For(id, Tagged(tag, changes)) == if id == tag then changes else []
  {
    if |changes| > 0 {
      ForTagged(id, tag, changes[1..]);
      assert Tagged(tag, changes)[1..] == Tagged(tag, changes[1..]);
      assert [changes[0]] + changes[1..] == changes;
    }
  }

  lemma {:induction false} ForOthers(id: int, diffs: seq<Differential>)
    requires forall i :: 0 <= i < |diffs| ==> diffs[i].streamId != id
    ensures For(id, diffs) == []
  {
    if |diffs| > 0 {
      ForOthers(id, diffs[1..]);
    }
  }

  predicate KnownIds(filters: map<int, Filter>, s: seq<int>) {
    forall i :: 0 <= i < |s| ==> s[i] in filters
  }

  /** Every active stream is told once, and only active streams are. */
  lemma {:induction false} ForPublishAll(id: int, active: seq<int>, filters: map<int, Filter>, change: Change)
    requires NoDuplicates(active) && KnownIds(filters, active)
    ensures For(id, PublishAll(active, filters, change)) == if id in active then Publish(filters[id], change) else []
    ensures forall d :: d in PublishAll(active, filters, change) ==> d.streamId in filters
  {
    if |active| > 0 {
      var mine := Publish(filters[active[0]], change);
      ForPublishAll(id, active[1..], filters, change);
      ForConcat(id, Tagged(active[0], mine), PublishAll(active[1..], filters, change));
      ForTagged(id, active[0], mine);
      assert id in active <==> id == active[0] || id in active[1..];
      assert mine + [] == mine;
    }
  }

  // ---------------------------------------------------------------- snapshots

  /** What a handler sends to a new stream, and the mark that closes it. */
  function Snapshot(t: Tables, filter: Filter): Result<seq<Change>, Failure> {
    match if filter.None? then LoadAll(t) else LoadById(t, filter.value)
    case Err(e) => Err(e)
    case Ok(items) => Ok((if filter.Some? && |items| == 0 then [] else [Added(items)]) + [Initialized])
  }

  lemma {:induction false} SelectContent(t: Tables, id: int, bound: int)
    ensures Select(Some(id), Content(t, bound)) == if 1 <= id < bound && Present(t, id) then [Stored(t, id)] else []
    decreases bound
  {
    if bound > 1 {
      var before, last := Content(t, bound - 1), if Present(t, bound - 1) then [Stored(t, bound - 1)] else [];
      SelectContent(t, id, bound - 1);
      SelectConcat(Some(id), before, last);
      assert |last| > 0 ==> last[1..] == [] && Select(Some(id), last[1..]) == [];
    }
  }

  lemma {:induction false} SnapshotShowsTheStore(t: Tables, filter: Filter)
    requires WellFormed(t)
    ensures Snapshot(t, filter).Ok? && Initialized in Snapshot(t, filter).value
    ensures Replay([], Snapshot(t, filter).value) == Select(filter, Content(t, t.nextId))
  {
    var wanted := Select(filter, Content(t, t.nextId));
    LoadAllIsContent(t);
    if filter.Some? {
      LoadByIdIsStored(t, filter.value);
      SelectContent(t, filter.value, t.nextId);
    }
    var changes := Snapshot(t, filter).value;
    assert Last(changes) == Initialized;
    ReplayConcat([], changes[..|changes| - 1], [Initialized]);
    ReplayOne(wanted, Initialized);
    if |changes| == 2 {
      ReplayOne([], Added(wanted));
      assert changes == [Added(wanted)] + [Initialized] && [] + wanted == wanted;
    } else {
      assert changes == [] + [Initialized];
    }
  }

  lemma {:induction false} ReplayOne(view: Items, change: Change)
    ensures Replay(view, [change]) == Apply(view, change)
  {
    assert [change][1..] == [];
    assert Replay(Apply(view, change), []) == Apply(view, change);
  }

  /** A list that shows its part of a view, told what is published of a change, shows its part of the
      changed view. */
  lemma {:induction false} ShownAfterwards(filter: Filter, start: Items, sent: seq<Change>, view: Items, change: Change)
    requires Replay(start, sent) == Select(filter, view)
    ensures Replay(start, sent + Publish(filter, change)) == Select(filter, Apply(view, change))
  {
    ReplayConcat(start, sent, Publish(filter, change));
    FilterCommutes(filter, view, change);
  }

  /** One stream's part of everything a batch publishes. */
  function PublishEvery(filter: Filter, changes: seq<Change>): seq<Change> {
    if |changes| == 0 then []
    else
      var last := |changes| - 1;
      PublishEvery(filter, changes[..last]) + Publish(filter, changes[last])
  }

  lemma {:induction false} ReplayLast(view: Items, changes: seq<Change>)
    requires |changes| > 0
    ensures Replay(view, changes) == Apply(Replay(view, changes[..|changes| - 1]), changes[|changes| - 1])
  {
    var before, last := changes[..|changes| - 1], changes[|changes| - 1];
    assert before + [last] == changes;
    ReplayConcat(view, before, [last]);
    ReplayOne(Replay(view, before), last);
  }

  /** Whatever a stream shows of some list, the published changes make it show of the changed list. */
  lemma {:induction false} EveryIsShown(filter: Filter, changes: seq<Change>, view: Items)
    ensures Replay(Select(filter, view), PublishEvery(filter, changes)) == Select(filter, Replay(view, changes))
    decreases |changes|
  {
    if |changes| > 0 {
      var last := |changes| - 1;
      EveryIsShown(filter, changes[..last], view);
      ReplayLast(view, changes);
      ShownAfterwards(filter, Select(filter, view), PublishEvery(filter, changes[..last]),
                      Replay(view, changes[..last]), changes[last]);
    }
  }
}
