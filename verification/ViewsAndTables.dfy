/** What observers show against what the tables hold, whatever has been executed: the list may miss what the
    tables have, and the tables may not give back what the list shows, but they never lose touch. */
module ViewsAndTables {
  import opened Common
  import opened Reservations
  import opened Storage
  import opened Changes
  import opened StorageEffects
  import opened Replication

  /** What of a header the tables can express. */
  function Kept(h: Header): Header {
    h.(ownerPersonId := None, status := if h.status.Temporary? then Unknown else h.status,
       description := Text(h.description))
  }

  /** The tables hold what has been written of a shown reservation. */
  predicate Mirrors(t: Tables, x: ReservationData) {
    var id := x.header.id;
    && id in t.reservations && HeaderOf(id, t.reservations[id]) == Kept(x.header)
    && AtomsOfRows(AtomsFor(t.atoms, id)) == x.atoms
  }

  ghost predicate AscendingIds(view: Items) {
    forall i, j :: 0 <= i < j < |view| ==> view[i].header.id < view[j].header.id
  }

  ghost predicate Linked(view: Items, t: Tables) {
    IdsOk(t) && AscendingIds(view) && forall x :: x in view ==> Mirrors(t, x)
  }

  /** The exact condition for a list to be what loading returns: everything it shows can be given back by the
      tables, and no reservation that it does not show has atoms in them. */
  predicate Clean(view: Items, t: Tables) {
    && (forall i :: 0 <= i < |view| ==> Storable(view[i]))
    && (forall id :: id in t.reservations && Present(t, id) ==> HasId(view, id))
  }

  // ---------------------------------------------------------------- headers

  lemma KeptIff(h: Header)
    ensures Kept(h) == h <==> Plain(h)
    ensures Plain(Kept(h))
  {
    TextIsWholeIff(h.description);
  }

  lemma WrittenIsKept(r: ReservationData, h: Header)
    requires h == r.header.(id := h.id, revision := h.revision)
    ensures HeaderOf(h.id, RowOf(r, h.revision)) == Kept(h)
  {
    StatusTextIsWhole(h.status);
    if !h.status.Temporary? {
      StatusRoundTrip(h.status);
    }
  }

  // ---------------------------------------------------------------- the loaded list

  lemma {:induction false} ContentAscends(t: Tables, bound: int)
    ensures AscendingIds(Content(t, bound))
    decreases bound
  {
    if bound > 1 {
      ContentAscends(t, bound - 1);
      ContentIds(t, bound - 1);
    }
  }

  lemma {:induction false} ContentElements(t: Tables, bound: int, x: ReservationData)
    ensures x in Content(t, bound) <==>
            1 <= x.header.id < bound && Present(t, x.header.id) && x == Stored(t, x.header.id)
    decreases bound
  {
    if bound > 1 {
      ContentElements(t, bound - 1, x);
    }
  }

  lemma {:induction false} LoadedIsClean(t: Tables)
    requires WellFormed(t)
    ensures Linked(Content(t, t.nextId), t) && Clean(Content(t, t.nextId), t)
  {
    var view := Content(t, t.nextId);
    ContentAscends(t, t.nextId);
    forall x | x in view ensures Mirrors(t, x) && Storable(x) {
      ContentElements(t, t.nextId, x);
      TextIsWholeIff(t.reservations[x.header.id].description);
      KeptIff(x.header);
    }
    forall id | id in t.reservations && Present(t, id) ensures HasId(view, id) {
      PresentIsListed(t, id, t.nextId);
    }
  }

  // ---------------------------------------------------------------- the condition

  /** Lists that ascend and have the same elements are the same. */
  lemma {:induction false} SameElements(a: Items, b: Items)
    requires AscendingIds(a) && AscendingIds(b) && forall x :: x in a <==> x in b
    ensures a == b
    decreases |a|
  {
    assert |b| > 0 ==> b[0] in a;
    if |a| > 0 {
      assert a[0] in b;
      var fewer, fewer' := a[..|a| - 1], b[..|b| - 1];
      SameLastElement(a, b);
      forall x ensures x in fewer <==> x in fewer' {
        WithoutLastElement(a, b, x);
        WithoutLastElement(b, a, x);
      }
      SameElements(fewer, fewer');
      assert a == fewer + [Last(a)] && b == fewer' + [Last(b)];
    }
  }

  lemma SameLastElement(a: Items, b: Items)
    requires AscendingIds(a) && AscendingIds(b) && (forall x :: x in a <==> x in b) && |a| > 0 && |b| > 0
    ensures Last(a) == Last(b)
  {
    assert Last(a) in b && Last(b) in a;
    var i :| 0 <= i < |b| && b[i] == Last(a);
    var j :| 0 <= j < |a| && a[j] == Last(b);
  }

  lemma WithoutLastElement(a: Items, b: Items, x: ReservationData)
    requires AscendingIds(a) && (forall x :: x in a ==> x in b) && |a| > 0 && |b| > 0 && Last(a) == Last(b)
    ensures x in a[..|a| - 1] ==> x in b[..|b| - 1]
  {
    if x in a[..|a| - 1] {
      var i :| 0 <= i < |a| - 1 && a[i] == x;
      assert a[i] in a && a[i].header.id < Last(a).header.id;
      assert b == b[..|b| - 1] + [Last(b)];
    }
  }

  lemma {:induction false} CleanIsLoaded(view: Items, t: Tables)
    requires Linked(view, t) && Clean(view, t)
    ensures WellFormed(t) && Content(t, t.nextId) == view
  {
    forall x | x in view ensures Present(t, x.header.id) && Stored(t, x.header.id) == x && ValidAtoms(x.atoms) {
      assert Mirrors(t, x);
      KeptIff(x.header);
    }
    forall id | id in t.reservations && Present(t, id) ensures ValidAtoms(AtomsOfRows(AtomsFor(t.atoms, id))) {
      var i :| 0 <= i < |view| && view[i].header.id == id;
      assert view[i] in view;
    }
    forall x ensures x in Content(t, t.nextId) <==> x in view {
      ContentElements(t, t.nextId, x);
      if x in Content(t, t.nextId) {
        var i :| 0 <= i < |view| && view[i].header.id == x.header.id;
        assert view[i] in view;
      }
    }
    ContentAscends(t, t.nextId);
    SameElements(Content(t, t.nextId), view);
  }

  ghost predicate NoNulls(view: Items) {
    forall x :: x in view ==> NoNullAtoms(x.atoms)
  }

  lemma LoadedMeansClean(view: Items, t: Tables)
    requires IdsOk(t) && NoNulls(view) && LoadAll(t) == Ok(view)
    ensures Clean(view, t)
  {
    forall i | 0 <= i < |view| ensures Storable(view[i]) {
      assert view[i] in view;
      LoadedLooksLoaded(t, view[i]);
    }
    forall id | id in t.reservations && Present(t, id) ensures HasId(view, id) {
      LoadedMentions(t, id);
    }
  }

  // ---------------------------------------------------------------- operations

  lemma {:induction false} OverwriteElements(view: Items, item: ReservationData)
    requires AscendingIds(view)
    ensures AscendingIds(Overwrite(view, item)) && |Overwrite(view, item)| == |view|
    ensures forall i :: 0 <= i < |view| ==>
              Overwrite(view, item)[i] == if view[i].header.id == item.header.id then item else view[i]
  {
    if |view| > 0 {
      assert forall i :: 0 <= i < |view| - 1 ==> view[1..][i] == view[i + 1];
      OverwriteElements(view[1..], item);
    }
  }

  lemma {:induction false} ErasedAreGone(view: Items, ids: seq<int>, x: ReservationData)
    requires x in Erase(view, ids)
    ensures x in view && x.header.id !in ids
  {
    if x in Erase(view[1..], ids) {
      ErasedAreGone(view[1..], ids, x);
    }
  }

  lemma AscendingCons(first: ReservationData, rest: Items)
    requires AscendingIds(rest) && forall x :: x in rest ==> first.header.id < x.header.id
    ensures AscendingIds([first] + rest)
  {
    assert forall i :: 0 <= i < |rest| ==> rest[i] in rest;
  }

  lemma HeadIsLeast(view: Items, x: ReservationData)
    requires AscendingIds(view) && |view| > 0 && x in view[1..]
    ensures view[0].header.id < x.header.id
  {
    var i :| 0 <= i < |view[1..]| && view[1..][i] == x;
    assert view[i + 1] == x;
  }

  lemma {:induction false} EraseAscends(view: Items, ids: seq<int>)
    requires AscendingIds(view)
    ensures AscendingIds(Erase(view, ids))
  {
    if |view| > 0 {
      var rest := Erase(view[1..], ids);
      EraseAscends(view[1..], ids);
      forall x | x in rest ensures view[0].header.id < x.header.id {
        ErasedAreGone(view[1..], ids, x);
        HeadIsLeast(view, x);
      }
      AscendingCons(view[0], rest);
    }
  }

  lemma {:induction false} EraseElements(view: Items, ids: seq<int>)
    requires AscendingIds(view)
    ensures AscendingIds(Erase(view, ids))
    ensures forall x :: x in Erase(view, ids) ==> x in view && x.header.id !in ids
  {
    EraseAscends(view, ids);
    forall x | x in Erase(view, ids) ensures x in view && x.header.id !in ids {
      ErasedAreGone(view, ids, x);
    }
  }

  lemma StoreKeepsLinked(view: Items, t: Tables, r: ReservationData)
    requires Linked(view, t)
    ensures var (t', r') := StoreNew(t, r); Linked(view + [r'], t')
  {
    var (t', r') := StoreNew(t, r);
    forall x | x in view ensures x.header.id < t.nextId && Mirrors(t', x) {
      assert Mirrors(t, x);
      StoreNewKeepsOthers(t, r, x.header.id);
    }
    assert forall i :: 0 <= i < |view| ==> view[i] in view;
    StoreNewAddsAtoms(t, r);
    NumberedAtoms(r.atoms, t.nextId, t.nextAtomId);
    WrittenIsKept(r, r'.header);
    assert Mirrors(t', r');
  }

  lemma {:induction false} UpdateKeepsLinked(view: Items, t: Tables, r: ReservationData)
    requires Linked(view, t) && Matches(t, r.header)
    ensures var (t', r') := Update(t, r); Linked(Overwrite(view, r'), t')
  {
    var (t', r') := Update(t, r);
    OverwriteElements(view, r');
    UpdateReplacesAtoms(t, r);
    NumberedAtoms(r.atoms, r.header.id, t.nextAtomId);
    WrittenIsKept(r, r'.header);
    AtomsForWithout(t.atoms, r.header.id, r.header.id);
    assert Mirrors(t', r');
    forall x | x in Overwrite(view, r') ensures Mirrors(t', x) {
      if x != r' {
        var i :| 0 <= i < |view| && Overwrite(view, r')[i] == x;
        assert view[i] in view && Mirrors(t, x);
        UpdateKeepsOthers(t, r, x.header.id);
      }
    }
  }

  lemma {:induction false} DeleteKeepsLinked(view: Items, t: Tables, id: int)
    requires Linked(view, t)
    ensures Linked(Erase(view, [id]), Delete(t, id))
  {
    EraseElements(view, [id]);
    AtomsForWithout(t.atoms, id, id);
    forall x | x in Erase(view, [id]) ensures Mirrors(Delete(t, id), x) {
      assert Mirrors(t, x);
      AtomsForWithout(t.atoms, id, x.header.id);
    }
  }

  lemma ExecuteKeepsLinked(view: Items, store: Store, op: Operation)
    requires Linked(view, store.tables)
    ensures var out := Execute(store, op); Linked(Applied(view, out.change), out.store.tables)
  {
    match op
    case StoreItem(ReservationItem(r)) => StoreKeepsLinked(view, store.tables, r);
    case UpdateItem(ReservationItem(r)) =>
      if r.header.id != 0 && Matches(store.tables, r.header) {
        UpdateKeepsLinked(view, store.tables, r);
        OverwriteAllOne(view, Update(store.tables, r).1);
      }
    case DeleteItem(_, id) => DeleteKeepsLinked(view, store.tables, id);
    case _ =>
  }

  lemma {:induction false} OverwriteKeepsNoNulls(view: Items, item: ReservationData)
    requires AscendingIds(view) && NoNulls(view) && NoNullAtoms(item.atoms)
    ensures NoNulls(Overwrite(view, item))
  {
    OverwriteElements(view, item);
    forall x | x in Overwrite(view, item) ensures NoNullAtoms(x.atoms) {
      var i :| 0 <= i < |view| && Overwrite(view, item)[i] == x;
      assert view[i] in view;
    }
  }

  lemma ExecuteKeepsNoNulls(view: Items, store: Store, op: Operation)
    requires Linked(view, store.tables) && NoNulls(view) && CarriesNoNullPeriod(op)
    ensures NoNulls(Applied(view, Execute(store, op).change))
  {
    match op
    case UpdateItem(ReservationItem(r)) =>
      if r.header.id != 0 && Matches(store.tables, r.header) {
        OverwriteAllOne(view, Update(store.tables, r).1);
        OverwriteKeepsNoNulls(view, Update(store.tables, r).1);
      }
    case DeleteItem(_, id) => EraseElements(view, [id]);
    case _ =>
  }

  // ---------------------------------------------------------------- batches

  /** The list that observers show after a batch, if they showed the tables before. */
  function ShownAfter(store: Store, ops: seq<Operation>): Items {
    Replay(Loaded(store), RunBatch(store, ops).changes)
  }

  /** The exact condition for a committed batch to leave observers in step. */
  predicate CommitsInStep(store: Store, ops: seq<Operation>) {
    Clean(ShownAfter(store, ops), RunBatch(store, ops).store.tables)
  }

  ghost predicate CarryNoNullPeriods(ops: seq<Operation>) {
    forall i :: 0 <= i < |ops| ==> CarriesNoNullPeriod(ops[i])
  }

  lemma {:induction false} BatchKeepsLinked(view: Items, store: Store, ops: seq<Operation>)
    requires Linked(view, store.tables) && AllSuccessful(RunBatch(store, ops).results)
    ensures var run := RunBatch(store, ops);
            && Linked(Replay(view, run.changes), run.store.tables)
            && (NoNulls(view) && CarryNoNullPeriods(ops) ==> NoNulls(Replay(view, run.changes)))
    decreases |ops|
  {
    if |ops| > 0 {
      var run, out := RunBatch(store, ops), Execute(store, ops[0]);
      var rest := RunBatch(out.store, ops[1..]);
      assert run.results[0] == out.result;
      SuccessfulCons(out.result, rest.results);
      ExecuteKeepsLinked(view, store, ops[0]);
      if NoNulls(view) && CarryNoNullPeriods(ops) {
        ExecuteKeepsNoNulls(view, store, ops[0]);
      }
      BatchKeepsLinked(Applied(view, out.change), out.store, ops[1..]);
      if out.change.Some? {
        ReplayConcat(view, [out.change.value], rest.changes);
        ReplayOne(view, out.change.value);
      } else {
        assert run.changes == rest.changes;
      }
    }
  }

  /** A committed batch in step leaves well-formed tables, and loading them gives what observers show. */
  lemma {:induction false} CommitIsLoaded(store: Store, ops: seq<Operation>)
    requires WellFormed(store.tables) && AllSuccessful(RunBatch(store, ops).results) && CommitsInStep(store, ops)
    ensures var run := RunBatch(store, ops);
            && WellFormed(run.store.tables) && Loaded(run.store) == ShownAfter(store, ops)
            && LoadAll(run.store.tables) == Ok(ShownAfter(store, ops))
  {
    var run := RunBatch(store, ops);
    LoadedIsClean(store.tables);
    BatchKeepsLinked(Loaded(store), store, ops);
    CleanIsLoaded(ShownAfter(store, ops), run.store.tables);
    LoadAllIsContent(run.store.tables);
  }

  /** And the other way round, whatever the single operations of the batch do on the way. */
  lemma {:induction false} CommitInStepIff(store: Store, ops: seq<Operation>)
    requires WellFormed(store.tables) && AllSuccessful(RunBatch(store, ops).results) && CarryNoNullPeriods(ops)
    ensures LoadAll(RunBatch(store, ops).store.tables) == Ok(ShownAfter(store, ops)) <==> CommitsInStep(store, ops)
  {
    if CommitsInStep(store, ops) {
      CommitIsLoaded(store, ops);
    }
    if LoadAll(RunBatch(store, ops).store.tables) == Ok(ShownAfter(store, ops)) {
      LoadedIsClean(store.tables);
      assert NoNulls(Loaded(store)) by {
        assert forall i :: 0 <= i < |Loaded(store)| ==> Storable(Loaded(store)[i]);
      }
      BatchKeepsLinked(Loaded(store), store, ops);
      LoadedMeansClean(ShownAfter(store, ops), RunBatch(store, ops).store.tables);
    }
  }

  /** It is enough that every operation is in step when its turn comes. */
  lemma {:induction false} InStepCommitsInStep(store: Store, ops: seq<Operation>)
    requires WellFormed(store.tables) && AllSuccessful(RunBatch(store, ops).results) && BatchInStep(store, ops)
    ensures CommitsInStep(store, ops)
  {
    BatchEffect(store, ops);
    var t := RunBatch(store, ops).store.tables;
    LoadAllIsContent(t);
    LoadedIsClean(t);
  }
}
