/** What the answers to operations say: the identifiers they carry are those under which the tables and the
    published changes know the reservations, and revisions are good for one update. */
module Answers {
  import opened Common
  import opened Reservations
  import opened Storage
  import opened Changes
  import opened StorageEffects
  import opened Replication

  // ---------------------------------------------------------------- identifiers

  /** What loading lists: exactly the identifiers that have a row and atoms. */
  lemma ListedIff(store: Store, id: int)
    requires IdsOk(store.tables)
    ensures HasId(Loaded(store), id) <==> Present(store.tables, id)
  {
    if Present(store.tables, id) {
      PresentIsListed(store.tables, id, store.tables.nextId);
    } else {
      AbsentIsNotListed(store.tables, id, store.tables.nextId);
    }
  }

  lemma ExecuteKeepsIds(store: Store, op: Operation)
    requires IdsOk(store.tables)
    ensures IdsOk(Execute(store, op).store.tables)
  {
    match op
    case UpdateItem(ReservationItem(r)) => AtomsForWithout(store.tables.atoms, r.header.id, r.header.id);
    case DeleteItem(_, id) => AtomsForWithout(store.tables.atoms, id, id);
    case _ =>
  }

  /** The reservation as it was given but for the identifiers and the revision. */
  ghost predicate GivenAs(x: ReservationData, r: ReservationData, id: int, revision: int) {
    x.header == r.header.(id := id, revision := revision) && SameAtoms(x.atoms, r.atoms)
  }

  /** A new reservation is always stored. The answer carries an identifier that has never been seen since
      everything was last erased; it is published under that identifier, and loading then finds it there. */
  lemma StoreAnswersNewId(store: Store, r: ReservationData)
    requires IdsOk(store.tables)
    ensures var out := Execute(store, StoreItem(ReservationItem(r)));
            && out.result.Successful? && out.result.id.Some?
            && var id := out.result.id.value;
               && id !in store.tables.reservations && !HasId(Loaded(store), id)
               && (exists x :: out.change == Some(Added([x])) && GivenAs(x, r, id, 1))
               && (|r.atoms| > 0 ==> HasId(Loaded(out.store), id))
  {
    var out := Execute(store, StoreItem(ReservationItem(r)));
    var id := out.result.id.value;
    ListedIff(store, id);
    StoreNewAddsAtoms(store.tables, r);
    ExecuteKeepsIds(store, StoreItem(ReservationItem(r)));
    ListedIff(out.store, id);
    assert GivenAs(StoreNew(store.tables, r).1, r, id, 1);
  }

  /** And what loading finds under it is the reservation as it was given, if that can be stored. */
  lemma StoredUnderAnswer(store: Store, r: ReservationData)
    requires WellFormed(store.tables) && Storable(r)
    ensures var out := Execute(store, StoreItem(ReservationItem(r)));
            out.result.Successful? && out.result.id.Some? &&
            exists x :: GivenAs(x, r, out.result.id.value, 1) && LoadAll(out.store.tables) == Ok(Loaded(store) + [x])
  {
    var out := Execute(store, StoreItem(ReservationItem(r)));
    StoreNewEffect(store.tables, r);
    LoadAllIsContent(out.store.tables);
    assert GivenAs(StoreNew(store.tables, r).1, r, out.result.id.value, 1);
  }

  /** A deletion answers with the identifier it was asked for, which loading then does not find. */
  lemma DeleteAnswersItsId(store: Store, id: int)
    requires IdsOk(store.tables)
    ensures var out := Execute(store, DeleteItem(true, id));
            && out.result == Successful(Some(id)) && out.change == Some(Removed([id]))
            && forall other :: HasId(Loaded(out.store), other) <==> other != id && HasId(Loaded(store), other)
  {
    var out := Execute(store, DeleteItem(true, id));
    ExecuteKeepsIds(store, DeleteItem(true, id));
    forall other ensures HasId(Loaded(out.store), other) <==> other != id && HasId(Loaded(store), other) {
      AtomsForWithout(store.tables.atoms, id, other);
      ListedIff(store, other);
      ListedIff(out.store, other);
    }
  }

  /** What an answer says, by the kind of operation. */
  ghost predicate Meant(before: Store, op: Operation, result: TaskResult, after: Store) {
    result.Successful? ==>
    match op
    case StoreItem(ReservationItem(r)) =>
      && result.id.Some? && !HasId(Loaded(before), result.id.value)
      && (|r.atoms| > 0 ==> HasId(Loaded(after), result.id.value))
    case DeleteItem(_, id) => result.id == Some(id) && !HasId(Loaded(after), id)
    case _ => result.id.None?
  }

  lemma AnswerIsMeant(store: Store, op: Operation)
    requires IdsOk(store.tables)
    ensures Meant(store, op, Execute(store, op).result, Execute(store, op).store)
  {
    match op
    case StoreItem(ReservationItem(r)) => StoreAnswersNewId(store, r);
    case DeleteItem(isReservation, id) =>
      if isReservation {
        DeleteAnswersItsId(store, id);
      }
    case _ =>
  }

  // ---------------------------------------------------------------- batches

  lemma {:induction false} BatchKeepsIds(store: Store, ops: seq<Operation>)
    requires IdsOk(store.tables)
    ensures IdsOk(RunBatch(store, ops).store.tables)
    decreases |ops|
  {
    if |ops| > 0 {
      ExecuteKeepsIds(store, ops[0]);
      BatchKeepsIds(Execute(store, ops[0]).store, ops[1..]);
    }
  }

  /** Each result of a batch is that of its own operation, on the tables that the ones before it have left. */
  lemma {:induction false} ResultAt(store: Store, ops: seq<Operation>, i: nat)
    requires i < |RunBatch(store, ops).results|
    ensures i < |ops|
    ensures var out := Execute(RunBatch(store, ops[..i]).store, ops[i]);
            RunBatch(store, ops).results[i] == out.result && RunBatch(store, ops[..i + 1]).store == out.store
    decreases |ops|
  {
    var out := Execute(store, ops[0]);
    assert RunBatch(store, ops[..0]).store == store;
    if i == 0 {
      assert ops[..1][0] == ops[0] && ops[..1][1..] == [];
      assert RunBatch(out.store, ops[..1][1..]).store == out.store;
    } else {
      ResultAt(out.store, ops[1..], i - 1);
      assert ops[..i][0] == ops[0] && ops[..i][1..] == ops[1..][..i - 1];
      assert ops[..i + 1][0] == ops[0] && ops[..i + 1][1..] == ops[1..][..i];
    }
  }

  /** So the answers of a batch mean what those of its operations mean, by position. */
  lemma {:induction false} AnswersAreMeant(store: Store, ops: seq<Operation>, i: nat)
    requires IdsOk(store.tables) && i < |RunBatch(store, ops).results|
    ensures i < |ops|
    ensures Meant(RunBatch(store, ops[..i]).store, ops[i], RunBatch(store, ops).results[i],
                  RunBatch(store, ops[..i + 1]).store)
  {
    ResultAt(store, ops, i);
    BatchKeepsIds(store, ops[..i]);
    AnswerIsMeant(RunBatch(store, ops[..i]).store, ops[i]);
  }

  predicate StoresReservation(op: Operation) { op.StoreItem? && op.item.ReservationItem? }

  lemma {:induction false} NextIdGrows(store: Store, ops: seq<Operation>, i: nat, j: nat)
    requires i <= j <= |RunBatch(store, ops).results| <= |ops|
    requires forall k :: i <= k < j ==> !ops[k].EraseAllData?
    ensures RunBatch(store, ops[..i]).store.tables.nextId <= RunBatch(store, ops[..j]).store.tables.nextId
    decreases j
  {
    if i < j {
      NextIdGrows(store, ops, i, j - 1);
      ResultAt(store, ops, j - 1);
      OneMayGrow(RunBatch(store, ops[..j - 1]).store, ops[j - 1]);
    }
  }

  lemma OneMayGrow(store: Store, op: Operation)
    requires !op.EraseAllData?
    ensures store.tables.nextId <= Execute(store, op).store.tables.nextId
  {
  }

  /** Within a batch no identifier is given out twice, unless everything is erased in between. */
  lemma {:induction false} IdsAreGivenOnce(store: Store, ops: seq<Operation>, i: nat, j: nat)
    requires i < j < |RunBatch(store, ops).results| <= |ops|
    requires StoresReservation(ops[i]) && StoresReservation(ops[j])
    requires forall k :: i < k < j ==> !ops[k].EraseAllData?
    ensures var results := RunBatch(store, ops).results;
            && results[i].Successful? && results[j].Successful? && results[i].id.Some? && results[j].id.Some?
            && results[i].id.value < results[j].id.value
  {
    ResultAt(store, ops, i);
    ResultAt(store, ops, j);
    NextIdGrows(store, ops, i + 1, j);
  }

  // ---------------------------------------------------------------- revisions

  /** The reservation that a successful operation has published, if it has. */
  function PublishedItem(out: Outcome): Option<ReservationData> {
    match out.change
    case Some(Added(items)) => if |items| > 0 then Some(items[0]) else None
    case Some(Updated(items)) => if |items| > 0 then Some(items[0]) else None
    case _ => None
  }

  /** Exactly the published revision can be updated next, whatever the update carries. */
  lemma PublishedIsUpdatableIff(store: Store, op: Operation, y: ReservationData)
    requires IdsOk(store.tables) && PublishedItem(Execute(store, op)).Some?
    requires y.header.id == PublishedItem(Execute(store, op)).value.header.id
    ensures Execute(Execute(store, op).store, UpdateItem(ReservationItem(y))).result.Successful?
            <==> y.header.revision == PublishedItem(Execute(store, op)).value.header.revision
  {
    ExecuteKeepsIds(store, op);
  }

  /** An update succeeds exactly if the tables have the revision it was made from, and is published as the
      next one under the same identifier; one that fails changes and publishes nothing. */
  lemma UpdateSucceedsIff(store: Store, r: ReservationData)
    requires IdsOk(store.tables)
    ensures var out, rows := Execute(store, UpdateItem(ReservationItem(r))), store.tables.reservations;
            if r.header.id in rows && rows[r.header.id].revision == r.header.revision then
              && out.result == Successful(None)
              && exists x :: out.change == Some(Updated([x])) && GivenAs(x, r, r.header.id, r.header.revision + 1)
            else out.result.Error? && out.store == store && out.change.None?
  {
    var out := Execute(store, UpdateItem(ReservationItem(r)));
    if Matches(store.tables, r.header) {
      var x := Update(store.tables, r).1;
      assert out.change == Some(Updated([x])) && GivenAs(x, r, r.header.id, r.header.revision + 1);
    }
  }

  // ---------------------------------------------------------------- the identifiers of atoms

  /** No two atom rows have the same identifier, and the next one is still unused. */
  ghost predicate AtomIdsOk(t: Tables) {
    && (forall i :: 0 <= i < |t.atoms| ==> t.atoms[i].id < t.nextAtomId)
    && (forall i, j :: 0 <= i < j < |t.atoms| ==> t.atoms[i].id != t.atoms[j].id)
  }

  lemma {:induction false} RemainingIds(rows: seq<AtomRow>, gone: int)
    requires forall i, j :: 0 <= i < j < |rows| ==> rows[i].id != rows[j].id
    ensures var left := WithoutAtoms(rows, gone);
            forall i, j :: 0 <= i < j < |left| ==> left[i].id != left[j].id
  {
    if |rows| > 0 {
      var tail := WithoutAtoms(rows[1..], gone);
      RemainingIds(rows[1..], gone);
      AtomsForWithout(rows[1..], gone, gone);
      forall j | 0 <= j < |tail| ensures tail[j].id != rows[0].id {
        assert tail[j] in rows[1..];
      }
      var left := WithoutAtoms(rows, gone);
      assert left == tail || left == [rows[0]] + tail;
    }
  }

  lemma AppendedIds(t: Tables, rows: seq<AtomRow>, atoms: seq<Atom>, id: int)
    requires AtomIdsOk(t.(atoms := rows))
    ensures AtomIdsOk(t.(atoms := rows + AtomRows(atoms, id, t.nextAtomId), nextAtomId := t.nextAtomId + |atoms|))
  {
  }

  /** Every operation keeps the identifiers of the atoms apart. */
  lemma ExecuteKeepsAtomIds(store: Store, op: Operation)
    requires AtomIdsOk(store.tables)
    ensures AtomIdsOk(Execute(store, op).store.tables)
  {
    var t := store.tables;
    match op
    case StoreItem(ReservationItem(r)) => AppendedIds(t, t.atoms, r.atoms, t.nextId);
    case UpdateItem(ReservationItem(r)) =>
      FewerKeepAtomIds(t, r.header.id);
      AppendedIds(t, WithoutAtoms(t.atoms, r.header.id), r.atoms, r.header.id);
    case DeleteItem(_, id) => FewerKeepAtomIds(t, id);
    case _ =>
  }

  lemma {:induction false} FewerKeepAtomIds(t: Tables, gone: int)
    requires AtomIdsOk(t)
    ensures AtomIdsOk(t.(atoms := WithoutAtoms(t.atoms, gone)))
  {
    RemainingIds(t.atoms, gone);
    AtomsForWithout(t.atoms, gone, gone);
    var left := WithoutAtoms(t.atoms, gone);
    forall i | 0 <= i < |left| ensures left[i].id < t.nextAtomId {
      assert left[i] in t.atoms;
    }
  }

  /** And the atoms of what is published have the identifiers of their rows, none of which was in use. */
  lemma PublishedAtomsAreRows(store: Store, op: Operation, k: nat)
    requires AtomIdsOk(store.tables) && PublishedItem(Execute(store, op)).Some?
    requires k < |PublishedItem(Execute(store, op)).value.atoms|
    ensures var out := Execute(store, op);
            var x := PublishedItem(out).value;
            && (exists i | 0 <= i < |out.store.tables.atoms| ::
                  var row := out.store.tables.atoms[i];
                  && row.id == x.atoms[k].id && row.reservationId == x.header.id
                  && row.roomId == x.atoms[k].roomId && Period(row.dateFrom, row.dateTo) == x.atoms[k].range)
            && (forall i :: 0 <= i < |store.tables.atoms| ==> store.tables.atoms[i].id != x.atoms[k].id)
  {
    var out := Execute(store, op);
    var x := PublishedItem(out).value;
    var i := |out.store.tables.atoms| - |x.atoms| + k;
    assert out.store.tables.atoms[i].id == x.atoms[k].id;
  }
}
