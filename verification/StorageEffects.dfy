/** What each write to the tables does to the list that loading returns, and exactly when that is what the
    published change does to an observer's list. */
module StorageEffects {
  import opened Common
  import opened Reservations
  import opened Storage
  import opened Changes

  /** What the tables can give back unchanged: valid atoms, no owner, a status with a text of its own, and a
      description without NUL. */
  predicate Storable(r: ReservationData) {
    ValidAtoms(r.atoms) && Plain(r.header)
  }

  predicate Plain(h: Header) {
    h.ownerPersonId.None? && !h.status.Temporary? && NoNul(h.description)
  }

  /** A header comes back from its row exactly if it is plain. */
  lemma HeaderRoundTrip(h: Header, atoms: seq<Atom>)
    ensures HeaderOf(h.id, RowOf(ReservationData(h, atoms), h.revision)) == h <==> Plain(h)
  {
    StatusRoundTrip(h.status);
    StatusTextIsWhole(h.status);
    TextIsWholeIff(h.description);
  }

  predicate NoNullAtoms(atoms: seq<Atom>) {
    forall i :: 0 <= i < |atoms| ==> !atoms[i].range.IsNull()
  }

  // ---------------------------------------------------------------- the table of atoms

  lemma {:induction false} AtomsForConcat(a: seq<AtomRow>, b: seq<AtomRow>, id: int)
    ensures AtomsFor(a + b, id) == AtomsFor(a, id) + AtomsFor(b, id)
    decreases |a|
  {
    if |a| == 0 {
      assert a + b == b;
    } else {
      assert (a + b)[1..] == a[1..] + b;
      AtomsForConcat(a[1..], b, id);
      var first := if a[0].reservationId == id then [a[0]] else [];
      var mine, theirs := AtomsFor(a[1..], id), AtomsFor(b, id);
      calc {
        AtomsFor(a + b, id);
        first + (mine + theirs);
        (first + mine) + theirs;
        AtomsFor(a, id) + theirs;
      }
    }
  }

  lemma {:induction false} AtomsForUniform(rows: seq<AtomRow>, owner: int, id: int)
    requires forall i :: 0 <= i < |rows| ==> rows[i].reservationId == owner
    ensures AtomsFor(rows, id) == if id == owner then rows else []
  {
    if |rows| > 0 {
      AtomsForUniform(rows[1..], owner, id);
    }
  }

  lemma {:induction false} AtomsForWithout(rows: seq<AtomRow>, gone: int, id: int)
    ensures AtomsFor(WithoutAtoms(rows, gone), id) == if id == gone then [] else AtomsFor(rows, id)
    ensures forall i :: 0 <= i < |WithoutAtoms(rows, gone)| ==> WithoutAtoms(rows, gone)[i] in rows
  {
    if |rows| > 0 {
      var rest := WithoutAtoms(rows[1..], gone);
      AtomsForWithout(rows[1..], gone, id);
      assert ([rows[0]] + rest)[1..] == rest && [] + rest == rest;
      forall i | 0 <= i < |rest| ensures rest[i] in rows {
        assert rest[i] in rows[1..];
      }
    }
  }

  lemma {:induction false} NoAtomsBeyond(rows: seq<AtomRow>, id: int)
    requires forall i :: 0 <= i < |rows| ==> rows[i].reservationId < id
    ensures AtomsFor(rows, id) == []
  {
    if |rows| > 0 {
      NoAtomsBeyond(rows[1..], id);
    }
  }

  lemma NumberedAtoms(atoms: seq<Atom>, reservationId: int, firstId: int)
    ensures AtomsOfRows(AtomRows(atoms, reservationId, firstId)) == Numbered(atoms, firstId)
    ensures ValidAtoms(Numbered(atoms, firstId)) <==> ValidAtoms(atoms)
  {
    var n := Numbered(atoms, firstId);
    forall i | 0 <= i < |atoms|
      ensures n[i].range == atoms[i].range && n[i] == Atom(firstId + i, atoms[i].roomId, atoms[i].range)
    {
    }
    if ValidAtoms(n) {
      forall i | 0 <= i < |atoms| ensures !atoms[i].range.IsNull() {
        assert n[i].range == atoms[i].range;
      }
      forall i | 1 <= i < |atoms| ensures atoms[i - 1].range.end == atoms[i].range.begin {
        assert n[i - 1].range.end == n[i].range.begin;
      }
    }
  }

  // ---------------------------------------------------------------- the list of reservations

  ghost predicate Alike(t: Tables, t': Tables, id: int) {
    (Present(t, id) <==> Present(t', id)) && (Present(t, id) ==> Stored(t, id) == Stored(t', id))
  }

  lemma {:induction false} ContentAlike(t: Tables, t': Tables, bound: int)
    requires forall id :: 1 <= id < bound ==> Alike(t, t', id)
    ensures Content(t, bound) == Content(t', bound)
    decreases bound
  {
    if bound > 1 {
      ContentAlike(t, t', bound - 1);
      assert Alike(t, t', bound - 1);
    }
  }

  predicate HasId(view: Items, id: int) {
    exists i :: 0 <= i < |view| && view[i].header.id == id
  }

  lemma {:induction false} OverwriteSnoc(a: Items, x: ReservationData, item: ReservationData)
    ensures x.header.id != item.header.id ==> Overwrite(a + [x], item) == Overwrite(a, item) + [x]
    ensures x.header.id == item.header.id && !HasId(a, item.header.id) ==> Overwrite(a + [x], item) == a + [item]
  {
    if |a| > 0 {
      assert (a + [x])[1..] == a[1..] + [x];
      OverwriteSnoc(a[1..], x, item);
      assert forall i :: 0 <= i < |a[1..]| ==> a[1..][i] == a[i + 1];
    }
  }

  lemma {:induction false} EraseSnoc(a: Items, x: ReservationData, ids: seq<int>)
    ensures Erase(a + [x], ids) == Erase(a, ids) + if x.header.id in ids then [] else [x]
  {
    if |a| > 0 {
      assert (a + [x])[1..] == a[1..] + [x];
      EraseSnoc(a[1..], x, ids);
    } else {
      assert a + [x] == [x] && [x][1..] == [];
    }
  }

  /** One reservation replaced. */
  lemma {:induction false} ContentOverwritten(t: Tables, t': Tables, bound: int, item: ReservationData)
    requires var id := item.header.id; Present(t, id) && Present(t', id) && Stored(t', id) == item
    requires forall id :: 1 <= id < bound && id != item.header.id ==> Alike(t, t', id)
    ensures Content(t', bound) == Overwrite(Content(t, bound), item)
    decreases bound
  {
    if bound > 1 {
      var id, c := bound - 1, Content(t, bound - 1);
      ContentOverwritten(t, t', id, item);
      ContentIds(t, id);
      if id != item.header.id {
        assert Alike(t, t', id);
      }
      if Present(t, id) {
        OverwriteSnoc(c, Stored(t, id), item);
        if id == item.header.id {
          assert !HasId(c, id);
          ContentUntouched(t, t', id, item.header.id);
        }
      } else {
        assert c + [] == c;
      }
    }
  }

  lemma {:induction false} ContentUntouched(t: Tables, t': Tables, bound: int, touched: int)
    requires bound <= touched && forall id :: 1 <= id < bound && id != touched ==> Alike(t, t', id)
    ensures Content(t, bound) == Content(t', bound)
  {
    ContentAlike(t, t', bound);
  }

  /** One reservation gone. */
  lemma {:induction false} ContentErased(t: Tables, t': Tables, bound: int, gone: int)
    requires !Present(t', gone)
    requires forall id :: 1 <= id < bound && id != gone ==> Alike(t, t', id)
    ensures Content(t', bound) == Erase(Content(t, bound), [gone])
    decreases bound
  {
    if bound > 1 {
      var id, c := bound - 1, Content(t, bound - 1);
      ContentErased(t, t', id, gone);
      if id != gone {
        assert Alike(t, t', id);
      }
      if Present(t, id) {
        EraseSnoc(c, Stored(t, id), [gone]);
      } else {
        assert c + [] == c;
      }
    }
  }

  // ---------------------------------------------------------------- the effects

  lemma {:induction false} StoreNewKeepsOthers(t: Tables, r: ReservationData, id: int)
    requires IdsOk(t) && id != t.nextId
    ensures Alike(t, StoreNew(t, r).0, id)
    ensures AtomsFor(StoreNew(t, r).0.atoms, id) == AtomsFor(t.atoms, id)
  {
    AtomsForConcat(t.atoms, AtomRows(r.atoms, t.nextId, t.nextAtomId), id);
    AtomsForUniform(AtomRows(r.atoms, t.nextId, t.nextAtomId), t.nextId, id);
  }

  lemma StoreNewAddsAtoms(t: Tables, r: ReservationData)
    requires IdsOk(t)
    ensures AtomsFor(StoreNew(t, r).0.atoms, t.nextId) == AtomRows(r.atoms, t.nextId, t.nextAtomId)
  {
    AtomsForConcat(t.atoms, AtomRows(r.atoms, t.nextId, t.nextAtomId), t.nextId);
    AtomsForUniform(AtomRows(r.atoms, t.nextId, t.nextAtomId), t.nextId, t.nextId);
    NoAtomsBeyond(t.atoms, t.nextId);
  }

  lemma {:induction false} StoreNewEffect(t: Tables, r: ReservationData)
    requires WellFormed(t) && Storable(r)
    ensures var (t', r') := StoreNew(t, r);
            WellFormed(t') && Content(t', t'.nextId) == Content(t, t.nextId) + [r']
  {
    var (t', r') := StoreNew(t, r);
    StoreNewAddsAtoms(t, r);
    NumberedAtoms(r.atoms, t.nextId, t.nextAtomId);
    HeaderRoundTrip(r'.header, r'.atoms);
    assert Stored(t', t.nextId) == r';
    forall id | id != t.nextId ensures Alike(t, t', id) && AtomsFor(t'.atoms, id) == AtomsFor(t.atoms, id) {
      StoreNewKeepsOthers(t, r, id);
    }
    ContentAlike(t, t', t.nextId);
  }

  /** Storing a list of reservations, one after another. */
  function StoreAll(list: Items): (Tables, Items) {
    if |list| == 0 then (EMPTY, [])
    else
      var (t, stored) := StoreAll(list[..|list| - 1]);
      var (t', r) := StoreNew(t, Last(list));
      (t', stored + [r])
  }

  /** What comes back is what was stored, with the identifiers it has been given. */
  ghost predicate Returned(list: Items, stored: Items) {
    |stored| == |list| &&
    forall i :: 0 <= i < |list| ==>
      stored[i].header == list[i].header.(id := i + 1, revision := 1) && SameAtoms(stored[i].atoms, list[i].atoms)
  }

  lemma {:induction false} StoreAllContent(list: Items)
    requires forall i :: 0 <= i < |list| ==> Storable(list[i])
    ensures var (t, stored) := StoreAll(list);
            WellFormed(t) && t.nextId == |list| + 1 && Content(t, t.nextId) == stored && Returned(list, stored)
  {
    if |list| > 0 {
      var before := list[..|list| - 1];
      var (t, stored) := StoreAll(before);
      StoreAllContent(before);
      StoreNewEffect(t, Last(list));
      var all := StoreAll(list).1;
      assert all == stored + [StoreNew(t, Last(list)).1];
      forall i | 0 <= i < |list|
        ensures all[i].header == list[i].header.(id := i + 1, revision := 1) && SameAtoms(all[i].atoms, list[i].atoms)
      {
        if i < |before| {
          assert all[i] == stored[i] && list[i] == before[i];
        } else {
          assert all[i] == StoreNew(t, Last(list)).1;
        }
      }
    }
  }

  /** Every list of storable reservations survives being flattened into rows, however the rows of the atoms
      then lie in the table: loading orders and regroups them into the list. */
  lemma {:induction false} ListRoundTrip(list: Items, rows: seq<AtomRow>)
    requires forall i :: 0 <= i < |list| ==> Storable(list[i])
    requires multiset(rows) == multiset(StoreAll(list).0.atoms)
    ensures var (t, stored) := StoreAll(list);
            LoadAll(t.(atoms := rows)) == Ok(stored) && Returned(list, stored)
  {
    var t := StoreAll(list).0;
    StoreAllContent(list);
    ShuffledLoadsAlike(t, t.(atoms := rows), 0);
  }

  lemma {:induction false} UpdateKeepsOthers(t: Tables, r: ReservationData, id: int)
    requires Matches(t, r.header) && id != r.header.id
    ensures Alike(t, Update(t, r).0, id)
    ensures AtomsFor(Update(t, r).0.atoms, id) == AtomsFor(t.atoms, id)
  {
    var rows := AtomRows(r.atoms, r.header.id, t.nextAtomId);
    AtomsForConcat(WithoutAtoms(t.atoms, r.header.id), rows, id);
    AtomsForUniform(rows, r.header.id, id);
    AtomsForWithout(t.atoms, r.header.id, id);
  }

  lemma UpdateReplacesAtoms(t: Tables, r: ReservationData)
    requires Matches(t, r.header)
    ensures AtomsFor(Update(t, r).0.atoms, r.header.id) == AtomRows(r.atoms, r.header.id, t.nextAtomId)
  {
    var rows, id := AtomRows(r.atoms, r.header.id, t.nextAtomId), r.header.id;
    AtomsForConcat(WithoutAtoms(t.atoms, id), rows, id);
    AtomsForUniform(rows, id, id);
    AtomsForWithout(t.atoms, id, id);
    assert [] + rows == rows;
  }

  lemma UpdateKeepsWellFormed(t: Tables, r: ReservationData)
    requires WellFormed(t) && Matches(t, r.header) && (|r.atoms| == 0 || ValidAtoms(r.atoms))
    ensures WellFormed(Update(t, r).0)
  {
    var t', id := Update(t, r).0, r.header.id;
    UpdateReplacesAtoms(t, r);
    NumberedAtoms(r.atoms, id, t.nextAtomId);
    AtomsForWithout(t.atoms, id, id);
    forall other | other in t'.reservations && other != id
      ensures AtomsFor(t'.atoms, other) == AtomsFor(t.atoms, other)
    {
      UpdateKeepsOthers(t, r, other);
    }
  }

  lemma {:induction false} UpdateEffect(t: Tables, r: ReservationData)
    requires WellFormed(t) && Matches(t, r.header) && Present(t, r.header.id) && Storable(r)
    ensures var (t', r') := Update(t, r);
            WellFormed(t') && Content(t', t'.nextId) == Overwrite(Content(t, t.nextId), r')
  {
    var (t', r') := Update(t, r);
    UpdateKeepsWellFormed(t, r);
    UpdateReplacesAtoms(t, r);
    NumberedAtoms(r.atoms, r.header.id, t.nextAtomId);
    HeaderRoundTrip(r'.header, r'.atoms);
    assert Stored(t', r.header.id) == r';
    forall id | 1 <= id < t.nextId && id != r.header.id ensures Alike(t, t', id) {
      UpdateKeepsOthers(t, r, id);
    }
    ContentOverwritten(t, t', t.nextId, r');
  }

  lemma {:induction false} DeleteEffect(t: Tables, id: int)
    requires WellFormed(t)
    ensures var t' := Delete(t, id);
            WellFormed(t') && Content(t', t'.nextId) == Erase(Content(t, t.nextId), [id])
  {
    var t' := Delete(t, id);
    forall other ensures AtomsFor(t'.atoms, other) == if other == id then [] else AtomsFor(t.atoms, other) {
      AtomsForWithout(t.atoms, id, other);
    }
    AtomsForWithout(t.atoms, id, id);
    forall other | other != id ensures Alike(t, t', other) {
    }
    ContentErased(t, t', t.nextId, id);
  }

  // ---------------------------------------------------------------- and the converse

  /** Whatever loading returns could have been stored. */
  lemma {:induction false} FoldIsContiguous(rows: seq<JoinedRow>, current: Option<ReservationData>, done: Items)
    requires forall x :: x in done || current == Some(x) ==> LooksLoaded(x)
    ensures var r := Fold(rows, current, done); r.Ok? ==> forall x :: x in r.value ==> LooksLoaded(x)
    decreases |rows|
  {
    if |rows| > 0 {
      LoadedIsPlain(rows[0]);
      if current.None? {
        FoldIsContiguous(rows[1..], Some(Started(rows[0])), done);
      } else if current.value.header.id != rows[0].id {
        FoldIsContiguous(rows[1..], Some(Started(rows[0])), done + [current.value]);
      } else {
        var longer := Continued(current.value, rows[0]);
        if longer.Ok? {
          assert LooksLoaded(current.value);
          FoldIsContiguous(rows[1..], Some(longer.value), done);
        }
      }
    }
  }

  ghost predicate LooksLoaded(r: ReservationData) {
    |r.atoms| > 0 && Contiguous(r.atoms) && Plain(r.header)
  }

  lemma LoadedIsPlain(j: JoinedRow)
    ensures Plain(Started(j).header)
  {
    TextIsWholeIff(j.row.description);
  }

  lemma LoadedLooksLoaded(t: Tables, x: ReservationData)
    requires LoadAll(t).Ok? && x in LoadAll(t).value
    ensures LooksLoaded(x)
  {
    FoldIsContiguous(RowsBelow(t, t.nextId), None, []);
  }

  lemma LoadedIsStorable(r: ReservationData, firstId: int, h: Header)
    requires NoNullAtoms(r.atoms) && LooksLoaded(ReservationData(h, Numbered(r.atoms, firstId)))
    requires h.ownerPersonId == r.header.ownerPersonId && h.status == r.header.status
    requires h.description == r.header.description
    ensures Storable(r)
  {
    var n := Numbered(r.atoms, firstId);
    forall i | 1 <= i < |r.atoms| ensures r.atoms[i - 1].range.end == r.atoms[i].range.begin {
      assert n[i - 1].range.end == n[i].range.begin;
    }
  }

  /** Storing: an observer that adds the published reservation shows what loading returns, exactly if the
      reservation is storable. (A null period, which only the first atom of a reservation can be given, may
      leave the order of its rows open.) */
  lemma {:induction false} StoreNewInStepIff(t: Tables, r: ReservationData)
    requires WellFormed(t) && NoNullAtoms(r.atoms)
    ensures var (t', r') := StoreNew(t, r);
            LoadAll(t') == Ok(Apply(Content(t, t.nextId), Added([r']))) <==> Storable(r)
  {
    var (t', r') := StoreNew(t, r);
    var view' := Apply(Content(t, t.nextId), Added([r']));
    if Storable(r) {
      StoreNewEffect(t, r);
      LoadAllIsContent(t');
    }
    if LoadAll(t') == Ok(view') {
      assert r' in view';
      LoadedLooksLoaded(t', r');
      LoadedIsStorable(r, t.nextAtomId, r'.header);
    }
  }

  /** An update that finds its row is in step exactly if it neither brings back a deleted reservation nor
      empties an existing one, and what it stores is storable. */
  predicate UpdateInStep(t: Tables, r: ReservationData) {
    if |r.atoms| == 0 then !Present(t, r.header.id) else Present(t, r.header.id) && Storable(r)
  }

  lemma {:induction false} UpdateInStepIff(t: Tables, r: ReservationData)
    requires WellFormed(t) && Matches(t, r.header) && NoNullAtoms(r.atoms)
    ensures var (t', r') := Update(t, r);
            LoadAll(t') == Ok(Apply(Content(t, t.nextId), Updated([r']))) <==> UpdateInStep(t, r)
  {
    var (t', r') := Update(t, r);
    var view, view' := Content(t, t.nextId), Apply(Content(t, t.nextId), Updated([r']));
    OverwriteAllOne(view, r');
    if UpdateInStep(t, r) {
      UpdateInStepHolds(t, r);
    }
    if LoadAll(t') == Ok(view') {
      if Present(t, r.header.id) {
        PresentIsListed(t, r.header.id, t.nextId);
        OverwrittenIsThere(view, r');
        LoadedLooksLoaded(t', r');
        LoadedIsStorable(r, t.nextAtomId, r'.header);
      } else {
        AbsentIsNotListed(t, r.header.id, t.nextId);
        OverwriteAbsent(view, r');
        if |r.atoms| > 0 {
          UpdateReplacesAtoms(t, r);
          LoadedMentions(t', r.header.id);
        }
      }
    }
  }

  lemma {:induction false} OverwriteAllOne(view: Items, item: ReservationData)
    ensures OverwriteAll(view, [item]) == Overwrite(view, item)
  {
    assert [item][0] == item && [item][1..] == [];
    assert OverwriteAll(Overwrite(view, item), []) == Overwrite(view, item);
  }

  lemma {:induction false} UpdateInStepHolds(t: Tables, r: ReservationData)
    requires WellFormed(t) && Matches(t, r.header) && UpdateInStep(t, r)
    ensures var (t', r') := Update(t, r);
            WellFormed(t') && LoadAll(t') == Ok(Overwrite(Content(t, t.nextId), r'))
            && Content(t', t'.nextId) == Overwrite(Content(t, t.nextId), r')
  {
    var (t', r') := Update(t, r);
    UpdateKeepsWellFormed(t, r);
    if |r.atoms| == 0 {
      UpdateReplacesAtoms(t, r);
      forall id ensures Alike(t, t', id) {
        if id != r.header.id {
          UpdateKeepsOthers(t, r, id);
        }
      }
      ContentAlike(t, t', t.nextId);
      AbsentIsNotListed(t, r.header.id, t.nextId);
      OverwriteAbsent(Content(t, t.nextId), r');
    } else {
      UpdateEffect(t, r);
    }
    LoadAllIsContent(t');
  }

  lemma {:induction false} OverwriteAbsent(view: Items, item: ReservationData)
    requires !HasId(view, item.header.id)
    ensures Overwrite(view, item) == view
  {
    if |view| > 0 {
      assert view[0].header.id != item.header.id;
      assert forall i :: 0 <= i < |view[1..]| ==> view[1..][i] == view[i + 1];
      OverwriteAbsent(view[1..], item);
    }
  }

  lemma {:induction false} OverwrittenIsThere(view: Items, item: ReservationData)
    requires HasId(view, item.header.id)
    ensures item in Overwrite(view, item)
  {
    if view[0].header.id != item.header.id {
      var i :| 0 <= i < |view| && view[i].header.id == item.header.id;
      assert view[1..][i - 1] == view[i];
      OverwrittenIsThere(view[1..], item);
    }
  }

  lemma {:induction false} PresentIsListed(t: Tables, id: int, bound: int)
    requires Present(t, id) && 1 <= id < bound
    ensures HasId(Content(t, bound), id)
    decreases bound
  {
    var c, before := Content(t, bound), Content(t, bound - 1);
    if id == bound - 1 {
      assert c[|before|].header.id == id;
    } else {
      PresentIsListed(t, id, bound - 1);
      var i :| 0 <= i < |before| && before[i].header.id == id;
      assert c[i] == before[i];
    }
  }

  lemma {:induction false} AbsentIsNotListed(t: Tables, id: int, bound: int)
    requires !Present(t, id)
    ensures !HasId(Content(t, bound), id)
    decreases bound
  {
    if bound > 1 {
      AbsentIsNotListed(t, id, bound - 1);
    }
  }

  /** Loading loses no reservation that has rows. */
  lemma LoadedMentions(t: Tables, id: int)
    requires Present(t, id) && 1 <= id < t.nextId && LoadAll(t).Ok?
    ensures HasId(LoadAll(t).value, id)
  {
    var rows := RowsBelow(t, t.nextId);
    SortKeepsLength(AtomsFor(t.atoms, id));
    RowsAreBelow(t, id, t.nextId);
    FoldMentions(rows, None, [], id);
  }

  lemma {:induction false} SortKeepsLength(rows: seq<AtomRow>)
    ensures |SortByFrom(rows)| == |rows|
  {
    if |rows| > 0 {
      SortKeepsLength(rows[..|rows| - 1]);
      InsertKeepsLength(SortByFrom(rows[..|rows| - 1]), Last(rows));
    }
  }

  lemma {:induction false} InsertKeepsLength(rows: seq<AtomRow>, row: AtomRow)
    ensures |InsertByFrom(rows, row)| == |rows| + 1
  {
    if |rows| > 0 {
      InsertKeepsLength(rows[..|rows| - 1], row);
    }
  }

  lemma {:induction false} RowsAreBelow(t: Tables, id: int, bound: int)
    requires |RowsById(t, id)| > 0 && 1 <= id < bound
    ensures exists i :: 0 <= i < |RowsBelow(t, bound)| && RowsBelow(t, bound)[i].id == id
    decreases bound
  {
    var rows, before := RowsBelow(t, bound), RowsBelow(t, bound - 1);
    if id == bound - 1 {
      assert rows[|before|] == RowsById(t, id)[0];
    } else {
      RowsAreBelow(t, id, bound - 1);
      var i :| 0 <= i < |before| && before[i].id == id;
      assert rows[i] == before[i];
    }
  }

  lemma {:induction false} FoldMentions(rows: seq<JoinedRow>, current: Option<ReservationData>, done: Items, id: int)
    requires Fold(rows, current, done).Ok?
    requires HasId(done, id) || (current.Some? && current.value.header.id == id)
             || exists i :: 0 <= i < |rows| && rows[i].id == id
    ensures HasId(Fold(rows, current, done).value, id)
    decreases |rows|
  {
    if |rows| == 0 {
      if current.Some? {
        HasIdSnoc(done, current.value, id);
      }
    } else {
      assert (exists i :: 0 <= i < |rows| && rows[i].id == id) ==>
             rows[0].id == id || exists i :: 0 <= i < |rows[1..]| && rows[1..][i].id == id by {
        if i :| 0 <= i < |rows| && rows[i].id == id {
          assert i > 0 ==> rows[1..][i - 1].id == id;
        }
      }
      if current.None? {
        FoldMentions(rows[1..], Some(Started(rows[0])), done, id);
      } else if current.value.header.id != rows[0].id {
        HasIdSnoc(done, current.value, id);
        FoldMentions(rows[1..], Some(Started(rows[0])), done + [current.value], id);
      } else {
        FoldMentions(rows[1..], Some(Continued(current.value, rows[0]).value), done, id);
      }
    }
  }

  lemma HasIdSnoc(view: Items, x: ReservationData, id: int)
    ensures HasId(view + [x], id) <==> HasId(view, id) || x.header.id == id
  {
    var longer := view + [x];
    assert longer[|view|] == x;
    assert forall i :: 0 <= i < |view| ==> longer[i] == view[i];
  }
}
