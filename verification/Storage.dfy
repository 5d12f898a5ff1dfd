/** The reservation tables of the database, and what loading makes of them.

    Two tables: reservations by identifier, and atoms in the order of insertion. A query orders its rows by
    reservation and begin date; loading folds the rows back into reservations. */
module Storage {
  import opened Common
  import opened Reservations

  datatype ReservationRow = ReservationRow(revision: int, description: string, status: string, adults: int,
                                           children: int)

  datatype AtomRow = AtomRow(id: int, reservationId: int, roomId: int, dateFrom: Day, dateTo: Day)

  /** The two counters are those of the autoincrement keys. */
  datatype Tables = Tables(reservations: map<int, ReservationRow>, atoms: seq<AtomRow>, nextId: int, nextAtomId: int)

  const EMPTY: Tables := Tables(map[], [], 1, 1)

  // ---------------------------------------------------------------- status texts

  /** Temporary has no text of its own. */
  function SerializeStatus(status: Status): string {
    match status
    case Unknown => "unknown"
    case New => "new"
    case Confirmed => "confirmed"
    case CheckedIn => "checked-in"
    case CheckedOut => "checked-out"
    case Archived => "archived"
    case Temporary => "unknown"
  }

  function ParseStatus(text: string): Status {
    if text == "unknown" then Unknown
    else if text == "new" then New
    else if text == "confirmed" then Confirmed
    else if text == "checked-in" then CheckedIn
    else if text == "checked-out" then CheckedOut
    else if text == "archived" then Archived
    else Unknown
  }

  /** A text is written with its length and read back as a C string, up to its first NUL. */
  function Text(text: string): string {
    if |text| == 0 || text[0] == '\0' then [] else [text[0]] + Text(text[1..])
  }

  predicate NoNul(text: string) {
    forall i :: 0 <= i < |text| ==> text[i] != '\0'
  }

  lemma {:induction false} TextIsWholeIff(text: string)
    ensures NoNul(Text(text)) && (Text(text) == text <==> NoNul(text))
  {
    if |text| > 0 && text[0] != '\0' {
      TextIsWholeIff(text[1..]);
      assert text == [text[0]] + text[1..];
      assert NoNul(text) <==> NoNul(text[1..]) by {
        assert forall i :: 0 <= i < |text[1..]| ==> text[1..][i] == text[i + 1];
      }
    }
  }

  lemma StatusTextIsWhole(status: Status)
    ensures Text(SerializeStatus(status)) == SerializeStatus(status)
  {
    TextIsWholeIff(SerializeStatus(status));
  }

  lemma StatusRoundTrip(status: Status)
    ensures ParseStatus(Text(SerializeStatus(status))) == status <==> !status.Temporary?
  {
    StatusTextIsWhole(status);
    assert SerializeStatus(status)[0] in {'u', 'n', 'c', 'a'};
    match status
    case CheckedIn => assert SerializeStatus(status)[8] == 'i' && |SerializeStatus(status)| == 10;
    case CheckedOut => assert |SerializeStatus(status)| == 11;
    case Confirmed => assert |SerializeStatus(status)| == 9;
    case Archived => assert |SerializeStatus(status)| == 8;
    case _ =>
  }

  // ---------------------------------------------------------------- writing

  function RowOf(r: ReservationData, revision: int): ReservationRow {
    ReservationRow(revision, r.header.description, SerializeStatus(r.header.status), r.header.adults, r.header.children)
  }

  function AtomRows(atoms: seq<Atom>, reservationId: int, firstId: int): seq<AtomRow> {
    seq(|atoms|, i requires 0 <= i < |atoms| =>
      AtomRow(firstId + i, reservationId, atoms[i].roomId, atoms[i].range.begin, atoms[i].range.end))
  }

  /** The atoms as they come out of an insertion, with their new identifiers. */
  function Numbered(atoms: seq<Atom>, firstId: int): seq<Atom> {
    seq(|atoms|, i requires 0 <= i < |atoms| => atoms[i].(id := firstId + i))
  }

  /** The new tables, and the reservation with the identifiers and the revision it has been given. */
  function StoreNew(t: Tables, r: ReservationData): (Tables, ReservationData) {
    (Tables(t.reservations[t.nextId := RowOf(r, 1)], t.atoms + AtomRows(r.atoms, t.nextId, t.nextAtomId),
            t.nextId + 1, t.nextAtomId + |r.atoms|),
     ReservationData(r.header.(id := t.nextId, revision := 1), Numbered(r.atoms, t.nextAtomId)))
  }

  function WithoutAtoms(atoms: seq<AtomRow>, id: int): seq<AtomRow> {
    if |atoms| == 0 then []
    else (if atoms[0].reservationId == id then [] else [atoms[0]]) + WithoutAtoms(atoms[1..], id)
  }

  /** An update names the revision it was made from. */
  predicate Matches(t: Tables, header: Header) {
    header.id in t.reservations && t.reservations[header.id].revision == header.revision
  }

  function Update(t: Tables, r: ReservationData): (Tables, ReservationData)
    requires Matches(t, r.header)
  {
    var id := r.header.id;
    (Tables(t.reservations[id := RowOf(r, r.header.revision + 1)],
            WithoutAtoms(t.atoms, id) + AtomRows(r.atoms, id, t.nextAtomId), t.nextId, t.nextAtomId + |r.atoms|),
     ReservationData(r.header.(revision := r.header.revision + 1), Numbered(r.atoms, t.nextAtomId)))
  }

  /** Two statements are prepared as one, and only the first of them is executed: the atoms go, the row of
      the reservation itself stays. */
  function Delete(t: Tables, id: int): Tables {
    t.(atoms := WithoutAtoms(t.atoms, id))
  }

  // ---------------------------------------------------------------- reading

  function AtomsFor(atoms: seq<AtomRow>, id: int): seq<AtomRow> {
    if |atoms| == 0 then []
    else (if atoms[0].reservationId == id then [atoms[0]] else []) + AtomsFor(atoms[1..], id)
  }

  function InsertByFrom(rows: seq<AtomRow>, row: AtomRow): seq<AtomRow> {
    if |rows| == 0 || Last(rows).dateFrom <= row.dateFrom then rows + [row]
    else InsertByFrom(rows[..|rows| - 1], row) + [Last(rows)]
  }

  /** ORDER BY a.date_from; rows with equal dates, whose order SQL leaves open, stay in table order. */
  function SortByFrom(rows: seq<AtomRow>): seq<AtomRow> {
    if |rows| == 0 then [] else InsertByFrom(SortByFrom(rows[..|rows| - 1]), Last(rows))
  }

  /** A row of the joined tables. */
  datatype JoinedRow = JoinedRow(id: int, row: ReservationRow, atom: AtomRow)

  function RowsById(t: Tables, id: int): seq<JoinedRow> {
    if id !in t.reservations then []
    else
      var rows := SortByFrom(AtomsFor(t.atoms, id));
      seq(|rows|, i requires 0 <= i < |rows| => JoinedRow(id, t.reservations[id], rows[i]))
  }

  /** All joined rows, ordered by reservation (below the given bound) and date. */
  function RowsBelow(t: Tables, bound: int): seq<JoinedRow>
    decreases bound
  {
    if bound <= 1 then [] else RowsBelow(t, bound - 1) + RowsById(t, bound - 1)
  }

  function AtomOf(row: AtomRow): Atom { Atom(row.id, row.roomId, Period(row.dateFrom, row.dateTo)) }

  function HeaderOf(id: int, row: ReservationRow): Header {
    Header(id, row.revision, ParseStatus(Text(row.status)), Text(row.description), None, row.adults, row.children)
  }

  function Started(j: JoinedRow): ReservationData {
    ReservationData(HeaderOf(j.id, j.row), [AtomOf(j.atom)])
  }

  /** addContinuation, which ignores the begin date of the row, and setId. */
  function Continued(r: ReservationData, j: JoinedRow): Result<ReservationData, Failure> {
    match WithContinuation(r.atoms, j.atom.roomId, j.atom.dateTo)
    case Err(e) => Err(e)
    case Ok(atoms) => Ok(r.(atoms := atoms[|atoms| - 1 := Last(atoms).(id := j.atom.id)]))
  }

  /** The loop of loadAll from a given point on. */
  function Fold(rows: seq<JoinedRow>, current: Option<ReservationData>,
                done: seq<ReservationData>): Result<seq<ReservationData>, Failure>
    decreases |rows|
  {
    if |rows| == 0 then Ok(if current.Some? then done + [current.value] else done)
    else if current.None? then Fold(rows[1..], Some(Started(rows[0])), done)
    else if current.value.header.id != rows[0].id then Fold(rows[1..], Some(Started(rows[0])), done + [current.value])
    else
      match Continued(current.value, rows[0])
      case Err(e) => Err(e)
      case Ok(longer) => Fold(rows[1..], Some(longer), done)
  }

  function LoadAll(t: Tables): Result<seq<ReservationData>, Failure> {
    Fold(RowsBelow(t, t.nextId), None, [])
  }

  function LoadById(t: Tables, id: int): Result<seq<ReservationData>, Failure> {
    Fold(RowsById(t, id), None, [])
  }

  // ---------------------------------------------------------------- well-formed tables

  function AtomsOfRows(rows: seq<AtomRow>): seq<Atom> {
    seq(|rows|, i requires 0 <= i < |rows| => AtomOf(rows[i]))
  }

  /** The identifiers in use have been given out. */
  ghost predicate IdsOk(t: Tables) {
    && t.nextId >= 1
    && (forall id :: id in t.reservations ==> 1 <= id < t.nextId)
    && (forall i :: 0 <= i < |t.atoms| ==> t.atoms[i].reservationId < t.nextId)
  }

  /** Every reservation that has atoms at all has valid ones, in table order. */
  ghost predicate WellFormed(t: Tables) {
    && IdsOk(t)
    && (forall id :: id in t.reservations ==>
          |AtomsFor(t.atoms, id)| == 0 || ValidAtoms(AtomsOfRows(AtomsFor(t.atoms, id))))
  }

  predicate Present(t: Tables, id: int) { id in t.reservations && |AtomsFor(t.atoms, id)| > 0 }

  function Stored(t: Tables, id: int): ReservationData
    requires Present(t, id)
  {
    ReservationData(HeaderOf(id, t.reservations[id]), AtomsOfRows(AtomsFor(t.atoms, id)))
  }

  /** The reservations in the tables, with identifiers below the bound, by identifier. */
  function Content(t: Tables, bound: int): seq<ReservationData>
    decreases bound
  {
    if bound <= 1 then []
    else Content(t, bound - 1) + if Present(t, bound - 1) then [Stored(t, bound - 1)] else []
  }

  lemma {:induction false} SortedAlready(rows: seq<AtomRow>)
    requires forall i :: 1 <= i < |rows| ==> rows[i - 1].dateFrom <= rows[i].dateFrom
    ensures SortByFrom(rows) == rows
  {
    if |rows| > 0 {
      SortedAlready(rows[..|rows| - 1]);
    }
  }

  lemma {:induction false} ValidRowsAreSorted(rows: seq<AtomRow>)
    requires |rows| == 0 || ValidAtoms(AtomsOfRows(rows))
    ensures SortByFrom(rows) == rows
  {
    forall i | 1 <= i < |rows| ensures rows[i - 1].dateFrom <= rows[i].dateFrom {
      assert AtomsOfRows(rows)[i - 1].range.end == AtomsOfRows(rows)[i].range.begin;
      assert !AtomsOfRows(rows)[i - 1].range.IsNull();
    }
    SortedAlready(rows);
  }

  lemma OneContinuation(r: ReservationData, j: JoinedRow)
    requires |r.atoms| > 0 && Last(r.atoms).range.end == j.atom.dateFrom < j.atom.dateTo
    ensures Continued(r, j) == Ok(r.(atoms := r.atoms + [AtomOf(j.atom)]))
  {
    var atoms := WithContinuation(r.atoms, j.atom.roomId, j.atom.dateTo).value;
    assert atoms[|atoms| - 1 := Last(atoms).(id := j.atom.id)] == r.atoms + [AtomOf(j.atom)];
  }

  /** Folding the rows of one reservation, from the n-th on, completes it: no continuation is refused, and
      every begin date that the fold ignores is rebuilt. */
  lemma {:induction false} FoldOne(t: Tables, id: int, n: nat, rest: seq<JoinedRow>, done: seq<ReservationData>)
    requires WellFormed(t) && Present(t, id) && 1 <= n <= |RowsById(t, id)| == |Stored(t, id).atoms|
    ensures var all := Stored(t, id);
            Fold(RowsById(t, id)[n..] + rest, Some(all.(atoms := all.atoms[..n])), done) == Fold(rest, Some(all), done)
    decreases |RowsById(t, id)| - n
  {
    var rows, all := RowsById(t, id), Stored(t, id);
    if n == |rows| {
      assert rows[n..] + rest == rest && all.atoms[..n] == all.atoms;
    } else {
      var part, longer := all.(atoms := all.atoms[..n]), all.(atoms := all.atoms[..n + 1]);
      NextRow(t, id, n);
      FoldContinues(rows[n..] + rest, part, longer, done);
      assert (rows[n..] + rest)[1..] == rows[n + 1..] + rest;
      FoldOne(t, id, n + 1, rest, done);
    }
  }

  lemma NextRow(t: Tables, id: int, n: nat)
    requires WellFormed(t) && Present(t, id) && 1 <= n < |RowsById(t, id)| == |Stored(t, id).atoms|
    ensures var all := Stored(t, id);
            Continued(all.(atoms := all.atoms[..n]), RowsById(t, id)[n]) == Ok(all.(atoms := all.atoms[..n + 1]))
  {
    var all, mine := Stored(t, id), AtomsFor(t.atoms, id);
    ValidRowsAreSorted(mine);
    NextAtom(all, mine, n);
    OneContinuation(all.(atoms := all.atoms[..n]), JoinedRow(id, t.reservations[id], mine[n]));
  }

  lemma NextAtom(all: ReservationData, mine: seq<AtomRow>, n: nat)
    requires ValidAtoms(all.atoms) && all.atoms == AtomsOfRows(mine) && 1 <= n < |mine|
    ensures all.atoms[..n + 1] == all.atoms[..n] + [AtomOf(mine[n])]
    ensures Last(all.atoms[..n]).range.end == mine[n].dateFrom < mine[n].dateTo
  {
    assert all.atoms[n] == AtomOf(mine[n]);
    assert all.atoms[n - 1].range.end == all.atoms[n].range.begin && !all.atoms[n].range.IsNull();
  }

  lemma {:induction false} FoldContinues(rows: seq<JoinedRow>, current: ReservationData, longer: ReservationData,
                                         done: seq<ReservationData>)
    requires |rows| > 0 && current.header.id == rows[0].id && Continued(current, rows[0]) == Ok(longer)
    ensures Fold(rows, Some(current), done) == Fold(rows[1..], Some(longer), done)
  {
  }

  lemma {:induction false} FoldStarts(rows: seq<JoinedRow>, current: Option<ReservationData>,
                                      done: seq<ReservationData>)
    requires |rows| > 0 && (current.Some? ==> current.value.header.id != rows[0].id)
    ensures Fold(rows, current, done)
            == Fold(rows[1..], Some(Started(rows[0])), done + if current.Some? then [current.value] else [])
  {
    assert done + [] == done;
  }

  lemma {:induction false} FoldGroup(t: Tables, id: int, rest: seq<JoinedRow>, current: Option<ReservationData>,
                                     done: seq<ReservationData>)
    requires WellFormed(t) && Present(t, id) && (current.Some? ==> current.value.header.id != id)
    ensures Fold(RowsById(t, id) + rest, current, done)
            == Fold(rest, Some(Stored(t, id)), done + if current.Some? then [current.value] else [])
  {
    var rows, all := RowsById(t, id), Stored(t, id);
    ValidRowsAreSorted(AtomsFor(t.atoms, id));
    FoldStarts(rows + rest, current, done);
    assert (rows + rest)[0] == rows[0] && (rows + rest)[1..] == rows[1..] + rest;
    assert Started(rows[0]) == all.(atoms := all.atoms[..1]);
    FoldOne(t, id, 1, rest, done + if current.Some? then [current.value] else []);
  }

  /** The fold with the given reservations behind it, the last of them still open. */
  function Resume(rest: seq<JoinedRow>, c: seq<ReservationData>): Result<seq<ReservationData>, Failure> {
    if |c| == 0 then Fold(rest, None, []) else Fold(rest, Some(Last(c)), c[..|c| - 1])
  }

  lemma ResumeGroup(t: Tables, id: int, rest: seq<JoinedRow>, c: seq<ReservationData>)
    requires WellFormed(t) && Present(t, id) && (|c| > 0 ==> Last(c).header.id != id)
    ensures Resume(RowsById(t, id) + rest, c) == Resume(rest, c + [Stored(t, id)])
  {
    FoldGroup(t, id, rest, if |c| == 0 then None else Some(Last(c)), if |c| == 0 then [] else c[..|c| - 1]);
    assert (c + [Stored(t, id)])[..|c|] == c;
    assert |c| > 0 ==> c[..|c| - 1] + [Last(c)] == c;
  }

  lemma {:induction false} ContentIds(t: Tables, bound: int)
    ensures forall i :: 0 <= i < |Content(t, bound)| ==> 1 <= Content(t, bound)[i].header.id < bound
    decreases bound
  {
    if bound > 1 {
      ContentIds(t, bound - 1);
    }
  }

  /** The fold over everything below a bound, given what follows. */
  lemma {:induction false} FoldBelow(t: Tables, bound: int, rest: seq<JoinedRow>)
    requires WellFormed(t)
    ensures Resume(RowsBelow(t, bound) + rest, []) == Resume(rest, Content(t, bound))
    decreases bound
  {
    if bound <= 1 {
      assert RowsBelow(t, bound) + rest == rest;
    } else {
      var id := bound - 1;
      RowsBelowNext(t, id, rest);
      FoldBelow(t, id, RowsById(t, id) + rest);
      ResumeOne(t, id, rest);
    }
  }

  lemma RowsBelowNext(t: Tables, id: int, rest: seq<JoinedRow>)
    requires id >= 1
    ensures RowsBelow(t, id + 1) + rest == RowsBelow(t, id) + (RowsById(t, id) + rest)
  {
    Associative(RowsBelow(t, id), RowsById(t, id), rest);
  }

  lemma ResumeOne(t: Tables, id: int, rest: seq<JoinedRow>)
    requires WellFormed(t) && id >= 1
    ensures Resume(RowsById(t, id) + rest, Content(t, id)) == Resume(rest, Content(t, id + 1))
  {
    if Present(t, id) {
      ContentIds(t, id);
      ResumeGroup(t, id, rest, Content(t, id));
    } else {
      NoRows(t, id);
      assert RowsById(t, id) + rest == rest && Content(t, id + 1) == Content(t, id);
    }
  }

  lemma NoRows(t: Tables, id: int)
    requires !Present(t, id)
    ensures RowsById(t, id) == []
  {
  }

  /** Flattening into rows, ordering them and regrouping them is the identity. */
  lemma {:induction false} LoadAllIsContent(t: Tables)
    requires WellFormed(t)
    ensures LoadAll(t) == Ok(Content(t, t.nextId))
  {
    FoldBelow(t, t.nextId, []);
    assert RowsBelow(t, t.nextId) + [] == RowsBelow(t, t.nextId);
    var c := Content(t, t.nextId);
    assert |c| > 0 ==> c[..|c| - 1] + [Last(c)] == c;
  }

  /** Loading one reservation finds it exactly if loading all does. */
  lemma LoadByIdIsStored(t: Tables, id: int)
    requires WellFormed(t)
    ensures LoadById(t, id) == Ok(if Present(t, id) then [Stored(t, id)] else [])
  {
    if Present(t, id) {
      ResumeGroup(t, id, [], []);
      assert RowsById(t, id) + [] == RowsById(t, id);
      assert [] + [Stored(t, id)] == [Stored(t, id)];
    } else {
      NoRows(t, id);
    }
  }

  // ---------------------------------------------------------------- in whatever order the rows lie

  predicate Sorted(rows: seq<AtomRow>) {
    forall i, j :: 0 <= i < j < |rows| ==> rows[i].dateFrom <= rows[j].dateFrom
  }

  lemma WithoutLast<X>(s: seq<X>)
    requires |s| > 0
    ensures multiset(s) == multiset(s[..|s| - 1]) + multiset{Last(s)}
  {
    assert s == s[..|s| - 1] + [Last(s)];
  }

  lemma SortedSnoc(rows: seq<AtomRow>, row: AtomRow)
    requires Sorted(rows) && (|rows| > 0 ==> Last(rows).dateFrom <= row.dateFrom)
    ensures Sorted(rows + [row])
  {
  }

  lemma {:induction false} InsertSorts(rows: seq<AtomRow>, row: AtomRow)
    requires Sorted(rows)
    ensures Sorted(InsertByFrom(rows, row)) && |InsertByFrom(rows, row)| > 0
    ensures Last(InsertByFrom(rows, row)) == if |rows| == 0 || Last(rows).dateFrom <= row.dateFrom then row
            else Last(rows)
  {
    if |rows| == 0 || Last(rows).dateFrom <= row.dateFrom {
      SortedSnoc(rows, row);
    } else {
      var before := rows[..|rows| - 1];
      InsertSorts(before, row);
      SortedSnoc(InsertByFrom(before, row), Last(rows));
    }
  }

  lemma {:induction false} InsertKeepsRows(rows: seq<AtomRow>, row: AtomRow)
    ensures multiset(InsertByFrom(rows, row)) == multiset(rows) + multiset{row}
  {
    if |rows| > 0 && Last(rows).dateFrom > row.dateFrom {
      InsertKeepsRows(rows[..|rows| - 1], row);
      WithoutLast(rows);
    }
  }

  /** Ordering gives the same rows in ascending order. */
  lemma {:induction false} SortSorts(rows: seq<AtomRow>)
    ensures Sorted(SortByFrom(rows)) && multiset(SortByFrom(rows)) == multiset(rows)
  {
    if |rows| > 0 {
      var sorted := SortByFrom(rows[..|rows| - 1]);
      SortSorts(rows[..|rows| - 1]);
      InsertSorts(sorted, Last(rows));
      InsertKeepsRows(sorted, Last(rows));
      WithoutLast(rows);
    }
  }

  predicate StrictlySorted(rows: seq<AtomRow>) {
    forall i, j :: 0 <= i < j < |rows| ==> rows[i].dateFrom < rows[j].dateFrom
  }

  /** Different dates leave only one order. */
  lemma {:induction false} OneOrder(a: seq<AtomRow>, b: seq<AtomRow>)
    requires StrictlySorted(a) && Sorted(b) && multiset(a) == multiset(b)
    ensures a == b
    decreases |a|
  {
    SameSize(a, b);
    if |a| > 0 {
      SameLast(a, b);
      SameWithoutLast(a, b);
      OneOrder(a[..|a| - 1], b[..|b| - 1]);
    }
  }

  lemma SameSize<X>(a: seq<X>, b: seq<X>)
    requires multiset(a) == multiset(b)
    ensures |a| == |b|
  {
    assert |multiset(a)| == |multiset(b)|;
  }

  lemma SameWithoutLast<X>(a: seq<X>, b: seq<X>)
    requires |a| > 0 && |b| > 0 && multiset(a) == multiset(b) && Last(a) == Last(b)
    ensures multiset(a[..|a| - 1]) == multiset(b[..|b| - 1])
    ensures a[..|a| - 1] == b[..|b| - 1] ==> a == b
  {
    WithoutLast(a);
    WithoutLast(b);
    assert multiset(a[..|a| - 1]) == multiset(a) - multiset{Last(a)};
    assert a == a[..|a| - 1] + [Last(a)] && b == b[..|b| - 1] + [Last(b)];
  }

  lemma SameLast(a: seq<AtomRow>, b: seq<AtomRow>)
    requires StrictlySorted(a) && Sorted(b) && multiset(a) == multiset(b) && |a| > 0 && |b| > 0
    ensures Last(a) == Last(b)
  {
    assert Last(a) in multiset(b) && Last(b) in multiset(a);
    var i :| 0 <= i < |b| && b[i] == Last(a);
    var j :| 0 <= j < |a| && a[j] == Last(b);
    assert b[i].dateFrom <= Last(b).dateFrom;
  }

  lemma {:induction false} CountFor(rows: seq<AtomRow>, id: int, x: AtomRow)
    ensures multiset(AtomsFor(rows, id))[x] == if x.reservationId == id then multiset(rows)[x] else 0
  {
    if |rows| > 0 {
      assert rows == [rows[0]] + rows[1..];
      CountFor(rows[1..], id, x);
    }
  }

  lemma {:induction false} SameRowsFor(a: seq<AtomRow>, b: seq<AtomRow>, id: int)
    requires multiset(a) == multiset(b)
    ensures multiset(AtomsFor(a, id)) == multiset(AtomsFor(b, id))
  {
    forall x: AtomRow ensures multiset(AtomsFor(a, id))[x] == multiset(AtomsFor(b, id))[x] {
      CountFor(a, id, x);
      CountFor(b, id, x);
    }
  }

  lemma ValidRowsAreStrict(rows: seq<AtomRow>)
    requires |rows| == 0 || ValidAtoms(AtomsOfRows(rows))
    ensures StrictlySorted(rows)
  {
    var atoms := AtomsOfRows(rows);
    forall i, j | 0 <= i < j < |rows| ensures rows[i].dateFrom < rows[j].dateFrom {
      AtomsAscend(atoms, i, j);
      assert !atoms[i].range.IsNull();
    }
  }

  /** The same tables but for the order of the atom rows. */
  ghost predicate Shuffled(t: Tables, t': Tables) {
    t'.reservations == t.reservations && t'.nextId == t.nextId && multiset(t'.atoms) == multiset(t.atoms)
  }

  lemma ShuffledRowsById(t: Tables, t': Tables, id: int)
    requires WellFormed(t) && Shuffled(t, t')
    ensures RowsById(t', id) == RowsById(t, id)
  {
    if id in t.reservations {
      var rows, rows' := AtomsFor(t.atoms, id), AtomsFor(t'.atoms, id);
      SameRowsFor(t.atoms, t'.atoms, id);
      SortSorts(rows');
      ValidRowsAreSorted(rows);
      ValidRowsAreStrict(rows);
      OneOrder(rows, SortByFrom(rows'));
    }
  }

  lemma {:induction false} ShuffledRowsBelow(t: Tables, t': Tables, bound: int)
    requires WellFormed(t) && Shuffled(t, t')
    ensures RowsBelow(t', bound) == RowsBelow(t, bound)
    decreases bound
  {
    if bound > 1 {
      ShuffledRowsBelow(t, t', bound - 1);
      ShuffledRowsById(t, t', bound - 1);
    }
  }

  /** Ordering by reservation and date does its work: however the atom rows lie in the table, they are
      regrouped into the same reservations. */
  lemma {:induction false} ShuffledLoadsAlike(t: Tables, t': Tables, id: int)
    requires WellFormed(t) && Shuffled(t, t')
    ensures LoadAll(t') == Ok(Content(t, t.nextId))
    ensures LoadById(t', id) == Ok(if Present(t, id) then [Stored(t, id)] else [])
  {
    ShuffledRowsBelow(t, t', t.nextId);
    LoadAllIsContent(t);
    ShuffledRowsById(t, t', id);
    LoadByIdIsStored(t, id);
  }
}
