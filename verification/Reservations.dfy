/** Reservations: lists of atoms, each a room held over a period, following one another without gaps. */
module Reservations {
  import opened Common

  /** Day numbers of the calendar the dates come from: 1400-01-01 to 9999-12-31. */
  const FIRST_DAY: int := 2232400
  const LAST_DAY: int := 5373484

  type Day = d: int | FIRST_DAY <= d <= LAST_DAY witness FIRST_DAY

  /** A half-open period; null if it holds no day. */
  datatype Period = Period(begin: Day, end: Day) {
    predicate IsNull() { end <= begin }

    predicate Contains(day: int) { begin <= day < end }

    predicate Intersects(other: Period) {
      Contains(other.begin) || other.Contains(begin) || (other.begin < begin && other.end > begin)
    }

    function Span(other: Period): Period {
      Period(if other.begin < begin then other.begin else begin, if end < other.end then other.end else end)
    }
  }

  datatype Status = Unknown | Temporary | New | Confirmed | CheckedIn | CheckedOut | Archived

  datatype Atom = Atom(id: int, roomId: int, range: Period) {
    predicate IntersectsWith(other: Atom) {
      roomId == other.roomId && range.Intersects(other.range)
    }

    predicate Holds(room: int, day: int) {
      roomId == room && range.Contains(day)
    }
  }

  datatype Header = Header(id: int, revision: int, status: Status, description: string,
                           ownerPersonId: Option<int>, adults: int, children: int)

  /** A reservation as a value. */
  datatype ReservationData = ReservationData(header: Header, atoms: seq<Atom>)

  datatype Failure = NullRange | NotContiguous | NoAtomYet | DateNotAfterEnd

  function Last<X>(s: seq<X>): X
    requires |s| > 0
  {
    s[|s| - 1]
  }

  predicate Contiguous(atoms: seq<Atom>) {
    forall i :: 1 <= i < |atoms| ==> atoms[i - 1].range.end == atoms[i].range.begin
  }

  predicate ValidAtoms(atoms: seq<Atom>) {
    |atoms| > 0 && (forall i :: 0 <= i < |atoms| ==> !atoms[i].range.IsNull()) && Contiguous(atoms)
  }

  predicate AtomsIntersect(a: seq<Atom>, b: seq<Atom>) {
    exists i, j :: 0 <= i < |a| && 0 <= j < |b| && a[i].IntersectsWith(b[j])
  }

  function WithAtom(atoms: seq<Atom>, room: int, range: Period): Result<seq<Atom>, Failure> {
    if range.IsNull() then Err(NullRange)
    else if |atoms| == 0 || Last(atoms).range.end == range.begin then Ok(atoms + [Atom(0, room, range)])
    else Err(NotContiguous)
  }

  function WithContinuation(atoms: seq<Atom>, room: int, date: Day): Result<seq<Atom>, Failure> {
    if |atoms| == 0 then Err(NoAtomYet)
    else if Last(atoms).range.end >= date then Err(DateNotAfterEnd)
    else Ok(atoms + [Atom(0, room, Period(Last(atoms).range.end, date))])
  }

  function Merge(a: Atom, b: Atom): Atom { a.(range := a.range.Span(b.range)) }

  /** Joins neighbours in the same room, from the left. */
  function Join(atoms: seq<Atom>): seq<Atom>
    decreases |atoms|
  {
    if |atoms| < 2 then atoms
    else if atoms[0].roomId == atoms[1].roomId then Join([Merge(atoms[0], atoms[1])] + atoms[2..])
    else [atoms[0]] + Join(atoms[1..])
  }

  function Length(atoms: seq<Atom>): int {
    if |atoms| == 0 then 0 else Last(atoms).range.end - atoms[0].range.begin
  }

  method IsValidList(atoms: seq<Atom>) returns (valid: bool)
    ensures valid == ValidAtoms(atoms)
  {
    if |atoms| == 0 || atoms[0].range.IsNull() {
      return false;
    }
    for i := 1 to |atoms|
      invariant forall k :: 0 <= k < i ==> !atoms[k].range.IsNull()
      invariant forall k :: 1 <= k < i ==> atoms[k - 1].range.end == atoms[k].range.begin
    {
      if atoms[i].range.IsNull() || atoms[i - 1].range.end != atoms[i].range.begin {
        return false;
      }
    }
    return true;
  }

  method ListsIntersect(atoms: seq<Atom>, other: seq<Atom>) returns (r: bool)
    ensures r == AtomsIntersect(atoms, other)
  {
    for i := 0 to |atoms|
      invariant forall k, j :: 0 <= k < i && 0 <= j < |other| ==> !atoms[k].IntersectsWith(other[j])
    {
      for j := 0 to |other|
        invariant forall k :: 0 <= k < j ==> !atoms[i].IntersectsWith(other[k])
      {
        if atoms[i].IntersectsWith(other[j]) {
          return true;
        }
      }
    }
    return false;
  }

  class Reservation {
    var header: Header
    var atoms: seq<Atom>

    function Value(): ReservationData
      reads this
    {
      ReservationData(header, atoms)
    }

    constructor (value: ReservationData)
      ensures Value() == value
    {
      header, atoms := value.header, value.atoms;
    }

    method AddAtom(room: int, range: Period) returns (r: Result<(), Failure>)
      modifies this`atoms
      ensures match WithAtom(old(atoms), room, range)
              case Ok(added) => r.Ok? && atoms == added
              case Err(e) => r == Err(e) && atoms == old(atoms)
      ensures |old(atoms)| == 0 || ValidAtoms(old(atoms)) ==>
        var longer := old(atoms) + [Atom(0, room, range)];
        (r.Ok? <==> ValidAtoms(longer)) && atoms == if r.Ok? then longer else old(atoms)
    {
      AddAtomIff(atoms, room, range);
      if range.IsNull() {
        return Err(NullRange);
      }
      if |atoms| == 0 || Last(atoms).range.end == range.begin {
        atoms := atoms + [Atom(0, room, range)];
        return Ok(());
      }
      return Err(NotContiguous);
    }

    method AddContinuation(room: int, date: Day) returns (r: Result<(), Failure>)
      modifies this`atoms
      ensures match WithContinuation(old(atoms), room, date)
              case Ok(added) => r.Ok? && atoms == added
              case Err(e) => r == Err(e) && atoms == old(atoms)
      ensures |old(atoms)| == 0 ==> r.Err?
      ensures ValidAtoms(old(atoms)) ==>
        var longer := old(atoms) + [Atom(0, room, Period(Last(old(atoms)).range.end, date))];
        (r.Ok? <==> ValidAtoms(longer)) && atoms == if r.Ok? then longer else old(atoms)
    {
      if |atoms| > 0 {
        AddContinuationIff(atoms, room, date);
      }
      if |atoms| == 0 {
        return Err(NoAtomYet);
      }
      if Last(atoms).range.end >= date {
        return Err(DateNotAfterEnd);
      }
      atoms := atoms + [Atom(0, room, Period(Last(atoms).range.end, date))];
      return Ok(());
    }

    method JoinAdjacentAtoms()
      modifies this`atoms
      ensures atoms == Join(old(atoms))
    {
      if |atoms| < 2 {
        return;
      }
      var i := 1;
      while i < |atoms|
        invariant 1 <= i <= |atoms|
        invariant Join(old(atoms)) == atoms[..i - 1] + Join(atoms[i - 1..])
        decreases |atoms| - i
      {
        ghost var rest := atoms[i - 1..];
        if atoms[i - 1].roomId == atoms[i].roomId {
          ghost var done := atoms[..i - 1];
          atoms := atoms[..i - 1] + [Merge(atoms[i - 1], atoms[i])] + atoms[i + 1..];
          assert atoms[i - 1..] == [Merge(rest[0], rest[1])] + rest[2..] && atoms[..i - 1] == done;
          i := i - 1;
        } else {
          assert rest[1..] == atoms[i..] && atoms[..i] == atoms[..i - 1] + [rest[0]];
        }
        i := i + 1;
      }
      assert atoms[..i - 1] + atoms[i - 1..] == atoms;
    }

    method RemoveLastAtom()
      modifies this`atoms
      ensures atoms == if |old(atoms)| == 0 then [] else old(atoms)[..|old(atoms)| - 1]
    {
      if |atoms| > 0 {
        atoms := atoms[..|atoms| - 1];
      }
    }

    method IsValid() returns (valid: bool)
      ensures valid == ValidAtoms(atoms)
    {
      valid := IsValidList(atoms);
    }

    method IntersectsWith(other: seq<Atom>) returns (r: bool)
      ensures r == AtomsIntersect(atoms, other)
    {
      r := ListsIntersect(atoms, other);
    }
  }

  // ---------------------------------------------------------------- what a list of atoms means

  /** The room in which a guest with these atoms sleeps that day. */
  function RoomOn(atoms: seq<Atom>, day: int): Option<int> {
    if |atoms| == 0 then None
    else if atoms[0].range.Contains(day) then Some(atoms[0].roomId)
    else RoomOn(atoms[1..], day)
  }

  /** An atom is accepted exactly if the list with it is valid. */
  lemma AddAtomIff(atoms: seq<Atom>, room: int, range: Period)
    ensures var longer := atoms + [Atom(0, room, range)];
            |atoms| == 0 || ValidAtoms(atoms) ==>
              if ValidAtoms(longer) then WithAtom(atoms, room, range) == Ok(longer)
              else WithAtom(atoms, room, range).Err?
  {
    if |atoms| == 0 || ValidAtoms(atoms) {
      OneMoreIsValidIff(atoms, Atom(0, room, range));
    }
  }

  /** And so is a continuation, from the end of the last atom. */
  lemma AddContinuationIff(atoms: seq<Atom>, room: int, date: Day)
    requires |atoms| > 0
    ensures var longer := atoms + [Atom(0, room, Period(Last(atoms).range.end, date))];
            ValidAtoms(atoms) ==>
              if ValidAtoms(longer) then WithContinuation(atoms, room, date) == Ok(longer)
              else WithContinuation(atoms, room, date).Err?
  {
    if ValidAtoms(atoms) {
      OneMoreIsValidIff(atoms, Atom(0, room, Period(Last(atoms).range.end, date)));
    }
  }

  lemma OneMoreIsValidIff(atoms: seq<Atom>, atom: Atom)
    requires |atoms| == 0 || ValidAtoms(atoms)
    ensures ValidAtoms(atoms + [atom]) <==>
            !atom.range.IsNull() && (|atoms| > 0 ==> Last(atoms).range.end == atom.range.begin)
  {
    var longer := atoms + [atom];
    assert longer[|atoms|] == atom && forall i :: 0 <= i < |atoms| ==> longer[i] == atoms[i];
  }

  /** What a further atom means. */
  lemma {:induction false} RoomOnAppended(atoms: seq<Atom>, atom: Atom, day: int)
    requires ValidAtoms(atoms + [atom])
    ensures RoomOn(atoms + [atom], day) ==
            if atom.range.Contains(day) then Some(atom.roomId) else RoomOn(atoms, day)
  {
    var longer := atoms + [atom];
    if |atoms| == 0 {
      assert longer[1..] == [] && RoomOn(longer[1..], day) == None;
    } else {
      AtomsAscend(longer, 0, |atoms|);
      TailValid(longer);
      assert longer[1..] == atoms[1..] + [atom];
      RoomOnAppended(atoms[1..], atom, day);
    }
  }

  /** What another room for one of the atoms means. */
  lemma {:induction false} RoomOnMoved(atoms: seq<Atom>, k: nat, room: int, day: int)
    requires ValidAtoms(atoms) && k < |atoms|
    ensures RoomOn(atoms[k := atoms[k].(roomId := room)], day) ==
            if atoms[k].range.Contains(day) then Some(room) else RoomOn(atoms, day)
  {
    var moved := atoms[k := atoms[k].(roomId := room)];
    if k == 0 {
      assert moved[1..] == atoms[1..];
    } else {
      AtomsAscend(atoms, 0, k);
      TailValid(atoms);
      assert moved[1..] == atoms[1..][k - 1 := atoms[1..][k - 1].(roomId := room)];
      RoomOnMoved(atoms[1..], k - 1, room, day);
    }
  }

  /** The days on which there is a room. */
  ghost function DaysOf(atoms: seq<Atom>): set<int> {
    set day: int | FIRST_DAY <= day <= LAST_DAY && RoomOn(atoms, day).Some?
  }

  /** The length is the number of those days. */
  lemma LengthCountsDays(atoms: seq<Atom>)
    requires |atoms| == 0 || ValidAtoms(atoms)
    ensures Length(atoms) == |DaysOf(atoms)|
  {
    if |atoms| == 0 {
      assert DaysOf(atoms) == {};
    } else {
      var begin, end := atoms[0].range.begin, Last(atoms).range.end;
      RoomOnRange(atoms, begin);
      forall day ensures day in DaysOf(atoms) <==> begin <= day < end {
        RoomOnRange(atoms, day);
      }
      IntervalSize(DaysOf(atoms), begin, end);
    }
  }

  lemma {:induction false} IntervalSize(days: set<int>, begin: int, end: int)
    requires begin <= end && forall day :: day in days <==> begin <= day < end
    ensures |days| == end - begin
    decreases end - begin
  {
    if begin < end {
      IntervalSize(days - {begin}, begin + 1, end);
    } else {
      assert days == {};
    }
  }

  ghost predicate SameRooms(a: seq<Atom>, b: seq<Atom>) {
    forall day: int :: RoomOn(a, day) == RoomOn(b, day)
  }

  /** Equality of atoms as the source defines it: identifiers are not compared. */
  ghost predicate SameAtoms(a: seq<Atom>, b: seq<Atom>) {
    |a| == |b| && forall i :: 0 <= i < |a| ==> a[i].roomId == b[i].roomId && a[i].range == b[i].range
  }

  ghost predicate NoEqualNeighbours(atoms: seq<Atom>) {
    forall i :: 1 <= i < |atoms| ==> atoms[i - 1].roomId != atoms[i].roomId
  }

  /** Later atoms lie entirely after earlier ones, so a valid list cannot overlap itself. */
  lemma {:induction false} AtomsAscend(atoms: seq<Atom>, i: nat, j: nat)
    requires ValidAtoms(atoms) && i < j < |atoms|
    ensures atoms[i].range.end <= atoms[j].range.begin
    ensures !atoms[i].range.Intersects(atoms[j].range)
  {
    if i + 1 < j {
      AtomsAscend(atoms, i, j - 1);
    }
  }

  lemma TailValid(atoms: seq<Atom>)
    requires ValidAtoms(atoms) && |atoms| > 1
    ensures ValidAtoms(atoms[1..]) && atoms[1..][0].range.begin == atoms[0].range.end
  {
  }

  lemma {:induction false} RoomOnRange(atoms: seq<Atom>, day: int)
    requires ValidAtoms(atoms)
    ensures RoomOn(atoms, day).Some? <==> atoms[0].range.begin <= day < Last(atoms).range.end
    ensures Last(atoms).range.end > atoms[0].range.begin
  {
    if |atoms| > 1 {
      TailValid(atoms);
      RoomOnRange(atoms[1..], day);
    }
  }

  /** One joining step. */
  lemma MergeKeepsMeaning(atoms: seq<Atom>)
    requires ValidAtoms(atoms) && |atoms| >= 2 && atoms[0].roomId == atoms[1].roomId
    ensures var merged := [Merge(atoms[0], atoms[1])] + atoms[2..];
            ValidAtoms(merged) && SameRooms(merged, atoms) && Last(merged).range.end == Last(atoms).range.end
            && merged[0].range.begin == atoms[0].range.begin
  {
    var merged := [Merge(atoms[0], atoms[1])] + atoms[2..];
    assert Merge(atoms[0], atoms[1]).range == Period(atoms[0].range.begin, atoms[1].range.end);
    assert merged[1..] == atoms[2..] == atoms[1..][1..];
    forall day: int ensures RoomOn(merged, day) == RoomOn(atoms, day) {
      assert RoomOn(atoms, day)
             == if atoms[0].range.Contains(day) then Some(atoms[0].roomId) else RoomOn(atoms[1..], day);
    }
  }

  /** Joining keeps who sleeps where and when, validity and length, and leaves nothing to join. */
  lemma {:induction false} JoinKeepsMeaning(atoms: seq<Atom>)
    requires ValidAtoms(atoms)
    ensures ValidAtoms(Join(atoms)) && SameRooms(Join(atoms), atoms) && NoEqualNeighbours(Join(atoms))
    ensures Length(Join(atoms)) == Length(atoms)
    ensures Join(atoms)[0].range.begin == atoms[0].range.begin && Join(atoms)[0].roomId == atoms[0].roomId
    decreases |atoms|
  {
    if |atoms| >= 2 {
      if atoms[0].roomId == atoms[1].roomId {
        MergeKeepsMeaning(atoms);
        var merged := [Merge(atoms[0], atoms[1])] + atoms[2..];
        JoinKeepsMeaning(merged);
        assert forall day: int :: RoomOn(Join(atoms), day) == RoomOn(merged, day) == RoomOn(atoms, day);
      } else {
        TailValid(atoms);
        JoinKeepsMeaning(atoms[1..]);
        PrependKeepsMeaning(atoms[0], atoms[1..], Join(atoms[1..]));
        assert atoms == [atoms[0]] + atoms[1..];
      }
    }
  }

  lemma PrependKeepsMeaning(first: Atom, a: seq<Atom>, b: seq<Atom>)
    requires ValidAtoms(b) && !first.range.IsNull() && first.range.end == b[0].range.begin
    requires SameRooms(b, a) && NoEqualNeighbours(b) && first.roomId != b[0].roomId
    ensures ValidAtoms([first] + b) && SameRooms([first] + b, [first] + a) && NoEqualNeighbours([first] + b)
  {
    assert ([first] + b)[1..] == b && ([first] + a)[1..] == a;
    forall day: int ensures RoomOn([first] + b, day) == RoomOn([first] + a, day) {
      assert RoomOn(b, day) == RoomOn(a, day);
    }
  }

  /** Two joined lists with the same meaning are the same list. */
  lemma {:induction false} JoinedIsUnique(a: seq<Atom>, b: seq<Atom>)
    requires ValidAtoms(a) && ValidAtoms(b) && NoEqualNeighbours(a) && NoEqualNeighbours(b)
    requires SameRooms(a, b)
    ensures SameAtoms(a, b)
    decreases |a|
  {
    HeadsAgree(a, b);
    if |a| > 1 && |b| > 1 {
      TailValid(a);
      TailValid(b);
      forall day: int ensures RoomOn(a[1..], day) == RoomOn(b[1..], day) {
        RoomOnRange(a[1..], day);
        RoomOnRange(b[1..], day);
        assert RoomOn(a, day) == RoomOn(b, day);
      }
      JoinedIsUnique(a[1..], b[1..]);
      forall i | 0 <= i < |a| ensures i < |b| && a[i].roomId == b[i].roomId && a[i].range == b[i].range {
        if i > 0 {
          assert a[i] == a[1..][i - 1] && b[i] == b[1..][i - 1];
        }
      }
    }
  }

  lemma HeadsAgree(a: seq<Atom>, b: seq<Atom>)
    requires ValidAtoms(a) && ValidAtoms(b) && NoEqualNeighbours(a) && NoEqualNeighbours(b)
    requires SameRooms(a, b)
    ensures a[0].roomId == b[0].roomId && a[0].range == b[0].range && (|a| == 1 <==> |b| == 1)
  {
    BeginsNoLater(a, b);
    BeginsNoLater(b, a);
    EndsNoLater(a, b);
    EndsNoLater(b, a);
  }

  lemma BeginsNoLater(a: seq<Atom>, b: seq<Atom>)
    requires ValidAtoms(a) && ValidAtoms(b) && SameRooms(a, b)
    ensures b[0].range.begin <= a[0].range.begin
    ensures b[0].range.begin == a[0].range.begin ==> a[0].roomId == b[0].roomId
  {
    var day := a[0].range.begin;
    assert RoomOn(a, day) == RoomOn(b, day) == Some(a[0].roomId);
    RoomOnRange(b, day);
  }

  lemma EndsNoLater(a: seq<Atom>, b: seq<Atom>)
    requires ValidAtoms(a) && ValidAtoms(b) && NoEqualNeighbours(a) && SameRooms(a, b)
    requires a[0].range.begin == b[0].range.begin && a[0].roomId == b[0].roomId
    ensures b[0].range.end <= a[0].range.end
    ensures b[0].range.end == a[0].range.end && |a| == 1 ==> |b| == 1
  {
    var day := a[0].range.end;
    assert RoomOn(a, day) == RoomOn(b, day);
    RoomOnRange(a, day);
    if |a| > 1 {
      TailValid(a);
      assert RoomOn(a[1..], day) == Some(a[1].roomId);
    }
    if |b| > 1 {
      TailValid(b);
      assert RoomOn(b[1..], b[1].range.begin) == Some(b[1].roomId);
    }
  }

  /** Joining is a canonical form: lists that mean the same join to the same atoms. */
  lemma {:induction false} JoinIsCanonical(a: seq<Atom>, b: seq<Atom>)
    requires ValidAtoms(a) && ValidAtoms(b)
    ensures SameRooms(a, b) <==> SameAtoms(Join(a), Join(b))
  {
    JoinKeepsMeaning(a);
    JoinKeepsMeaning(b);
    if SameRooms(a, b) {
      forall day: int ensures RoomOn(Join(a), day) == RoomOn(Join(b), day) {
        assert RoomOn(Join(a), day) == RoomOn(a, day) && RoomOn(Join(b), day) == RoomOn(b, day);
        assert RoomOn(a, day) == RoomOn(b, day);
      }
      JoinedIsUnique(Join(a), Join(b));
    }
    if SameAtoms(Join(a), Join(b)) {
      forall day: int ensures RoomOn(a, day) == RoomOn(b, day) {
        SameAtomsSameRooms(Join(a), Join(b), day);
        assert RoomOn(Join(a), day) == RoomOn(a, day) && RoomOn(Join(b), day) == RoomOn(b, day);
      }
    }
  }

  lemma {:induction false} SameAtomsSameRooms(a: seq<Atom>, b: seq<Atom>, day: int)
    requires SameAtoms(a, b)
    ensures RoomOn(a, day) == RoomOn(b, day)
    decreases |a|
  {
    if |a| > 0 {
      SameAtomsSameRooms(a[1..], b[1..], day);
    }
  }
}
