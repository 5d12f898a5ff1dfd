/** The planning board: reservations, and for every room an index of pointers to their atoms, sorted by
    date. The index answers the queries; its meaning is the lists of atoms that the board holds. */
module Planning {
  import opened Common
  import opened Reservations
  import opened Occupancy

  /** A reservation that has been handed to the board. It keeps its address, by which atoms are found
      in the index, and nothing changes it any more. */
  class OwnedReservation {
    const value: ReservationData

    constructor (value: ReservationData)
      ensures this.value == value
    {
      this.value := value;
    }
  }

  /** A pointer to an atom: the reservation object and the position in its list. */
  datatype AtomPtr = AtomPtr(owner: OwnedReservation, index: nat)

  function At(p: AtomPtr): Atom {
    if p.index < |p.owner.value.atoms| then p.owner.value.atoms[p.index] else Atom(0, 0, Period(FIRST_DAY, FIRST_DAY))
  }

  /** Pointers into one room: each ends before the next begins. */
  ghost predicate Ascending(row: seq<AtomPtr>, pointers: set<AtomPtr>)
  {
    && (forall i :: 0 <= i < |row| ==> row[i] in pointers)
    && (forall i, j :: 0 <= i < j < |row| ==> At(row[i]).range.end <= At(row[j]).range.begin)
  }

  lemma RowAscends(row: seq<AtomPtr>, known: set<AtomPtr>, k: nat)
    requires Ascending(row, known) && k < |row|
    requires forall p :: p in known ==> !At(p).range.IsNull()
    ensures forall m :: 0 <= m <= k ==> At(row[m]).range.end <= At(row[k]).range.end
    ensures forall m :: k <= m < |row| ==>
              At(row[k]).range.end <= At(row[m]).range.end && At(row[k]).range.begin <= At(row[m]).range.begin
  {
    assert forall m :: 0 <= m < |row| ==> !At(row[m]).range.IsNull();
  }

  ghost function Pointers(list: seq<OwnedReservation>): set<AtomPtr>
  {
    set r, i | r in list && 0 <= i < |r.value.atoms| :: AtomPtr(r, i)
  }

  function Values(list: seq<OwnedReservation>): seq<ReservationData> {
    seq(|list|, i requires 0 <= i < |list| => list[i].value)
  }

  function AtomsOf(c: seq<ReservationData>): AtomLists {
    seq(|c|, i requires 0 <= i < |c| => c[i].atoms)
  }

  /** The position of the first reservation with the given id, or the length of the list. */
  function PositionOf(c: seq<ReservationData>, id: int): (k: nat)
    ensures k <= |c| && (k < |c| ==> c[k].header.id == id)
    ensures forall i :: 0 <= i < k ==> c[i].header.id != id
  {
    if |c| == 0 || c[0].header.id == id then 0 else 1 + PositionOf(c[1..], id)
  }

  function IndexOf<X(==)>(s: seq<X>, x: X): (k: nat)
    ensures k <= |s| && (k < |s| ==> s[k] == x)
    ensures x !in s[..k] && (x in s ==> k < |s|)
  {
    if |s| == 0 || s[0] == x then 0 else 1 + IndexOf(s[1..], x)
  }

  function Without<X>(s: seq<X>, k: nat): seq<X> {
    if k < |s| then s[..k] + s[k + 1..] else s
  }

  type Index = map<int, seq<AtomPtr>>

  function RowIn(rooms: Index, room: int): seq<AtomPtr> {
    if room in rooms then rooms[room] else []
  }

  /** The row of one room: exactly the known pointers into the room, ascending. */
  ghost predicate RowOk(row: seq<AtomPtr>, known: set<AtomPtr>, room: int)
  {
    && Ascending(row, known)
    && (forall k :: 0 <= k < |row| ==> At(row[k]).roomId == room)
    && (forall p :: p in known && At(p).roomId == room ==> p in row)
  }

  /** The index holds exactly the known pointers, each in its room's row. */
  ghost predicate Indexed(rooms: Index, known: set<AtomPtr>)
  {
    && (forall room :: room in rooms ==> RowOk(rooms[room], known, room))
    && (forall p :: p in known ==> !At(p).range.IsNull() && At(p).roomId in rooms)
  }

  class PlanningBoard {
    var reservations: seq<OwnedReservation>
    var rooms: Index

    function Contents(): (c: seq<ReservationData>)
      reads this
    {
      Values(reservations)
    }

    ghost function Lists(): AtomLists
      reads this
    {
      AtomsOf(Contents())
    }

    ghost predicate Valid()
      reads this
    {
      NoDuplicates(reservations) && Disjoint(Lists())
      && Indexed(rooms, Pointers(reservations))
    }

    constructor ()
      ensures Valid() && Contents() == []
    {
      reservations, rooms := [], map[];
    }

    // -------------------------------------------------------------- queries

    function RowOf(room: int): seq<AtomPtr>
      reads this
    {
      RowIn(rooms, room)
    }

    /** The row of a room and the lists of atoms tell the same story. */
    lemma RowTellsBusy(room: int, day: int)
      requires Valid()
      ensures Busy(Lists(), room, day) <==> exists k :: 0 <= k < |RowOf(room)| && At(RowOf(room)[k]).range.Contains(day)
    {
      var row := RowOf(room);
      if k :| 0 <= k < |row| && At(row[k]).range.Contains(day) {
        assert RowOk(row, Pointers(reservations), room);
        var i := PointerInLists(row[k]);
        assert Lists()[i][row[k].index].Holds(room, day);
      }
      if Busy(Lists(), room, day) {
        var i, j :| 0 <= i < |Lists()| && 0 <= j < |Lists()[i]| && Lists()[i][j].Holds(room, day);
        var k := ListedInRow(i, j);
        assert At(row[k]).range.Contains(day);
      }
    }

    lemma PointerInLists(p: AtomPtr) returns (i: nat)
      requires p in Pointers(reservations)
      ensures i < |Lists()| && reservations[i] == p.owner && p.index < |Lists()[i]| && Lists()[i][p.index] == At(p)
    {
      i :| 0 <= i < |reservations| && reservations[i] == p.owner;
      assert Contents()[i] == p.owner.value;
    }

    lemma ListedInRow(i: nat, j: nat) returns (k: nat)
      requires Valid() && i < |Lists()| && j < |Lists()[i]|
      ensures var row := RowOf(Lists()[i][j].roomId); k < |row| && At(row[k]) == Lists()[i][j]
    {
      var p := AtomPtr(reservations[i], j);
      assert Contents()[i] == reservations[i].value;
      assert p in Pointers(reservations) && RowOk(RowOf(At(p).roomId), Pointers(reservations), At(p).roomId);
      k :| 0 <= k < |RowOf(At(p).roomId)| && RowOf(At(p).roomId)[k] == p;
    }

    method IsFree(roomId: int, period: Period) returns (free: bool)
      requires Valid()
      ensures free == Free(Lists(), roomId, period)
    {
      var row := RowOf(roomId);
      free := true;
      for k := 0 to |row|
        invariant free == forall m :: 0 <= m < k ==> !At(row[m]).range.Intersects(period)
      {
        free := free && !At(row[k]).range.Intersects(period);
      }
      RowTellsFree(roomId, period);
    }

    lemma RowTellsFree(room: int, period: Period)
      requires Valid()
      ensures Free(Lists(), room, period) <==>
              forall k :: 0 <= k < |RowOf(room)| ==> !At(RowOf(room)[k]).range.Intersects(period)
    {
      var row := RowOf(room);
      if Free(Lists(), room, period) {
        forall k | 0 <= k < |row| ensures !At(row[k]).range.Intersects(period) {
          assert RowOk(row, Pointers(reservations), room);
          var i := PointerInLists(row[k]);
          assert Lists()[i][row[k].index].roomId == room;
        }
      } else {
        var i, j :| 0 <= i < |Lists()| && 0 <= j < |Lists()[i]| && Lists()[i][j].roomId == room &&
                    Lists()[i][j].range.Intersects(period);
        var k := ListedInRow(i, j);
        assert At(row[k]).range.Intersects(period);
      }
    }

    method CanAddReservation(reservation: ReservationData) returns (can: bool)
      requires Valid()
      ensures can == CanAdd(Lists(), reservation.atoms)
    {
      can := IsValidList(reservation.atoms);
      if !can {
        return;
      }
      for k := 0 to |reservation.atoms|
        invariant can ==
                  forall m :: 0 <= m < k ==> Free(Lists(), reservation.atoms[m].roomId, reservation.atoms[m].range)
      {
        var free := IsFree(reservation.atoms[k].roomId, reservation.atoms[k].range);
        can := can && free;
      }
    }

    /** Bisection over the end dates, which ascend because the begin dates do and no two atoms overlap. */
    method GetAvailableDaysFrom(roomId: int, date: Day) returns (days: int)
      requires Valid()
      ensures days == FreeDays(Lists(), roomId, date, INT_MAX)
    {
      var row := RowOf(roomId);
      var first, len := 0, |row|;
      while len > 0
        invariant 0 <= first <= first + len <= |row|
        invariant forall k :: 0 <= k < first ==> At(row[k]).range.end <= date
        invariant forall k :: first + len <= k < |row| ==> date < At(row[k]).range.end
      {
        var half := len / 2;
        var mid := first + half;
        if date < At(row[mid]).range.end {
          RowBeyond(roomId, mid);
          len := half;
        } else {
          RowBeyond(roomId, mid);
          first, len := mid + 1, len - half - 1;
        }
      }
      days := if first == |row| then INT_MAX
              else if At(row[first]).range.begin > date then At(row[first]).range.begin - date else 0;
      BisectionMeetsFreeDays(roomId, date, first, days);
    }

    /** The rows ascend: what holds for an end date holds for those before it, or after it. */
    lemma RowBeyond(room: int, k: nat)
      requires Valid() && k < |RowOf(room)|
      ensures forall m :: 0 <= m <= k ==> At(RowOf(room)[m]).range.end <= At(RowOf(room)[k]).range.end
      ensures forall m :: k <= m < |RowOf(room)| ==>
                At(RowOf(room)[k]).range.end <= At(RowOf(room)[m]).range.end
                && At(RowOf(room)[k]).range.begin <= At(RowOf(room)[m]).range.begin
    {
      var row := RowOf(room);
      assert room in rooms && RowOk(row, Pointers(reservations), room);
      RowAscends(row, Pointers(reservations), k);
    }

    lemma {:induction false} BisectionMeetsFreeDays(room: int, date: Day, first: nat, days: int)
      requires Valid()
      requires var row := RowOf(room);
        && first <= |row|
        && (forall k :: 0 <= k < first ==> At(row[k]).range.end <= date)
        && (forall k :: first <= k < |row| ==> date < At(row[k]).range.end)
        && days == (if first == |row| then INT_MAX
                    else if At(row[first]).range.begin > date then At(row[first]).range.begin - date else 0)
      ensures days == FreeDays(Lists(), room, date, INT_MAX)
    {
      var row := RowOf(room);
      forall d | date <= d < date + days ensures !Busy(Lists(), room, d) {
        RowTellsBusy(room, d);
        if first < |row| {
          RowBeyond(room, first);
        }
      }
      if days < INT_MAX {
        RowTellsBusy(room, date + days);
        assert At(row[first]).range.Contains(date + days);
      }
      FreeRunIsFreeDays(Lists(), room, date, INT_MAX, days);
    }

    /** today is the date of the clock, returned as an empty period when there is nothing to cover. */
    method GetPlanningExtent(today: Day) returns (extent: Period)
      requires Valid()
      ensures if |reservations| == 0 then extent == Period(today, today)
              else IsExtent(Lists(), extent.begin, extent.end)
    {
      if |reservations| == 0 {
        return Period(today, today);
      }
      var from, to := LAST_DAY + 1, FIRST_DAY - 1; // the two infinities
      var left := rooms.Keys;
      while left != {}
        invariant left <= rooms.Keys
        invariant RowsWithin(rooms.Keys - left, from, to) && Attained(from, to)
      {
        var room := Pick(left);
        from, to := WidenByRow(room, from, to, rooms.Keys - left);
        assert rooms.Keys - (left - {room}) == rooms.Keys - left + {room};
        left := left - {room};
      }
      assert rooms.Keys - left == rooms.Keys;
      EveryAtomCovered(from, to);
      extent := Period(from, to);
    }

    /** The body of the loop: the first and the last atom of a row bound all of it. */
    method WidenByRow(room: int, from: int, to: int, ghost seen: set<int>) returns (from': int, to': int)
      requires Valid() && room in rooms && RowsWithin(seen, from, to) && Attained(from, to)
      ensures RowsWithin(seen + {room}, from', to')
      ensures Attained(from', to')
    {
      from', to' := from, to;
      var row := rooms[room];
      RowBounds(room);
      if |row| > 0 {
        var begin, end := At(row[0]).range.begin, At(row[|row| - 1]).range.end;
        from' := if begin < from then begin else from;
        to' := if to < end then end else to;
        assert RowWithin(room, begin, end);
        assert Attained(from', to') by {
          assert At(row[0]).range.begin == begin && At(row[|row| - 1]).range.end == end;
        }
      }
      assert RowWithin(room, from', to');
      RowsWiden(seen, room, from, to, from', to');
    }

    lemma RowsWiden(keys: set<int>, room: int, from: int, to: int, from': int, to': int)
      requires RowsWithin(keys, from, to) && from' <= from && to <= to'
      requires RowWithin(room, from', to')
      ensures RowsWithin(keys + {room}, from', to')
    {
      forall key | key in keys + {room} ensures RowWithin(key, from', to') {
        assert key == room || RowWithin(key, from, to);
      }
    }

    ghost predicate RowsWithin(keys: set<int>, from: int, to: int)
      reads this
    {
      forall room :: room in keys ==> RowWithin(room, from, to)
    }

    /** Either bound is still infinite or the date of some atom. */
    ghost predicate Attained(from: int, to: int)
      reads this
    {
      && (from == LAST_DAY + 1 || exists p :: p in Pointers(reservations) && At(p).range.begin == from)
      && (to == FIRST_DAY - 1 || exists p :: p in Pointers(reservations) && At(p).range.end == to)
    }

    ghost predicate RowWithin(room: int, from: int, to: int)
      reads this
    {
      forall k :: 0 <= k < |RowOf(room)| ==>
        from <= At(RowOf(room)[k]).range.begin && At(RowOf(room)[k]).range.end <= to
    }

    /** The first and the last atom of a row bound all of it. */
    lemma RowBounds(room: int)
      requires Valid()
      ensures var row := RowOf(room); |row| > 0 ==>
        && row[0] in Pointers(reservations) && row[|row| - 1] in Pointers(reservations)
        && RowWithin(room, At(row[0]).range.begin, At(row[|row| - 1]).range.end)
    {
      var row := RowOf(room);
      if |row| > 0 {
        RowBeyond(room, 0);
        RowBeyond(room, |row| - 1);
        assert RowOk(row, Pointers(reservations), room);
      }
    }

    lemma AtomCovered(from: int, to: int, i: nat, j: nat)
      requires Valid() && RowsWithin(rooms.Keys, from, to) && i < |Lists()| && j < |Lists()[i]|
      ensures from <= Lists()[i][j].range.begin && Lists()[i][j].range.end <= to
    {
      var k := ListedInRow(i, j);
      assert RowWithin(Lists()[i][j].roomId, from, to);
    }

    lemma EveryAtomCovered(from: int, to: int)
      requires Valid() && |reservations| > 0 && Attained(from, to) && RowsWithin(rooms.Keys, from, to)
      ensures IsExtent(Lists(), from, to) && FIRST_DAY <= from <= LAST_DAY && FIRST_DAY <= to <= LAST_DAY
    {
      forall i, j | 0 <= i < |Lists()| && 0 <= j < |Lists()[i]|
        ensures from <= Lists()[i][j].range.begin && Lists()[i][j].range.end <= to
      {
        AtomCovered(from, to, i, j);
      }
      assert ValidAtoms(Lists()[0]);
      AtomCovered(from, to, 0, 0);
      var p :| p in Pointers(reservations) && At(p).range.begin == from;
      BeginInLists(p);
      var q :| q in Pointers(reservations) && At(q).range.end == to;
      EndInLists(q);
    }

    lemma BeginInLists(p: AtomPtr)
      requires p in Pointers(reservations)
      ensures SomeBegins(Lists(), At(p).range.begin)
    {
      var i := PointerInLists(p);
    }

    lemma EndInLists(p: AtomPtr)
      requires p in Pointers(reservations)
      ensures SomeEnds(Lists(), At(p).range.end)
    {
      var i := PointerInLists(p);
    }

    // -------------------------------------------------------------- changes

    /** Appends the pointer to its room's row and sorts the row. */
    method InsertAtom(p: AtomPtr, ghost known: set<AtomPtr>)
      requires Indexed(rooms, known) && Fits(p, known)
      modifies this`rooms
      ensures Indexed(rooms, known + {p})
    {
      var room := At(p).roomId;
      var row := RowOf(room) + [p];
      var sorted := SortByBegin(row);
      SortedKeepsIndex(rooms, known, p, sorted);
      rooms := rooms[room := sorted];
    }

    /** Adds the reservation if it is valid and all its atoms are free; otherwise the source throws. */
    method InsertAtoms(reservation: OwnedReservation)
      requires Valid() && reservation !in reservations && CanAdd(Lists(), reservation.value.atoms)
      modifies this`rooms
      ensures Indexed(rooms, Pointers(reservations) + FirstPointers(reservation, |reservation.value.atoms|))
    {
      ghost var known := Pointers(reservations);
      EveryAtomFits(reservation);
      for i := 0 to |reservation.value.atoms|
        invariant Indexed(rooms, known + FirstPointers(reservation, i))
      {
        InsertAtom(AtomPtr(reservation, i), known + FirstPointers(reservation, i));
        assert known + FirstPointers(reservation, i + 1)
               == known + FirstPointers(reservation, i) + {AtomPtr(reservation, i)};
      }
    }

    method AddReservation(reservation: OwnedReservation?) returns (added: bool)
      requires Valid() && reservation !in reservations
      modifies this
      ensures Valid()
      ensures added == (reservation != null && CanAdd(old(Lists()), reservation.value.atoms))
      ensures reservations == if added then old(reservations) + [reservation] else old(reservations)
      ensures Contents() == if added then old(Contents()) + [reservation.value] else old(Contents())
    {
      if reservation == null {
        return false;
      }
      added := CanAddReservation(reservation.value);
      if !added {
        return;
      }
      InsertAtoms(reservation);
      AddKeepsDisjoint(Lists(), reservation.value.atoms);
      PointersAppend(reservations, reservation);
      ListsAppend(reservations, reservation);
      reservations := reservations + [reservation];
    }

    /** No atom on the board, and no earlier atom of the same reservation, is in the way of the next. */
    lemma EveryAtomFits(reservation: OwnedReservation)
      requires Valid() && reservation !in reservations && CanAdd(Lists(), reservation.value.atoms)
      ensures forall i :: 0 <= i < |reservation.value.atoms| ==>
                Fits(AtomPtr(reservation, i), Pointers(reservations) + FirstPointers(reservation, i))
    {
      forall i | 0 <= i < |reservation.value.atoms|
        ensures Fits(AtomPtr(reservation, i), Pointers(reservations) + FirstPointers(reservation, i))
      {
        NextAtomFits(reservation, i);
      }
    }

    lemma NextAtomFits(reservation: OwnedReservation, i: nat)
      requires reservation !in reservations && i < |reservation.value.atoms| && CanAdd(Lists(), reservation.value.atoms)
      ensures Fits(AtomPtr(reservation, i), Pointers(reservations) + FirstPointers(reservation, i))
    {
      var p := AtomPtr(reservation, i);
      assert Free(Lists(), At(p).roomId, At(p).range);
      forall q | q in Pointers(reservations) && At(q).roomId == At(p).roomId
        ensures !At(q).range.Intersects(At(p).range)
      {
        var k := PointerInLists(q);
        assert Lists()[k][q.index].roomId == At(p).roomId;
      }
      forall j | 0 <= j < i ensures !reservation.value.atoms[j].range.Intersects(reservation.value.atoms[i].range) {
        AtomsAscend(reservation.value.atoms, j, i);
      }
    }

    method Clear()
      modifies this
      ensures Valid() && Contents() == []
    {
      reservations, rooms := [], map[];
    }

    /** Erases the pointer from its room's row, if it is there. */
    method EraseAtom(p: AtomPtr, ghost known: set<AtomPtr>)
      requires Indexed(rooms, known)
      modifies this`rooms
      ensures Indexed(rooms, known - {p})
    {
      var room := At(p).roomId;
      var row := RowOf(room);
      EraseKeepsIndex(rooms, known, p);
      rooms := rooms[room := Without(row, IndexOf(row, p))];
    }

    /** Removes the reservation the pointer points to, if it is on the board. */
    method RemoveReservation(reservation: OwnedReservation)
      requires Valid()
      modifies this
      ensures Valid()
      ensures reservations == Without(old(reservations), IndexOf(old(reservations), reservation))
      ensures Contents() == Without(old(Contents()), IndexOf(old(reservations), reservation))
    {
      ghost var known := Pointers(reservations);
      var n := |reservation.value.atoms|;
      for i := 0 to n
        invariant reservations == old(reservations)
        invariant Indexed(rooms, known - FirstPointers(reservation, i))
      {
        EraseAtom(AtomPtr(reservation, i), known - FirstPointers(reservation, i));
        assert known - FirstPointers(reservation, i + 1)
               == known - FirstPointers(reservation, i) - {AtomPtr(reservation, i)};
      }
      PointersWithout(reservations, reservation);
      ListsWithout(reservations, IndexOf(reservations, reservation));
      reservations := Without(reservations, IndexOf(reservations, reservation));
    }

    /** Removes the first reservation with the id, if there is one. */
    method RemoveReservationById(reservationId: int)
      requires Valid()
      modifies this
      ensures Valid()
      ensures Contents() == Without(old(Contents()), PositionOf(old(Contents()), reservationId))
    {
      var k := PositionOf(Contents(), reservationId);
      if k < |reservations| {
        assert IndexOf(reservations, reservations[k]) == k;
        RemoveReservation(reservations[k]);
      }
    }
  }

  // ---------------------------------------------------------------- the index

  /** A pointer that may join the known ones. */
  ghost predicate Fits(p: AtomPtr, known: set<AtomPtr>)
  {
    && p !in known && !At(p).range.IsNull()
    && forall q :: q in known && At(q).roomId == At(p).roomId ==> !At(q).range.Intersects(At(p).range)
  }

  ghost function FirstPointers(r: OwnedReservation, n: nat): set<AtomPtr> {
    set i | 0 <= i < n :: AtomPtr(r, i)
  }

  ghost predicate SortedByBegin(row: seq<AtomPtr>)
  {
    forall i, j :: 0 <= i < j < |row| ==> At(row[i]).range.begin <= At(row[j]).range.begin
  }

  /** What std::sort promises for this comparison: a permutation that ascends, ties in any order. */
  method SortByBegin(row: seq<AtomPtr>) returns (sorted: seq<AtomPtr>)
    ensures multiset(sorted) == multiset(row) && SortedByBegin(sorted)
  {
    sorted := [];
    for n := 0 to |row|
      invariant multiset(sorted) == multiset(row[..n]) && SortedByBegin(sorted)
    {
      sorted := InsertSorted(sorted, row[n]);
      assert row[..n + 1] == row[..n] + [row[n]];
    }
    assert row[..|row|] == row;
  }

  method InsertSorted(sorted: seq<AtomPtr>, p: AtomPtr) returns (longer: seq<AtomPtr>)
    requires SortedByBegin(sorted)
    ensures multiset(longer) == multiset(sorted) + multiset{p} && SortedByBegin(longer)
  {
    var k := |sorted|;
    while k > 0 && At(p).range.begin < At(sorted[k - 1]).range.begin
      invariant 0 <= k <= |sorted|
      invariant k < |sorted| ==> At(p).range.begin <= At(sorted[k]).range.begin
    {
      k := k - 1;
    }
    InsertKeepsSorted(sorted, p, k);
    assert sorted == sorted[..k] + sorted[k..];
    longer := sorted[..k] + [p] + sorted[k..];
  }

  lemma InsertKeepsSorted(sorted: seq<AtomPtr>, p: AtomPtr, k: nat)
    requires SortedByBegin(sorted) && k <= |sorted|
    requires k > 0 ==> At(sorted[k - 1]).range.begin <= At(p).range.begin
    requires k < |sorted| ==> At(p).range.begin <= At(sorted[k]).range.begin
    ensures SortedByBegin(sorted[..k] + [p] + sorted[k..])
  {
    var longer := sorted[..k] + [p] + sorted[k..];
    assert forall i :: 0 <= i < k ==> longer[i] == sorted[i] && At(sorted[i]).range.begin <= At(p).range.begin;
    assert forall i :: k < i < |longer| ==>
           longer[i] == sorted[i - 1] && At(p).range.begin <= At(sorted[i - 1]).range.begin;
    forall i, j | 0 <= i < j < |longer| ensures At(longer[i]).range.begin <= At(longer[j]).range.begin {
      if j < k {
        assert longer[j] == sorted[j];
      } else if k < i {
        assert longer[i] == sorted[i - 1];
      }
    }
  }

  lemma IndexedDisjoint(rooms: Index, known: set<AtomPtr>, p: AtomPtr, q: AtomPtr)
    requires Indexed(rooms, known) && p in known && q in known && p != q && At(p).roomId == At(q).roomId
    ensures !At(p).range.Intersects(At(q).range)
  {
    assert RowOk(rooms[At(p).roomId], known, At(p).roomId);
  }

  /** A row has no duplicates and holds just the known pointers into its room. */
  lemma RowIsExact(rooms: Index, known: set<AtomPtr>, room: int)
    requires Indexed(rooms, known)
    ensures NoDuplicates(RowIn(rooms, room))
    ensures forall p :: p in RowIn(rooms, room) <==> p in known && At(p).roomId == room
  {
    if room in rooms {
      assert RowOk(rooms[room], known, room);
    }
  }

  /** Changing one row, for one pointer into its room. */
  lemma ReplaceRow(rooms: Index, known: set<AtomPtr>, p: AtomPtr, row: seq<AtomPtr>, known': set<AtomPtr>)
    requires Indexed(rooms, known) && known' - {p} == known - {p}
    requires RowOk(row, known', At(p).roomId) && (p in known' ==> !At(p).range.IsNull())
    ensures Indexed(rooms[At(p).roomId := row], known')
  {
    var after := rooms[At(p).roomId := row];
    forall r | r in after ensures RowOk(after[r], known', r) {
      if r != At(p).roomId {
        OtherRow(rooms[r], known, known', p, r);
      }
    }
    forall q | q in known' ensures !At(q).range.IsNull() && At(q).roomId in after {
      assert q != p ==> q in known' - {p} && q in known - {p};
    }
  }

  lemma OtherRow(row: seq<AtomPtr>, known: set<AtomPtr>, known': set<AtomPtr>, p: AtomPtr, room: int)
    requires RowOk(row, known, room) && known' - {p} == known - {p} && At(p).roomId != room
    ensures RowOk(row, known', room)
  {
    forall q | q != p ensures q in known <==> q in known' {
      assert q in known - {p} <==> q in known' - {p};
    }
  }

  lemma SortedKeepsIndex(rooms: Index, known: set<AtomPtr>, p: AtomPtr, sorted: seq<AtomPtr>)
    requires Indexed(rooms, known) && Fits(p, known)
    requires multiset(sorted) == multiset(RowIn(rooms, At(p).roomId) + [p]) && SortedByBegin(sorted)
    ensures Indexed(rooms[At(p).roomId := sorted], known + {p})
  {
    SortedIsExact(rooms, known, p, sorted);
    SortedAscends(rooms, known, p, sorted);
    assert known + {p} - {p} == known - {p};
    ReplaceRow(rooms, known, p, sorted, known + {p});
  }

  lemma SortedIsExact(rooms: Index, known: set<AtomPtr>, p: AtomPtr, sorted: seq<AtomPtr>)
    requires Indexed(rooms, known) && Fits(p, known)
    requires multiset(sorted) == multiset(RowIn(rooms, At(p).roomId) + [p])
    ensures forall q :: q in sorted <==> q == p || (q in known && At(q).roomId == At(p).roomId)
    ensures NoDuplicates(sorted)
  {
    var row := RowIn(rooms, At(p).roomId) + [p];
    RowIsExact(rooms, known, At(p).roomId);
    SameMultisetSameDuplicates(row, sorted);
    forall q ensures q in sorted <==> q in row {
      assert q in sorted <==> q in multiset(sorted);
      assert q in row <==> q in multiset(row);
    }
  }

  lemma SortedAscends(rooms: Index, known: set<AtomPtr>, p: AtomPtr, sorted: seq<AtomPtr>)
    requires Indexed(rooms, known) && Fits(p, known) && SortedByBegin(sorted) && NoDuplicates(sorted)
    requires forall q :: q in sorted <==> q == p || (q in known && At(q).roomId == At(p).roomId)
    ensures Ascending(sorted, known + {p})
  {
    forall i, j | 0 <= i < j < |sorted| ensures At(sorted[i]).range.end <= At(sorted[j]).range.begin {
      var a, b := sorted[i], sorted[j];
      assert a in sorted && b in sorted && a != b;
      if a != p && b != p {
        IndexedDisjoint(rooms, known, a, b);
      }
    }
  }

  lemma {:induction false} EraseKeepsIndex(rooms: Index, known: set<AtomPtr>, p: AtomPtr)
    requires Indexed(rooms, known)
    ensures var row := RowIn(rooms, At(p).roomId);
            Indexed(rooms[At(p).roomId := Without(row, IndexOf(row, p))], known - {p})
  {
    var room := At(p).roomId;
    var row := RowIn(rooms, room);
    RowIsExact(rooms, known, room);
    WithoutIsExact(row, p);
    if room in rooms {
      assert RowOk(row, known, room);
    }
    ErasedAscends(row, known, p);
    assert known - {p} - {p} == known - {p};
    ReplaceRow(rooms, known, p, Without(row, IndexOf(row, p)), known - {p});
  }

  lemma WithoutEntry<X>(s: seq<X>, k: nat, i: nat)
    requires i < |Without(s, k)|
    ensures Without(s, k)[i] == if k < |s| && i >= k then s[i + 1] else s[i]
  {
  }

  lemma {:induction false} ErasedAscends(row: seq<AtomPtr>, known: set<AtomPtr>, p: AtomPtr)
    requires Ascending(row, known) && NoDuplicates(row)
    ensures Ascending(Without(row, IndexOf(row, p)), known - {p})
  {
    var k := IndexOf(row, p);
    var fewer := Without(row, k);
    forall i | 0 <= i < |fewer| ensures fewer[i] in known - {p} {
      ErasedIsKnown(row, known, p, i);
    }
    forall i, j | 0 <= i < j < |fewer| ensures At(fewer[i]).range.end <= At(fewer[j]).range.begin {
      WithoutEntry(row, k, i);
      WithoutEntry(row, k, j);
    }
  }

  lemma {:induction false} ErasedIsKnown(row: seq<AtomPtr>, known: set<AtomPtr>, p: AtomPtr, i: nat)
    requires NoDuplicates(row) && i < |Without(row, IndexOf(row, p))|
    requires forall i :: 0 <= i < |row| ==> row[i] in known
    ensures Without(row, IndexOf(row, p))[i] in known - {p}
  {
    WithoutIsExact(row, p);
    WithoutEntry(row, IndexOf(row, p), i);
  }

  /** Erasing the only occurrence. */
  lemma {:induction false} WithoutIsExact<X>(s: seq<X>, x: X)
    requires NoDuplicates(s)
    ensures forall y :: y in Without(s, IndexOf(s, x)) <==> y in s && y != x
  {
    var k := IndexOf(s, x);
    forall y | y in s && y != x ensures y in Without(s, k) {
      var m :| 0 <= m < |s| && s[m] == y;
      assert Without(s, k)[if k < |s| && m > k then m - 1 else m] == y;
    }
  }

  lemma PointersAppend(list: seq<OwnedReservation>, r: OwnedReservation)
    ensures Pointers(list + [r]) == Pointers(list) + FirstPointers(r, |r.value.atoms|)
  {
    assert forall x :: x in list + [r] <==> x in list || x == r;
  }

  lemma {:induction false} PointersWithout(list: seq<OwnedReservation>, r: OwnedReservation)
    requires NoDuplicates(list)
    ensures Pointers(Without(list, IndexOf(list, r))) == Pointers(list) - FirstPointers(r, |r.value.atoms|)
    ensures NoDuplicates(Without(list, IndexOf(list, r)))
  {
    WithoutIsExact(list, r);
  }

  lemma ListsAppend(list: seq<OwnedReservation>, r: OwnedReservation)
    ensures Values(list + [r]) == Values(list) + [r.value]
    ensures AtomsOf(Values(list + [r])) == AtomsOf(Values(list)) + [r.value.atoms]
  {
  }

  /** Removing a reservation keeps the rest disjoint. */
  lemma ListsWithout(list: seq<OwnedReservation>, k: nat)
    requires Disjoint(AtomsOf(Values(list)))
    ensures Values(Without(list, k)) == Without(Values(list), k)
    ensures AtomsOf(Values(Without(list, k))) == Without(AtomsOf(Values(list)), k)
    ensures Disjoint(AtomsOf(Values(Without(list, k))))
  {
    WithoutKeepsDisjoint(AtomsOf(Values(list)), k);
  }

  lemma WithoutKeepsDisjoint(lists: AtomLists, k: nat)
    requires Disjoint(lists)
    ensures Disjoint(Without(lists, k))
  {
  }

  lemma {:induction false} SameMultisetSameDuplicates<X>(s: seq<X>, t: seq<X>)
    requires multiset(s) == multiset(t) && NoDuplicates(s)
    ensures NoDuplicates(t)
  {
    forall i, j | 0 <= i < j < |t| ensures t[i] != t[j] {
      AtMostOnce(s, t[i]);
      assert t == t[..i] + [t[i]] + t[i + 1..j] + [t[j]] + t[j + 1..];
    }
  }

  lemma {:induction false} AtMostOnce<X>(s: seq<X>, x: X)
    requires NoDuplicates(s)
    ensures multiset(s)[x] <= 1
  {
    if |s| > 0 {
      AtMostOnce(s[1..], x);
      assert s == [s[0]] + s[1..];
      assert s[0] == x ==> x !in s[1..];
    }
  }

  // ---------------------------------------------------------------- taking back

  lemma {:induction false} TakenBack(list: seq<OwnedReservation>, r: OwnedReservation)
    requires r !in list
    ensures Without(list + [r], IndexOf(list + [r], r)) == list
  {
    var longer := list + [r];
    assert longer[|list|] == r && forall i :: 0 <= i < |list| ==> longer[i] == list[i];
    assert IndexOf(longer, r) == |list|;
  }

  /** Taking back what was just added restores the board, and with it the answer of every query. */
  method AddThenRemove(board: PlanningBoard, reservation: OwnedReservation) returns (added: bool)
    requires board.Valid() && reservation !in board.reservations
    modifies board
    ensures board.Valid() && board.reservations == old(board.reservations) && board.Contents() == old(board.Contents())
    ensures forall room, period :: Free(board.Lists(), room, period) <==> old(Free(board.Lists(), room, period))
    ensures forall room, day ::
      FreeDays(board.Lists(), room, day, INT_MAX) == old(FreeDays(board.Lists(), room, day, INT_MAX))
    ensures forall from, to :: IsExtent(board.Lists(), from, to) <==> old(IsExtent(board.Lists(), from, to))
  {
    added := board.AddReservation(reservation);
    if added {
      TakenBack(old(board.reservations), reservation);
      board.RemoveReservation(reservation);
    }
  }

  /** Removal by identifier takes back what was just added exactly if no reservation on the board had the
      identifier before; otherwise it takes the first of those. */
  lemma {:induction false} AddThenRemoveByIdIff(c: seq<ReservationData>, r: ReservationData)
    requires Disjoint(AtomsOf(c)) && CanAdd(AtomsOf(c), r.atoms)
    ensures Without(c + [r], PositionOf(c + [r], r.header.id)) == c <==> PositionOf(c, r.header.id) == |c|
  {
    var k, longer := PositionOf(c, r.header.id), c + [r];
    assert longer[|c|] == r && forall i :: 0 <= i < |c| ==> longer[i] == c[i];
    if k < |c| {
      assert PositionOf(longer, r.header.id) == k;
      assert Without(longer, k)[|c| - 1] == r;
      if Without(longer, k) == c {
        NotThereYet(c, r, |c| - 1);
      }
    }
  }

  /** What can be added is not on the board. */
  lemma NotThereYet(c: seq<ReservationData>, r: ReservationData, i: nat)
    requires Disjoint(AtomsOf(c)) && CanAdd(AtomsOf(c), r.atoms) && i < |c|
    ensures c[i] != r
  {
    FreeIsDisjoint(AtomsOf(c), r.atoms, i);
    assert AtomsOf(c)[i] == c[i].atoms;
    assert r.atoms[0].IntersectsWith(r.atoms[0]);
  }

  method AddThenRemoveById(board: PlanningBoard, reservation: OwnedReservation) returns (added: bool)
    requires board.Valid() && reservation !in board.reservations
    modifies board
    ensures board.Valid()
    ensures board.Contents() == old(board.Contents()) <==>
            !added || PositionOf(old(board.Contents()), reservation.value.header.id) == |old(board.Contents())|
  {
    added := board.AddReservation(reservation);
    if added {
      AddThenRemoveByIdIff(old(board.Contents()), reservation.value);
      board.RemoveReservationById(reservation.value.header.id);
    }
  }
}
