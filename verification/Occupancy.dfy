/** What it means for rooms to be free, said about plain lists of atoms: the meaning that the indexed
    planning board is proved to implement and that the tools reason with. */
module Occupancy {
  import opened Common
  import opened Reservations

  /** One list of atoms per reservation. */
  type AtomLists = seq<seq<Atom>>

  /** Nothing in the room intersects the period. */
  ghost predicate Free(lists: AtomLists, room: int, period: Period) {
    forall i, j :: 0 <= i < |lists| && 0 <= j < |lists[i]| && lists[i][j].roomId == room ==>
      !lists[i][j].range.Intersects(period)
  }

  ghost predicate CanAdd(lists: AtomLists, atoms: seq<Atom>) {
    ValidAtoms(atoms) && forall k :: 0 <= k < |atoms| ==> Free(lists, atoms[k].roomId, atoms[k].range)
  }

  /** A board that has only ever accepted what it could add. */
  ghost predicate Disjoint(lists: AtomLists) {
    && (forall i :: 0 <= i < |lists| ==> ValidAtoms(lists[i]))
    && (forall i, j :: 0 <= i < j < |lists| ==> !AtomsIntersect(lists[i], lists[j]))
  }

  ghost predicate Busy(lists: AtomLists, room: int, day: int) {
    exists i, j :: 0 <= i < |lists| && 0 <= j < |lists[i]| && lists[i][j].Holds(room, day)
  }

  /** The largest int of the source, which stands for "without end". */
  const INT_MAX: int := 0x7fff_ffff

  /** The number of days from the given day on for which the room is free, cut off at limit. */
  ghost function FreeDays(lists: AtomLists, room: int, day: int, limit: nat): nat
    decreases limit
  {
    if limit == 0 || Busy(lists, room, day) then 0 else 1 + FreeDays(lists, room, day + 1, limit - 1)
  }

  /** n days are free, and the day after them is taken unless the limit was reached. */
  ghost predicate IsFreeRun(lists: AtomLists, room: int, day: int, limit: nat, n: int) {
    && 0 <= n <= limit
    && (forall d :: day <= d < day + n ==> !Busy(lists, room, d))
    && (n < limit ==> Busy(lists, room, day + n))
  }

  /** The description determines the number. */
  lemma {:induction false} FreeRunIsFreeDays(lists: AtomLists, room: int, day: int, limit: nat, n: int)
    ensures IsFreeRun(lists, room, day, limit, n) <==> n == FreeDays(lists, room, day, limit)
    decreases limit
  {
    if limit > 0 && !Busy(lists, room, day) {
      FreeRunIsFreeDays(lists, room, day + 1, limit - 1, n - 1);
    }
  }

  ghost predicate SomeBegins(lists: AtomLists, day: int) {
    exists i, j :: 0 <= i < |lists| && 0 <= j < |lists[i]| && lists[i][j].range.begin == day
  }

  ghost predicate SomeEnds(lists: AtomLists, day: int) {
    exists i, j :: 0 <= i < |lists| && 0 <= j < |lists[i]| && lists[i][j].range.end == day
  }

  /** [from, to) is the least period that holds all atoms. */
  ghost predicate IsExtent(lists: AtomLists, from: int, to: int) {
    && (forall i, j :: 0 <= i < |lists| && 0 <= j < |lists[i]| ==>
          from <= lists[i][j].range.begin && lists[i][j].range.end <= to)
    && SomeBegins(lists, from) && SomeEnds(lists, to)
  }

  lemma IntersectsIffSharedDay(p: Period, q: Period)
    requires !p.IsNull() && !q.IsNull()
    ensures p.Intersects(q) <==> exists d :: p.Contains(d) && q.Contains(d)
  {
    if p.Intersects(q) {
      var d := if p.begin < q.begin then q.begin else p.begin;
      assert p.Contains(d) && q.Contains(d);
    }
  }

  /** A room on a day is an atom that holds it. */
  lemma {:induction false} RoomOnHolds(atoms: seq<Atom>, room: int, day: int)
    requires ValidAtoms(atoms)
    ensures RoomOn(atoms, day) == Some(room) <==> exists i :: 0 <= i < |atoms| && atoms[i].Holds(room, day)
    decreases |atoms|
  {
    if |atoms| > 1 {
      TailValid(atoms);
      RoomOnHolds(atoms[1..], room, day);
      RoomOnRange(atoms[1..], day);
      if i :| 0 <= i < |atoms| && atoms[i].Holds(room, day) {
        if i > 0 {
          assert atoms[1..][i - 1].Holds(room, day);
        }
      }
      if RoomOn(atoms, day) == Some(room) {
        if !atoms[0].Holds(room, day) {
          var i :| 0 <= i < |atoms[1..]| && atoms[1..][i].Holds(room, day);
          assert atoms[i + 1].Holds(room, day);
        }
      }
    } else {
      assert RoomOn(atoms[1..], day) == None;
      assert RoomOn(atoms, day) == Some(room) ==> atoms[0].Holds(room, day);
    }
  }

  ghost predicate ShareARoom(a: seq<Atom>, b: seq<Atom>) {
    exists day :: RoomOn(a, day).Some? && RoomOn(a, day) == RoomOn(b, day)
  }

  /** Valid lists intersect exactly if their guests share a room on some day. */
  lemma {:induction false} IntersectIffSharedRoom(a: seq<Atom>, b: seq<Atom>)
    requires ValidAtoms(a) && ValidAtoms(b)
    ensures AtomsIntersect(a, b) <==> ShareARoom(a, b)
  {
    if AtomsIntersect(a, b) {
      var i, j :| 0 <= i < |a| && 0 <= j < |b| && a[i].IntersectsWith(b[j]);
      IntersectsIffSharedDay(a[i].range, b[j].range);
      var day :| a[i].range.Contains(day) && b[j].range.Contains(day);
      assert a[i].Holds(a[i].roomId, day) && b[j].Holds(a[i].roomId, day);
      RoomOnHolds(a, a[i].roomId, day);
      RoomOnHolds(b, a[i].roomId, day);
    }
    if ShareARoom(a, b) {
      var day :| RoomOn(a, day).Some? && RoomOn(a, day) == RoomOn(b, day);
      var room := RoomOn(a, day).value;
      RoomOnHolds(a, room, day);
      RoomOnHolds(b, room, day);
      var i :| 0 <= i < |a| && a[i].Holds(room, day);
      var j :| 0 <= j < |b| && b[j].Holds(room, day);
      assert a[i].range.Contains(day) && b[j].range.Contains(day);
      IntersectsIffSharedDay(a[i].range, b[j].range);
      assert a[i].IntersectsWith(b[j]);
    }
  }

  /** A period that ends within the free days of a room is free there. */
  lemma {:induction false} FreeDaysAreFree(lists: AtomLists, room: int, period: Period, limit: nat)
    requires forall i, j :: 0 <= i < |lists| && 0 <= j < |lists[i]| ==> !lists[i][j].range.IsNull()
    requires !period.IsNull()
    ensures period.end <= period.begin + limit ==>
      (period.end - period.begin <= FreeDays(lists, room, period.begin, limit) <==> Free(lists, room, period))
  {
    var n := FreeDays(lists, room, period.begin, limit);
    FreeRunIsFreeDays(lists, room, period.begin, limit, n);
    forall i, j | 0 <= i < |lists| && 0 <= j < |lists[i]| && lists[i][j].roomId == room
      ensures lists[i][j].range.Intersects(period) <==> exists d :: period.Contains(d) && lists[i][j].Holds(room, d)
    {
      IntersectsIffSharedDay(lists[i][j].range, period);
      if lists[i][j].range.Intersects(period) {
        var d :| lists[i][j].range.Contains(d) && period.Contains(d);
        assert lists[i][j].Holds(room, d);
      }
      if d :| period.Contains(d) && lists[i][j].Holds(room, d) {
        assert lists[i][j].range.Contains(d) && period.Contains(d);
      }
    }
    if period.end - period.begin <= n {
      forall i, j | 0 <= i < |lists| && 0 <= j < |lists[i]| && lists[i][j].roomId == room
        ensures !lists[i][j].range.Intersects(period)
      {
        assert forall d :: period.Contains(d) && lists[i][j].Holds(room, d) ==> Busy(lists, room, d);
      }
    } else if period.end <= period.begin + limit {
      var d := period.begin + n;
      assert Busy(lists, room, d);
      var i, j :| 0 <= i < |lists| && 0 <= j < |lists[i]| && lists[i][j].Holds(room, d);
      assert period.Contains(d) && lists[i][j].Holds(room, d);
    }
  }

  /** Atoms of two valid lists meet only if the lists share a room on some day. */
  lemma FreeIsDisjoint(lists: AtomLists, atoms: seq<Atom>, i: nat)
    requires i < |lists| && ValidAtoms(lists[i]) && CanAdd(lists, atoms)
    ensures !AtomsIntersect(lists[i], atoms)
  {
    forall j, k | 0 <= j < |lists[i]| && 0 <= k < |atoms| ensures !lists[i][j].IntersectsWith(atoms[k]) {
      assert Free(lists, atoms[k].roomId, atoms[k].range);
    }
  }

  /** Accepting a reservation keeps the lists disjoint. */
  lemma AddKeepsDisjoint(lists: AtomLists, atoms: seq<Atom>)
    requires Disjoint(lists) && CanAdd(lists, atoms)
    ensures Disjoint(lists + [atoms])
  {
    forall i | 0 <= i < |lists| ensures !AtomsIntersect(lists[i], atoms) {
      FreeIsDisjoint(lists, atoms, i);
    }
  }

  /** Whatever is disjoint from everything on the board can be added. */
  lemma DisjointCanBeAdded(lists: AtomLists, atoms: seq<Atom>)
    requires Disjoint(lists + [atoms])
    ensures CanAdd(lists, atoms)
  {
    var all := lists + [atoms];
    assert ValidAtoms(all[|lists|]);
    forall k | 0 <= k < |atoms| ensures Free(lists, atoms[k].roomId, atoms[k].range) {
      forall i, j | 0 <= i < |lists| && 0 <= j < |lists[i]| && lists[i][j].roomId == atoms[k].roomId
        ensures !lists[i][j].range.Intersects(atoms[k].range)
      {
        assert all[i] == lists[i] && !AtomsIntersect(all[i], all[|lists|]);
        assert !lists[i][j].IntersectsWith(atoms[k]);
      }
    }
  }
}
