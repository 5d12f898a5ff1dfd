/** The tool with which one atom of a stored reservation is dragged to another room. The ghost is a copy
    of the reservation; releasing it queues an update that replaces the original. */
module MoveReservationTools {
  import opened Common
  import opened Reservations
  import opened Occupancy
  import opened Planning

  datatype Ghost = Ghost(header: Header, atoms: seq<Atom>, originalStatus: Status, originalRoomId: int, atomIndex: nat)

  /** queued: the updates committed so far. */
  datatype World = World(board: seq<ReservationData>, ghost_: Option<Ghost>, queued: seq<ReservationData>)

  /** position, atomIndex: the atom pressed. row: the room under the mouse, if it is over one. */
  datatype Event = Press(position: nat, atomIndex: nat) | Move(row: Option<int>) | Release | Unload
                 | BoardAdd(reservation: ReservationData) | BoardRemove(id: int)

  function Picked(r: ReservationData, atomIndex: nat): Ghost
    requires atomIndex < |r.atoms|
  {
    Ghost(r.header.(status := Temporary), r.atoms, r.header.status, r.atoms[atomIndex].roomId, atomIndex)
  }

  function MovedTo(g: Ghost, room: int): Ghost {
    if g.atomIndex < |g.atoms|
    then g.(atoms := g.atoms[g.atomIndex := g.atoms[g.atomIndex].(roomId := room)]) else g
  }

  ghost predicate MayMove(board: AtomLists, g: Ghost, room: int) {
    g.atomIndex < |g.atoms| && (room == g.originalRoomId || Free(board, room, g.atoms[g.atomIndex].range))
  }

  function Committed(g: Ghost): ReservationData {
    ReservationData(g.header.(status := g.originalStatus), Join(g.atoms))
  }

  ghost function Step(w: World, e: Event): World {
    var lists := AtomsOf(w.board);
    match e
    case Press(p, i) =>
      if w.ghost_.None? && p < |w.board| && i < |w.board[p].atoms| then w.(ghost_ := Some(Picked(w.board[p], i))) else w
    case Move(row) =>
      if w.ghost_.Some? && row.Some? && MayMove(lists, w.ghost_.value, row.value)
      then w.(ghost_ := Some(MovedTo(w.ghost_.value, row.value))) else w
    case Release =>
      if w.ghost_.Some? then w.(ghost_ := None, queued := w.queued + [Committed(w.ghost_.value)]) else w
    case Unload => w.(ghost_ := None)
    case BoardAdd(r) =>
      w.(board := if CanAdd(lists, r.atoms) then w.board + [r] else w.board,
         ghost_ := if w.ghost_.Some? && AtomsIntersect(r.atoms, w.ghost_.value.atoms) then None else w.ghost_)
    case BoardRemove(id) => w.(board := Without(w.board, PositionOf(w.board, id)))
  }

  ghost function Run(w: World, events: seq<Event>): World
    decreases |events|
  {
    if |events| == 0 then w else Run(Step(w, events[0]), events[1..])
  }

  // ---------------------------------------------------------------- the invariant

  /** The ghost differs from the reservation only in the room of one atom. */
  ghost predicate CopyOf(g: Ghost, r: ReservationData) {
    && g.header == r.header.(status := Temporary) && g.originalStatus == r.header.status
    && g.atomIndex < |r.atoms| == |g.atoms| && g.originalRoomId == r.atoms[g.atomIndex].roomId
    && g.atoms == r.atoms[g.atomIndex := r.atoms[g.atomIndex].(roomId := g.atoms[g.atomIndex].roomId)]
  }

  ghost predicate ClearOf(lists: AtomLists, atoms: seq<Atom>) {
    forall i :: 0 <= i < |lists| ==> !AtomsIntersect(lists[i], atoms)
  }

  /** The original is on the board, and the ghost misses everything else there. */
  ghost predicate Dragging(board: seq<ReservationData>, g: Ghost) {
    var k := PositionOf(board, g.header.id);
    && k < |board| && CopyOf(g, board[k]) && Disjoint(AtomsOf(board))
    && ClearOf(AtomsOf(Without(board, k)), g.atoms)
  }

  ghost predicate ToolOk(w: World) {
    Disjoint(AtomsOf(w.board)) && (w.ghost_.Some? ==> Dragging(w.board, w.ghost_.value))
  }

  /** What the property asks of its environment: identifiers are unique on the board, and the original
      is not taken away during the drag. */
  ghost predicate Considerate(w: World, e: Event) {
    match e
    case Press(p, _) => p < |w.board| ==> PositionOf(w.board, w.board[p].header.id) == p
    case BoardRemove(id) => w.ghost_.Some? ==> id != w.ghost_.value.header.id
    case _ => true
  }

  lemma OthersOf(board: seq<ReservationData>, k: nat)
    requires k < |board|
    ensures AtomsOf(Without(board, k)) == Without(AtomsOf(board), k)
    ensures Without(AtomsOf(board), k) == AtomsOf(board)[..k] + AtomsOf(board)[k + 1..]
  {
  }

  lemma PressKeepsOk(w: World, p: nat, i: nat)
    requires ToolOk(w) && Considerate(w, Press(p, i)) && w.ghost_.None? && p < |w.board| && i < |w.board[p].atoms|
    ensures Dragging(w.board, Picked(w.board[p], i))
  {
    var lists := AtomsOf(w.board);
    OthersOf(w.board, p);
    var others := Without(lists, p);
    forall j | 0 <= j < |others| ensures !AtomsIntersect(others[j], lists[p]) {
      if j < p {
        assert others[j] == lists[j];
      } else {
        assert others[j] == lists[j + 1];
        Symmetric(lists[p], lists[j + 1]);
      }
    }
  }

  lemma Symmetric(a: seq<Atom>, b: seq<Atom>)
    ensures AtomsIntersect(a, b) <==> AtomsIntersect(b, a)
  {
    forall i, j | 0 <= i < |a| && 0 <= j < |b| ensures a[i].IntersectsWith(b[j]) <==> b[j].IntersectsWith(a[i]) {
    }
  }

  /** The heart of the tool: after moving to a room, the ghost still misses the others exactly if the room
      is free of the others. Only the original room is entered without asking. */
  lemma MoveKeepsClearIff(others: AtomLists, g: Ghost, room: int)
    requires g.atomIndex < |g.atoms| && ClearOf(others, g.atoms)
    requires forall i, j :: 0 <= i < |others| && 0 <= j < |others[i]| ==> !others[i][j].range.IsNull()
    requires !g.atoms[g.atomIndex].range.IsNull()
    ensures ClearOf(others, MovedTo(g, room).atoms) <==> Free(others, room, g.atoms[g.atomIndex].range)
  {
    var moved, a := MovedTo(g, room).atoms, g.atomIndex;
    if Free(others, room, g.atoms[a].range) {
      forall i, j, k | 0 <= i < |others| && 0 <= j < |others[i]| && 0 <= k < |moved|
        ensures !others[i][j].IntersectsWith(moved[k])
      {
        if k != a {
          assert !AtomsIntersect(others[i], g.atoms) && moved[k] == g.atoms[k];
        }
      }
    } else {
      var i, j :| 0 <= i < |others| && 0 <= j < |others[i]| && others[i][j].roomId == room &&
                  others[i][j].range.Intersects(g.atoms[a].range);
      assert others[i][j].IntersectsWith(moved[a]);
    }
  }

  /** Leaving out the original only frees rooms, and its own room is then free of the others. */
  lemma FreeOfOthers(lists: AtomLists, k: nat, room: int, range: Period)
    requires k < |lists| && Disjoint(lists)
    requires Free(lists, room, range)
             || exists a :: 0 <= a < |lists[k]| && lists[k][a].roomId == room && lists[k][a].range == range
    ensures Free(lists[..k] + lists[k + 1..], room, range)
  {
    var others: AtomLists := lists[..k] + lists[k + 1..];
    forall i, j | 0 <= i < |others| && 0 <= j < |others[i]| && others[i][j].roomId == room
      ensures !others[i][j].range.Intersects(range)
    {
      var i' := if i < k then i else i + 1;
      assert others[i] == lists[i'];
      if !Free(lists, room, range) {
        var a :| 0 <= a < |lists[k]| && lists[k][a].roomId == room && lists[k][a].range == range;
        Symmetric(lists[i'], lists[k]);
        assert !AtomsIntersect(lists[i'], lists[k]);
        assert !lists[i'][j].IntersectsWith(lists[k][a]);
      }
    }
  }

  lemma MoveKeepsOk(board: seq<ReservationData>, g: Ghost, room: int)
    requires Dragging(board, g) && MayMove(AtomsOf(board), g, room)
    ensures Dragging(board, MovedTo(g, room))
  {
    var k, lists := PositionOf(board, g.header.id), AtomsOf(board);
    var others, range := AtomsOf(Without(board, k)), g.atoms[g.atomIndex].range;
    OthersOf(board, k);
    assert lists[k] == board[k].atoms && board[k].atoms[g.atomIndex].range == range;
    FreeOfOthers(lists, k, room, range);
    OthersValid(lists, k);
    assert ValidAtoms(lists[k]);
    MoveKeepsClearIff(others, g, room);
  }

  lemma OthersValid(lists: AtomLists, k: nat)
    requires k < |lists| && Disjoint(lists)
    ensures var others := lists[..k] + lists[k + 1..]; forall i :: 0 <= i < |others| ==> ValidAtoms(others[i])
  {
  }

  lemma AddKeepsOk(board: seq<ReservationData>, g: Ghost, r: ReservationData)
    requires Dragging(board, g) && CanAdd(AtomsOf(board), r.atoms) && !AtomsIntersect(r.atoms, g.atoms)
    ensures Dragging(board + [r], g)
  {
    var k := PositionOf(board, g.header.id);
    assert PositionOf(board + [r], g.header.id) == k by {
      assert forall i :: 0 <= i < k ==> (board + [r])[i] == board[i];
      assert (board + [r])[k] == board[k];
    }
    assert AtomsOf(board + [r]) == AtomsOf(board) + [r.atoms];
    AddKeepsDisjoint(AtomsOf(board), r.atoms);
    var others, more := AtomsOf(Without(board, k)), AtomsOf(Without(board + [r], k));
    assert more == others + [r.atoms];
  }

  /** Removing another reservation moves the original by one position at most. */
  lemma {:induction false} PositionAfterRemove(board: seq<ReservationData>, id: int, m: nat)
    requires m < |board| && PositionOf(board, id) < |board| && board[m].header.id != id
    ensures var k := PositionOf(board, id);
            PositionOf(Without(board, m), id) == (if m < k then k - 1 else k)
  {
    var k := PositionOf(board, id);
    var fewer, k' := Without(board, m), if m < k then k - 1 else k;
    assert fewer[k'] == board[k];
    assert forall i :: 0 <= i < k' ==> fewer[i] == board[if i < m then i else i + 1];
  }

  lemma OthersAfterRemove<X>(s: seq<X>, k: nat, m: nat)
    requires k < |s| && m < |s| && k != m
    ensures Without(Without(s, m), if m < k then k - 1 else k) == Without(Without(s, k), if k < m then m - 1 else m)
  {
    if m < k {
      WithoutBoth(s, m, k);
    } else {
      WithoutBoth(s, k, m);
    }
  }

  lemma WithoutBoth<X>(s: seq<X>, a: nat, b: nat)
    requires a < b < |s|
    ensures Without(Without(s, a), b - 1) == Without(Without(s, b), a)
  {
    var one, two := Without(s, a), Without(s, b);
    assert one[..b - 1] == s[..a] + s[a + 1..b] && one[b..] == s[b + 1..];
    assert two[..a] == s[..a] && two[a + 1..] == s[a + 1..b] + s[b + 1..];
    Associative(s[..a], s[a + 1..b], s[b + 1..]);
  }

  lemma FewerClear(board: seq<ReservationData>, m: nat, atoms: seq<Atom>)
    requires ClearOf(AtomsOf(board), atoms)
    ensures ClearOf(AtomsOf(Without(board, m)), atoms)
  {
    var fewer := AtomsOf(Without(board, m));
    forall i: int | 0 <= i < |fewer| ensures !AtomsIntersect(fewer[i], atoms) {
      assert fewer[i] == AtomsOf(board)[if m < |board| && i >= m then i + 1 else i];
    }
  }

  lemma {:induction false} RemoveKeepsOk(board: seq<ReservationData>, g: Ghost, id: int)
    requires Dragging(board, g) && id != g.header.id
    ensures Dragging(Without(board, PositionOf(board, id)), g)
  {
    var k, m := PositionOf(board, g.header.id), PositionOf(board, id);
    if m < |board| {
      PositionAfterRemove(board, g.header.id, m);
      OthersAfterRemove(board, k, m);
      DisjointWithout(board, m);
      FewerClear(Without(board, k), if k < m then m - 1 else m, g.atoms);
      assert Without(board, m)[if m < k then k - 1 else k] == board[k];
    }
  }

  lemma DisjointWithout(board: seq<ReservationData>, m: nat)
    requires Disjoint(AtomsOf(board)) && m < |board|
    ensures Disjoint(AtomsOf(Without(board, m)))
  {
    OthersOf(board, m);
    WithoutKeepsDisjoint(AtomsOf(board), m);
  }

  lemma StepKeepsOk(w: World, e: Event)
    requires ToolOk(w) && Considerate(w, e)
    ensures ToolOk(Step(w, e))
  {
    match e {
      case Press(p, i) =>
        if w.ghost_.None? && p < |w.board| && i < |w.board[p].atoms| {
          PressKeepsOk(w, p, i);
        }
      case Move(row) =>
        if w.ghost_.Some? && row.Some? && MayMove(AtomsOf(w.board), w.ghost_.value, row.value) {
          MoveKeepsOk(w.board, w.ghost_.value, row.value);
        }
      case BoardAdd(r) =>
        if CanAdd(AtomsOf(w.board), r.atoms) {
          AddKeepsDisjoint(AtomsOf(w.board), r.atoms);
          assert AtomsOf(w.board + [r]) == AtomsOf(w.board) + [r.atoms];
          if w.ghost_.Some? && !AtomsIntersect(r.atoms, w.ghost_.value.atoms) {
            AddKeepsOk(w.board, w.ghost_.value, r);
          }
        }
      case BoardRemove(id) =>
        var k := PositionOf(w.board, id);
        if k < |w.board| {
          DisjointWithout(w.board, k);
        }
        if w.ghost_.Some? {
          RemoveKeepsOk(w.board, w.ghost_.value, id);
        }
      case Release =>
      case Unload =>
    }
  }

  // ---------------------------------------------------------------- the theorem

  lemma {:induction false} JoinKeepsClear(list: seq<Atom>, atoms: seq<Atom>)
    requires ValidAtoms(list) && ValidAtoms(atoms)
    ensures AtomsIntersect(list, Join(atoms)) <==> AtomsIntersect(list, atoms)
  {
    JoinKeepsMeaning(atoms);
    IntersectIffSharedRoom(list, atoms);
    IntersectIffSharedRoom(list, Join(atoms));
    assert forall day: int :: RoomOn(Join(atoms), day) == RoomOn(atoms, day);
  }

  /** What a release commits is valid, means what the ghost showed, and fits on the board without the
      original. */
  lemma {:induction false} CommittedFits(board: seq<ReservationData>, g: Ghost)
    requires Dragging(board, g)
    ensures var others := Without(board, PositionOf(board, Committed(g).header.id));
            CanAdd(AtomsOf(others), Committed(g).atoms) && SameRooms(Committed(g).atoms, g.atoms)
  {
    var k, lists := PositionOf(board, g.header.id), AtomsOf(board);
    assert ValidAtoms(lists[k]);
    assert ValidAtoms(g.atoms);
    JoinKeepsMeaning(g.atoms);
    OthersOf(board, k);
    WithoutKeepsDisjoint(lists, k);
    var others := Without(lists, k);
    forall i | 0 <= i < |others| ensures !AtomsIntersect(others[i], Join(g.atoms)) {
      JoinKeepsClear(others[i], g.atoms);
    }
    DisjointCanBeAdded(others, Join(g.atoms));
  }

  /** After any considerate run, the current ghost could be released and would be accepted. */
  lemma {:induction false} ReleaseIsAccepted(w: World, events: seq<Event>)
    requires ToolOk(w)
    requires forall i :: 0 <= i < |events| ==> Considerate(Run(w, events[..i]), events[i])
    ensures var w' := Run(w, events);
      w'.ghost_.Some? ==>
        var r := Committed(w'.ghost_.value);
        CanAdd(AtomsOf(Without(w'.board, PositionOf(w'.board, r.header.id))), r.atoms)
    decreases |events|
  {
    RunKeepsOk(w, events);
    var w' := Run(w, events);
    if w'.ghost_.Some? {
      CommittedFits(w'.board, w'.ghost_.value);
    }
  }

  lemma {:induction false} RunKeepsOk(w: World, events: seq<Event>)
    requires ToolOk(w)
    requires forall i :: 0 <= i < |events| ==> Considerate(Run(w, events[..i]), events[i])
    ensures ToolOk(Run(w, events))
    decreases |events|
  {
    if |events| > 0 {
      var w1, rest := Step(w, events[0]), events[1..];
      assert Run(w, events[..0]) == w;
      StepKeepsOk(w, events[0]);
      forall i | 0 <= i < |rest| ensures Considerate(Run(w1, rest[..i]), rest[i]) {
        assert events[..i + 1][0] == events[0] && events[..i + 1][1..] == rest[..i];
        assert Considerate(Run(w, events[..i + 1]), events[i + 1]);
      }
      RunKeepsOk(w1, rest);
    }
  }

  // ---------------------------------------------------------------- without consideration

  /** What every run keeps, whatever happens to the original. */
  ghost predicate Sound(w: World) {
    && Disjoint(AtomsOf(w.board))
    && (w.ghost_.Some? ==> ValidAtoms(w.ghost_.value.atoms) && w.ghost_.value.atomIndex < |w.ghost_.value.atoms|)
  }

  /** The board without the reservation that a release would replace, if it is there. */
  function Others(board: seq<ReservationData>, g: Ghost): seq<ReservationData> {
    Without(board, PositionOf(board, g.header.id))
  }

  /** If the ghost were released now, the board would accept it. */
  ghost predicate Releasable(w: World) {
    w.ghost_.Some? ==> CanAdd(AtomsOf(Others(w.board, w.ghost_.value)), Committed(w.ghost_.value).atoms)
  }

  /** The guards under which an event leaves the ghost releasable: what is pressed is what a release would
      replace, and the original room is entered only while it is free of the others. */
  ghost predicate Safe(w: World, e: Event) {
    match e
    case Press(p, i) =>
      w.ghost_.None? && p < |w.board| && i < |w.board[p].atoms| ==> PositionOf(w.board, w.board[p].header.id) == p
    case Move(Some(room)) =>
      w.ghost_.Some? && w.ghost_.value.atomIndex < |w.ghost_.value.atoms| && room == w.ghost_.value.originalRoomId ==>
        var g := w.ghost_.value;
        Free(AtomsOf(Others(w.board, g)), room, g.atoms[g.atomIndex].range)
    case _ => true
  }

  lemma ListsWithoutAny(board: seq<ReservationData>, k: nat)
    ensures AtomsOf(Without(board, k)) == Without(AtomsOf(board), k)
    ensures Disjoint(AtomsOf(board)) ==> Disjoint(AtomsOf(Without(board, k)))
  {
    if Disjoint(AtomsOf(board)) {
      WithoutKeepsDisjoint(AtomsOf(board), k);
    }
  }

  lemma MovedIsValid(g: Ghost, room: int)
    requires ValidAtoms(g.atoms)
    ensures ValidAtoms(MovedTo(g, room).atoms)
  {
  }

  lemma StepKeepsSound(w: World, e: Event)
    requires Sound(w)
    ensures Sound(Step(w, e))
  {
    match e {
      case Press(p, i) => assert p < |w.board| ==> AtomsOf(w.board)[p] == w.board[p].atoms;
      case Move(Some(room)) =>
        if w.ghost_.Some? {
          MovedIsValid(w.ghost_.value, room);
        }
      case BoardAdd(r) =>
        if CanAdd(AtomsOf(w.board), r.atoms) {
          AddKeepsDisjoint(AtomsOf(w.board), r.atoms);
          assert AtomsOf(w.board + [r]) == AtomsOf(w.board) + [r.atoms];
        }
      case BoardRemove(id) => ListsWithoutAny(w.board, PositionOf(w.board, id));
      case _ =>
    }
  }

  /** A release is accepted exactly if the ghost, as it is shown, misses everything but the reservation that
      it replaces. */
  lemma ReleasableIffClear(w: World)
    requires Sound(w) && w.ghost_.Some?
    ensures Releasable(w) <==> ClearOf(AtomsOf(Others(w.board, w.ghost_.value)), w.ghost_.value.atoms)
  {
    var g, others := w.ghost_.value, AtomsOf(Others(w.board, w.ghost_.value));
    ListsWithoutAny(w.board, PositionOf(w.board, g.header.id));
    JoinKeepsMeaning(g.atoms);
    forall i | 0 <= i < |others|
      ensures AtomsIntersect(others[i], Join(g.atoms)) <==> AtomsIntersect(others[i], g.atoms)
    {
      JoinKeepsClear(others[i], g.atoms);
    }
    if CanAdd(others, Join(g.atoms)) {
      forall i | 0 <= i < |others| ensures !AtomsIntersect(others[i], g.atoms) {
        FreeIsDisjoint(others, Join(g.atoms), i);
      }
    }
    if ClearOf(others, g.atoms) {
      assert Disjoint(others + [Join(g.atoms)]) by {
        assert forall i :: 0 <= i < |others| ==> !AtomsIntersect(others[i], Join(g.atoms));
      }
      DisjointCanBeAdded(others, Join(g.atoms));
    }
  }

  lemma MeetsItself(atoms: seq<Atom>)
    requires ValidAtoms(atoms)
    ensures AtomsIntersect(atoms, atoms)
  {
    assert atoms[0].IntersectsWith(atoms[0]);
  }

  lemma PressClearIff(w: World, p: nat, i: nat)
    requires Sound(w) && w.ghost_.None? && p < |w.board| && i < |w.board[p].atoms|
    ensures var g := Picked(w.board[p], i);
            ClearOf(AtomsOf(Others(w.board, g)), g.atoms) <==> PositionOf(w.board, w.board[p].header.id) == p
  {
    var g, k := Picked(w.board[p], i), PositionOf(w.board, w.board[p].header.id);
    if k == p {
      PressKeepsOk(w, p, i);
    } else {
      var others := AtomsOf(Others(w.board, g));
      assert AtomsOf(w.board)[p] == g.atoms;
      MeetsItself(g.atoms);
      assert others[p - 1] == g.atoms;
    }
  }

  /** Any room but the original one has been found free on the whole board. */
  lemma MoveClearIff(w: World, room: int)
    requires Sound(w) && w.ghost_.Some? && MayMove(AtomsOf(w.board), w.ghost_.value, room)
    requires ClearOf(AtomsOf(Others(w.board, w.ghost_.value)), w.ghost_.value.atoms)
    ensures ClearOf(AtomsOf(Others(w.board, w.ghost_.value)), MovedTo(w.ghost_.value, room).atoms) <==>
            Safe(w, Move(Some(room)))
  {
    var g := w.ghost_.value;
    var k, range := PositionOf(w.board, g.header.id), g.atoms[g.atomIndex].range;
    ListsWithoutAny(w.board, k);
    MoveKeepsClearIff(AtomsOf(Others(w.board, g)), g, room);
    if room != g.originalRoomId {
      FewerFree(AtomsOf(w.board), k, room, range);
    }
  }

  lemma FewerFree(lists: AtomLists, k: nat, room: int, range: Period)
    requires Free(lists, room, range)
    ensures Free(Without(lists, k), room, range)
  {
    var fewer: AtomLists := Without(lists, k);
    forall i, j | 0 <= i < |fewer| && 0 <= j < |fewer[i]| && fewer[i][j].roomId == room
      ensures !fewer[i][j].range.Intersects(range)
    {
      assert fewer[i] == lists[if k < |lists| && i >= k then i + 1 else i];
    }
  }

  lemma AddKeepsClear(board: seq<ReservationData>, g: Ghost, r: ReservationData)
    requires ClearOf(AtomsOf(Others(board, g)), g.atoms) && !AtomsIntersect(r.atoms, g.atoms)
    ensures ClearOf(AtomsOf(Others(board + [r], g)), g.atoms)
  {
    OthersAfterAdd(board, g, r);
    OneMoreClear(Others(board, g), r, g.atoms);
  }

  lemma OthersAfterAdd(board: seq<ReservationData>, g: Ghost, r: ReservationData)
    ensures var others, more := Others(board, g), Others(board + [r], g);
            more == others || more == others + [r]
  {
    var k := PositionOf(board, g.header.id);
    PositionAfterAdd(board, r, g.header.id);
    if k < |board| {
      WithoutOfLonger(board, r, k);
    } else if r.header.id == g.header.id {
      assert Without(board + [r], k) == board;
    }
  }

  lemma OneMoreClear(list: seq<ReservationData>, r: ReservationData, atoms: seq<Atom>)
    requires ClearOf(AtomsOf(list), atoms) && !AtomsIntersect(r.atoms, atoms)
    ensures ClearOf(AtomsOf(list + [r]), atoms)
  {
    assert AtomsOf(list + [r]) == AtomsOf(list) + [r.atoms];
  }

  lemma WithoutOfLonger<X>(s: seq<X>, x: X, k: nat)
    requires k < |s|
    ensures Without(s + [x], k) == Without(s, k) + [x]
  {
    assert (s + [x])[..k] == s[..k] && (s + [x])[k + 1..] == s[k + 1..] + [x];
    Associative(s[..k], s[k + 1..], [x]);
  }

  lemma {:induction false} PositionAfterAdd(board: seq<ReservationData>, r: ReservationData, id: int)
    ensures var k := PositionOf(board, id);
            PositionOf(board + [r], id) == if k < |board| || r.header.id == id then k else |board| + 1
  {
    var k, more := PositionOf(board, id), board + [r];
    assert forall i :: 0 <= i < |board| ==> more[i] == board[i];
    assert more[|board|] == r;
  }

  /** What is not replaced after a removal was not replaced before. */
  lemma {:induction false} RemoveKeepsClear(board: seq<ReservationData>, g: Ghost, id: int)
    requires ClearOf(AtomsOf(Others(board, g)), g.atoms)
    ensures ClearOf(AtomsOf(Others(Without(board, PositionOf(board, id)), g)), g.atoms)
  {
    var k, m := PositionOf(board, g.header.id), PositionOf(board, id);
    var fewer := Without(board, m);
    if m == k {
      FewerClear(fewer, PositionOf(fewer, g.header.id), g.atoms);
    } else if k < |board| && m < |board| {
      OtherRemovedKeepsClear(board, g, m);
    } else if m < |board| {
      AbsentAfterRemove(board, g.header.id, m);
      FewerClear(board, m, g.atoms);
    }
  }

  lemma {:induction false} OtherRemovedKeepsClear(board: seq<ReservationData>, g: Ghost, m: nat)
    requires m < |board| && PositionOf(board, g.header.id) < |board| && board[m].header.id != g.header.id
    requires ClearOf(AtomsOf(Others(board, g)), g.atoms)
    ensures ClearOf(AtomsOf(Others(Without(board, m), g)), g.atoms)
  {
    var m' := if PositionOf(board, g.header.id) < m then m - 1 else m;
    OthersAfterOther(board, g, m);
    FewerClear(Others(board, g), m', g.atoms);
  }

  lemma {:induction false} OthersAfterOther(board: seq<ReservationData>, g: Ghost, m: nat)
    requires m < |board| && PositionOf(board, g.header.id) < |board| && board[m].header.id != g.header.id
    ensures Others(Without(board, m), g)
            == Without(Others(board, g), if PositionOf(board, g.header.id) < m then m - 1 else m)
  {
    var k, k' := PositionOf(board, g.header.id), PositionOf(Without(board, m), g.header.id);
    PositionAfterRemove(board, g.header.id, m);
    assert k' == if m < k then k - 1 else k;
    OthersAfterRemove(board, k, m);
  }

  lemma {:induction false} AbsentAfterRemove(board: seq<ReservationData>, id: int, m: nat)
    requires PositionOf(board, id) == |board|
    ensures PositionOf(Without(board, m), id) == |Without(board, m)|
  {
    var fewer := Without(board, m);
    assert forall i :: 0 <= i < |fewer| ==> fewer[i] == board[if m < |board| && i >= m then i + 1 else i];
  }

  /** Per event, the guard is the exact condition. */
  lemma StepReleasableIff(w: World, e: Event)
    requires Sound(w) && Releasable(w)
    ensures Releasable(Step(w, e)) <==> Safe(w, e)
  {
    var w' := Step(w, e);
    StepKeepsSound(w, e);
    if w.ghost_.Some? {
      ReleasableIffClear(w);
    }
    if w'.ghost_.Some? {
      ReleasableIffClear(w');
    }
    match e {
      case Press(p, i) =>
        if w.ghost_.None? && p < |w.board| && i < |w.board[p].atoms| {
          PressClearIff(w, p, i);
        }
      case Move(Some(room)) =>
        if w.ghost_.Some? && MayMove(AtomsOf(w.board), w.ghost_.value, room) {
          MoveClearIff(w, room);
        }
      case BoardAdd(r) =>
        if w'.ghost_.Some? && CanAdd(AtomsOf(w.board), r.atoms) {
          AddKeepsClear(w.board, w'.ghost_.value, r);
        }
      case BoardRemove(id) =>
        if w.ghost_.Some? {
          RemoveKeepsClear(w.board, w.ghost_.value, id);
        }
      case _ =>
    }
  }

  lemma {:induction false} RunSnoc(w: World, events: seq<Event>, e: Event)
    ensures Run(w, events + [e]) == Step(Run(w, events), e)
    decreases |events|
  {
    if |events| == 0 {
      assert Run(Step(w, e), [e][1..]) == Step(w, e);
      assert events + [e] == [e];
    } else {
      assert (events + [e])[0] == events[0] && (events + [e])[1..] == events[1..] + [e];
      RunSnoc(Step(w, events[0]), events[1..], e);
    }
  }

  lemma {:induction false} RunPrefix(w: World, events: seq<Event>, i: nat)
    requires i < |events|
    ensures Run(w, events[..i + 1]) == Step(Run(w, events[..i]), events[i])
  {
    assert events[..i + 1] == events[..i] + [events[i]];
    RunSnoc(w, events[..i], events[i]);
  }

  lemma {:induction false} RunKeepsSound(w: World, events: seq<Event>, n: nat)
    requires Sound(w) && n <= |events|
    ensures Sound(Run(w, events[..n]))
  {
    if n > 0 {
      RunKeepsSound(w, events, n - 1);
      RunPrefix(w, events, n - 1);
      StepKeepsSound(Run(w, events[..n - 1]), events[n - 1]);
    }
  }

  lemma {:induction false} SafeRunIsReleasable(w: World, events: seq<Event>, n: nat)
    requires Sound(w) && Releasable(w) && n <= |events|
    requires forall i :: 0 <= i < n ==> Safe(Run(w, events[..i]), events[i])
    ensures Releasable(Run(w, events[..n]))
  {
    if n > 0 {
      SafeRunIsReleasable(w, events, n - 1);
      RunKeepsSound(w, events, n - 1);
      RunPrefix(w, events, n - 1);
      StepReleasableIff(Run(w, events[..n - 1]), events[n - 1]);
    }
  }

  /** And over runs: the ghost could be released at every point exactly if every event was safe when it came.
      Nothing is asked of the board, the original may come and go. */
  lemma {:induction false} ReleasableThroughoutIff(w: World, events: seq<Event>)
    requires Sound(w) && Releasable(w)
    ensures (forall n :: 0 <= n <= |events| ==> Releasable(Run(w, events[..n])))
            <==> (forall i :: 0 <= i < |events| ==> Safe(Run(w, events[..i]), events[i]))
  {
    if forall i :: 0 <= i < |events| ==> Safe(Run(w, events[..i]), events[i]) {
      forall n | 0 <= n <= |events| ensures Releasable(Run(w, events[..n])) {
        SafeRunIsReleasable(w, events, n);
      }
    }
    if forall n :: 0 <= n <= |events| ==> Releasable(Run(w, events[..n])) {
      forall i | 0 <= i < |events| ensures Safe(Run(w, events[..i]), events[i]) {
        RunKeepsSound(w, events, i);
        RunPrefix(w, events, i);
        assert Releasable(Run(w, events[..i])) && Releasable(Run(w, events[..i + 1]));
        StepReleasableIff(Run(w, events[..i]), events[i]);
      }
    }
  }

  /** While the original stays on the board, every event is safe: its place is its own. */
  lemma ConsiderateIsSafe(w: World, e: Event)
    requires ToolOk(w) && Considerate(w, e)
    ensures Sound(w) && Releasable(w) && Safe(w, e)
  {
    if w.ghost_.Some? {
      var g, lists := w.ghost_.value, AtomsOf(w.board);
      var k, range := PositionOf(w.board, g.header.id), g.atoms[g.atomIndex].range;
      assert ValidAtoms(lists[k]) && lists[k] == w.board[k].atoms && lists[k][g.atomIndex].range == range;
      CommittedFits(w.board, g);
      OthersOf(w.board, k);
      FreeOfOthers(lists, k, g.originalRoomId, range);
    }
  }

  /** A run with an unsafe event: the original is removed, its place is taken, and the ghost returns to
      the original room, which is entered without asking. */
  lemma RemovedOriginalBreaksRelease(r: ReservationData, s: ReservationData)
    requires r.atoms == [Atom(0, 1, Period(FIRST_DAY, FIRST_DAY + 2))] && s.atoms == r.atoms
    requires r.header.id != s.header.id
    ensures var w := Run(World([r], None, []),
                         [Press(0, 0), Move(Some(2)), BoardRemove(r.header.id), BoardAdd(s), Move(Some(1))]);
      && w.ghost_.Some?
      && !CanAdd(AtomsOf(Without(w.board, PositionOf(w.board, r.header.id))), Committed(w.ghost_.value).atoms)
  {
    PlaceIsTaken(r, s);
    assert PositionOf([s], r.header.id) == 1 && Without([s], 1) == [s];
    assert AtomsOf([s])[0][0].range.Intersects(r.atoms[0].range);
    assert !Free(AtomsOf([s]), 1, r.atoms[0].range);
  }

  lemma PlaceIsTaken(r: ReservationData, s: ReservationData)
    requires r.atoms == [Atom(0, 1, Period(FIRST_DAY, FIRST_DAY + 2))] && s.atoms == r.atoms
    requires r.header.id != s.header.id
    ensures Run(World([r], None, []),
            [Press(0, 0), Move(Some(2)), BoardRemove(r.header.id), BoardAdd(s), Move(Some(1))])
            == World([s], Some(Picked(r, 0)), [])
  {
    var e1, e2, e3, e4, e5 := Press(0, 0), Move(Some(2)), BoardRemove(r.header.id), BoardAdd(s), Move(Some(1));
    var there := [Atom(0, 2, Period(FIRST_DAY, FIRST_DAY + 2))];
    var g := Picked(r, 0);
    var g' := g.(atoms := there);
    assert Free(AtomsOf([r]), 2, r.atoms[0].range);
    assert MovedTo(g, 2).atoms == there && MovedTo(g', 1).atoms == r.atoms;
    RunStep(World([r], None, []), e1, [e2, e3, e4, e5], World([r], Some(g), []));
    RunStep(World([r], Some(g), []), e2, [e3, e4, e5], World([r], Some(g'), []));
    RunStep(World([r], Some(g'), []), e3, [e4, e5], World([], Some(g'), []));
    RunStep(World([], Some(g'), []), e4, [e5], World([s], Some(g'), []));
    RunStep(World([s], Some(g'), []), e5, [], World([s], Some(g), []));
  }

  lemma {:induction false} RunStep(w: World, e: Event, rest: seq<Event>, w': World)
    requires Step(w, e) == w'
    ensures Run(w, [e] + rest) == Run(w', rest)
  {
    assert ([e] + rest)[1..] == rest;
  }

  // ---------------------------------------------------------------- what is queued

  /** The same reservation except that the atom's nights are spent in the room, without atoms to be joined. */
  ghost predicate IsUpdateOf(q: ReservationData, r: ReservationData, atomIndex: nat, room: int) {
    && atomIndex < |r.atoms| && q.header == r.header
    && ValidAtoms(q.atoms) && NoEqualNeighbours(q.atoms)
    && forall day: int :: RoomOn(q.atoms, day) ==
         if r.atoms[atomIndex].range.Contains(day) then Some(room) else RoomOn(r.atoms, day)
  }

  lemma {:induction false} CommittedIsUpdate(g: Ghost, r: ReservationData)
    requires CopyOf(g, r) && ValidAtoms(r.atoms)
    ensures IsUpdateOf(Committed(g), r, g.atomIndex, g.atoms[g.atomIndex].roomId)
  {
    JoinKeepsMeaning(g.atoms);
    forall day: int
      ensures RoomOn(Join(g.atoms), day) == if r.atoms[g.atomIndex].range.Contains(day)
              then Some(g.atoms[g.atomIndex].roomId) else RoomOn(r.atoms, day)
    {
      assert RoomOn(Join(g.atoms), day) == RoomOn(g.atoms, day);
      RoomOnMoved(r.atoms, g.atomIndex, g.atoms[g.atomIndex].roomId, day);
    }
  }

  /** A release ends the drag and queues one update of the original, status included. */
  lemma ReleaseUpdatesOriginal(w: World)
    requires w.ghost_.Some? && Dragging(w.board, w.ghost_.value)
    ensures var g, w' := w.ghost_.value, Step(w, Release);
            && w' == w.(ghost_ := None, queued := w'.queued)
            && |w'.queued| == |w.queued| + 1 && w'.queued[..|w.queued|] == w.queued
            && IsUpdateOf(Last(w'.queued), w.board[PositionOf(w.board, g.header.id)], g.atomIndex,
                          g.atoms[g.atomIndex].roomId)
  {
    var g := w.ghost_.value;
    var k := PositionOf(w.board, g.header.id);
    assert AtomsOf(w.board)[k] == w.board[k].atoms;
    CommittedIsUpdate(g, w.board[k]);
  }

  /** The mouse is over a room that the atom may be moved to. */
  ghost predicate Enters(board: AtomLists, atom: Atom, e: Event) {
    e.Move? && e.row.Some? && (e.row.value == atom.roomId || Free(board, e.row.value, atom.range))
  }

  /** The last such room of the moves, or else the atom's own. */
  ghost function LastEntered(board: AtomLists, atom: Atom, moves: seq<Event>): int {
    if |moves| == 0 then atom.roomId
    else if Enters(board, atom, Last(moves)) then Last(moves).row.value
    else LastEntered(board, atom, moves[..|moves| - 1])
  }

  lemma {:induction false} MovesCarry(w: World, r: ReservationData, moves: seq<Event>)
    requires w.ghost_.Some? && forall i :: 0 <= i < |moves| ==> moves[i].Move?
    requires w.ghost_.value.atomIndex < |r.atoms| && w.ghost_.value == Picked(r, w.ghost_.value.atomIndex)
    ensures var w', i := Run(w, moves), w.ghost_.value.atomIndex;
            && w'.ghost_.Some? && w' == w.(ghost_ := w'.ghost_)
            && CopyOf(w'.ghost_.value, r) && w'.ghost_.value.atomIndex == i
            && w'.ghost_.value.atoms[i].roomId == LastEntered(AtomsOf(w.board), r.atoms[i], moves)
    decreases |moves|
  {
    if |moves| > 0 {
      var fewer := moves[..|moves| - 1];
      MovesCarry(w, r, fewer);
      assert moves == fewer + [Last(moves)];
      RunSnoc(w, fewer, Last(moves));
      assert moves[|moves| - 1].Move?;
    }
  }

  /** A press, any drag and the release: nothing changes but that one update is queued, with the atom in the
      last room it could enter; unloading the tool instead leaves nothing of it. */
  lemma {:induction false} MoveIsQueued(w: World, p: nat, i: nat, moves: seq<Event>)
    requires Disjoint(AtomsOf(w.board)) && w.ghost_.None? && p < |w.board| && i < |w.board[p].atoms|
    requires forall k :: 0 <= k < |moves| ==> moves[k].Move?
    ensures exists q ::
      && IsUpdateOf(q, w.board[p], i, LastEntered(AtomsOf(w.board), w.board[p].atoms[i], moves))
      && Run(w, [Press(p, i)] + moves + [Release]) == w.(queued := w.queued + [q])
    ensures Run(w, [Press(p, i)] + moves + [Unload]) == w
  {
    var r := w.board[p];
    var w1 := w.(ghost_ := Some(Picked(r, i)));
    MovesCarry(w1, r, moves);
    RunStep(w, Press(p, i), moves, w1);
    RunSnoc(w, [Press(p, i)] + moves, Release);
    RunSnoc(w, [Press(p, i)] + moves, Unload);
    assert AtomsOf(w.board)[p] == r.atoms;
    CommittedIsUpdate(Run(w1, moves).ghost_.value, r);
  }

  /** The ghost is a copy of what was pressed as that event of the run. */
  ghost predicate PressedAt(w: World, events: seq<Event>, m: nat, g: Ghost) {
    && m < |events| && events[m].Press?
    && var before := Run(w, events[..m]);
       && Disjoint(AtomsOf(before.board)) && events[m].position < |before.board|
       && events[m].atomIndex == g.atomIndex && CopyOf(g, before.board[events[m].position])
  }

  lemma {:induction false} GhostWasPressed(w: World, events: seq<Event>, n: nat)
    requires Disjoint(AtomsOf(w.board)) && w.ghost_.None? && n <= |events|
    ensures var g := Run(w, events[..n]).ghost_; g.Some? ==> exists m | 0 <= m < n :: PressedAt(w, events, m, g.value)
  {
    if n > 0 {
      var before, e := Run(w, events[..n - 1]), events[n - 1];
      GhostWasPressed(w, events, n - 1);
      RunPrefix(w, events, n - 1);
      RunKeepsSound(w, events, n - 1);
      var after := Step(before, e);
      if after.ghost_.Some? {
        if before.ghost_.None? {
          assert PressedAt(w, events, n - 1, after.ghost_.value);
        } else {
          var m :| 0 <= m < n - 1 && PressedAt(w, events, m, before.ghost_.value);
          assert PressedAt(w, events, m, after.ghost_.value);
        }
      }
    }
  }

  /** Over any run: a release during a drag queues exactly one update of the reservation that was pressed, as
      it was then, and nothing else queues anything. */
  lemma {:induction false} QueuedPerRelease(w: World, events: seq<Event>, n: nat)
    requires Disjoint(AtomsOf(w.board)) && w.ghost_.None? && n < |events|
    ensures var before, after := Run(w, events[..n]), Run(w, events[..n + 1]);
      if events[n].Release? && before.ghost_.Some? then
        exists q, m | 0 <= m < n && PressedAt(w, events, m, before.ghost_.value) ::
          && after == before.(ghost_ := None, queued := before.queued + [q])
          && IsUpdateOf(q, Run(w, events[..m]).board[events[m].position], events[m].atomIndex,
                        before.ghost_.value.atoms[before.ghost_.value.atomIndex].roomId)
      else after.queued == before.queued
  {
    var before := Run(w, events[..n]);
    RunPrefix(w, events, n);
    if events[n].Release? && before.ghost_.Some? {
      GhostWasPressed(w, events, n);
      var m :| 0 <= m < n && PressedAt(w, events, m, before.ghost_.value);
      var at := Run(w, events[..m]);
      assert AtomsOf(at.board)[events[m].position] == at.board[events[m].position].atoms;
      CommittedIsUpdate(before.ghost_.value, at.board[events[m].position]);
    }
  }

  /** The drag is given up exactly if the new reservation shares a room on some day with the ghost. */
  lemma AddDropsIff(w: World, r: ReservationData)
    requires Sound(w) && w.ghost_.Some? && ValidAtoms(r.atoms)
    ensures Step(w, BoardAdd(r)).ghost_ == if ShareARoom(r.atoms, w.ghost_.value.atoms) then None else w.ghost_
  {
    IntersectIffSharedRoom(r.atoms, w.ghost_.value.atoms);
  }

  class MoveReservationTool {
    const board: PlanningBoard
    var currentGhost: Option<Ghost>

    constructor (board: PlanningBoard)
      ensures this.board == board && currentGhost == None
    {
      this.board, currentGhost := board, None;
    }

    ghost function State(queued: seq<ReservationData>): World
      reads this, board
    {
      World(board.Contents(), currentGhost, queued)
    }

    method AtomMousePressEvent(position: nat, atomIndex: nat)
      requires board.Valid() && position < |board.Contents()| && atomIndex < |board.Contents()[position].atoms|
      modifies this
      ensures State([]) == Step(old(State([])), Press(position, atomIndex))
    {
      if currentGhost.None? {
        var r := board.reservations[position].value;
        currentGhost := Some(Ghost(r.header.(status := Temporary), r.atoms, r.header.status,
                                   r.atoms[atomIndex].roomId, atomIndex));
      }
    }

    method MouseMoveEvent(row: Option<int>)
      requires board.Valid() && (currentGhost.Some? ==> currentGhost.value.atomIndex < |currentGhost.value.atoms|)
      modifies this
      ensures State([]) == Step(old(State([])), Move(row))
    {
      if currentGhost.Some? && row.Some? {
        var g := currentGhost.value;
        var atom := g.atoms[g.atomIndex];
        var free := board.IsFree(row.value, atom.range);
        if row.value == g.originalRoomId || free {
          currentGhost := Some(g.(atoms := g.atoms[g.atomIndex := atom.(roomId := row.value)]));
        }
      }
    }

    method MouseReleaseEvent() returns (queued: seq<ReservationData>)
      modifies this
      ensures State(queued) == Step(old(State([])), Release)
    {
      queued := [];
      if currentGhost.Some? {
        var g := currentGhost.value;
        var released := new Reservation(ReservationData(g.header.(status := g.originalStatus), g.atoms));
        released.JoinAdjacentAtoms();
        queued := [ReservationData(g.header.(status := g.originalStatus), released.atoms)];
      }
      currentGhost := None;
    }

    /** Called before the reservation is added to the board. */
    method ReservationAdded(atoms: seq<Atom>)
      modifies this
      ensures currentGhost ==
        if old(currentGhost).Some? && AtomsIntersect(atoms, old(currentGhost).value.atoms) then None
        else old(currentGhost)
    {
      if currentGhost.Some? {
        var hit := ListsIntersect(atoms, currentGhost.value.atoms);
        if hit {
          currentGhost := None;
        }
      }
    }
  }
}
