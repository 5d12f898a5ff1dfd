/** The tool with which new reservations are drawn on the planning board. Reservations that are not
    stored yet are "ghosts"; one of them, the current ghost, is being dragged. */
module NewReservationTools {
  import opened Common
  import opened Reservations
  import opened Occupancy
  import opened Planning

  /** The temporary reservation is uniquely owned by its ghost, so it is a value here. */
  datatype Ghost = Ghost(atoms: seq<Atom>, startRoomId: int, startDate: Day)

  datatype ToolView = ToolView(ghosts: seq<Ghost>, current: Option<Ghost>)

  function GhostLists(ghosts: seq<Ghost>): AtomLists {
    seq(|ghosts|, i requires 0 <= i < |ghosts| => ghosts[i].atoms)
  }

  // ---------------------------------------------------------------- what each event does

  /** The date up to which a reservation from the given date on would collide neither with the board nor
      with a ghost. */
  ghost function MaximumDate(board: AtomLists, ghosts: seq<Ghost>, room: int, from: Day): int {
    from + FreeDays(board + GhostLists(ghosts), room, from, INT_MAX)
  }

  /** row: the room under the mouse, if it is over one. */
  ghost function Pressed(board: AtomLists, v: ToolView, row: Option<int>, date: Day): ToolView {
    if row.None? || MaximumDate(board, v.ghosts, row.value, date) == date then v
    else v.(current := Some(Ghost([], row.value, date)))
  }

  /** Where a drag writes: the room, the begin date, and the atoms that stay as they are. */
  datatype Stroke = Stroke(room: int, start: Day, kept: seq<Atom>)

  /** shiftRow: the room under the mouse if shift is held. */
  function StrokeOf(g: Ghost, shiftRow: Option<int>): Stroke {
    var any := |g.atoms| > 0;
    var room := if any then Last(g.atoms).roomId else g.startRoomId;
    if shiftRow.Some? && shiftRow.value != room then
      Stroke(shiftRow.value, if any then Last(g.atoms).range.end else g.startDate, g.atoms)
    else if any then Stroke(room, Last(g.atoms).range.begin, g.atoms[..|g.atoms| - 1])
    else Stroke(room, g.startDate, [])
  }

  function Clamp(date: Day, start: Day, maximum: int): (d: Day)
    requires start <= maximum
  {
    if date < start then start else if date > maximum then maximum else date
  }

  ghost function Dragged(board: AtomLists, ghosts: seq<Ghost>, g: Ghost, date: Day,
                         shiftRow: Option<int>): Result<seq<Atom>, Failure> {
    var s := StrokeOf(g, shiftRow);
    var period := Period(s.start, Clamp(date, s.start, MaximumDate(board, ghosts, s.room, s.start)));
    if period.IsNull() then Ok(s.kept) else WithAtom(s.kept, s.room, period)
  }

  /** A failure to add the atom is an exception that leaves the last atom removed. */
  ghost function Moved(board: AtomLists, v: ToolView, date: Day, shiftRow: Option<int>): ToolView {
    if v.current.None? then v
    else
      var r := Dragged(board, v.ghosts, v.current.value, date, shiftRow);
      var atoms := if r.Ok? then r.value else StrokeOf(v.current.value, shiftRow).kept;
      v.(current := Some(v.current.value.(atoms := atoms)))
  }

  /** specialIsNull: what is_null says of the special period that a reservation without atoms has. */
  function Released(v: ToolView, specialIsNull: bool): ToolView {
    if v.current.None? then v
    else if !ValidAtoms(v.current.value.atoms) && specialIsNull then v.(current := None)
    else ToolView(v.ghosts + [v.current.value], None)
  }

  function Clear(other: seq<Atom>, ghosts: seq<Ghost>): seq<Ghost> {
    if |ghosts| == 0 then []
    else (if AtomsIntersect(other, ghosts[0].atoms) then [] else [ghosts[0]]) + Clear(other, ghosts[1..])
  }

  function Added(v: ToolView, atoms: seq<Atom>): ToolView {
    ToolView(Clear(atoms, v.ghosts),
             if v.current.Some? && AtomsIntersect(atoms, v.current.value.atoms) then None else v.current)
  }

  /** What entering a description makes of the ghosts: reservations with that description, new in every
      other respect. */
  function Reserved(ghosts: seq<Ghost>, name: string): seq<ReservationData> {
    seq(|ghosts|, i requires 0 <= i < |ghosts| =>
      ReservationData(Header(0, 0, New, name, None, 0, 0), ghosts[i].atoms))
  }

  /** The board and the active tool, as the context holds them, and the reservations queued so far to be
      stored. */
  datatype World = World(board: seq<ReservationData>, tool: ToolView, queued: seq<ReservationData>)

  datatype Event = Press(row: Option<int>, date: Day) | Move(date: Day, shiftRow: Option<int>) | Release
                 | Escape | Backspace | Enter(name: string) | Unload
                 | BoardAdd(reservation: ReservationData) | BoardRemove(id: int)

  ghost function Step(w: World, e: Event, specialIsNull: bool): World {
    var lists := AtomsOf(w.board);
    match e
    case Press(row, date) => w.(tool := Pressed(lists, w.tool, row, date))
    case Move(date, shiftRow) => w.(tool := Moved(lists, w.tool, date, shiftRow))
    case Release => w.(tool := Released(w.tool, specialIsNull))
    case Unload => w.(tool := ToolView([], None))
    case Escape => if w.tool.current.Some? then w else w.(tool := ToolView([], None))
    case Backspace =>
      if w.tool.current.Some? || |w.tool.ghosts| == 0 then w
      else w.(tool := w.tool.(ghosts := w.tool.ghosts[..|w.tool.ghosts| - 1]))
    case Enter(name) =>
      if w.tool.current.Some? || |name| == 0 then w
      else w.(tool := w.tool.(ghosts := []), queued := w.queued + Reserved(w.tool.ghosts, name))
    case BoardAdd(r) =>
      // the tool is told first; a reservation that does not fit makes the board throw
      w.(board := if CanAdd(lists, r.atoms) then w.board + [r] else w.board, tool := Added(w.tool, r.atoms))
    case BoardRemove(id) => w.(board := Without(w.board, PositionOf(w.board, id)))
  }

  ghost function Run(w: World, events: seq<Event>, specialIsNull: bool): World
    decreases |events|
  {
    if |events| == 0 then w else Run(Step(w, events[0], specialIsNull), events[1..], specialIsNull)
  }

  // ---------------------------------------------------------------- the invariant

  ghost predicate EmptyOrValid(atoms: seq<Atom>) {
    |atoms| == 0 || ValidAtoms(atoms)
  }

  ghost predicate ClearOfBoard(board: AtomLists, atoms: seq<Atom>) {
    forall i :: 0 <= i < |board| ==> !AtomsIntersect(board[i], atoms)
  }

  ghost predicate ClearOfGhosts(ghosts: seq<Ghost>, atoms: seq<Atom>) {
    forall i :: 0 <= i < |ghosts| ==> !AtomsIntersect(ghosts[i].atoms, atoms)
  }

  ghost predicate Apart(ghosts: seq<Ghost>) {
    forall i, j :: 0 <= i < j < |ghosts| ==> !AtomsIntersect(ghosts[i].atoms, ghosts[j].atoms)
  }

  ghost predicate GhostsOk(board: AtomLists, ghosts: seq<Ghost>) {
    && (forall i :: 0 <= i < |ghosts| ==> EmptyOrValid(ghosts[i].atoms) && ClearOfBoard(board, ghosts[i].atoms))
    && Apart(ghosts)
  }

  ghost predicate CurrentOk(board: AtomLists, v: ToolView) {
    v.current.Some? ==>
      EmptyOrValid(v.current.value.atoms) && ClearOfBoard(board, v.current.value.atoms)
      && ClearOfGhosts(v.ghosts, v.current.value.atoms)
  }

  ghost predicate ToolOk(board: AtomLists, v: ToolView) {
    Disjoint(board) && GhostsOk(board, v.ghosts) && CurrentOk(board, v)
  }

  lemma NoNullAtoms(board: AtomLists, ghosts: seq<Ghost>)
    requires Disjoint(board) && GhostsOk(board, ghosts)
    ensures var lists := board + GhostLists(ghosts);
            forall i, j :: 0 <= i < |lists| && 0 <= j < |lists[i]| ==> !lists[i][j].range.IsNull()
  {
    var lists: AtomLists := board + GhostLists(ghosts);
    forall i: int, j: int | 0 <= i < |lists| && 0 <= j < |lists[i]| ensures !lists[i][j].range.IsNull() {
      if i < |board| {
        assert ValidAtoms(board[i]);
      } else {
        assert EmptyOrValid(ghosts[i - |board|].atoms);
      }
    }
  }

  /** What is kept of the ghost continues seamlessly with the atom to be drawn: addAtom does not throw. */
  lemma StrokeFits(g: Ghost, shiftRow: Option<int>, end: Day)
    requires EmptyOrValid(g.atoms) && StrokeOf(g, shiftRow).start < end
    ensures var s := StrokeOf(g, shiftRow);
            WithAtom(s.kept, s.room, Period(s.start, end)).Ok? && EmptyOrValid(s.kept)
            && ValidAtoms(WithAtom(s.kept, s.room, Period(s.start, end)).value)
  {
  }

  lemma FreeMissesAll(lists: AtomLists, kept: seq<Atom>, atom: Atom, i: nat)
    requires i < |lists| && Free(lists, atom.roomId, atom.range) && !AtomsIntersect(lists[i], kept)
    ensures !AtomsIntersect(lists[i], kept + [atom])
  {
    forall j, k | 0 <= j < |lists[i]| && 0 <= k < |kept + [atom]|
      ensures !lists[i][j].IntersectsWith((kept + [atom])[k])
    {
    }
  }

  lemma FewerAtomsClear(list: seq<Atom>, atoms: seq<Atom>, n: nat)
    requires n <= |atoms| && !AtomsIntersect(list, atoms)
    ensures !AtomsIntersect(list, atoms[..n])
  {
    forall j, k | 0 <= j < |list| && 0 <= k < n ensures !list[j].IntersectsWith(atoms[..n][k]) {
      assert atoms[..n][k] == atoms[k];
    }
  }

  /** What is kept of the ghost misses the board and the other ghosts. */
  lemma KeptMissesAll(board: AtomLists, v: ToolView, shiftRow: Option<int>)
    requires ToolOk(board, v) && v.current.Some?
    ensures var lists := board + GhostLists(v.ghosts);
            forall i :: 0 <= i < |lists| ==> !AtomsIntersect(lists[i], StrokeOf(v.current.value, shiftRow).kept)
  {
    var atoms, kept := v.current.value.atoms, StrokeOf(v.current.value, shiftRow).kept;
    var lists: AtomLists := board + GhostLists(v.ghosts);
    assert kept == atoms[..|kept|];
    forall i: int | 0 <= i < |lists| ensures !AtomsIntersect(lists[i], kept) {
      if i < |board| {
        assert !AtomsIntersect(board[i], atoms);
      } else {
        assert !AtomsIntersect(v.ghosts[i - |board|].atoms, atoms);
      }
      FewerAtomsClear(lists[i], atoms, |kept|);
    }
  }

  /** The period drawn stays within the free days of its room. */
  lemma DrawnIsFree(board: AtomLists, ghosts: seq<Ghost>, room: int, start: Day, date: Day)
    requires Disjoint(board) && GhostsOk(board, ghosts)
    ensures start <= MaximumDate(board, ghosts, room, start)
    ensures var period := Period(start, Clamp(date, start, MaximumDate(board, ghosts, room, start)));
            !period.IsNull() ==> Free(board + GhostLists(ghosts), room, period)
  {
    var lists := board + GhostLists(ghosts);
    var free := FreeDays(lists, room, start, INT_MAX);
    FreeRunIsFreeDays(lists, room, start, INT_MAX, free);
    var period := Period(start, Clamp(date, start, start + free));
    if !period.IsNull() {
      NoNullAtoms(board, ghosts);
      FreeDaysAreFree(lists, room, period, INT_MAX);
    }
  }

  /** A drag never throws, and leaves the ghost clear of the board and of the other ghosts. */
  lemma DragKeepsOk(board: AtomLists, v: ToolView, date: Day, shiftRow: Option<int>)
    requires ToolOk(board, v) && v.current.Some?
    ensures Dragged(board, v.ghosts, v.current.value, date, shiftRow).Ok?
    ensures ToolOk(board, Moved(board, v, date, shiftRow))
  {
    var g, lists := v.current.value, board + GhostLists(v.ghosts);
    var s := StrokeOf(g, shiftRow);
    KeptMissesAll(board, v, shiftRow);
    DrawnIsFree(board, v.ghosts, s.room, s.start, date);
    var period := Period(s.start, Clamp(date, s.start, MaximumDate(board, v.ghosts, s.room, s.start)));
    if period.IsNull() {
      KeptClear(board, v.ghosts, lists, s.kept);
    } else {
      StrokeFits(g, shiftRow, period.end);
      AtomClear(lists, s.kept, Atom(0, s.room, period));
      KeptClear(board, v.ghosts, lists, s.kept + [Atom(0, s.room, period)]);
    }
  }

  lemma AtomClear(lists: AtomLists, kept: seq<Atom>, atom: Atom)
    requires Free(lists, atom.roomId, atom.range)
    requires forall i :: 0 <= i < |lists| ==> !AtomsIntersect(lists[i], kept)
    ensures forall i :: 0 <= i < |lists| ==> !AtomsIntersect(lists[i], kept + [atom])
  {
    forall i | 0 <= i < |lists| ensures !AtomsIntersect(lists[i], kept + [atom]) {
      FreeMissesAll(lists, kept, atom, i);
    }
  }

  lemma KeptClear(board: AtomLists, ghosts: seq<Ghost>, lists: AtomLists, atoms: seq<Atom>)
    requires lists == board + GhostLists(ghosts)
    requires forall i :: 0 <= i < |lists| ==> !AtomsIntersect(lists[i], atoms)
    ensures ClearOfBoard(board, atoms) && ClearOfGhosts(ghosts, atoms)
  {
    forall i | 0 <= i < |board| ensures !AtomsIntersect(board[i], atoms) {
      assert lists[i] == board[i];
    }
    forall i | 0 <= i < |ghosts| ensures !AtomsIntersect(ghosts[i].atoms, atoms) {
      assert lists[|board| + i] == ghosts[i].atoms;
    }
  }

  /** Telling the tool about a new reservation leaves only ghosts that miss it... */
  lemma {:induction false} ClearLeavesMisses(other: seq<Atom>, ghosts: seq<Ghost>)
    ensures forall g :: g in Clear(other, ghosts) <==> g in ghosts && !AtomsIntersect(other, g.atoms)
    ensures forall i :: 0 <= i < |Clear(other, ghosts)| ==> !AtomsIntersect(other, Clear(other, ghosts)[i].atoms)
  {
    if |ghosts| > 0 {
      ClearLeavesMisses(other, ghosts[1..]);
    }
  }

  /** ...in their order. */
  lemma {:induction false} ClearKeepsApart(other: seq<Atom>, ghosts: seq<Ghost>)
    requires Apart(ghosts)
    ensures Apart(Clear(other, ghosts))
  {
    if |ghosts| > 0 {
      ClearKeepsApart(other, ghosts[1..]);
      var rest := Clear(other, ghosts[1..]);
      ClearLeavesMisses(other, ghosts[1..]);
      forall i | 0 <= i < |rest| ensures !AtomsIntersect(ghosts[0].atoms, rest[i].atoms) {
        assert rest[i] in ghosts[1..];
      }
    }
  }

  lemma {:induction false} ClearKeepsOk(board: AtomLists, ghosts: seq<Ghost>, other: seq<Atom>)
    requires GhostsOk(board, ghosts)
    ensures GhostsOk(board, Clear(other, ghosts))
    ensures forall atoms :: ClearOfGhosts(ghosts, atoms) ==> ClearOfGhosts(Clear(other, ghosts), atoms)
  {
    var left := Clear(other, ghosts);
    ClearLeavesMisses(other, ghosts);
    ClearKeepsApart(other, ghosts);
    forall i | 0 <= i < |left| ensures left[i] in ghosts {
      assert left[i] in left;
    }
  }

  lemma AddedKeepsOk(board: AtomLists, v: ToolView, atoms: seq<Atom>)
    requires ToolOk(board, v)
    ensures ToolOk(board, Added(v, atoms))
  {
    ClearKeepsOk(board, v.ghosts, atoms);
  }

  lemma BoardAddKeepsOk(w: World, r: ReservationData)
    requires ToolOk(AtomsOf(w.board), w.tool)
    ensures var w' := Step(w, BoardAdd(r), true); ToolOk(AtomsOf(w'.board), w'.tool)
  {
    var board, atoms := AtomsOf(w.board), r.atoms;
    var v := Added(w.tool, atoms);
    AddedKeepsOk(board, w.tool, atoms);
    ClearLeavesMisses(atoms, w.tool.ghosts);
    if CanAdd(board, atoms) {
      var more := board + [atoms];
      assert AtomsOf(w.board + [r]) == more;
      AddKeepsDisjoint(board, atoms);
      forall i | 0 <= i < |v.ghosts| ensures ClearOfBoard(more, v.ghosts[i].atoms) {
        assert ClearOfBoard(board, v.ghosts[i].atoms);
      }
    }
  }

  lemma BoardRemoveKeepsOk(w: World, id: int)
    requires ToolOk(AtomsOf(w.board), w.tool)
    ensures ToolOk(AtomsOf(Step(w, BoardRemove(id), true).board), w.tool)
  {
    var board, k := AtomsOf(w.board), PositionOf(w.board, id);
    var fewer := AtomsOf(Without(w.board, k));
    assert fewer == Without(board, k);
    WithoutKeepsDisjoint(board, k);
    forall i | 0 <= i < |fewer| ensures fewer[i] == board[if k < |board| && i >= k then i + 1 else i] {
    }
    forall atoms | ClearOfBoard(board, atoms) ensures ClearOfBoard(fewer, atoms) {
    }
    forall i | 0 <= i < |w.tool.ghosts| ensures ClearOfBoard(fewer, w.tool.ghosts[i].atoms) {
      assert ClearOfBoard(board, w.tool.ghosts[i].atoms);
    }
  }

  lemma StepKeepsOk(w: World, e: Event, specialIsNull: bool)
    requires ToolOk(AtomsOf(w.board), w.tool)
    ensures var w' := Step(w, e, specialIsNull); ToolOk(AtomsOf(w'.board), w'.tool)
  {
    match e
    case Move(date, shiftRow) =>
      if w.tool.current.Some? {
        DragKeepsOk(AtomsOf(w.board), w.tool, date, shiftRow);
      }
    case BoardAdd(r) => BoardAddKeepsOk(w, r);
    case BoardRemove(id) => BoardRemoveKeepsOk(w, id);
    case _ =>
  }

  // ---------------------------------------------------------------- the theorem

  /** All temporary reservations, the one being dragged last. */
  function Shown(v: ToolView): AtomLists {
    GhostLists(v.ghosts) + if v.current.Some? then [v.current.value.atoms] else []
  }

  /** The board accepts the lists one after another, skipping those without atoms. */
  ghost predicate AcceptsAll(board: AtomLists, lists: AtomLists)
    decreases |lists|
  {
    if |lists| == 0 then true
    else if |lists[0]| == 0 then AcceptsAll(board, lists[1..])
    else CanAdd(board, lists[0]) && AcceptsAll(board + [lists[0]], lists[1..])
  }

  ghost predicate Compatible(lists: AtomLists) {
    && (forall i :: 0 <= i < |lists| ==> EmptyOrValid(lists[i]))
    && (forall i, j :: 0 <= i < j < |lists| ==> !AtomsIntersect(lists[i], lists[j]))
  }

  lemma {:induction false} CompatibleAreAccepted(board: AtomLists, lists: AtomLists)
    requires Disjoint(board) && Compatible(board + lists)
    ensures AcceptsAll(board, lists)
    decreases |lists|
  {
    if |lists| > 0 {
      var all := board + lists;
      if |lists[0]| == 0 {
        var rest := board + lists[1..];
        assert forall i :: 0 <= i < |rest| ==> rest[i] == all[if i < |board| then i else i + 1];
        CompatibleAreAccepted(board, lists[1..]);
      } else {
        var more := board + [lists[0]];
        assert more + lists[1..] == all;
        assert forall i :: 0 <= i < |more| ==> more[i] == all[i];
        DisjointCanBeAdded(board, lists[0]);
        CompatibleAreAccepted(more, lists[1..]);
      }
    }
  }

  lemma ShownAreCompatible(board: AtomLists, v: ToolView)
    requires ToolOk(board, v)
    ensures Compatible(board + Shown(v))
  {
    var all, n, m := board + Shown(v), |board|, |board| + |v.ghosts|;
    forall i | 0 <= i < |all|
      ensures all[i] == if i < n then board[i] else if i < m then v.ghosts[i - n].atoms else v.current.value.atoms
    {
    }
    forall i, j | 0 <= i < j < |all| ensures !AtomsIntersect(all[i], all[j]) {
      if i < n && n <= j < m {
        assert ClearOfBoard(board, v.ghosts[j - n].atoms);
      }
    }
  }

  /** Every drag of the run can add its atom. */
  ghost predicate NeverThrows(w: World, events: seq<Event>, specialIsNull: bool)
    decreases |events|
  {
    |events| > 0 ==>
      && (events[0].Move? && w.tool.current.Some? ==>
            Dragged(AtomsOf(w.board), w.tool.ghosts, w.tool.current.value, events[0].date, events[0].shiftRow).Ok?)
      && NeverThrows(Step(w, events[0], specialIsNull), events[1..], specialIsNull)
  }

  /** After any run of events, from an empty tool on any board, all temporary reservations fit on the board
      together, and no drag has thrown. */
  lemma {:induction false} GhostsAlwaysFit(w: World, events: seq<Event>, specialIsNull: bool)
    requires ToolOk(AtomsOf(w.board), w.tool)
    ensures var w' := Run(w, events, specialIsNull);
            ToolOk(AtomsOf(w'.board), w'.tool) && AcceptsAll(AtomsOf(w'.board), Shown(w'.tool))
    ensures NeverThrows(w, events, specialIsNull)
    decreases |events|
  {
    if |events| > 0 {
      StepKeepsOk(w, events[0], specialIsNull);
      if events[0].Move? && w.tool.current.Some? {
        DragKeepsOk(AtomsOf(w.board), w.tool, events[0].date, events[0].shiftRow);
      }
      GhostsAlwaysFit(Step(w, events[0], specialIsNull), events[1..], specialIsNull);
    } else {
      ShownAreCompatible(AtomsOf(w.board), w.tool);
      CompatibleAreAccepted(AtomsOf(w.board), Shown(w.tool));
    }
  }

  // ---------------------------------------------------------------- what a drag draws

  /** No day up to the given one is taken. */
  ghost predicate FreeThrough(lists: AtomLists, room: int, from: int, day: int) {
    forall d :: from <= d <= day ==> !Busy(lists, room, d)
  }

  /** What the board and the ghosts take. */
  function Taken(board: AtomLists, v: ToolView): AtomLists {
    board + GhostLists(v.ghosts)
  }

  /** A press starts a ghost over a room that is free on the day, and does nothing otherwise. */
  lemma PressStartsIff(board: AtomLists, v: ToolView, room: int, from: Day)
    ensures Pressed(board, v, Some(room), from) ==
            if Busy(Taken(board, v), room, from) then v else v.(current := Some(Ghost([], room, from)))
  {
  }

  /** A free run reaches beyond a day of the calendar exactly if no day up to it is taken. */
  lemma {:induction false} RunReaches(lists: AtomLists, room: int, from: Day, day: Day)
    requires from <= day
    ensures day < from + FreeDays(lists, room, from, INT_MAX) <==> FreeThrough(lists, room, from, day)
  {
    FreeRunIsFreeDays(lists, room, from, INT_MAX, FreeDays(lists, room, from, INT_MAX));
  }

  /** Without its last atom, a list has the same rooms up to where that atom begins. */
  lemma {:induction false} RoomsWithoutLast(atoms: seq<Atom>, day: int)
    requires ValidAtoms(atoms)
    ensures RoomOn(atoms[..|atoms| - 1], day) == if day < Last(atoms).range.begin then RoomOn(atoms, day) else None
  {
    var kept, last := atoms[..|atoms| - 1], Last(atoms);
    assert atoms == kept + [last];
    RoomOnAppended(kept, last, day);
    if |kept| > 0 {
      assert Last(kept) == atoms[|atoms| - 2];
      RoomOnRange(kept, day);
    } else {
      assert RoomOn(kept, day) == None;
    }
  }

  /** What a drag keeps of the ghost has the same rooms before the stroke begins, and none from there on. */
  lemma {:induction false} KeptRooms(g: Ghost, shiftRow: Option<int>, day: int)
    requires EmptyOrValid(g.atoms)
    ensures var s := StrokeOf(g, shiftRow);
            RoomOn(s.kept, day) == if day < s.start then RoomOn(g.atoms, day) else None
  {
    var s := StrokeOf(g, shiftRow);
    if |g.atoms| > 0 {
      RoomOnRange(g.atoms, day);
      RoomsWithoutLast(g.atoms, day);
    } else {
      assert RoomOn(s.kept, day) == None == RoomOn(g.atoms, day);
    }
  }

  /** A move draws: before the stroke begins the rooms stay as they are; from there on its room is held up
      to the date under the mouse or the first day taken on the board or by a ghost, whichever comes first.
      The stroke redraws the last atom, or, with shift over another room, begins where that atom ends. */
  lemma {:induction false} DragDraws(board: AtomLists, v: ToolView, date: Day, shiftRow: Option<int>, day: int)
    requires ToolOk(board, v) && v.current.Some?
    ensures Moved(board, v, date, shiftRow).current.Some?
    ensures var g := v.current.value;
            var inRoom := if |g.atoms| > 0 then Last(g.atoms).roomId else g.startRoomId;
            var elsewhere := shiftRow.Some? && shiftRow.value != inRoom;
            var room := if elsewhere then shiftRow.value else inRoom;
            var begin := if |g.atoms| == 0 then g.startDate
                         else if elsewhere then Last(g.atoms).range.end else Last(g.atoms).range.begin;
            var g' := Moved(board, v, date, shiftRow).current.value;
            && g' == g.(atoms := g'.atoms) && EmptyOrValid(g'.atoms)
            && RoomOn(g'.atoms, day) ==
               if day < begin then RoomOn(g.atoms, day)
               else if day < date && FreeThrough(Taken(board, v), room, begin, day) then Some(room) else None
  {
    var g, lists := v.current.value, board + GhostLists(v.ghosts);
    var s := StrokeOf(g, shiftRow);
    var period := Period(s.start, Clamp(date, s.start, MaximumDate(board, v.ghosts, s.room, s.start)));
    DragKeepsOk(board, v, date, shiftRow);
    KeptRooms(g, shiftRow, day);
    if !period.IsNull() {
      StrokeFits(g, shiftRow, period.end);
      RoomOnAppended(s.kept, Atom(0, s.room, period), day);
    }
    if s.start <= day < date {
      RunReaches(lists, s.room, s.start, day);
    }
  }

  lemma {:induction false} RunConcat(w: World, a: seq<Event>, b: seq<Event>, specialIsNull: bool)
    ensures Run(w, a + b, specialIsNull) == Run(Run(w, a, specialIsNull), b, specialIsNull)
    decreases |a|
  {
    if |a| == 0 {
      assert a + b == b;
    } else {
      assert (a + b)[0] == a[0] && (a + b)[1..] == a[1..] + b;
      RunConcat(Step(w, a[0], specialIsNull), a[1..], b, specialIsNull);
    }
  }

  /** A move of the mouse that does not lead into another room. */
  ghost predicate WithinRoom(e: Event, room: int) {
    e.Move? && (e.shiftRow == None || e.shiftRow == Some(room))
  }

  /** Moves within the room that end at the date. */
  ghost predicate IsDrag(moves: seq<Event>, room: int, to: Day) {
    && |moves| > 0 && (forall i :: 0 <= i < |moves| ==> WithinRoom(moves[i], room))
    && Last(moves).Move? && Last(moves).date == to
  }

  /** A ghost of at most one atom, in the room and from the day where it was begun. */
  ghost predicate OneStroke(g: Ghost) {
    |g.atoms| == 0 || (|g.atoms| == 1 && g.atoms[0].roomId == g.startRoomId && g.atoms[0].range.begin == g.startDate)
  }

  /** The ghost holds its first room from its first day up to the date, as far as that is free. */
  ghost predicate Draws(taken: AtomLists, g: Ghost, date: Day) {
    forall day: int :: RoomOn(g.atoms, day) ==
      if g.startDate <= day < date && FreeThrough(taken, g.startRoomId, g.startDate, day)
      then Some(g.startRoomId) else None
  }

  /** Only the last position of the mouse counts. */
  lemma {:induction false} MovesDraw(w: World, moves: seq<Event>, to: Day, specialIsNull: bool)
    requires ToolOk(AtomsOf(w.board), w.tool) && w.tool.current.Some? && OneStroke(w.tool.current.value)
    requires IsDrag(moves, w.tool.current.value.startRoomId, to)
    ensures var w' := Run(w, moves, specialIsNull);
            w'.tool.current.Some? &&
            var g' := w'.tool.current.value;
            && w' == w.(tool := w.tool.(current := Some(w.tool.current.value.(atoms := g'.atoms))))
            && EmptyOrValid(g'.atoms) && Draws(Taken(AtomsOf(w.board), w.tool), g', to)
    decreases |moves|
  {
    var board, e := AtomsOf(w.board), moves[0];
    var w1 := Step(w, e, specialIsNull);
    DragKeepsOk(board, w.tool, e.date, e.shiftRow);
    if |moves| == 1 {
      assert Run(w1, moves[1..], specialIsNull) == w1;
      forall day: int
        ensures RoomOn(w1.tool.current.value.atoms, day)
                == (var g := w.tool.current.value;
                    if g.startDate <= day < to && FreeThrough(Taken(board, w.tool), g.startRoomId, g.startDate, day)
                    then Some(g.startRoomId) else None)
      {
        DragDraws(board, w.tool, e.date, e.shiftRow, day);
        if |w.tool.current.value.atoms| > 0 {
          RoomOnRange(w.tool.current.value.atoms, day);
        }
      }
    } else {
      MovesDraw(w1, moves[1..], to, specialIsNull);
    }
  }

  /** A press on a free room, any drag within it to a later date, the release and a description: what is
      queued are the earlier ghosts and one reservation, from the day pressed to the date or the first day
      taken. Dropping the last ghost instead undoes all of it. */
  lemma {:induction false} DrawnIsQueued(w: World, room: int, from: Day, moves: seq<Event>, to: Day, name: string,
                                         specialIsNull: bool)
    requires ToolOk(AtomsOf(w.board), w.tool) && w.tool.current.None? && |name| > 0
    requires !Busy(Taken(AtomsOf(w.board), w.tool), room, from)
    requires IsDrag(moves, room, to) && from < to
    ensures exists atoms ::
      && ValidAtoms(atoms) && Draws(Taken(AtomsOf(w.board), w.tool), Ghost(atoms, room, from), to)
      && Run(w, [Press(Some(room), from)] + moves + [Release, Enter(name)], specialIsNull)
         == w.(tool := ToolView([], None),
               queued := w.queued + Reserved(w.tool.ghosts, name)
                         + [ReservationData(Header(0, 0, New, name, None, 0, 0), atoms)])
    ensures Run(w, [Press(Some(room), from)] + moves + [Release, Backspace], specialIsNull) == w
  {
    var press, g0 := Press(Some(room), from), Ghost([], room, from);
    var w1 := w.(tool := w.tool.(current := Some(g0)));
    PressStartsIff(AtomsOf(w.board), w.tool, room, from);
    MovesDraw(w1, moves, to, specialIsNull);
    var w2 := Run(w1, moves, specialIsNull);
    assert RoomOn(w2.tool.current.value.atoms, from) == Some(room);
    assert Run(w, [press] + moves, specialIsNull) == w2 by {
      assert ([press] + moves)[1..] == moves;
    }
    RunConcat(w, [press] + moves, [Release, Enter(name)], specialIsNull);
    RunConcat(w, [press] + moves, [Release, Backspace], specialIsNull);
    ReleasedIsQueued(w, w2.tool.current.value, name, specialIsNull);
  }

  /** A drag that ends on or before the day pressed leaves nothing behind, exactly if the special period of a
      reservation without atoms counts as null. */
  lemma {:induction false} EmptyDragIsForgottenIff(w: World, room: int, from: Day, moves: seq<Event>, to: Day,
                                                   specialIsNull: bool)
    requires ToolOk(AtomsOf(w.board), w.tool) && w.tool.current.None?
    requires !Busy(Taken(AtomsOf(w.board), w.tool), room, from)
    requires IsDrag(moves, room, to) && to <= from
    ensures Run(w, [Press(Some(room), from)] + moves + [Release], specialIsNull) == w <==> specialIsNull
  {
    var press := Press(Some(room), from);
    var w1 := w.(tool := w.tool.(current := Some(Ghost([], room, from))));
    PressStartsIff(AtomsOf(w.board), w.tool, room, from);
    MovesDraw(w1, moves, to, specialIsNull);
    var w2 := Run(w1, moves, specialIsNull);
    var atoms := w2.tool.current.value.atoms;
    if |atoms| > 0 {
      RoomOnRange(atoms, atoms[0].range.begin);
    }
    assert Run(w, [press] + moves, specialIsNull) == w2 by {
      assert ([press] + moves)[1..] == moves;
    }
    RunConcat(w, [press] + moves, [Release], specialIsNull);
    var w3 := Step(w2, Release, specialIsNull);
    assert [Release][1..] == [] && Run(w3, [], specialIsNull) == w3;
    assert Run(w2, [Release], specialIsNull) == w3;
    if !specialIsNull {
      assert |w3.tool.ghosts| == |w.tool.ghosts| + 1;
    }
  }

  /** Every ghost kept and every reservation queued has valid atoms. */
  ghost predicate AllDrawn(w: World) {
    && (forall i :: 0 <= i < |w.tool.ghosts| ==> ValidAtoms(w.tool.ghosts[i].atoms))
    && (forall i :: 0 <= i < |w.queued| ==> ValidAtoms(w.queued[i].atoms))
  }

  lemma StepKeepsDrawn(w: World, e: Event)
    requires ToolOk(AtomsOf(w.board), w.tool) && AllDrawn(w)
    ensures AllDrawn(Step(w, e, true))
  {
    var w' := Step(w, e, true);
    if e.BoardAdd? {
      ClearLeavesMisses(e.reservation.atoms, w.tool.ghosts);
      forall i | 0 <= i < |w'.tool.ghosts| ensures ValidAtoms(w'.tool.ghosts[i].atoms) {
        assert w'.tool.ghosts[i] in w.tool.ghosts;
      }
    }
  }

  /** Over any run, if that period counts as null, no empty ghost is kept and no reservation without valid atoms
      is queued. */
  lemma {:induction false} OnlyDrawnIsQueued(w: World, events: seq<Event>)
    requires ToolOk(AtomsOf(w.board), w.tool) && AllDrawn(w)
    ensures AllDrawn(Run(w, events, true))
    decreases |events|
  {
    if |events| > 0 {
      StepKeepsOk(w, events[0], true);
      StepKeepsDrawn(w, events[0]);
      OnlyDrawnIsQueued(Step(w, events[0], true), events[1..]);
    }
  }

  /** What is added to the board under a new identifier, and accepted, is what a removal takes away. */
  lemma {:induction false} RemoveTakesBackAdd(w: World, r: ReservationData, specialIsNull: bool)
    requires CanAdd(AtomsOf(w.board), r.atoms) && PositionOf(w.board, r.header.id) == |w.board|
    ensures var w1 := Step(w, BoardAdd(r), specialIsNull);
            && r !in w.board && r in w1.board
            && Step(w1, BoardRemove(r.header.id), specialIsNull) == w1.(board := w.board)
  {
    var more := w.board + [r];
    assert forall i :: 0 <= i < |w.board| ==> more[i] == w.board[i];
    assert more[|w.board|] == r;
    assert PositionOf(more, r.header.id) == |w.board|;
  }

  /** A ghost that is released is the last of those queued, or dropped again. */
  lemma {:induction false} ReleasedIsQueued(w: World, g: Ghost, name: string, specialIsNull: bool)
    requires w.tool.current.None? && ValidAtoms(g.atoms) && |name| > 0
    ensures var dragged := w.(tool := w.tool.(current := Some(g)));
            && Run(dragged, [Release, Enter(name)], specialIsNull)
               == w.(tool := ToolView([], None),
                     queued := w.queued + Reserved(w.tool.ghosts, name)
                               + [ReservationData(Header(0, 0, New, name, None, 0, 0), g.atoms)])
            && Run(dragged, [Release, Backspace], specialIsNull) == w
  {
    var dragged := w.(tool := w.tool.(current := Some(g)));
    var r := ReservationData(Header(0, 0, New, name, None, 0, 0), g.atoms);
    assert Step(dragged, Release, specialIsNull) == w.(tool := ToolView(w.tool.ghosts + [g], None));
    TwoSteps(dragged, Release, Enter(name), specialIsNull);
    TwoSteps(dragged, Release, Backspace, specialIsNull);
    assert Reserved(w.tool.ghosts + [g], name) == Reserved(w.tool.ghosts, name) + [r];
    Associative(w.queued, Reserved(w.tool.ghosts, name), [r]);
    assert (w.tool.ghosts + [g])[..|w.tool.ghosts|] == w.tool.ghosts;
  }

  lemma {:induction false} TwoSteps(w: World, e1: Event, e2: Event, specialIsNull: bool)
    ensures Run(w, [e1, e2], specialIsNull) == Step(Step(w, e1, specialIsNull), e2, specialIsNull)
  {
    var w1 := Step(w, e1, specialIsNull);
    assert [e1, e2][1..] == [e2] && [e2][1..] == [];
    assert Run(w1, [e2], specialIsNull) == Run(Step(w1, e2, specialIsNull), [], specialIsNull);
  }

  /** Escape does at once what dropping the ghosts one by one does. */
  lemma {:induction false} EscapeDropsAll(w: World, specialIsNull: bool)
    requires w.tool.current.None?
    ensures Step(w, Escape, specialIsNull) == Run(w, seq(|w.tool.ghosts|, _ => Backspace), specialIsNull)
    ensures |Step(w, Escape, specialIsNull).tool.ghosts| == 0
    decreases |w.tool.ghosts|
  {
    var events: seq<Event> := seq(|w.tool.ghosts|, _ => Backspace);
    if |events| > 0 {
      var next := Step(w, Backspace, specialIsNull);
      EscapeDropsAll(next, specialIsNull);
      assert events[1..] == seq(|next.tool.ghosts|, _ => Backspace);
    } else {
      assert w.tool == ToolView([], None);
    }
  }

  /** Only these events take a ghost away without queueing it. */
  ghost predicate Discards(e: Event, g: Ghost) {
    e.Escape? || e.Backspace? || e.Unload?
    || (e.BoardAdd? && AtomsIntersect(e.reservation.atoms, g.atoms))
  }

  /** A new reservation with these atoms has been queued. */
  ghost predicate Queued(queued: seq<ReservationData>, atoms: seq<Atom>) {
    exists k :: 0 <= k < |queued| && queued[k].atoms == atoms && queued[k].header.status == New
      && queued[k].header.id == 0 && |queued[k].header.description| > 0
  }

  /** A released ghost stays until it is queued, unless it is discarded. */
  lemma {:induction false} GhostsAreNotLost(w: World, events: seq<Event>, g: Ghost, specialIsNull: bool)
    requires g in w.tool.ghosts || Queued(w.queued, g.atoms)
    requires forall i :: 0 <= i < |events| ==> !Discards(events[i], g)
    ensures var w' := Run(w, events, specialIsNull); g in w'.tool.ghosts || Queued(w'.queued, g.atoms)
    decreases |events|
  {
    if |events| > 0 {
      GhostStays(w, events[0], g, specialIsNull);
      GhostsAreNotLost(Step(w, events[0], specialIsNull), events[1..], g, specialIsNull);
    }
  }

  lemma GhostStays(w: World, e: Event, g: Ghost, specialIsNull: bool)
    requires g in w.tool.ghosts || Queued(w.queued, g.atoms)
    requires !Discards(e, g)
    ensures var w' := Step(w, e, specialIsNull); g in w'.tool.ghosts || Queued(w'.queued, g.atoms)
  {
    var w' := Step(w, e, specialIsNull);
    if e.BoardAdd? {
      ClearLeavesMisses(e.reservation.atoms, w.tool.ghosts);
    }
    if Queued(w.queued, g.atoms) {
      var k :| 0 <= k < |w.queued| && w.queued[k].atoms == g.atoms && w.queued[k].header.status == New
               && w.queued[k].header.id == 0 && |w.queued[k].header.description| > 0;
      assert w'.queued[k] == w.queued[k];
    } else if e.Enter? && w.tool.current.None? && |e.name| > 0 {
      var i :| 0 <= i < |w.tool.ghosts| && w.tool.ghosts[i] == g;
      assert w'.queued[|w.queued| + i] == Reserved(w.tool.ghosts, e.name)[i];
    }
  }

  /** The tool gives up exactly what shares a room on some day with the new reservation. */
  lemma AddedDropsIff(board: AtomLists, v: ToolView, atoms: seq<Atom>)
    requires ToolOk(board, v) && ValidAtoms(atoms)
    ensures forall g :: g in Added(v, atoms).ghosts <==> g in v.ghosts && !ShareARoom(atoms, g.atoms)
    ensures Added(v, atoms).current ==
            if v.current.Some? && ShareARoom(atoms, v.current.value.atoms) then None else v.current
  {
    ClearLeavesMisses(atoms, v.ghosts);
    forall g | g in v.ghosts ensures AtomsIntersect(atoms, g.atoms) <==> ShareARoom(atoms, g.atoms) {
      MeetsIffShared(atoms, g.atoms);
    }
    if v.current.Some? {
      MeetsIffShared(atoms, v.current.value.atoms);
    }
  }

  lemma {:induction false} MeetsIffShared(a: seq<Atom>, b: seq<Atom>)
    requires ValidAtoms(a) && EmptyOrValid(b)
    ensures AtomsIntersect(a, b) <==> ShareARoom(a, b)
  {
    if |b| > 0 {
      IntersectIffSharedRoom(a, b);
    }
    if ShareARoom(a, b) {
      var day :| RoomOn(a, day).Some? && RoomOn(a, day) == RoomOn(b, day);
      assert |b| == 0 ==> RoomOn(b, day) == None;
    }
  }

  // ---------------------------------------------------------------- the tool and its context

  lemma BusyConcat(a: AtomLists, b: AtomLists, room: int, day: int)
    ensures Busy(a + b, room, day) <==> Busy(a, room, day) || Busy(b, room, day)
  {
    var all := a + b;
    forall i, j | 0 <= i < |b| && 0 <= j < |b[i]| && b[i][j].Holds(room, day) ensures Busy(all, room, day) {
      assert all[|a| + i] == b[i];
    }
    forall i, j | 0 <= i < |a| && 0 <= j < |a[i]| && a[i][j].Holds(room, day) ensures Busy(all, room, day) {
      assert all[i] == a[i];
    }
  }

  /** The narrowing loop so far: no day before the maximum is taken, the maximum itself is, if it is not
      the limit. */
  ghost predicate Narrowed(lists: AtomLists, room: int, from: int, maximum: int) {
    IsFreeRun(lists, room, from, INT_MAX, maximum - from)
  }

  /** One more list narrows the maximum down to its first atom in the room, if that comes first. */
  lemma NarrowedByList(lists: AtomLists, atoms: seq<Atom>, room: int, from: int, maximum: int, maximum': int)
    requires Narrowed(lists, room, from, maximum) && from <= maximum' <= maximum
    requires forall d :: from <= d < maximum' ==> !Busy([atoms], room, d)
    requires maximum' < maximum ==> Busy([atoms], room, maximum')
    ensures Narrowed(lists + [atoms], room, from, maximum')
  {
    forall d | from <= d < maximum' ensures !Busy(lists + [atoms], room, d) {
      BusyConcat(lists, [atoms], room, d);
    }
    BusyConcat(lists, [atoms], room, maximum');
  }

  /** A list with an atom on the first day leaves nothing. */
  lemma NarrowedToNothing(lists: AtomLists, i: nat, room: int, from: int)
    requires i < |lists| && Busy([lists[i]], room, from)
    ensures Narrowed(lists, room, from, from)
  {
    var j :| 0 <= j < |lists[i]| && lists[i][j].Holds(room, from);
    assert Busy(lists, room, from);
  }

  class NewReservationTool {
    const board: PlanningBoard
    const specialIsNull: bool
    var ghosts: seq<Ghost>
    var currentGhost: Option<Ghost>

    function View(): ToolView
      reads this
    {
      ToolView(ghosts, currentGhost)
    }

    ghost predicate Valid()
      reads this, board
    {
      board.Valid() && ToolOk(board.Lists(), View())
    }

    constructor (board: PlanningBoard, specialIsNull: bool)
      requires board.Valid()
      ensures Valid() && this.board == board && this.specialIsNull == specialIsNull && View() == ToolView([], None)
    {
      this.board, this.specialIsNull, ghosts, currentGhost := board, specialIsNull, [], None;
    }

    method ComputeMaximumDate(roomId: int, fromDate: Day) returns (maximumDate: int)
      requires Valid()
      ensures maximumDate == MaximumDate(board.Lists(), ghosts, roomId, fromDate)
    {
      var availableDays := board.GetAvailableDaysFrom(roomId, fromDate);
      maximumDate := fromDate + availableDays;
      ghost var lists := board.Lists();
      FreeRunIsFreeDays(lists, roomId, fromDate, INT_MAX, availableDays);
      FreeRunIsFreeDays(lists + GhostLists(ghosts), roomId, fromDate, INT_MAX, 0);
      assert lists + GhostLists(ghosts[..0]) == lists;
      for i := 0 to |ghosts|
        invariant Narrowed(lists + GhostLists(ghosts[..i]), roomId, fromDate, maximumDate)
      {
        var taken, narrowed := NarrowByGhost(ghosts[i].atoms, roomId, fromDate, maximumDate);
        if taken {
          assert (lists + GhostLists(ghosts))[|lists| + i] == ghosts[i].atoms;
          NarrowedToNothing(lists + GhostLists(ghosts), |lists| + i, roomId, fromDate);
          return fromDate;
        }
        NarrowedByList(lists + GhostLists(ghosts[..i]), ghosts[i].atoms, roomId, fromDate, maximumDate, narrowed);
        assert lists + GhostLists(ghosts[..i + 1]) == lists + GhostLists(ghosts[..i]) + [ghosts[i].atoms];
        maximumDate := narrowed;
      }
      assert ghosts[..|ghosts|] == ghosts;
      FreeRunIsFreeDays(lists + GhostLists(ghosts), roomId, fromDate, INT_MAX, maximumDate - fromDate);
    }

    /** The inner loop; taken is its early return. */
    method NarrowByGhost(atoms: seq<Atom>, roomId: int, fromDate: Day, maximumDate: int)
        returns (taken: bool, narrowed: int)
      requires EmptyOrValid(atoms) && fromDate <= maximumDate
      ensures taken ==> Busy([atoms], roomId, fromDate)
      ensures !taken ==> fromDate <= narrowed <= maximumDate
      ensures !taken ==> forall d :: fromDate <= d < narrowed ==> !Busy([atoms], roomId, d)
      ensures !taken && narrowed < maximumDate ==> Busy([atoms], roomId, narrowed)
    {
      narrowed := maximumDate;
      for j := 0 to |atoms|
        invariant fromDate <= narrowed <= maximumDate
        invariant forall k, d :: 0 <= k < j && fromDate <= d < narrowed ==> !atoms[k].Holds(roomId, d)
        invariant narrowed < maximumDate ==> Busy([atoms], roomId, narrowed)
      {
        if atoms[j].roomId == roomId {
          if atoms[j].range.Contains(fromDate) {
            assert [atoms][0][j].Holds(roomId, fromDate);
            return true, narrowed;
          }
          var atomBeginDate := atoms[j].range.begin;
          if fromDate <= atomBeginDate < narrowed {
            narrowed := atomBeginDate;
            assert [atoms][0][j].Holds(roomId, narrowed);
          }
        }
      }
      taken := false;
    }

    method MousePressEvent(row: Option<int>, date: Day)
      requires Valid()
      modifies this
      ensures Valid() && View() == Pressed(board.Lists(), old(View()), row, date)
    {
      if row.None? {
        return;
      }
      var maximumDate := ComputeMaximumDate(row.value, date);
      if maximumDate == date {
        return;
      }
      currentGhost := Some(Ghost([], row.value, date));
    }

    method MouseReleaseEvent()
      requires Valid()
      modifies this
      ensures Valid() && View() == Released(old(View()), specialIsNull)
    {
      if currentGhost.Some? {
        var valid := IsValidList(currentGhost.value.atoms);
        if valid || !specialIsNull {
          ghosts := ghosts + [currentGhost.value];
        }
        currentGhost := None;
      }
    }

    method MouseMoveEvent(date: Day, shiftRow: Option<int>)
      requires Valid()
      modifies this
      ensures Valid() && View() == Moved(board.Lists(), old(View()), date, shiftRow)
    {
      if currentGhost.None? {
        return;
      }
      var g := currentGhost.value;
      ghost var before := View();
      DragKeepsOk(board.Lists(), before, date, shiftRow);
      var currentRoomId := if |g.atoms| > 0 then Last(g.atoms).roomId else g.startRoomId;
      var modifyLastAtom := |g.atoms| > 0;
      var currentStartDate := if modifyLastAtom then Last(g.atoms).range.begin else g.startDate;
      if shiftRow.Some? && shiftRow.value != currentRoomId {
        currentRoomId := shiftRow.value;
        // The source asks again whether the last atom is in the room; it never is here.
        modifyLastAtom := false;
        currentStartDate := if |g.atoms| > 0 then Last(g.atoms).range.end else g.startDate;
      }
      var maximumDate := ComputeMaximumDate(currentRoomId, currentStartDate);
      DrawnIsFree(board.Lists(), ghosts, currentRoomId, currentStartDate, date);
      var currentDate := if date < currentStartDate then currentStartDate else date;
      if currentDate > maximumDate {
        currentDate := maximumDate;
      }
      var newPeriod := Period(currentStartDate, currentDate);
      var atoms := if modifyLastAtom then g.atoms[..|g.atoms| - 1] else g.atoms;
      assert Stroke(currentRoomId, currentStartDate, atoms) == StrokeOf(g, shiftRow);
      if !newPeriod.IsNull() {
        atoms := WithAtom(atoms, currentRoomId, newPeriod).value;
      }
      currentGhost := Some(g.(atoms := atoms));
    }

    method EscapePressed()
      requires Valid()
      modifies this
      ensures Valid() && View() == if old(View()).current.Some? then old(View()) else ToolView([], None)
    {
      if currentGhost.None? {
        Unload();
      }
    }

    method Unload()
      requires board.Valid()
      modifies this
      ensures Valid() && View() == ToolView([], None)
    {
      ghosts, currentGhost := [], None;
    }

    method BackspacePressed()
      requires Valid()
      modifies this
      ensures Valid()
      ensures var v := old(View());
        View() == if v.current.Some? || |v.ghosts| == 0 then v else v.(ghosts := v.ghosts[..|v.ghosts| - 1])
    {
      if currentGhost.None? && |ghosts| > 0 {
        ghosts := ghosts[..|ghosts| - 1];
      }
    }

    /** Queues the ghosts as new reservations; name: the description that the user has typed, if any. */
    method EnterPressed(name: string) returns (queued: seq<ReservationData>)
      requires Valid()
      modifies this
      ensures Valid() && View() == if old(View()).current.Some? || |name| == 0 then old(View())
              else old(View()).(ghosts := [])
      ensures queued == if old(View()).current.Some? || |name| == 0 then [] else Reserved(old(ghosts), name)
      ensures AcceptsAll(board.Lists(), AtomsOf(queued))
    {
      ShownAreCompatible(board.Lists(), View());
      CompatibleAreAccepted(board.Lists(), Shown(View()));
      queued := [];
      if currentGhost.Some? || |ghosts| == 0 || |name| == 0 {
        return;
      }
      for i := 0 to |ghosts|
        invariant queued == Reserved(ghosts[..i], name)
      {
        queued := queued + [ReservationData(Header(0, 0, New, name, None, 0, 0), ghosts[i].atoms)];
      }
      assert ghosts[..|ghosts|] == ghosts && AtomsOf(queued) == Shown(View());
      ghosts := [];
    }

    /** Drops what a reservation about to be added collides with. */
    method ReservationAdded(atoms: seq<Atom>)
      requires Valid()
      modifies this
      ensures Valid() && View() == Added(old(View()), atoms)
    {
      var kept := EraseHit(atoms);
      AddedKeepsOk(board.Lists(), View(), atoms);
      if currentGhost.Some? {
        var hit := ListsIntersect(atoms, currentGhost.value.atoms);
        if hit {
          currentGhost := None;
        }
      }
      ghosts := kept;
    }

    /** The loop over the ghosts and the erase after it. */
    method EraseHit(atoms: seq<Atom>) returns (kept: seq<Ghost>)
      ensures kept == Clear(atoms, ghosts)
    {
      kept := [];
      for i := 0 to |ghosts|
        invariant kept + Clear(atoms, ghosts[i..]) == Clear(atoms, ghosts)
      {
        var hit := ListsIntersect(atoms, ghosts[i].atoms);
        assert ghosts[i..][0] == ghosts[i] && ghosts[i..][1..] == ghosts[i + 1..];
        Associative(kept, [ghosts[i]], Clear(atoms, ghosts[i + 1..]));
        assert [] + Clear(atoms, ghosts[i + 1..]) == Clear(atoms, ghosts[i + 1..]);
        if !hit {
          kept := kept + [ghosts[i]];
        }
      }
    }
  }

  /** The part of the context that the tool shares with the board. */
  class Context {
    const board: PlanningBoard
    const activeTool: NewReservationTool

    ghost predicate Valid()
      reads this, board, activeTool
    {
      activeTool.board == board && activeTool.Valid()
    }

    ghost function State(queued: seq<ReservationData>): World
      reads this, board, activeTool
    {
      World(board.Contents(), activeTool.View(), queued)
    }

    constructor (board: PlanningBoard, tool: NewReservationTool)
      requires tool.board == board && tool.Valid()
      ensures Valid() && this.board == board && activeTool == tool
    {
      this.board, activeTool := board, tool;
    }

    method AddReservation(reservation: ReservationData) returns (added: bool)
      requires Valid() && reservation.header.id != 0
      modifies board, activeTool
      ensures Valid()
      ensures State([]) == Step(old(State([])), BoardAdd(reservation), activeTool.specialIsNull)
      ensures added <==> CanAdd(old(board.Lists()), reservation.atoms)
    {
      BoardAddKeepsOk(State([]), reservation);
      activeTool.ReservationAdded(reservation.atoms);
      var owned := new OwnedReservation(reservation);
      added := board.AddReservation(owned);
    }

    method RemoveReservation(reservationId: int)
      requires Valid()
      modifies board
      ensures Valid()
      ensures State([]) == Step(old(State([])), BoardRemove(reservationId), activeTool.specialIsNull)
    {
      BoardRemoveKeepsOk(State([]), reservationId);
      board.RemoveReservationById(reservationId);
    }
  }
}
