/** Coalescing: publishers append to the change list and then ask for an event, but only if none is already
    scheduled; the event's handler clears the flag and takes the whole list. */
module ChangeIntegrators {
  import opened Common
  import opened Runs

  /** The handler on the main thread. Entered: it has not cleared the flag yet. Cleared: it has, and has
      not taken the list yet. */
  datatype Handler<T> = Idle | Entered | Cleared | Applying(list: seq<T>)

  /** Signalling counts the publishers that have appended and not yet exchanged the flag, emitting those
      that found it clear and have not yet emitted the event, events the events not yet handled. The last
      two fields are records. */
  datatype State<T> = State(
    list: seq<T>, scheduled: bool, signalling: nat, emitting: nat, events: nat, handler: Handler<T>,
    published: seq<T>, applied: seq<T>)

  datatype Event<T> =
    | Publish(changes: seq<T>)
    | Exchange
    | Emit
    | EnterHandler
    | ClearFlag
    | TakeList
    | ApplyChange
    | LeaveHandler

  /** The integrator begins by running its handler, and does not initialize the flag before that. */
  function Initial<T>(scheduled: bool): State<T> { State([], scheduled, 0, 0, 0, Entered, [], []) }

  predicate Enabled<T>(s: State<T>, e: Event<T>) {
    match e
    case Publish(_) => true
    case Exchange => s.signalling > 0
    case Emit => s.emitting > 0
    case EnterHandler => s.events > 0 && s.handler.Idle?
    case ClearFlag => s.handler.Entered?
    case TakeList => s.handler.Cleared?
    case ApplyChange => s.handler.Applying? && |s.handler.list| > 0
    case LeaveHandler => s.handler.Applying? && |s.handler.list| == 0
  }

  function Step<T>(s: State<T>, e: Event<T>): State<T>
    requires Enabled(s, e)
  {
    match e
    case Publish(changes) =>
      if |changes| == 0 then s
      else s.(list := s.list + changes, published := s.published + changes, signalling := s.signalling + 1)
    case Exchange =>
      s.(signalling := s.signalling - 1, scheduled := true,
         emitting := if s.scheduled then s.emitting else s.emitting + 1)
    case Emit => s.(emitting := s.emitting - 1, events := s.events + 1)
    case EnterHandler => s.(events := s.events - 1, handler := Entered)
    case ClearFlag => s.(scheduled := false, handler := Cleared)
    case TakeList => s.(handler := Applying(s.list), list := [])
    case ApplyChange => s.(handler := Applying(s.handler.list[1..]), applied := s.applied + [s.handler.list[0]])
    case LeaveHandler => s.(handler := Idle)
  }

  function Taken<T>(h: Handler<T>): seq<T> { if h.Applying? then h.list else [] }

  ghost predicate Inv<T>(s: State<T>) {
    && s.published == s.applied + Taken(s.handler) + s.list
    // whoever finds changes has someone who will take them
    && (|s.list| > 0 ==> s.signalling > 0 || s.scheduled || s.handler.Entered? || s.handler.Cleared?)
    && (s.scheduled ==> s.emitting + s.events > 0 || s.handler.Entered?)
    // events do not pile up
    && s.emitting + s.events <= (if s.scheduled then 2 else 1)
    && (s.handler.Entered? ==> s.emitting + s.events <= if s.scheduled then 1 else 0)
  }

  lemma StepKeepsInv<T>(s: State<T>, e: Event<T>)
    requires Inv(s) && Enabled(s, e)
    ensures Inv(Step(s, e))
  {
    match e
    case Publish(changes) => assert s.published + changes == s.applied + Taken(s.handler) + (s.list + changes);
    case TakeList => assert s.published == s.applied + s.list + [];
    case ApplyChange =>
      assert s.published == (s.applied + [s.handler.list[0]]) + s.handler.list[1..] + s.list;
    case _ =>
  }

  function MachineOf<T>(): Machine<State<T>, Event<T>> {
    Machine((s, e) => Enabled(s, e), (s, e) => if Enabled(s, e) then Step(s, e) else s)
  }

  lemma {:induction false} Reachable<T>(s: State<T>, events: seq<Event<T>>)
    requires Inv(s) && IsRun(MachineOf(), s, events)
    ensures Inv(After(MachineOf(), s, events))
  {
    forall s: State<T>, e: Event<T> | Inv(s) && Enabled(s, e) ensures Inv(Step(s, e)) {
      StepKeepsInv(s, e);
    }
    RunKeeps(MachineOf(), s => Inv(s), s, events);
  }

  /** No change is stranded: with no publisher in the middle of its call, no event pending and no handler
      running, everything published has been applied, in order and once. And however many changes are
      published, never more than two events are pending. */
  lemma {:induction false} NothingIsStranded<T>(scheduled: bool, events: seq<Event<T>>)
    requires IsRun(MachineOf(), Initial(scheduled), events)
    ensures var s := After(MachineOf(), Initial(scheduled), events);
            && s.applied <= s.published && s.emitting + s.events <= 2
            && (s.signalling == 0 && s.emitting == 0 && s.events == 0 && s.handler.Idle? ==>
                  s.list == [] && s.applied == s.published)
  {
    Reachable(Initial(scheduled), events);
  }

  /** All changes that publishers have handed over. */
  function PublishedIn<T>(events: seq<Event<T>>): seq<T> {
    if |events| == 0 then []
    else (if events[0].Publish? then events[0].changes else []) + PublishedIn(events[1..])
  }

  lemma {:induction false} PublishedAsAsked<T>(s: State<T>, events: seq<Event<T>>)
    requires IsRun(MachineOf(), s, events)
    ensures After(MachineOf(), s, events).published == s.published + PublishedIn(events)
    decreases |events|
  {
    if |events| > 0 {
      var here := if events[0].Publish? then events[0].changes else [];
      PublishedAsAsked(Step(s, events[0]), events[1..]);
      Associative(s.published, here, PublishedIn(events[1..]));
      assert s.published + [] == s.published;
    } else {
      assert s.published + [] == s.published;
    }
  }

  // ---------------------------------------------------------------- changes get applied

  function HandlerLeft<T>(h: Handler<T>): nat {
    match h
    case Idle => 0
    case Entered => 4
    case Cleared => 3
    case Applying(list) => |list| + 1
  }

  /** The steps that are left without further publishing are at most as many as this. */
  function Left<T>(s: State<T>): nat {
    7 * s.signalling + 6 * s.emitting + 5 * s.events + 2 * |s.list| + HandlerLeft(s.handler)
  }

  lemma ProgressCosts<T>(s: State<T>, e: Event<T>)
    requires Enabled(s, e) && !e.Publish?
    ensures Left(Step(s, e)) < Left(s)
  {
  }

  lemma {:induction false} RunsAreBounded<T>(s: State<T>, events: seq<Event<T>>)
    requires IsRun(MachineOf(), s, events) && forall i :: 0 <= i < |events| ==> !events[i].Publish?
    ensures |events| + Left(After(MachineOf(), s, events)) <= Left(s)
    decreases |events|
  {
    if |events| > 0 {
      assert !events[0].Publish?;
      ProgressCosts(s, events[0]);
      RunsAreBounded(Step(s, events[0]), events[1..]);
    }
  }

  /** Once no step is left, everything that publishers have ever handed over has been applied, in order. */
  lemma {:induction false} StopsOnlyWhenApplied<T>(scheduled: bool, events: seq<Event<T>>)
    requires IsRun(MachineOf(), Initial(scheduled), events)
    requires forall e: Event<T> :: Enabled(After(MachineOf(), Initial(scheduled), events), e) ==> e.Publish?
    ensures After(MachineOf(), Initial(scheduled), events).applied == PublishedIn(events)
  {
    var s := After(MachineOf(), Initial(scheduled), events);
    NothingIsStranded(scheduled, events);
    PublishedAsAsked(Initial(scheduled), events);
    assert [] + PublishedIn(events) == PublishedIn(events);
    var steps: seq<Event<T>> := [Exchange, Emit, EnterHandler, ClearFlag, TakeList, Event.ApplyChange, LeaveHandler];
    assert forall i :: 0 <= i < |steps| ==> !steps[i].Publish? && !Enabled(s, steps[i]);
    assert !Enabled(s, steps[0]) && !Enabled(s, steps[1]) && !Enabled(s, steps[2]) && !Enabled(s, steps[3])
           && !Enabled(s, steps[4]) && !Enabled(s, steps[5]) && !Enabled(s, steps[6]);
  }

  class ChangeIntegrator {
    var eventScheduled: bool

    /** Tells whether the event is to be emitted. */
    method EmitResultsAvailable() returns (emit: bool)
      modifies this
      ensures forall s: State<int> :: s.scheduled == old(eventScheduled) && s.signalling > 0 ==>
        var next := Step(s, Exchange);
        eventScheduled == next.scheduled && emit == (next.emitting > s.emitting)
    {
      emit := !eventScheduled;
      eventScheduled := true;
    }

    method BeginHandling()
      modifies this
      ensures !eventScheduled
    {
      eventScheduled := false;
    }
  }
}
