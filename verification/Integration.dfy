/** The backend and the change integrator together: publishing asks for an event, and only the event's handler
    takes and applies what has been published. */
module Integration {
  import opened Runs
  import opened Storage
  import opened Changes
  import opened Replication
  import B = BackendRuns
  import C = ChangeIntegrators

  datatype State = State(backend: B.State, integrator: C.State<Differential>)

  /** Backend: a step of the worker or of the main thread that neither publishes nor applies. */
  datatype Event = Backend(e: B.Event) | Publish(e: B.Event) | Take | Apply | Integrator(c: C.Event<Differential>)

  predicate Publishes(e: B.Event) { e.PushSnapshotChange? || e.PublishChanges? }

  /** What the worker's step appends to the change list. */
  function Appended(st: B.State, e: B.Event): seq<Differential> {
    if e.PushSnapshotChange? && |B.Outgoing(st.worker)| > 0 then [B.Outgoing(st.worker)[0]] else B.Outgoing(st.worker)
  }

  predicate Enabled(s: State, e: Event) {
    match e
    case Backend(b) =>
      && !Publishes(b) && !b.SwapChanges? && !b.ApplyChange?
      && B.Enabled(s.backend, b) && B.Promised(s.backend, b)
    case Publish(b) => Publishes(b) && B.Enabled(s.backend, b)
    case Take => B.Enabled(s.backend, B.SwapChanges) && C.Enabled(s.integrator, C.TakeList)
    case Apply => B.Enabled(s.backend, B.ApplyChange) && C.Enabled(s.integrator, C.ApplyChange)
    case Integrator(c) => !c.Publish? && !c.TakeList? && !c.ApplyChange? && C.Enabled(s.integrator, c)
  }

  function Step(s: State, e: Event): State
    requires Enabled(s, e)
  {
    match e
    case Backend(b) => s.(backend := B.Step(s.backend, b))
    case Publish(b) =>
      State(B.Step(s.backend, b), C.Step(s.integrator, C.Publish(Appended(s.backend, b))))
    case Take => State(B.Step(s.backend, B.SwapChanges), C.Step(s.integrator, C.TakeList))
    case Apply => State(B.Step(s.backend, B.ApplyChange), C.Step(s.integrator, C.ApplyChange))
    case Integrator(c) => s.(integrator := C.Step(s.integrator, c))
  }

  const MACHINE: Machine<State, Event> := Machine(Enabled, (s, e) => if Enabled(s, e) then Step(s, e) else s)

  /** The integrator is made when the backend may have been running and publishing for a while; nobody has
      applied anything yet that was taken. */
  function Start(backend: B.State, scheduled: bool): State {
    State(backend, C.Initial(scheduled).(list := backend.queue, published := backend.queue))
  }

  /** The two halves hold the same changes. */
  ghost predicate Inv(s: State) {
    && B.Inv(s.backend) && C.Inv(s.integrator)
    && s.integrator.list == s.backend.queue && C.Taken(s.integrator.handler) == s.backend.applying
  }

  lemma PublishKeepsInv(s: State, b: B.Event)
    requires Inv(s) && Publishes(b) && B.Enabled(s.backend, b)
    ensures Inv(Step(s, Publish(b)))
  {
    var appended := Appended(s.backend, b);
    B.StepKeepsInv(s.backend, b);
    C.StepKeepsInv(s.integrator, C.Publish(appended));
    assert appended == [] ==> s.backend.queue + appended == s.backend.queue;
  }

  lemma StepKeepsInv(s: State, e: Event)
    requires Inv(s) && Enabled(s, e)
    ensures Inv(Step(s, e))
  {
    match e
    case Backend(b) => B.StepKeepsInv(s.backend, b);
    case Publish(b) => PublishKeepsInv(s, b);
    case Take =>
      B.StepKeepsInv(s.backend, B.SwapChanges);
      C.StepKeepsInv(s.integrator, C.TakeList);
    case Apply =>
      B.StepKeepsInv(s.backend, B.ApplyChange);
      C.StepKeepsInv(s.integrator, C.ApplyChange);
    case Integrator(c) => C.StepKeepsInv(s.integrator, c);
  }

  lemma {:induction false} RunKeepsInv(s: State, events: seq<Event>)
    requires Inv(s) && IsRun(MACHINE, s, events)
    ensures Inv(After(MACHINE, s, events))
  {
    forall s: State, e: Event | Inv(s) && Enabled(s, e) ensures Inv(Step(s, e)) {
      StepKeepsInv(s, e);
    }
    RunKeeps(MACHINE, s => Inv(s), s, events);
  }

  /** No event is pending, no handler running, and no publisher in the middle of its work. */
  predicate Resting(s: State) {
    && s.integrator.events == 0 && s.integrator.emitting == 0 && s.integrator.signalling == 0
    && s.integrator.handler.Idle? && B.Outgoing(s.backend.worker) == []
  }

  /** From one end to the other: whatever has happened before the integrator was made and whatever happens
      afterwards, when the two threads rest every listening observer shows what loading returns. */
  lemma {:induction false} RestingViewsAreCurrent(t: Tables, before: seq<B.Event>, scheduled: bool,
                                                  events: seq<Event>, id: int)
    requires WellFormed(t) && IsRun(B.PROMISING, B.Initial(t), before)
    requires var b := After(B.PROMISING, B.Initial(t), before);
             b.applying == [] && IsRun(MACHINE, Start(b, scheduled), events)
    requires var s := After(MACHINE, Start(After(B.PROMISING, B.Initial(t), before), scheduled), events);
             Resting(s) && B.Live(s.backend, id)
    ensures var st := After(MACHINE, Start(After(B.PROMISING, B.Initial(t), before), scheduled), events).backend;
            && LoadAll(st.store.tables).Ok? && id in st.filters && st.observers[id].initialized
            && st.observers[id].view == Select(st.filters[id], LoadAll(st.store.tables).value)
  {
    var b := After(B.PROMISING, B.Initial(t), before);
    var s := After(MACHINE, Start(b, scheduled), events);
    B.InitialOk(t);
    B.RunKeepsInv(B.Initial(t), before);
    RunKeepsInv(Start(b, scheduled), events);
    assert s.backend.queue == [] && s.backend.applying == [];
    B.QuietView(s.backend, id);
  }
}
