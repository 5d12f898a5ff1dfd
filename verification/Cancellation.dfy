/** A cancellation token: callbacks that subscribe before it is cancelled and while it is being cancelled. */
module Cancellation {
  import opened Runs

  type Callback = int

  /** Sweeping: the canceller has set the flag and has not yet run the callbacks. The subscribed and the
      called ones are records. */
  datatype State = State(
    canceled: bool, sweeping: bool, callbacks: seq<Callback>,
    subscribed: multiset<Callback>, called: multiset<Callback>)

  /** Cancel and Sweep are the two halves of cancel(); only the first canceller comes to the second. */
  datatype Event = Subscribe(callback: Callback) | Cancel | Sweep

  const INITIAL: State := State(false, false, [], multiset{}, multiset{})

  predicate Enabled(s: State, e: Event) { e.Sweep? ==> s.sweeping }

  function Step(s: State, e: Event): State
    requires Enabled(s, e)
  {
    match e
    case Subscribe(callback) =>
      var next := s.(subscribed := s.subscribed + multiset{callback});
      if s.canceled then next.(called := s.called + multiset{callback})
      else next.(callbacks := s.callbacks + [callback])
    case Cancel => if s.canceled then s else s.(canceled := true, sweeping := true)
    case Sweep => s.(sweeping := false, callbacks := [], called := s.called + multiset(s.callbacks))
  }

  ghost predicate Inv(s: State) {
    && s.subscribed == s.called + multiset(s.callbacks)
    && (!s.canceled ==> s.called == multiset{} && !s.sweeping)
    && (s.canceled && !s.sweeping ==> s.callbacks == [])
  }

  lemma StepKeepsInv(s: State, e: Event)
    requires Inv(s) && Enabled(s, e)
    ensures Inv(Step(s, e))
  {
  }

  const MACHINE: Machine<State, Event> := Machine(Enabled, (s, e) => if Enabled(s, e) then Step(s, e) else s)

  lemma {:induction false} Reachable(s: State, events: seq<Event>)
    requires Inv(s) && IsRun(MACHINE, s, events)
    ensures Inv(After(MACHINE, s, events))
  {
    forall s: State, e: Event | Inv(s) && Enabled(s, e) ensures Inv(Step(s, e)) {
      StepKeepsInv(s, e);
    }
    RunKeeps(MACHINE, s => Inv(s), s, events);
  }

  /** No callback runs before cancellation, none runs more often than it was subscribed, and after
      cancellation each has run exactly as often. */
  lemma {:induction false} CallbacksRunOnce(events: seq<Event>)
    requires IsRun(MACHINE, INITIAL, events)
    ensures var s := After(MACHINE, INITIAL, events);
            && s.called <= s.subscribed
            && (!s.canceled ==> s.called == multiset{})
            && (s.canceled && !s.sweeping ==> s.called == s.subscribed)
  {
    Reachable(INITIAL, events);
  }

  /** The callbacks that have subscribed. */
  function SubscribedIn(events: seq<Event>): multiset<Callback> {
    if |events| == 0 then multiset{}
    else (if events[0].Subscribe? then multiset{events[0].callback} else multiset{}) + SubscribedIn(events[1..])
  }

  lemma {:induction false} SubscribedAsAsked(s: State, events: seq<Event>)
    requires IsRun(MACHINE, s, events)
    ensures After(MACHINE, s, events).subscribed == s.subscribed + SubscribedIn(events)
    ensures After(MACHINE, s, events).canceled <==> s.canceled || Cancel in events
    decreases |events|
  {
    if |events| > 0 {
      SubscribedAsAsked(Step(s, events[0]), events[1..]);
      assert Cancel in events <==> events[0] == Cancel || Cancel in events[1..];
    }
  }

  /** Whatever happens around it: if someone has cancelled, then once the canceller is through, what has been
      called are exactly the callbacks that have ever subscribed; if nobody has, none has been called. */
  lemma {:induction false} CalledAsSubscribed(events: seq<Event>)
    requires IsRun(MACHINE, INITIAL, events)
    ensures var s := After(MACHINE, INITIAL, events);
            if Cancel in events then
              if s.sweeping then Step(s, Sweep).called == SubscribedIn(events) && !Step(s, Sweep).sweeping
              else s.called == SubscribedIn(events)
            else s.called == multiset{}
  {
    Reachable(INITIAL, events);
    SubscribedAsAsked(INITIAL, events);
    var s := After(MACHINE, INITIAL, events);
    assert s.subscribed == SubscribedIn(events) && s.called + multiset(s.callbacks) == SubscribedIn(events);
    assert s.callbacks == [] ==> s.called + multiset{} == s.called;
  }

  class CancellationTokenState {
    var canceled: bool
    var callbacks: seq<Callback>
    var called: seq<Callback> // in the order in which they were handed to their executors

    constructor ()
      ensures !canceled && callbacks == [] && called == []
    {
      canceled, callbacks, called := false, [], [];
    }

    /** The first cancellation runs every callback; a later one changes nothing. */
    method Cancel()
      modifies this
      ensures canceled
      ensures old(canceled) ==> callbacks == old(callbacks) && called == old(called)
      ensures !old(canceled) ==> callbacks == [] && called == old(called) + old(callbacks)
    {
      if !canceled {
        canceled := true;
        for i := 0 to |callbacks|
          invariant canceled && callbacks == old(callbacks) && called == old(called) + callbacks[..i]
        {
          called := called + [callbacks[i]];
        }
        callbacks := [];
      }
    }

    method Subscribe(callback: Callback)
      modifies this
      ensures canceled == old(canceled)
      ensures canceled ==> called == old(called) + [callback] && callbacks == old(callbacks)
      ensures !canceled ==> callbacks == old(callbacks) + [callback] && called == old(called)
    {
      if canceled {
        called := called + [callback];
      } else {
        callbacks := callbacks + [callback];
      }
    }
  }
}
