/** Runs of a state machine: any sequence of events, each possible when it comes. */
module Runs {

  /** What can happen in a state, and what then becomes of it. */
  datatype Machine<!S, !E> = Machine(enabled: (S, E) -> bool, step: (S, E) -> S)

  ghost predicate IsRun<S, E>(m: Machine<S, E>, s: S, events: seq<E>)
    decreases |events|
  {
    |events| > 0 ==> m.enabled(s, events[0]) && IsRun(m, m.step(s, events[0]), events[1..])
  }

  ghost function After<S, E>(m: Machine<S, E>, s: S, events: seq<E>): S
    decreases |events|
  {
    if |events| == 0 then s else After(m, m.step(s, events[0]), events[1..])
  }

  /** What every step keeps, every run keeps. */
  lemma {:induction false} RunKeeps<S, E>(m: Machine<S, E>, inv: S -> bool, s: S, events: seq<E>)
    requires inv(s) && IsRun(m, s, events)
    requires forall s, e :: inv(s) && m.enabled(s, e) ==> inv(m.step(s, e))
    ensures inv(After(m, s, events))
    decreases |events|
  {
    if |events| > 0 {
      RunKeeps(m, inv, m.step(s, events[0]), events[1..]);
    }
  }

  lemma {:induction false} RunPrefix<S, E>(m: Machine<S, E>, s: S, events: seq<E>, i: nat)
    requires IsRun(m, s, events) && i < |events|
    ensures m.enabled(After(m, s, events[..i]), events[i])
    ensures After(m, s, events[..i + 1]) == m.step(After(m, s, events[..i]), events[i])
    decreases |events|
  {
    var rest := events[1..];
    if i == 0 {
      assert events[..1] == [events[0]] && [events[0]][1..] == [];
      assert After(m, m.step(s, events[0]), []) == m.step(s, events[0]);
    } else {
      assert events[..i][1..] == rest[..i - 1] && events[..i + 1][1..] == rest[..i];
      RunPrefix(m, m.step(s, events[0]), rest, i - 1);
    }
  }

  // ---------------------------------------------------------------- exact conditions over runs

  /** The state before the i-th event. */
  ghost function At<S, E>(m: Machine<S, E>, s: S, events: seq<E>, i: nat): S
    requires i <= |events|
  {
    After(m, s, events[..i])
  }

  /** Every one of the first n events meets a condition when it comes. */
  ghost predicate EachEvent<S, E>(m: Machine<S, E>, cond: (S, E) -> bool, s: S, events: seq<E>, n: nat)
    requires n <= |events|
  {
    forall i :: 0 <= i < n ==> cond(At(m, s, events, i), events[i])
  }

  /** Every state up to the n-th event meets a condition. */
  ghost predicate EachState<S, E>(m: Machine<S, E>, cond: S -> bool, s: S, events: seq<E>, n: nat)
    requires n <= |events|
  {
    forall i :: 0 <= i <= n ==> cond(At(m, s, events, i))
  }

  /** From a good state, an event under consideration leads to a state that shows exactly if it is safe, and
      then to a good one. */
  ghost predicate Exact<S(!new), E(!new)>(m: Machine<S, E>, good: S -> bool, shows: S -> bool,
                                          considered: (S, E) -> bool, safe: (S, E) -> bool)
  {
    && (forall s :: good(s) ==> shows(s))
    && (forall s, e :: good(s) && m.enabled(s, e) && considered(s, e) ==>
          (shows(m.step(s, e)) <==> safe(s, e)) && (safe(s, e) ==> good(m.step(s, e))))
  }

  lemma {:induction false} SafeStaysGood<S(!new), E(!new)>(m: Machine<S, E>, good: S -> bool, shows: S -> bool,
                                                           considered: (S, E) -> bool, safe: (S, E) -> bool,
                                                           s: S, events: seq<E>, n: nat)
    requires Exact(m, good, shows, considered, safe) && good(s) && IsRun(m, s, events) && n <= |events|
    requires EachEvent(m, considered, s, events, n) && EachEvent(m, safe, s, events, n)
    ensures good(At(m, s, events, n))
  {
    if n > 0 {
      SafeStaysGood(m, good, shows, considered, safe, s, events, n - 1);
      RunPrefix(m, s, events, n - 1);
      assert considered(At(m, s, events, n - 1), events[n - 1]) && safe(At(m, s, events, n - 1), events[n - 1]);
    }
  }

  lemma {:induction false} ShownIsSafe<S(!new), E(!new)>(m: Machine<S, E>, good: S -> bool, shows: S -> bool,
                                                         considered: (S, E) -> bool, safe: (S, E) -> bool,
                                                         s: S, events: seq<E>, n: nat)
    requires Exact(m, good, shows, considered, safe) && good(s) && IsRun(m, s, events) && n <= |events|
    requires EachEvent(m, considered, s, events, n) && EachState(m, shows, s, events, n)
    ensures EachEvent(m, safe, s, events, n)
  {
    if n > 0 {
      ShownIsSafe(m, good, shows, considered, safe, s, events, n - 1);
      SafeStaysGood(m, good, shows, considered, safe, s, events, n - 1);
      RunPrefix(m, s, events, n - 1);
      assert considered(At(m, s, events, n - 1), events[n - 1]) && shows(At(m, s, events, n));
    }
  }

  /** Every state of a run shows exactly if every event was safe when it came. */
  lemma {:induction false} ThroughoutIff<S(!new), E(!new)>(m: Machine<S, E>, good: S -> bool, shows: S -> bool,
                                                           considered: (S, E) -> bool, safe: (S, E) -> bool,
                                                           s: S, events: seq<E>)
    requires Exact(m, good, shows, considered, safe) && good(s) && IsRun(m, s, events)
    requires EachEvent(m, considered, s, events, |events|)
    ensures EachState(m, shows, s, events, |events|) <==> EachEvent(m, safe, s, events, |events|)
  {
    if EachState(m, shows, s, events, |events|) {
      ShownIsSafe(m, good, shows, considered, safe, s, events, |events|);
    }
    if EachEvent(m, safe, s, events, |events|) {
      forall n | 0 <= n <= |events| ensures shows(At(m, s, events, n)) {
        assert EachEvent(m, considered, s, events, n) && EachEvent(m, safe, s, events, n);
        SafeStaysGood(m, good, shows, considered, safe, s, events, n);
      }
    }
  }
}
