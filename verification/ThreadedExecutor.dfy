/** The sequential executor with a thread of its own: it is notified only when its queue was empty. */
module ThreadedExecutors {
  import opened Runs

  type Job = int

  /** Deciding: at the top of the loop, about to take the lock. Waiting: asleep on the condition. */
  datatype Worker = Deciding | Waiting | Running(job: Job) | Ended

  /** Notifications that are due: calls of notify_one not made yet by threads that have left their locked
      region. The spawned and the ran jobs are records. */
  datatype State = State(jobs: seq<Job>, quit: bool, worker: Worker, due: nat, spawned: seq<Job>, ran: seq<Job>)

  datatype Event =
    | Spawn(job: Job)
    | Stop
    | Notify
    | SpuriousWakeUp
    | Decide
    | FinishJob

  const INITIAL: State := State([], false, Deciding, 0, [], [])

  predicate Enabled(s: State, e: Event) {
    match e
    case Spawn(_) => true
    case Stop => true
    case Notify => s.due > 0
    case SpuriousWakeUp => s.worker.Waiting?
    case Decide => s.worker.Deciding?
    case FinishJob => s.worker.Running?
  }

  function Step(s: State, e: Event): State
    requires Enabled(s, e)
  {
    match e
    case Spawn(job) =>
      s.(jobs := s.jobs + [job], spawned := s.spawned + [job], due := if |s.jobs| == 0 then s.due + 1 else s.due)
    case Stop => s.(quit := true, due := s.due + 1)
    case Notify => s.(due := s.due - 1, worker := if s.worker.Waiting? then Deciding else s.worker)
    case SpuriousWakeUp => s.(worker := Deciding)
    case Decide =>
      if s.quit then s.(worker := Ended)
      else if |s.jobs| == 0 then s.(worker := Waiting)
      else s.(worker := Running(s.jobs[0]), jobs := s.jobs[1..])
    case FinishJob => s.(worker := Deciding, ran := s.ran + [s.worker.job])
  }

  function Current(w: Worker): seq<Job> { if w.Running? then [w.job] else [] }

  /** The jobs run in the order in which they were spawned, each once; and whenever the worker sleeps with a
      job or the end before it, a notification is still due. */
  ghost predicate Inv(s: State) {
    && s.spawned == s.ran + Current(s.worker) + s.jobs
    && (s.worker.Waiting? && (|s.jobs| > 0 || s.quit) ==> s.due > 0)
    && (s.worker.Ended? ==> s.quit)
  }

  lemma StepKeepsInv(s: State, e: Event)
    requires Inv(s) && Enabled(s, e)
    ensures Inv(Step(s, e))
  {
    match e
    case Spawn(job) =>
      assert s.spawned + [job] == s.ran + Current(s.worker) + (s.jobs + [job]);
    case Decide =>
      if !s.quit && |s.jobs| > 0 {
        assert s.spawned == s.ran + [s.jobs[0]] + s.jobs[1..];
      }
    case _ =>
  }

  const MACHINE: Machine<State, Event> := Machine(Enabled, (s, e) => if Enabled(s, e) then Step(s, e) else s)

  lemma {:induction false} Reachable(s: State, events: seq<Event>)
    requires Inv(s) && IsRun(MACHINE, s, events)
    ensures Inv(After(MACHINE, s, events))
  {
    forall s: State, e: Event | Inv(s) && Enabled(s, e) ensures Inv(Step(s, e)) {
      StepKeepsInv(s, e);
    }
    RunKeeps(MACHINE, s => Inv(s), s, events);
  }

  /** In every run: spawn order, each job at most once, and no sleep on work. */
  lemma {:induction false} NeverSleepsOnWork(events: seq<Event>)
    requires IsRun(MACHINE, INITIAL, events)
    ensures var s := After(MACHINE, INITIAL, events);
            && s.ran <= s.spawned
            && (s.worker.Waiting? && s.due == 0 ==> s.jobs == [] && !s.quit && s.ran == s.spawned)
  {
    Reachable(INITIAL, events);
  }

  // ---------------------------------------------------------------- work gets done

  /** The steps that the executor and pending notifications take on their own. */
  predicate Progress(e: Event) { e.Notify? || e.Decide? || e.FinishJob? }

  function Left(s: State): nat {
    4 * |s.jobs| + 2 * s.due + match s.worker case Running(_) => 2 case Deciding => 1 case _ => 0
  }

  lemma ProgressIsBounded(s: State, e: Event)
    requires Enabled(s, e) && Progress(e)
    ensures Left(Step(s, e)) < Left(s)
  {
  }

  lemma {:induction false} RunsAreBounded(s: State, events: seq<Event>)
    requires IsRun(MACHINE, s, events) && forall i :: 0 <= i < |events| ==> Progress(events[i])
    ensures |events| + Left(After(MACHINE, s, events)) <= Left(s)
    decreases |events|
  {
    if |events| > 0 {
      assert Progress(events[0]);
      ProgressIsBounded(s, events[0]);
      RunsAreBounded(Step(s, events[0]), events[1..]);
    }
  }

  /** Left alone, the executor stops only when everything spawned has been run, or when it was told to. */
  lemma StopsOnlyWhenDone(s: State)
    requires Inv(s) && forall e :: Progress(e) ==> !Enabled(s, e)
    ensures if s.quit then s.worker.Ended? else s.worker.Waiting? && s.ran == s.spawned
  {
    assert Progress(Notify) && Progress(Decide) && Progress(FinishJob);
    assert !Enabled(s, Notify) && !Enabled(s, Decide) && !Enabled(s, FinishJob);
  }

  /** The jobs that the callers have spawned, in order. */
  function SpawnedIn(events: seq<Event>): seq<Job> {
    if |events| == 0 then []
    else (if events[0].Spawn? then [events[0].job] else []) + SpawnedIn(events[1..])
  }

  lemma {:induction false} SpawnedAsAsked(s: State, events: seq<Event>)
    requires IsRun(MACHINE, s, events)
    ensures After(MACHINE, s, events).spawned == s.spawned + SpawnedIn(events)
    ensures After(MACHINE, s, events).quit <==> s.quit || Stop in events
    decreases |events|
  {
    if |events| > 0 {
      var next := Step(s, events[0]);
      SpawnedAsAsked(next, events[1..]);
      var here := if events[0].Spawn? then [events[0].job] else [];
      assert next.spawned == s.spawned + here;
      assert (s.spawned + here) + SpawnedIn(events[1..]) == s.spawned + (here + SpawnedIn(events[1..]));
      assert Stop in events <==> events[0] == Stop || Stop in events[1..];
    } else {
      assert s.spawned + [] == s.spawned;
    }
  }

  /** If it was not told to stop, then once nothing is left to do the executor has run exactly the jobs that
      were spawned, in order; and once told, it ends. */
  lemma {:induction false} RunsWhatWasSpawned(events: seq<Event>)
    requires IsRun(MACHINE, INITIAL, events)
    requires forall e :: Progress(e) ==> !Enabled(After(MACHINE, INITIAL, events), e)
    ensures var s := After(MACHINE, INITIAL, events);
            if Stop in events then s.worker.Ended? && s.ran <= SpawnedIn(events) else s.ran == SpawnedIn(events)
  {
    Reachable(INITIAL, events);
    SpawnedAsAsked(INITIAL, events);
    assert [] + SpawnedIn(events) == SpawnedIn(events);
    StopsOnlyWhenDone(After(MACHINE, INITIAL, events));
  }

  /** The jobs that have been started, in order. */
  function Started(s: State): seq<Job> { s.ran + Current(s.worker) }

  /** Once told to stop, the executor starts no further job, whatever is waiting or still spawned. */
  lemma {:induction false} StartsNothingAfterStop(s: State, events: seq<Event>)
    requires s.quit && IsRun(MACHINE, s, events)
    ensures var s' := After(MACHINE, s, events); s'.quit && Started(s') == Started(s) && s.jobs <= s'.jobs
    decreases |events|
  {
    if |events| > 0 {
      var next := Step(s, events[0]);
      assert Started(next) == Started(s) && s.jobs <= next.jobs;
      StartsNothingAfterStop(next, events[1..]);
    }
  }

  /** A step starts a job exactly if the thread takes the oldest of the waiting ones without having been told to
      stop. */
  lemma StartsOldestIff(s: State, e: Event)
    requires Enabled(s, e)
    ensures Started(Step(s, e)) == Started(s) + if e.Decide? && !s.quit && |s.jobs| > 0 then [s.jobs[0]] else []
  {
  }

  // ---------------------------------------------------------------- the locked regions

  class ThreadedExecutor {
    var jobs: seq<Job>
    var quitFlag: bool

    constructor ()
      ensures jobs == [] && !quitFlag
    {
      jobs, quitFlag := [], false;
    }

    /** Tells whether the caller has to notify the thread. */
    method Spawn(job: Job) returns (wakeUpThread: bool)
      modifies this
      ensures forall s: State :: s.jobs == old(jobs) && s.quit == old(quitFlag) ==>
        var next := Step(s, Event.Spawn(job));
        jobs == next.jobs && quitFlag == next.quit && wakeUpThread == (next.due > s.due)
    {
      wakeUpThread := |jobs| == 0;
      jobs := jobs + [job];
    }

    /** The thread's locked region: its next step. */
    method Take() returns (next: Worker)
      modifies this
      ensures forall s: State :: s.jobs == old(jobs) && s.quit == old(quitFlag) && s.worker.Deciding? ==>
        var after := Step(s, Decide);
        jobs == after.jobs && quitFlag == after.quit && next == after.worker
    {
      if quitFlag {
        next := Ended;
      } else if |jobs| == 0 {
        next := Waiting;
      } else {
        next := Running(jobs[0]);
        jobs := jobs[1..];
      }
    }

    method Stop()
      modifies this
      ensures jobs == old(jobs) && quitFlag
    {
      quitFlag := true;
    }
  }
}
