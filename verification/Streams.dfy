/** Asynchronous streams: one StreamState per stage, joined by continuations that executors run.

    StreamState models the class; every method is one region of code under its mutex and is proved
    against a function on StateView. A Pipeline is a whole chain of stages together with the
    obligations that are outstanding: continuations somebody has been told to run, and the jobs and
    half-finished jobs of executors. Any outstanding obligation may be the next to make a step, so a
    trace of events is any interleaving of any number of threads under any executor. */
module Streams {
  import opened Common

  datatype Item<T> = Value(value: T) | EndOfStream

  /** The fields of a StreamState, without its mutex and condition variable. */
  datatype StateView<T> = StateView(queue: seq<Item<T>>, isFinished: bool, processing: bool, hasCont: bool) {

    predicate Ready() { isFinished || |queue| > 0 }

    function Pop(): (StateView<T>, Option<Item<T>>) {
      if |queue| == 0 then (this, None)
      else (this.(queue := queue[1..], processing := true), Some(queue[0]))
    }

    /** The boolean says whether the caller has to execute the continuation; so below. */
    function FinishProcessing(): (StateView<T>, bool) {
      (this.(processing := false), |queue| > 0 && hasCont)
    }

    function Push(value: T): (StateView<T>, bool) {
      (this.(queue := queue + [Value(value)]), |queue| == 0 && !processing && hasCont)
    }

    function Close(): (StateView<T>, bool) {
      (this.(queue := queue + [EndOfStream], isFinished := true), |queue| == 0 && !processing && hasCont)
    }

    function Chain(): (StateView<T>, bool) {
      (this.(hasCont := true), |queue| > 0)
    }
  }

  /** The state shared between a stage and whoever feeds it. A precondition is an assertion of the source. */
  class StreamState<T> {
    var queue: seq<Item<T>>
    var isFinished: bool
    var processingPoppedValue: bool
    var hasContinuation: bool

    function View(): StateView<T>
      reads this
    {
      StateView(queue, isFinished, processingPoppedValue, hasContinuation)
    }

    constructor ()
      ensures View() == StateView([], false, false, false)
    {
      queue, isFinished, processingPoppedValue, hasContinuation := [], false, false, false;
    }

    method PopValue() returns (r: Option<Item<T>>)
      requires !processingPoppedValue
      modifies this
      ensures (View(), r) == old(View()).Pop()
    {
      if |queue| == 0 {
        return None;
      }
      r := Some(queue[0]);
      queue := queue[1..];
      processingPoppedValue := true;
    }

    method FinishedProcessingPoppedValue() returns (execute: bool)
      modifies this
      ensures (View(), execute) == old(View()).FinishProcessing()
    {
      processingPoppedValue := false;
      execute := |queue| > 0 && hasContinuation;
    }

    method PushValue(value: T) returns (execute: bool)
      requires !isFinished
      modifies this
      ensures (View(), execute) == old(View()).Push(value)
    {
      execute := |queue| == 0 && !processingPoppedValue && hasContinuation;
      queue := queue + [Value(value)];
    }

    method Close() returns (execute: bool)
      requires !isFinished
      modifies this
      ensures (View(), execute) == old(View()).Close()
    {
      isFinished := true;
      execute := |queue| == 0 && !processingPoppedValue && hasContinuation;
      queue := queue + [EndOfStream];
    }

    method Chain() returns (execute: bool)
      requires !hasContinuation && !processingPoppedValue
      modifies this
      ensures (View(), execute) == old(View()).Chain()
    {
      hasContinuation := true;
      execute := |queue| > 0;
    }

    method ResetContinuation()
      modifies this
      ensures View() == old(View()).(hasCont := false)
    {
      hasContinuation := false;
    }
  }

  /** What is left to do with an item that a continuation has popped:
      an executor job that has not started; a job that has found the stream not cancelled; a job that
      has delivered its value; an end of stream to pass on; a continuation to drop after the end. */
  datatype Work<T> = Job(value: T) | Deliver(value: T) | Finish | CloseNext | DropContinuation

  /** popped lists every item ever taken from the queue; the first pulled of them went to the consumer,
      through get, before a continuation was attached. runs counts the threads that have been told to
      execute the continuation and have not popped yet. */
  datatype Stage<T> = Stage(state: StateView<T>, popped: seq<Item<T>>, pulled: nat, runs: nat, work: seq<Work<T>>) {
    function History(): seq<Item<T>> { popped + state.queue }

    function Told(result: (StateView<T>, bool)): Stage<T> {
      this.(state := result.0, runs := if result.1 then runs + 1 else runs)
    }
  }

  /** pulling: the consumer is between the two locked regions of get. */
  datatype Pipeline<T> = Pipeline(stages: seq<Stage<T>>, producerOpen: bool, canceled: bool, pulling: bool) {
    function Last(): int { |stages| - 1 }
  }

  function Start<T>(): Pipeline<T> {
    Pipeline([Stage(StateView([], false, false, false), [], 0, 0, [])], true, false, false)
  }

  /** One step of some thread. Send and CloseProducer are the producer's; Attach (then), Cancel (reset)
      and the two halves of get are the consumer's; the others discharge an outstanding obligation. */
  datatype Event<T> = Send(value: T) | CloseProducer | Attach | Cancel | BeginGet | EndGet
                    | RunContinuation(stage: nat) | Perform(stage: nat, k: nat) {
    predicate Internal() { RunContinuation? || Perform? }
  }

  predicate Enabled<T>(p: Pipeline<T>, e: Event<T>) {
    |p.stages| > 0 &&
    match e
    case Send(_) => p.producerOpen
    case CloseProducer => p.producerOpen
    case Attach => !p.canceled && !p.pulling
    case Cancel => !p.canceled && !p.pulling
    case BeginGet => !p.canceled && !p.pulling && p.stages[p.Last()].state.Ready()
    case EndGet => p.pulling
    case RunContinuation(i) => i < |p.stages| && p.stages[i].runs > 0
    case Perform(i, k) => i + 1 < |p.stages| && k < |p.stages[i].work|
  }

  /** The function of each continuation, by stage. */
  type Functions<!T> = (nat, T) -> T

  function Step<T>(f: Functions<T>, p: Pipeline<T>, e: Event<T>): Pipeline<T>
    requires Enabled(p, e)
  {
    var n := p.Last();
    match e
    case Send(v) =>
      p.(stages := p.stages[0 := p.stages[0].Told(p.stages[0].state.Push(v))])
    case CloseProducer =>
      p.(stages := p.stages[0 := p.stages[0].Told(p.stages[0].state.Close())], producerOpen := false)
    case Attach =>
      var s := p.stages[n];
      p.(stages := p.stages[n := s.Told(s.state.Chain()).(pulled := |s.popped|)]
                   + [Stage(StateView([], false, false, false), [], 0, 0, [])])
    case Cancel => p.(canceled := true)
    case BeginGet =>
      p.(stages := p.stages[n := Popped(p.stages[n]).0], pulling := true)
    case EndGet =>
      // get ignores the boolean
      p.(stages := p.stages[n := p.stages[n].(state := p.stages[n].state.FinishProcessing().0)], pulling := false)
    case RunContinuation(i) =>
      p.(stages := p.stages[i := Continued(p.stages[i])])
    case Perform(i, k) =>
      var (s, next) := Performed(f, i, p.stages[i], p.stages[i + 1], k, p.canceled);
      p.(stages := p.stages[i := s][i + 1 := next])
  }

  /** The front half of continueWith: pop, and spawn a job for a value. */
  function Continued<T>(s: Stage<T>): Stage<T>
    requires s.runs > 0
  {
    var (s', item) := Popped(s.(runs := s.runs - 1));
    match item
    case None => s'
    case Some(EndOfStream) => s'.(work := s'.work + [CloseNext])
    case Some(Value(v)) => s'.(work := s'.work + [Job(v)])
  }

  /** The next region of the k-th piece of work of stage i, and what it does to the stage after it. */
  function Performed<T>(f: Functions<T>, i: nat, s: Stage<T>, next: Stage<T>, k: nat,
                        canceled: bool): (Stage<T>, Stage<T>)
    requires k < |s.work|
  {
    var rest := s.work[..k] + s.work[k + 1..];
    match s.work[k]
    case Job(v) => (s.(work := if canceled then rest else rest + [Deliver(v)]), next)
    case Deliver(v) => (s.(work := rest + [Finish]), next.Told(next.state.Push(f(i, v))))
    case Finish => (s.(work := rest).Told(s.state.FinishProcessing()), next)
    case CloseNext => (s.(work := rest + [DropContinuation]), next.Told(next.state.Close()))
    case DropContinuation => (s.(work := rest, state := s.state.(hasCont := false)), next)
  }

  function Popped<T>(s: Stage<T>): (Stage<T>, Option<Item<T>>) {
    var (state, item) := s.state.Pop();
    (s.(state := state, popped := s.popped + if item.Some? then [item.value] else []), item)
  }

  /** The assertions the source makes in the locked regions of this step. */
  predicate AssertionsHold<T>(p: Pipeline<T>, e: Event<T>)
    requires Enabled(p, e)
  {
    match e
    case Send(_) => !p.stages[0].state.isFinished
    case CloseProducer => !p.stages[0].state.isFinished
    case Attach => !p.stages[p.Last()].state.hasCont && !p.stages[p.Last()].state.processing
    case Cancel => true
    case BeginGet => !p.stages[p.Last()].state.processing
    case EndGet => !p.stages[p.Last()].state.hasCont
    case RunContinuation(i) =>
      var s := p.stages[i].state;
      s.hasCont && !s.processing && |s.queue| > 0 && i + 1 < |p.stages|
    case Perform(i, k) =>
      var w := p.stages[i].work[k];
      w.Deliver? || w.CloseNext? ==> !p.stages[i + 1].state.isFinished
  }

  /** The state after a trace, if every event of it was enabled in its turn. */
  function Run<T>(f: Functions<T>, trace: seq<Event<T>>): Option<Pipeline<T>> {
    if |trace| == 0 then Some(Start())
    else
      var before := Run(f, trace[..|trace| - 1]);
      if before.Some? && Enabled(before.value, trace[|trace| - 1])
      then Some(Step(f, before.value, trace[|trace| - 1])) else None
  }

  // ---------------------------------------------------------------- the invariant

  function MapItem<T>(f: Functions<T>, i: nat, item: Item<T>): Item<T> {
    if item.EndOfStream? then EndOfStream else Value(f(i, item.value))
  }

  function MapItems<T>(f: Functions<T>, i: nat, items: seq<Item<T>>): seq<Item<T>> {
    seq(|items|, k requires 0 <= k < |items| => MapItem(f, i, items[k]))
  }

  /** Nothing follows the end of a stream. */
  ghost predicate EndsOnce<T>(items: seq<Item<T>>) {
    forall k :: 0 <= k < |items| - 1 ==> items[k].Value?
  }

  ghost predicate HasEnded<T>(items: seq<Item<T>>) {
    |items| > 0 && items[|items| - 1].EndOfStream?
  }

  /** The run token: the continuation is to be run by exactly one thread if it is attached, there is
      an item for it and none is being processed, and otherwise by nobody. */
  ghost predicate Token<T>(s: Stage<T>) {
    s.runs == if s.state.hasCont && |s.state.queue| > 0 && !s.state.processing then 1 else 0
  }

  ghost predicate StageOk<T>(s: Stage<T>) {
    && EndsOnce(s.History()) && (s.state.isFinished <==> HasEnded(s.History()))
    && s.pulled <= |s.popped|
    && Token(s)
    && (!s.state.processing ==> s.work == [])
  }

  /** A stage that has (had) a continuation: what the item being processed has left to go through. */
  ghost predicate ChainedOk<T>(s: Stage<T>, canceled: bool) {
    && (!s.state.hasCont ==> s.state.processing && s.work == [] && HasEnded(s.popped))
    && (s.state.processing ==>
          && s.pulled < |s.popped|
          && var item := s.popped[|s.popped| - 1];
             match item
             case EndOfStream =>
               s.work == [CloseNext] || s.work == [DropContinuation] || (s.work == [] && !s.state.hasCont)
             case Value(v) =>
               s.work == [Job(v)] || s.work == [Deliver(v)] || s.work == [Finish] || (s.work == [] && canceled))
  }

  /** The last item popped has not reached the next stage (and, if it was dropped, never will). */
  ghost predicate InFlight<T>(s: Stage<T>) {
    s.state.processing && |s.popped| > 0 &&
    if |s.work| == 0 then s.popped[|s.popped| - 1].Value? else !s.work[0].Finish? && !s.work[0].DropContinuation?
  }

  ghost predicate LinkOk<T>(f: Functions<T>, i: nat, s: Stage<T>, next: Stage<T>) {
    && s.pulled <= |s.popped|
    && MapItems(f, i, s.popped[s.pulled..]) ==
       next.History() + if InFlight(s) then [MapItem(f, i, s.popped[|s.popped| - 1])] else []
  }

  ghost predicate AllLinked<T>(f: Functions<T>, stages: seq<Stage<T>>, canceled: bool) {
    && (forall i :: 0 <= i < |stages| - 1 ==> ChainedOk(stages[i], canceled))
    && (forall i :: 0 <= i < |stages| - 1 ==> LinkOk(f, i, stages[i], stages[i + 1]))
  }

  ghost predicate LastOk<T>(s: Stage<T>, pulling: bool) {
    !s.state.hasCont && s.work == [] && (s.state.processing ==> pulling)
  }

  ghost predicate Inv<T>(f: Functions<T>, p: Pipeline<T>) {
    && |p.stages| > 0
    && (forall i :: 0 <= i < |p.stages| ==> StageOk(p.stages[i]))
    && AllLinked(f, p.stages, p.canceled)
    && LastOk(p.stages[p.Last()], p.pulling)
    && (p.producerOpen <==> !p.stages[0].state.isFinished)
  }

  lemma MapAppend<T>(f: Functions<T>, i: nat, items: seq<Item<T>>, item: Item<T>)
    ensures MapItems(f, i, items + [item]) == MapItems(f, i, items) + [MapItem(f, i, item)]
  {
  }

  /** No assertion of the source can fail; in particular no continuation runs on an empty or busy stage. */
  lemma AssertionsNeverFail<T>(f: Functions<T>, p: Pipeline<T>, e: Event<T>)
    requires Inv(f, p) && Enabled(p, e)
    ensures AssertionsHold(p, e)
  {
    match e
    case RunContinuation(i) => assert Token(p.stages[i]);
    case Perform(i, k) =>
      var s, next := p.stages[i], p.stages[i + 1];
      assert ChainedOk(s, p.canceled) && LinkOk(f, i, s, next) && StageOk(s) && StageOk(next);
      if s.work[k].Deliver? || s.work[k].CloseNext? {
        NextStillOpen(f, i, s, next);
      }
    case _ => assert LastOk(p.stages[p.Last()], p.pulling);
  }

  lemma NextStillOpen<T>(f: Functions<T>, i: nat, s: Stage<T>, next: Stage<T>)
    requires StageOk(s) && StageOk(next) && LinkOk(f, i, s, next) && InFlight(s)
    ensures !next.state.isFinished
  {
    var mapped := MapItems(f, i, s.popped[s.pulled..]);
    var h := next.History();
    if |h| > 0 {
      assert mapped[|h| - 1] == h[|h| - 1] == MapItem(f, i, s.popped[s.pulled..][|h| - 1]);
      assert s.History()[s.pulled + |h| - 1].Value?;
    }
  }

  // ---------------------------------------------------------------- every step keeps the invariant

  /** Feeding a stage that is still open. */
  lemma FeedStage<T>(s: Stage<T>, item: Item<T>)
    requires StageOk(s) && !s.state.isFinished
    ensures var s' := s.Told(if item.Value? then s.state.Push(item.value) else s.state.Close());
            StageOk(s') && s'.History() == s.History() + [item]
  {
    var s' := s.Told(if item.Value? then s.state.Push(item.value) else s.state.Close());
    var h := s.History();
    assert s'.History() == h + [item];
    assert |h| > 0 ==> h[|h| - 1].Value?;
  }

  /** Two stages alike but for what has been pushed to them. */
  ghost predicate SameConsumption<T>(s: Stage<T>, s': Stage<T>) {
    s'.popped == s.popped && s'.pulled == s.pulled && s'.work == s.work &&
    s'.state.processing == s.state.processing && s'.state.hasCont == s.state.hasCont
  }

  /** A stage and its successor after a step of the stage, seen from the rest of the pipeline. */
  ghost predicate GoodPair<T>(f: Functions<T>, i: nat, canceled: bool, s: Stage<T>, next: Stage<T>, s': Stage<T>,
                              next': Stage<T>) {
    && StageOk(s') && StageOk(next') && ChainedOk(s', canceled) && LinkOk(f, i, s', next')
    && s'.History() == s.History() && s'.state.isFinished == s.state.isFinished
    && SameConsumption(next, next')
  }

  /** What a link says does not depend on what has been pushed to its first stage. */
  lemma LinkFrame<T>(f: Functions<T>, i: nat, s: Stage<T>, next: Stage<T>, s': Stage<T>, next': Stage<T>)
    requires LinkOk(f, i, s, next) && SameConsumption(s, s') && next'.History() == next.History()
    ensures LinkOk(f, i, s', next')
  {
  }

  lemma PairKeepsLinks<T>(f: Functions<T>, before: seq<Stage<T>>, after: seq<Stage<T>>, canceled: bool, i: nat)
    requires AllLinked(f, before, canceled) && i + 1 < |before| == |after|
    requires forall j :: 0 <= j < |before| && j != i && j != i + 1 ==> after[j] == before[j]
    requires GoodPair(f, i, canceled, before[i], before[i + 1], after[i], after[i + 1])
    ensures AllLinked(f, after, canceled)
  {
    forall j | 0 <= j < |after| - 1 ensures ChainedOk(after[j], canceled) {
      assert ChainedOk(before[j], canceled);
    }
    forall j | 0 <= j < |after| - 1 ensures LinkOk(f, j, after[j], after[j + 1]) {
      if j != i {
        LinkFrame(f, j, before[j], before[j + 1], after[j], after[j + 1]);
      }
    }
  }

  lemma InvFromParts<T>(f: Functions<T>, p: Pipeline<T>, p': Pipeline<T>, i: nat)
    requires Inv(f, p) && i < p.Last() && |p'.stages| == |p.stages|
    requires p' == p.(stages := p.stages[i := p'.stages[i]][i + 1 := p'.stages[i + 1]])
    requires GoodPair(f, i, p.canceled, p.stages[i], p.stages[i + 1], p'.stages[i], p'.stages[i + 1])
    ensures Inv(f, p')
  {
    PairKeepsLinks(f, p.stages, p'.stages, p.canceled, i);
  }

  lemma ContinuedStage<T>(f: Functions<T>, i: nat, canceled: bool, s: Stage<T>, next: Stage<T>)
    requires StageOk(s) && StageOk(next) && ChainedOk(s, canceled) && LinkOk(f, i, s, next) && s.runs > 0
    ensures GoodPair(f, i, canceled, s, next, Continued(s), next)
  {
    var s', item := Continued(s), s.state.queue[0];
    assert s'.popped == s.popped + [item];
    assert s'.popped[s.pulled..] == s.popped[s.pulled..] + [item];
    MapAppend(f, i, s.popped[s.pulled..], item);
    assert s'.History() == s.History();
  }

  /** The popped item, mapped, reaches the next stage. */
  lemma PassOn<T>(f: Functions<T>, i: nat, canceled: bool, s: Stage<T>, next: Stage<T>)
    requires StageOk(s) && StageOk(next) && ChainedOk(s, canceled) && LinkOk(f, i, s, next)
    requires |s.work| > 0 && (s.work[0].Deliver? || s.work[0].CloseNext?)
    ensures var (s', next') := Performed(f, i, s, next, 0, canceled);
            GoodPair(f, i, canceled, s, next, s', next')
  {
    var (s', next') := Performed(f, i, s, next, 0, canceled);
    var item := MapItem(f, i, s.popped[|s.popped| - 1]);
    NextStillOpen(f, i, s, next);
    FeedStage(next, item);
    assert s.work[1..] == [];
    assert next'.History() == next.History() + [item];
    assert InFlight(s) && !InFlight(s');
    assert LinkOk(f, i, s', next');
  }

  lemma PerformedStage<T>(f: Functions<T>, i: nat, canceled: bool, s: Stage<T>, next: Stage<T>, k: nat)
    requires StageOk(s) && StageOk(next) && ChainedOk(s, canceled) && LinkOk(f, i, s, next) && k < |s.work|
    ensures var (s', next') := Performed(f, i, s, next, k, canceled);
            GoodPair(f, i, canceled, s, next, s', next')
  {
    assert s.state.processing && |s.work| == 1 && k == 0;
    match s.work[0]
    case Deliver(v) => PassOn(f, i, canceled, s, next);
    case CloseNext => PassOn(f, i, canceled, s, next);
    case DropContinuation => Drop(f, i, canceled, s, next);
    case Job(v) => Look(f, i, canceled, s, next);
    case Finish => FinishJob(f, i, canceled, s, next);
  }

  /** After the end of a stream nothing is left in its queue. */
  lemma Drop<T>(f: Functions<T>, i: nat, canceled: bool, s: Stage<T>, next: Stage<T>)
    requires StageOk(s) && StageOk(next) && ChainedOk(s, canceled) && LinkOk(f, i, s, next)
    requires s.work == [DropContinuation]
    ensures var (s', next') := Performed(f, i, s, next, 0, canceled);
            GoodPair(f, i, canceled, s, next, s', next')
  {
    assert s.work[..0] + s.work[1..] == [];
    assert s.History()[|s.popped| - 1].EndOfStream?;
    assert s.state.queue == [];
  }

  /** A job looks at the token. */
  lemma Look<T>(f: Functions<T>, i: nat, canceled: bool, s: Stage<T>, next: Stage<T>)
    requires StageOk(s) && StageOk(next) && ChainedOk(s, canceled) && LinkOk(f, i, s, next)
    requires |s.work| == 1 && s.work[0].Job?
    ensures var (s', next') := Performed(f, i, s, next, 0, canceled);
            GoodPair(f, i, canceled, s, next, s', next')
  {
    var s' := Performed(f, i, s, next, 0, canceled).0;
    assert s.work[..0] + s.work[1..] == [];
    assert s' == s.(work := s'.work) && InFlight(s) && InFlight(s');
  }

  /** A job finishes. */
  lemma FinishJob<T>(f: Functions<T>, i: nat, canceled: bool, s: Stage<T>, next: Stage<T>)
    requires StageOk(s) && StageOk(next) && ChainedOk(s, canceled) && LinkOk(f, i, s, next)
    requires s.work == [Finish]
    ensures var (s', next') := Performed(f, i, s, next, 0, canceled);
            GoodPair(f, i, canceled, s, next, s', next')
  {
    var s' := Performed(f, i, s, next, 0, canceled).0;
    assert s.work[..0] + s.work[1..] == [];
    assert !InFlight(s) && !InFlight(s') && s'.popped == s.popped && s'.pulled == s.pulled;
  }

  lemma RunKeepsInv<T>(f: Functions<T>, p: Pipeline<T>, i: nat)
    requires Inv(f, p) && Enabled(p, RunContinuation(i)) && i < p.Last()
    ensures Inv(f, Step(f, p, RunContinuation(i)))
  {
    assert StageOk(p.stages[i]) && ChainedOk(p.stages[i], p.canceled) && LinkOk(f, i, p.stages[i], p.stages[i + 1]);
    ContinuedStage(f, i, p.canceled, p.stages[i], p.stages[i + 1]);
    InvFromParts(f, p, Step(f, p, RunContinuation(i)), i);
  }

  lemma PerformKeepsInv<T>(f: Functions<T>, p: Pipeline<T>, i: nat, k: nat)
    requires Inv(f, p) && Enabled(p, Perform(i, k))
    ensures Inv(f, Step(f, p, Perform(i, k)))
  {
    assert StageOk(p.stages[i]) && ChainedOk(p.stages[i], p.canceled) && LinkOk(f, i, p.stages[i], p.stages[i + 1]);
    PerformedStage(f, i, p.canceled, p.stages[i], p.stages[i + 1], k);
    InvFromParts(f, p, Step(f, p, Perform(i, k)), i);
  }

  lemma AttachKeepsInv<T>(f: Functions<T>, p: Pipeline<T>)
    requires Inv(f, p) && Enabled(p, Attach)
    ensures Inv(f, Step(f, p, Attach))
  {
    var p', n := Step(f, p, Attach), p.Last();
    assert StageOk(p.stages[n]) && LastOk(p.stages[n], p.pulling);
    assert p'.stages[n].History() == p.stages[n].History();
    forall j | 0 <= j < p'.Last()
      ensures ChainedOk(p'.stages[j], p'.canceled) && LinkOk(f, j, p'.stages[j], p'.stages[j + 1])
    {
      assert j < n ==> ChainedOk(p.stages[j], p.canceled) && LinkOk(f, j, p.stages[j], p.stages[j + 1]);
    }
  }

  /** Events at the two ends of the pipeline leave every link intact. */
  lemma EndsKeepLinks<T>(f: Functions<T>, before: seq<Stage<T>>, after: seq<Stage<T>>, canceled: bool, canceled': bool)
    requires AllLinked(f, before, canceled) && |after| == |before| && (canceled ==> canceled')
    requires forall j :: 0 <= j < |before| - 1 ==> SameConsumption(before[j], after[j])
    requires forall j :: 1 <= j < |before| ==> after[j].History() == before[j].History()
    ensures AllLinked(f, after, canceled')
  {
    forall j | 0 <= j < |after| - 1 ensures ChainedOk(after[j], canceled') && LinkOk(f, j, after[j], after[j + 1]) {
      assert ChainedOk(before[j], canceled);
      LinkFrame(f, j, before[j], before[j + 1], after[j], after[j + 1]);
    }
  }

  /** Pushing to the first stage. */
  lemma FeedKeepsInv<T>(f: Functions<T>, p: Pipeline<T>, e: Event<T>)
    requires Inv(f, p) && Enabled(p, e) && (e.Send? || e.CloseProducer?)
    ensures Inv(f, Step(f, p, e))
  {
    FeedStage(p.stages[0], if e.Send? then Value(e.value) else EndOfStream);
    EndsKeepLinks(f, p.stages, Step(f, p, e).stages, p.canceled, p.canceled);
  }

  /** The two halves of get at the last stage, and the cancellation of the whole pipeline. */
  lemma ConsumerKeepsInv<T>(f: Functions<T>, p: Pipeline<T>, e: Event<T>)
    requires Inv(f, p) && Enabled(p, e) && (e.BeginGet? || e.EndGet? || e.Cancel?)
    ensures Inv(f, Step(f, p, e))
  {
    var p', n := Step(f, p, e), p.Last();
    assert StageOk(p.stages[n]) && LastOk(p.stages[n], p.pulling);
    assert p'.stages[n].History() == p.stages[n].History();
    EndsKeepLinks(f, p.stages, p'.stages, p.canceled, p'.canceled);
  }

  lemma StepKeepsInv<T>(f: Functions<T>, p: Pipeline<T>, e: Event<T>)
    requires Inv(f, p) && Enabled(p, e)
    ensures Inv(f, Step(f, p, e))
  {
    match e
    case RunContinuation(i) => AssertionsNeverFail(f, p, e); RunKeepsInv(f, p, i);
    case Perform(i, k) => PerformKeepsInv(f, p, i, k);
    case Attach => AttachKeepsInv(f, p);
    case Send(_) => FeedKeepsInv(f, p, e);
    case CloseProducer => FeedKeepsInv(f, p, e);
    case _ => ConsumerKeepsInv(f, p, e);
  }

  // ---------------------------------------------------------------- what the consumer of any stage sees

  /** What the producer has put in, read off the trace alone. */
  function Sent<T>(trace: seq<Event<T>>): seq<Item<T>> {
    if |trace| == 0 then [] else Sent(trace[..|trace| - 1]) + Input(trace[|trace| - 1])
  }

  function Input<T>(e: Event<T>): seq<Item<T>> {
    if e.Send? then [Value(e.value)] else if e.CloseProducer? then [EndOfStream] else []
  }

  /** All that stage i could ever receive from the given input: the input mapped by every stage before
      it, except for what a consumer took from one of those stages before it was continued. */
  function Expected<T>(f: Functions<T>, p: Pipeline<T>, input: seq<Item<T>>, i: nat): seq<Item<T>>
    requires i < |p.stages|
  {
    if i == 0 then input
    else
      var before, pulled := Expected(f, p, input, i - 1), p.stages[i - 1].pulled;
      if pulled <= |before| then MapItems(f, i - 1, before[pulled..]) else []
  }

  lemma OnlyProducerFeedsFirst<T>(f: Functions<T>, p: Pipeline<T>, e: Event<T>)
    requires Inv(f, p) && Enabled(p, e)
    ensures Step(f, p, e).stages[0].History() == p.stages[0].History() + Input(e)
  {
    match e
    case Send(v) =>
      AssertionsNeverFail(f, p, e);
      FeedStage(p.stages[0], Value(v));
    case CloseProducer =>
      AssertionsNeverFail(f, p, e);
      FeedStage(p.stages[0], EndOfStream);
    case RunContinuation(i) => DischargeKeepsHistory(f, p, e);
    case Perform(i, k) => DischargeKeepsHistory(f, p, e);
    case _ => assert Step(f, p, e).stages[0].History() == p.stages[0].History();
  }

  lemma DischargeKeepsHistory<T>(f: Functions<T>, p: Pipeline<T>, e: Event<T>)
    requires Inv(f, p) && Enabled(p, e) && e.Internal()
    ensures Step(f, p, e).stages[0].History() == p.stages[0].History()
  {
    AssertionsNeverFail(f, p, e);
    var i := e.stage;
    var s, next := p.stages[i], p.stages[i + 1];
    assert StageOk(s) && StageOk(next) && ChainedOk(s, p.canceled) && LinkOk(f, i, s, next);
    if e.RunContinuation? {
      ContinuedStage(f, i, p.canceled, s, next);
    } else {
      PerformedStage(f, i, p.canceled, s, next, e.k);
    }
  }

  /** The invariant, and where the items in the first stage come from. */
  ghost predicate Explained<T>(f: Functions<T>, p: Pipeline<T>, input: seq<Item<T>>) {
    Inv(f, p) && p.stages[0].History() == input
  }

  lemma StepExplained<T>(f: Functions<T>, p: Pipeline<T>, e: Event<T>, input: seq<Item<T>>)
    requires Explained(f, p, input) && Enabled(p, e)
    ensures Explained(f, Step(f, p, e), input + Input(e))
  {
    StepKeepsInv(f, p, e);
    OnlyProducerFeedsFirst(f, p, e);
  }

  /** Every state of every run satisfies the invariant and holds the producer's items in order. */
  lemma {:induction false} Reachable<T>(f: Functions<T>, trace: seq<Event<T>>)
    requires Run(f, trace).Some?
    ensures Explained(f, Run(f, trace).value, Sent(trace))
  {
    if |trace| > 0 {
      var before, e := trace[..|trace| - 1], trace[|trace| - 1];
      Reachable(f, before);
      StepExplained(f, Run(f, before).value, e, Sent(before));
    }
  }

  /** Order is kept and nothing is made up: each stage has received a prefix of what it may expect.
      Nothing is lost either: if it has seen the end of the stream, it has received all of it. */
  lemma {:induction false} ReceivesPrefix<T>(f: Functions<T>, p: Pipeline<T>, i: nat)
    requires Inv(f, p) && i < |p.stages|
    ensures var input := p.stages[0].History();
            p.stages[i].History() <= Expected(f, p, input, i) && EndsOnce(Expected(f, p, input, i))
    ensures p.stages[i].state.isFinished ==> p.stages[i].History() == Expected(f, p, p.stages[0].History(), i)
  {
    var input := p.stages[0].History();
    assert StageOk(p.stages[i]);
    if i > 0 {
      ReceivesPrefix(f, p, i - 1);
      var s, h, all := p.stages[i - 1], p.stages[i].History(), Expected(f, p, input, i - 1);
      assert LinkOk(f, i - 1, s, p.stages[i]);
      var e := Expected(f, p, input, i);
      assert e == MapItems(f, i - 1, all[s.pulled..]);
      var mapped := MapItems(f, i - 1, s.popped[s.pulled..]);
      assert h <= mapped;
      forall k | 0 <= k < |mapped| ensures mapped[k] == e[k] {
        assert s.History()[s.pulled + k] == all[s.pulled + k];
      }
      assert h <= e;
      forall k | 0 <= k < |e| - 1 ensures e[k].Value? {
        assert all[s.pulled + k].Value?;
      }
    }
  }

  /** The two facts above for every run of the program. */
  lemma {:induction false} PipelineDeliversInOrder<T>(f: Functions<T>, trace: seq<Event<T>>, i: nat)
    requires Run(f, trace).Some? && i < |Run(f, trace).value.stages|
    ensures var p := Run(f, trace).value;
            p.stages[i].History() <= Expected(f, p, Sent(trace), i)
            && (EndOfStream in p.stages[i].History() ==> p.stages[i].History() == Expected(f, p, Sent(trace), i))
  {
    Reachable(f, trace);
    var p := Run(f, trace).value;
    ReceivesPrefix(f, p, i);
    assert StageOk(p.stages[i]);
  }

  /** No obligation is outstanding anywhere. */
  ghost predicate Quiescent<T>(p: Pipeline<T>) {
    !p.pulling && forall i :: 0 <= i < |p.stages| ==> p.stages[i].runs == 0 && p.stages[i].work == []
  }

  lemma EndedIsEmpty<T>(s: Stage<T>)
    requires EndsOnce(s.History()) && HasEnded(s.popped)
    ensures s.state.queue == []
  {
    assert s.History()[|s.popped| - 1].EndOfStream?;
  }

  /** Nothing gets stuck: when no work is left and the pipeline was not cancelled, all of it is delivered. */
  lemma {:induction false} QuiescentIsComplete<T>(f: Functions<T>, p: Pipeline<T>, i: nat)
    requires Inv(f, p) && Quiescent(p) && !p.canceled && i < |p.stages|
    ensures p.stages[i].History() == Expected(f, p, p.stages[0].History(), i)
    ensures i < p.Last() ==> p.stages[i].state.queue == []
  {
    if i > 0 {
      QuiescentIsComplete(f, p, i - 1);
      assert LinkOk(f, i - 1, p.stages[i - 1], p.stages[i]) && !InFlight(p.stages[i - 1]) by {
        assert ChainedOk(p.stages[i - 1], p.canceled);
      }
      assert p.stages[i - 1].History() == p.stages[i - 1].popped;
    }
    if i < p.Last() {
      var s := p.stages[i];
      assert StageOk(s) && ChainedOk(s, p.canceled);
      if HasEnded(s.popped) {
        EndedIsEmpty(s);
      }
    }
  }

  // ---------------------------------------------------------------- how much work is left

  /** Steps that one item in the queue of a stage with k stages after it can still cause. */
  function ItemCost(k: nat): nat { 4 * k }

  function WorkCost<T>(k: nat, work: seq<Work<T>>): nat {
    if |work| == 0 || k == 0 then 0
    else match work[0]
      case Job(_) => ItemCost(k - 1) + 3
      case Deliver(_) => ItemCost(k - 1) + 2
      case CloseNext => ItemCost(k - 1) + 2
      case Finish => 1
      case DropContinuation => 1
  }

  function QueueCost(k: nat, length: nat): nat {
    if length == 0 then 0 else ItemCost(k) + QueueCost(k, length - 1)
  }

  function StageCost<T>(k: nat, s: Stage<T>): nat {
    QueueCost(k, |s.state.queue|) + WorkCost(k, s.work)
  }

  function Cost<T>(stages: seq<Stage<T>>): nat {
    if |stages| == 0 then 0 else StageCost(|stages| - 1, stages[0]) + Cost(stages[1..])
  }

  lemma {:induction false} CostOfPair<T>(before: seq<Stage<T>>, after: seq<Stage<T>>, i: nat)
    requires i + 1 < |before| == |after|
    requires forall j :: 0 <= j < |before| && j != i && j != i + 1 ==> after[j] == before[j]
    ensures var k := |before| - 1 - i;
            Cost(after) - Cost(before) ==
            StageCost(k, after[i]) - StageCost(k, before[i])
            + StageCost(k - 1, after[i + 1]) - StageCost(k - 1, before[i + 1])
  {
    if i == 0 {
      assert after[1..][1..] == before[1..][1..];
    } else {
      CostOfPair(before[1..], after[1..], i - 1);
    }
  }

  lemma ContinuedCost<T>(s: Stage<T>, k: nat)
    requires s.runs > 0 && s.work == [] && |s.state.queue| > 0 && k > 0
    ensures StageCost(k, Continued(s)) < StageCost(k, s)
  {
    assert |Continued(s).work| == 1;
  }

  lemma PerformedCost<T>(f: Functions<T>, i: nat, s: Stage<T>, next: Stage<T>, canceled: bool, k: nat)
    requires |s.work| == 1 && k > 0
    ensures var (s', next') := Performed(f, i, s, next, 0, canceled);
            StageCost(k, s') + StageCost(k - 1, next') < StageCost(k, s) + StageCost(k - 1, next)
  {
    assert s.work[..0] + s.work[1..] == [];
  }

  /** Every step that discharges an obligation uses up work. */
  lemma StepCosts<T>(f: Functions<T>, p: Pipeline<T>, e: Event<T>)
    requires Inv(f, p) && Enabled(p, e) && e.Internal()
    ensures Cost(Step(f, p, e).stages) < Cost(p.stages)
  {
    AssertionsNeverFail(f, p, e);
    var i := e.stage;
    var s := p.stages[i];
    assert StageOk(s) && ChainedOk(s, p.canceled);
    if e.RunContinuation? {
      ContinuedPairIsCheaper(p, i);
    } else {
      assert |s.work| == 1 && e.k == 0;
      PerformedPairIsCheaper(f, p, i);
    }
  }

  lemma ContinuedPairIsCheaper<T>(p: Pipeline<T>, i: nat)
    requires i + 1 < |p.stages|
    requires var s := p.stages[i]; s.runs > 0 && s.work == [] && |s.state.queue| > 0
    ensures Cost(p.stages[i := Continued(p.stages[i])]) < Cost(p.stages)
  {
    var s', next := Continued(p.stages[i]), p.stages[i + 1];
    ContinuedCost(p.stages[i], p.Last() - i);
    CheaperPair(p.stages, i, s', next);
    assert p.stages[i := s'][i + 1 := next] == p.stages[i := s'];
  }

  lemma PerformedPairIsCheaper<T>(f: Functions<T>, p: Pipeline<T>, i: nat)
    requires i + 1 < |p.stages| && |p.stages[i].work| == 1
    ensures var (s', next') := Performed(f, i, p.stages[i], p.stages[i + 1], 0, p.canceled);
            Cost(p.stages[i := s'][i + 1 := next']) < Cost(p.stages)
  {
    var (s', next') := Performed(f, i, p.stages[i], p.stages[i + 1], 0, p.canceled);
    PerformedCost(f, i, p.stages[i], p.stages[i + 1], p.canceled, p.Last() - i);
    CheaperPair(p.stages, i, s', next');
  }

  lemma CheaperPair<T>(stages: seq<Stage<T>>, i: nat, s: Stage<T>, next: Stage<T>)
    requires i + 1 < |stages|
    requires var k := |stages| - 1 - i;
             StageCost(k, s) + StageCost(k - 1, next) < StageCost(k, stages[i]) + StageCost(k - 1, stages[i + 1])
    ensures Cost(stages[i := s][i + 1 := next]) < Cost(stages)
  {
    CostOfPair(stages, stages[i := s][i + 1 := next], i);
  }

  function RunFrom<T>(f: Functions<T>, p: Pipeline<T>, events: seq<Event<T>>): Option<Pipeline<T>>
    decreases |events|
  {
    if |events| == 0 then Some(p)
    else if Enabled(p, events[0]) then RunFrom(f, Step(f, p, events[0]), events[1..])
    else None
  }

  /** Left alone, a pipeline makes at most Cost steps, whatever the executors do... */
  lemma {:induction false} WorkIsBounded<T>(f: Functions<T>, p: Pipeline<T>, events: seq<Event<T>>)
    requires Inv(f, p) && RunFrom(f, p, events).Some?
    requires forall k :: 0 <= k < |events| ==> events[k].Internal()
    ensures |events| <= Cost(p.stages)
    ensures Inv(f, RunFrom(f, p, events).value)
    decreases |events|
  {
    if |events| > 0 {
      StepKeepsInv(f, p, events[0]);
      StepCosts(f, p, events[0]);
      WorkIsBounded(f, Step(f, p, events[0]), events[1..]);
    }
  }

  /** ...and only stops when nothing is outstanding. */
  lemma {:induction false} Drains<T>(f: Functions<T>, p: Pipeline<T>) returns (events: seq<Event<T>>)
    requires Inv(f, p) && !p.pulling
    ensures forall k :: 0 <= k < |events| ==> events[k].Internal()
    ensures RunFrom(f, p, events).Some? && Quiescent(RunFrom(f, p, events).value)
    decreases Cost(p.stages)
  {
    if Quiescent(p) {
      events := [];
    } else {
      var e := SomethingToDo(f, p);
      StepKeepsInv(f, p, e);
      StepCosts(f, p, e);
      var rest := Drains(f, Step(f, p, e));
      events := [e] + rest;
    }
  }

  /** Whatever is outstanding can make a step, and that step leaves get alone. */
  lemma SomethingToDo<T>(f: Functions<T>, p: Pipeline<T>) returns (e: Event<T>)
    requires Inv(f, p) && !p.pulling && !Quiescent(p)
    ensures Enabled(p, e) && e.Internal() && !Step(f, p, e).pulling
  {
    var i :| 0 <= i < |p.stages| && !(p.stages[i].runs == 0 && p.stages[i].work == []);
    assert StageOk(p.stages[i]) && LastOk(p.stages[p.Last()], p.pulling);
    e := if p.stages[i].runs > 0 then RunContinuation(i) else Perform(i, 0);
  }

  /** Each stage has at most one outstanding run and at most one job. */
  lemma {:induction false} AtMostOneJob<T>(f: Functions<T>, trace: seq<Event<T>>, i: nat)
    requires Run(f, trace).Some? && i < |Run(f, trace).value.stages|
    ensures var s := Run(f, trace).value.stages[i];
            s.runs + |s.work| <= 1 &&
            (s.runs == 1 <==> s.state.hasCont && |s.state.queue| > 0 && !s.state.processing)
  {
    Reachable(f, trace);
    var p := Run(f, trace).value;
    assert StageOk(p.stages[i]) && LastOk(p.stages[p.Last()], p.pulling);
    assert i < p.Last() ==> ChainedOk(p.stages[i], p.canceled);
  }

  // ---------------------------------------------------------------- what the consumer gets

  /** Calls of get, one after another. */
  function Gets<T>(n: nat): seq<Event<T>> {
    if n == 0 then [] else [BeginGet, EndGet] + Gets(n - 1)
  }

  /** The stage with the first n of the waiting items taken. */
  function Taken<T>(s: Stage<T>, n: nat): Stage<T>
    requires n <= |s.state.queue|
  {
    s.(popped := s.popped + s.state.queue[..n], state := s.state.(queue := s.state.queue[n..]))
  }

  lemma TakenOneByOne<T>(s: Stage<T>, n: nat)
    requires 0 < n <= |s.state.queue|
    ensures Taken(s, 0) == s && Taken(Taken(s, 1), n - 1) == Taken(s, n)
  {
    var q := s.state.queue;
    assert s.popped + q[..0] == s.popped && q[0..] == q;
    assert q[..1] + q[1..][..n - 1] == q[..n] && q[1..][n - 1..] == q[n..];
    Associative(s.popped, q[..1], q[1..][..n - 1]);
  }

  /** The pipeline after n calls of get. */
  function AfterGets<T>(p: Pipeline<T>, n: nat): Pipeline<T>
    requires |p.stages| > 0 && n <= |p.stages[p.Last()].state.queue|
  {
    p.(stages := p.stages[p.Last() := Taken(p.stages[p.Last()], n)])
  }

  lemma AfterGetsOneByOne<T>(p: Pipeline<T>, n: nat)
    requires |p.stages| > 0 && 0 < n <= |p.stages[p.Last()].state.queue|
    ensures AfterGets(AfterGets(p, 1), n - 1) == AfterGets(p, n)
  {
    TakenOneByOne(p.stages[p.Last()], n);
    assert AfterGets(AfterGets(p, 1), n - 1).stages == AfterGets(p, n).stages;
  }

  lemma {:induction false} OneGet<T>(f: Functions<T>, p: Pipeline<T>, rest: seq<Event<T>>)
    requires Inv(f, p) && !p.canceled && !p.pulling && |p.stages[p.Last()].state.queue| > 0
    ensures Inv(f, AfterGets(p, 1))
    ensures RunFrom(f, p, [BeginGet, EndGet] + rest) == RunFrom(f, AfterGets(p, 1), rest)
  {
    var n := p.Last();
    var p1 := Step(f, p, BeginGet);
    assert LastOk(p.stages[n], p.pulling);
    StepKeepsInv(f, p, BeginGet);
    StepKeepsInv(f, p1, EndGet);
    assert p.stages[n].state.queue[..1] == [p.stages[n].state.queue[0]];
    assert Step(f, p1, EndGet) == AfterGets(p, 1);
    var events := [BeginGet, EndGet] + rest;
    assert events[1..][1..] == rest && events[1..][0] == EndGet;
  }

  /** Get takes the items that wait in their order, and touches nothing else. */
  lemma {:induction false} GetsTakeInOrder<T>(f: Functions<T>, p: Pipeline<T>, n: nat)
    requires Inv(f, p) && !p.canceled && !p.pulling && n <= |p.stages[p.Last()].state.queue|
    ensures RunFrom(f, p, Gets(n)) == Some(AfterGets(p, n))
    decreases n
  {
    if n == 0 {
      var s := p.stages[p.Last()];
      assert s.popped + s.state.queue[..0] == s.popped;
      assert p.stages[p.Last() := Taken(s, 0)] == p.stages;
    } else {
      AfterGetsOneByOne(p, n);
      OneGet(f, p, Gets(n - 1));
      GetsTakeInOrder(f, AfterGets(p, 1), n - 1);
    }
  }

  /** So a consumer who gets everything that waits, once nothing is outstanding, has been given the whole input,
      mapped by every stage, and the end of the stream with it. */
  lemma {:induction false} ConsumerGetsAll<T>(f: Functions<T>, p: Pipeline<T>)
    requires Inv(f, p) && Quiescent(p) && !p.canceled
    ensures var s := p.stages[p.Last()];
            var p' := RunFrom(f, p, Gets(|s.state.queue|));
            && p'.Some? && |p'.value.stages| == |p.stages|
            && p'.value.stages[p.Last()].popped == Expected(f, p, p.stages[0].History(), p.Last())
  {
    var s := p.stages[p.Last()];
    GetsTakeInOrder(f, p, |s.state.queue|);
    QuiescentIsComplete(f, p, p.Last());
    assert s.state.queue[..|s.state.queue|] == s.state.queue;
  }

  // ---------------------------------------------------------------- after cancellation

  function Values<T>(items: seq<Item<T>>): nat {
    if |items| == 0 then 0 else Values(items[..|items| - 1]) + if Last(items).Value? then 1 else 0
  }

  function Last<X>(s: seq<X>): X
    requires |s| > 0
  {
    s[|s| - 1]
  }

  /** The job of the stage has looked at the token and has yet to run the function and hand on its result. */
  ghost predicate Checked<T>(s: Stage<T>) {
    |s.work| == 1 && s.work[0].Deliver?
  }

  lemma PopKeepsHistory<T>(s: Stage<T>)
    ensures Popped(s).0.History() == s.History() && Popped(s).0.work == s.work
  {
  }

  /** What a step of a job adds to the stage after it. */
  lemma JobAdds<T>(f: Functions<T>, i: nat, canceled: bool, s: Stage<T>, next: Stage<T>, k: nat)
    requires StageOk(s) && StageOk(next) && ChainedOk(s, canceled) && LinkOk(f, i, s, next) && k < |s.work|
    ensures var h, h' := next.History(), Performed(f, i, s, next, k, canceled).1.History();
            if Checked(s) then k == 0 && h' == h + [Value(f(i, s.work[0].value))]
            else h' == h || h' == h + [EndOfStream]
  {
    assert |s.work| == 1 && k == 0;
    if s.work[0].Deliver? || s.work[0].CloseNext? {
      NextStillOpen(f, i, s, next);
      FeedStage(next, if s.work[0].Deliver? then Value(f(i, s.work[0].value)) else EndOfStream);
    }
  }

  /** What one event adds to a stage that follows another: only the job of that other stage adds anything, and
      a value only if it had looked at the token. */
  lemma ArrivesOnlyChecked<T>(f: Functions<T>, p: Pipeline<T>, e: Event<T>, i: nat)
    requires Inv(f, p) && Enabled(p, e) && i + 1 < |p.stages|
    ensures i + 1 < |Step(f, p, e).stages|
    ensures var h, h' := p.stages[i + 1].History(), Step(f, p, e).stages[i + 1].History();
            if e == Perform(i, 0) && Checked(p.stages[i]) then h' == h + [Value(f(i, p.stages[i].work[0].value))]
            else h' == h || h' == h + [EndOfStream]
  {
    match e
    case RunContinuation(j) => InternalAddsElsewhere(f, p, e, i);
    case Perform(j, k) =>
      if j == i {
        var s, next := p.stages[i], p.stages[i + 1];
        assert StageOk(s) && StageOk(next) && ChainedOk(s, p.canceled) && LinkOk(f, i, s, next);
        JobAdds(f, i, p.canceled, s, next, k);
      } else {
        InternalAddsElsewhere(f, p, e, i);
      }
    case BeginGet => PopKeepsHistory(p.stages[p.Last()]);
    case _ =>
  }

  lemma InternalAddsElsewhere<T>(f: Functions<T>, p: Pipeline<T>, e: Event<T>, i: nat)
    requires Inv(f, p) && Enabled(p, e) && e.Internal() && i + 1 < |p.stages|
    requires e.RunContinuation? || e.stage != i
    ensures Step(f, p, e).stages[i + 1].History() == p.stages[i + 1].History()
  {
    AssertionsNeverFail(f, p, e);
    var j := e.stage;
    var s, next := p.stages[j], p.stages[j + 1];
    assert StageOk(s) && StageOk(next) && ChainedOk(s, p.canceled) && LinkOk(f, j, s, next);
    if e.RunContinuation? {
      ContinuedStage(f, j, p.canceled, s, next);
    } else {
      PerformedStage(f, j, p.canceled, s, next, e.k);
    }
  }

  /** A job that looks at the token after the cancellation ends there, and one that runs its function has passed. */
  lemma LooksInVain<T>(f: Functions<T>, i: nat, s: Stage<T>, next: Stage<T>, k: nat)
    requires |s.work| == 1 && k == 0
    ensures !Checked(Performed(f, i, s, next, k, true).0)
    ensures Performed(f, i, s, next, k, true).1.work == next.work
  {
    assert s.work[..0] + s.work[1..] == [];
  }

  /** After the cancellation no job passes its look at the token, and a function is run only once. */
  lemma ChecksNoMore<T>(f: Functions<T>, p: Pipeline<T>, e: Event<T>, i: nat)
    requires Inv(f, p) && p.canceled && Enabled(p, e) && i + 1 < |p.stages|
    ensures var p' := Step(f, p, e);
            && p'.canceled && |p'.stages| == |p.stages|
            && (Checked(p'.stages[i]) ==> Checked(p.stages[i]) && e != Perform(i, 0))
  {
    match e
    case RunContinuation(j) =>
      AssertionsNeverFail(f, p, e);
      assert StageOk(p.stages[j]) && p.stages[j].work == [];
    case Perform(j, k) => ChecksNoMoreByJob(f, p, j, k, i);
    case _ =>
  }

  lemma ChecksNoMoreByJob<T>(f: Functions<T>, p: Pipeline<T>, j: nat, k: nat, i: nat)
    requires Inv(f, p) && p.canceled && Enabled(p, Perform(j, k)) && i + 1 < |p.stages|
    ensures var p' := Step(f, p, Perform(j, k));
            |p'.stages| == |p.stages| && (Checked(p'.stages[i]) ==> Checked(p.stages[i]) && (j, k) != (i, 0))
  {
    assert StageOk(p.stages[j]) && ChainedOk(p.stages[j], p.canceled);
    LooksInVain(f, j, p.stages[j], p.stages[j + 1], k);
  }

  lemma {:induction false} ValuesSnoc<T>(items: seq<Item<T>>, item: Item<T>)
    ensures Values(items + [item]) == Values(items) + if item.Value? then 1 else 0
  {
    assert (items + [item])[..|items|] == items;
  }

  /** However a cancelled pipeline goes on: each stage after the first still receives at most one value, and
      only if the job before it had already looked at the token. */
  lemma {:induction false} NoValueAfterCancel<T>(f: Functions<T>, p: Pipeline<T>, events: seq<Event<T>>, i: nat)
    requires Inv(f, p) && p.canceled && RunFrom(f, p, events).Some? && i + 1 < |p.stages|
    ensures var p' := RunFrom(f, p, events).value;
            && p'.canceled && |p'.stages| == |p.stages|
            && p.stages[i + 1].History() <= p'.stages[i + 1].History()
            && Values(p'.stages[i + 1].History())
               <= Values(p.stages[i + 1].History()) + if Checked(p.stages[i]) then 1 else 0
    decreases |events|
  {
    if |events| > 0 {
      var e := events[0];
      var p1 := Step(f, p, e);
      StepKeepsInv(f, p, e);
      ArrivesOnlyChecked(f, p, e, i);
      ChecksNoMore(f, p, e, i);
      NoValueAfterCancel(f, p1, events[1..], i);
      ValuesSnoc(p.stages[i + 1].History(), EndOfStream);
      if Checked(p.stages[i]) {
        ValuesSnoc(p.stages[i + 1].History(), Value(f(i, p.stages[i].work[0].value)));
      }
    }
  }

  /** The stage after the given one receives a value. */
  ghost predicate DeliversWithin<T>(f: Functions<T>, p: Pipeline<T>, events: seq<Event<T>>, i: nat) {
    && RunFrom(f, p, events).Some? && i + 1 < |p.stages| == |RunFrom(f, p, events).value.stages|
    && Values(RunFrom(f, p, events).value.stages[i + 1].History()) > Values(p.stages[i + 1].History())
  }

  /** That is the exact condition. */
  lemma ValueAfterCancelIff<T>(f: Functions<T>, p: Pipeline<T>, i: nat)
    requires Inv(f, p) && p.canceled && i + 1 < |p.stages|
    ensures (exists events: seq<Event<T>> :: DeliversWithin(f, p, events, i)) <==> Checked(p.stages[i])
  {
    if events: seq<Event<T>> :| DeliversWithin(f, p, events, i) {
      NoValueAfterCancel(f, p, events, i);
    }
    if Checked(p.stages[i]) {
      CheckedDelivers(f, p, i);
    }
  }

  lemma CheckedDelivers<T>(f: Functions<T>, p: Pipeline<T>, i: nat)
    requires Inv(f, p) && i + 1 < |p.stages| && Checked(p.stages[i])
    ensures DeliversWithin(f, p, [Perform(i, 0)], i)
  {
    var e: Event<T> := Perform(i, 0);
    ArrivesOnlyChecked(f, p, e, i);
    ValuesSnoc(p.stages[i + 1].History(), Value(f(i, p.stages[i].work[0].value)));
    RunOne(f, p, e);
  }

  lemma {:induction false} RunOne<T>(f: Functions<T>, p: Pipeline<T>, e: Event<T>)
    requires Enabled(p, e)
    ensures RunFrom(f, p, [e]) == Some(Step(f, p, e))
  {
    assert [e][1..] == [];
    assert RunFrom(f, Step(f, p, e), []) == Some(Step(f, p, e));
  }

  /** The same for every run of the program, from the moment of its cancellation. */
  lemma {:induction false} CanceledRunsStop<T>(f: Functions<T>, trace: seq<Event<T>>, events: seq<Event<T>>, i: nat)
    requires Run(f, trace).Some? && Run(f, trace).value.canceled && i + 1 < |Run(f, trace).value.stages|
    requires Run(f, trace + events).Some?
    ensures var p, p' := Run(f, trace).value, Run(f, trace + events).value;
            && i + 1 < |p'.stages| && p.stages[i + 1].History() <= p'.stages[i + 1].History()
            && Values(p'.stages[i + 1].History())
               <= Values(p.stages[i + 1].History()) + if Checked(p.stages[i]) then 1 else 0
  {
    Reachable(f, trace);
    RunGoesOn(f, trace, events);
    NoValueAfterCancel(f, Run(f, trace).value, events, i);
  }

  lemma {:induction false} RunGoesOn<T>(f: Functions<T>, trace: seq<Event<T>>, events: seq<Event<T>>)
    requires Run(f, trace + events).Some?
    ensures Run(f, trace).Some? && RunFrom(f, Run(f, trace).value, events) == Run(f, trace + events)
    decreases |events|
  {
    if |events| == 0 {
      assert trace + events == trace;
    } else {
      var more := trace + [events[0]];
      assert more + events[1..] == trace + events;
      RunGoesOn(f, more, events[1..]);
      assert more[..|trace|] == trace;
    }
  }

  /** A run in which a value does arrive: the job looks at the token, the consumer cancels, the function runs. */
  function LookThenCancel<T>(v: T): seq<Event<T>> {
    [Attach, Send(v), RunContinuation(0), Perform(0, 0), Cancel]
  }

  lemma DeliversAfterCancel<T>(f: Functions<T>, v: T)
    ensures var p := RunFrom(f, Start(), LookThenCancel(v));
            p.Some? && p.value.canceled && |p.value.stages| == 2 && p.value.stages[1].History() == []
    ensures var p := RunFrom(f, Start(), LookThenCancel(v) + [Perform(0, 0)]);
            p.Some? && |p.value.stages| == 2 && p.value.stages[1].History() == [Value(f(0, v))]
  {
    var s4 := Stage(StateView([], false, true, true), [Value(v)], 0, 0, [Deliver(v)]);
    var canceled := TwoStages(s4).(canceled := true);
    LooksThenCanceled(f, v);
    RunFromConcat(f, Start(), LookThenCancel(v), [Perform(0, 0)]);
    var delivered := Step(f, canceled, Perform(0, 0));
    assert delivered.stages[1].History() == [Value(f(0, v))];
    RunsStep(f, canceled, [Perform(0, 0)], delivered);
  }

  lemma LooksThenCanceled<T>(f: Functions<T>, v: T)
    ensures RunFrom(f, Start(), LookThenCancel(v)) ==
            Some(TwoStages(Stage(StateView([], false, true, true), [Value(v)], 0, 0, [Deliver(v)])).(canceled := true))
  {
    var events := LookThenCancel(v);
    var s1, s2 := Waiting([], 0), Waiting([Value(v)], 1);
    RunsStep(f, Start(), events, TwoStages(s1));
    RunsStep(f, TwoStages(s1), events[1..], TwoStages(s2));
    assert events[2..] == [RunContinuation(0)] + events[3..];
    JobHandedOver(f, v, events[3..]);
    JobLooks(f, v);
  }

  lemma {:induction false} JobHandedOver<T>(f: Functions<T>, v: T, rest: seq<Event<T>>)
    ensures RunFrom(f, TwoStages(Waiting([Value(v)], 1)), [RunContinuation(0)] + rest) ==
            RunFrom(f, TwoStages(Stage(StateView([], false, true, true), [Value(v)], 0, 0, [Job(v)])), rest)
  {
    var s := Stage(StateView([], false, true, true), [Value(v)], 0, 0, [Job(v)]);
    RunsStep(f, TwoStages(Waiting([Value(v)], 1)), [RunContinuation(0)] + rest, TwoStages(s));
    assert ([RunContinuation(0)] + rest)[1..] == rest;
  }

  lemma JobLooks<T>(f: Functions<T>, v: T)
    ensures var s := Stage(StateView([], false, true, true), [Value(v)], 0, 0, [Job(v)]);
            RunFrom(f, TwoStages(s), LookThenCancel(v)[3..])
            == Some(TwoStages(s.(work := [Deliver(v)])).(canceled := true))
  {
    var events := LookThenCancel(v);
    var s3 := Stage(StateView([], false, true, true), [Value(v)], 0, 0, [Job(v)]);
    var s4 := s3.(work := [Deliver(v)]);
    assert s3.work[..0] + s3.work[1..] == [];
    RunsStep(f, TwoStages(s3), events[3..], TwoStages(s4));
    RunsStep(f, TwoStages(s4), events[4..], TwoStages(s4).(canceled := true));
  }

  /** A stage that is to be continued. */
  function Waiting<T>(queue: seq<Item<T>>, runs: nat): Stage<T> {
    Stage(StateView(queue, false, false, true), [], 0, runs, [])
  }

  function TwoStages<T>(s: Stage<T>): Pipeline<T> {
    Pipeline([s, Stage(StateView([], false, false, false), [], 0, 0, [])], true, false, false)
  }

  lemma {:induction false} RunsStep<T>(f: Functions<T>, p: Pipeline<T>, events: seq<Event<T>>, next: Pipeline<T>)
    requires |events| > 0 && Enabled(p, events[0])
    requires Step(f, p, events[0]).(stages := next.stages) == next
    requires |Step(f, p, events[0]).stages| == |next.stages|
    requires forall i :: 0 <= i < |next.stages| ==> Step(f, p, events[0]).stages[i] == next.stages[i]
    ensures RunFrom(f, p, events) == RunFrom(f, next, events[1..])
  {
    assert Step(f, p, events[0]).stages == next.stages;
  }

  lemma {:induction false} RunFromConcat<T>(f: Functions<T>, p: Pipeline<T>, a: seq<Event<T>>, b: seq<Event<T>>)
    requires RunFrom(f, p, a).Some?
    ensures RunFrom(f, p, a + b) == RunFrom(f, RunFrom(f, p, a).value, b)
    decreases |a|
  {
    if |a| == 0 {
      assert a + b == b;
    } else {
      assert (a + b)[0] == a[0] && (a + b)[1..] == a[1..] + b;
      RunFromConcat(f, Step(f, p, a[0]), a[1..], b);
    }
  }
}
