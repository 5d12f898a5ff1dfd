/** Futures with continuations and cancellation.

    FutureState models the class, one method per locked region. A Chain is a promise with the futures
    made from it by then, and with the obligations that are outstanding; as for streams, a trace of
    events is any interleaving of producer, consumer and executor threads. */
module Futures {
  import opened Common

  datatype Content<T> = Empty | Canceled | Value(value: T)

  /** hasCont: a continuation is stored and has not been moved out. */
  datatype StateView<T> = StateView(content: Content<T>, hasCont: bool) {
    predicate Ready() { !content.Empty? }

    /** The boolean says that a continuation is handed to the caller for execution. */
    function Next(): (StateView<T>, bool) { (this.(hasCont := false), hasCont) }

    function Chain(): (StateView<T>, bool) {
      if Ready() then (this, true) else (this.(hasCont := true), false)
    }

    function Set(c: Content<T>): StateView<T> { this.(content := c) }
  }

  class FutureState<T> {
    var content: Content<T>
    var hasContinuation: bool

    function View(): StateView<T>
      reads this
    {
      StateView(content, hasContinuation)
    }

    constructor ()
      ensures View() == StateView(Empty, false)
    {
      content, hasContinuation := Empty, false;
    }

    method Next() returns (handed: bool)
      requires View().Ready()
      modifies this
      ensures (View(), handed) == old(View()).Next()
    {
      handed := hasContinuation;
      hasContinuation := false;
    }

    method Chain() returns (handed: bool)
      requires !hasContinuation
      modifies this
      ensures (View(), handed) == old(View()).Chain()
    {
      if !content.Empty? {
        return true;
      }
      hasContinuation := true;
      return false;
    }

    method SetValue(value: T)
      requires !View().Ready()
      modifies this
      ensures View() == old(View()).Set(Value(value))
    {
      content := Value(value);
    }

    method SetCanceled()
      requires !View().Ready()
      modifies this
      ensures View() == old(View()).Set(Canceled)
    {
      content := Canceled;
    }

    method ExtractValue() returns (value: T)
      requires content.Value?
      ensures View().content == Value(value)
    {
      value := content.value;
    }
  }

  /** Where the continuation of a completed stage has got to: handed to a thread; a job of the executor;
      past the job's look at the cancellation token, which found it clear; with its function started; on
      the way to cancel the next stage; finished. */
  datatype Progress<T> = NotHanded | Handed | Job(value: T) | Checked(value: T) | Started(value: T) | Skipping | Done

  /** setting: how often the state was set; taking: threads that have set it and not called next yet;
      starts: how often the function of the continuation was started. */
  datatype Stage<T> = Stage(state: StateView<T>, progress: Progress<T>, taking: nat, setting: nat, starts: nat) {
    function Filled(c: Content<T>): Stage<T> {
      this.(state := state.Set(c), taking := taking + 1, setting := setting + 1)
    }

    function GiveTo(result: (StateView<T>, bool)): Stage<T> {
      this.(state := result.0, progress := if result.1 then Handed else progress)
    }
  }

  datatype Chain<T> = Chain(stages: seq<Stage<T>>, resolved: bool, canceled: bool) {
    function Last(): int { |stages| - 1 }
  }

  function NewStage<T>(): Stage<T> { Stage(StateView(Empty, false), NotHanded, 0, 0, 0) }

  function Start<T>(): Chain<T> { Chain([NewStage()], false, false) }

  /** Resolve is the first half of the promise's resolve; Then and Cancel (reset) are the consumer's;
      TakeNext is the second half of every setter; Advance moves the continuation of a stage on. */
  datatype Event<T> = Resolve(value: T) | Then | Cancel | TakeNext(stage: nat) | Advance(stage: nat) {
    predicate Internal() { TakeNext? || Advance? }
  }

  predicate Busy<T>(progress: Progress<T>) { !progress.NotHanded? && !progress.Done? }

  predicate Enabled<T>(c: Chain<T>, e: Event<T>) {
    |c.stages| > 0 &&
    match e
    case Resolve(_) => !c.resolved
    case Then => !c.canceled
    case Cancel => !c.canceled
    case TakeNext(i) => i < |c.stages| && c.stages[i].taking > 0
    case Advance(i) => i + 1 < |c.stages| && Busy(c.stages[i].progress)
  }

  type Functions<!T> = (nat, T) -> T

  function Step<T>(f: Functions<T>, c: Chain<T>, e: Event<T>): Chain<T>
    requires Enabled(c, e)
  {
    match e
    case Resolve(v) => c.(stages := c.stages[0 := c.stages[0].Filled(Value(v))], resolved := true)
    case Then =>
      var s := c.stages[c.Last()];
      c.(stages := c.stages[c.Last() := s.GiveTo(s.state.Chain())] + [NewStage()])
    case Cancel => c.(canceled := true)
    case TakeNext(i) =>
      var s := c.stages[i];
      c.(stages := c.stages[i := s.(taking := s.taking - 1).GiveTo(s.state.Next())])
    case Advance(i) =>
      var (s, next) := Advanced(f, i, c.stages[i], c.stages[i + 1], c.canceled);
      c.(stages := c.stages[i := s][i + 1 := next])
  }

  /** The next step of continueWith or of the job it spawns; the job's look at the token and the call of
      the function are two. The value is extracted from the state of
      the completed stage; a state without one is a failed std::get and leaves the continuation where it is. */
  function Advanced<T>(f: Functions<T>, i: nat, s: Stage<T>, next: Stage<T>, canceled: bool): (Stage<T>, Stage<T>) {
    match s.progress
    case Handed =>
      (if canceled then s.(progress := Skipping)
       else if s.state.content.Value? then s.(progress := Job(s.state.content.value)) else s, next)
    case Job(v) => (s.(progress := if canceled then Skipping else Checked(v)), next)
    case Checked(v) => (s.(progress := Started(v), starts := s.starts + 1), next)
    case Started(v) => (s.(progress := Done), next.Filled(Value(f(i, v))))
    case Skipping => (s.(progress := Done), next.Filled(Canceled))
    case _ => (s, next)
  }

  /** The assertions of the source, and what extractValue relies on. */
  predicate AssertionsHold<T>(c: Chain<T>, e: Event<T>)
    requires Enabled(c, e)
  {
    match e
    case Resolve(_) => !c.stages[0].state.Ready()
    case Then => !c.stages[c.Last()].state.hasCont
    case Cancel => true
    case TakeNext(i) => c.stages[i].state.Ready()
    case Advance(i) =>
      var s := c.stages[i];
      && (s.progress.Started? || s.progress.Skipping? ==> !c.stages[i + 1].state.Ready())
      && (s.progress.Handed? && !c.canceled ==> s.state.content.Value?)
  }

  function Run<T>(f: Functions<T>, c: Chain<T>, events: seq<Event<T>>): Option<Chain<T>>
    decreases |events|
  {
    if |events| == 0 then Some(c)
    else if Enabled(c, events[0]) then Run(f, Step(f, c, events[0]), events[1..])
    else None
  }

  // ---------------------------------------------------------------- the invariant

  /** A stage on its own: it is set at most once, and only a cancelled token cancels it. */
  ghost predicate StageOk<T>(s: Stage<T>, canceled: bool) {
    && s.setting == (if s.state.Ready() then 1 else 0)
    && s.taking <= s.setting
    && (s.state.content.Canceled? ==> canceled)
    && s.starts <= 1
    && (s.starts == 1 ==> s.progress.Started? || s.progress.Done?)
    && (s.progress.Checked? ==> s.starts == 0)
  }

  /** A stage with a continuation. The continuation is in exactly one place: stored until the stage is
      set and the setter takes it, then with a thread or executor; afterwards the next stage is set. */
  ghost predicate LinkOk<T>(f: Functions<T>, i: nat, s: Stage<T>, next: Stage<T>, canceled: bool) {
    && (s.state.hasCont <==> s.progress.NotHanded?)
    && (s.state.Ready() && s.state.hasCont ==> s.taking == 1)
    && (!s.state.Ready() ==> s.progress.NotHanded?)
    && (next.state.Ready() <==> s.progress.Done?)
    && (s.progress.Job? || s.progress.Checked? ==> s.state.content == Value(s.progress.value))
    && (s.progress.Started? ==> s.state.content == Value(s.progress.value) && s.starts == 1)
    && (s.progress.Skipping? ==> canceled)
    && (next.state.content.Value? ==>
          s.starts == 1 && s.state.content.Value? && next.state.content.value == f(i, s.state.content.value))
  }

  ghost predicate AllLinked<T>(f: Functions<T>, stages: seq<Stage<T>>, canceled: bool) {
    forall i :: 0 <= i < |stages| - 1 ==> LinkOk(f, i, stages[i], stages[i + 1], canceled)
  }

  ghost predicate Inv<T>(f: Functions<T>, c: Chain<T>) {
    && |c.stages| > 0
    && (forall i :: 0 <= i < |c.stages| ==> StageOk(c.stages[i], c.canceled))
    && AllLinked(f, c.stages, c.canceled)
    && !c.stages[c.Last()].state.hasCont && c.stages[c.Last()].progress.NotHanded?
    && (c.resolved <==> c.stages[0].state.Ready()) && !c.stages[0].state.content.Canceled?
  }

  /** No state is set twice, no value is taken from a cancelled state, no continuation is attached twice. */
  lemma AssertionsNeverFail<T>(f: Functions<T>, c: Chain<T>, e: Event<T>)
    requires Inv(f, c) && Enabled(c, e)
    ensures AssertionsHold(c, e)
  {
    match e
    case TakeNext(i) => assert StageOk(c.stages[i], c.canceled);
    case Advance(i) =>
      assert StageOk(c.stages[i], c.canceled) && LinkOk(f, i, c.stages[i], c.stages[i + 1], c.canceled);
    case _ =>
  }

  lemma AdvancedPair<T>(f: Functions<T>, i: nat, s: Stage<T>, next: Stage<T>, canceled: bool)
    requires StageOk(s, canceled) && StageOk(next, canceled) && LinkOk(f, i, s, next, canceled) && Busy(s.progress)
    ensures var (s', next') := Advanced(f, i, s, next, canceled);
            StageOk(s', canceled) && StageOk(next', canceled) && LinkOk(f, i, s', next', canceled)
            && s'.state == s.state && s'.taking == s.taking && next'.state.hasCont == next.state.hasCont
            && next'.progress == next.progress && next'.starts == next.starts
            && (next' == next || (!next.state.Ready() && next'.taking == 1))
  {
  }

  lemma AdvanceKeepsInv<T>(f: Functions<T>, c: Chain<T>, i: nat)
    requires Inv(f, c) && Enabled(c, Advance(i))
    ensures Inv(f, Step(f, c, Advance(i)))
  {
    var (s', next') := Advanced(f, i, c.stages[i], c.stages[i + 1], c.canceled);
    var after := c.stages[i := s'][i + 1 := next'];
    AdvancedPair(f, i, c.stages[i], c.stages[i + 1], c.canceled);
    forall j | 0 <= j < |after| - 1 ensures LinkOk(f, j, after[j], after[j + 1], c.canceled) {
      assert LinkOk(f, j, c.stages[j], c.stages[j + 1], c.canceled);
    }
  }

  lemma TakeKeepsInv<T>(f: Functions<T>, c: Chain<T>, i: nat)
    requires Inv(f, c) && Enabled(c, TakeNext(i))
    ensures Inv(f, Step(f, c, TakeNext(i)))
  {
    var after := Step(f, c, TakeNext(i)).stages;
    assert StageOk(c.stages[i], c.canceled);
    assert i < c.Last() ==> LinkOk(f, i, c.stages[i], c.stages[i + 1], c.canceled);
    assert StageOk(after[i], c.canceled);
    if i == c.Last() {
      assert after[i].progress == c.stages[i].progress;
    }
    forall j | 0 <= j < |after| - 1 ensures LinkOk(f, j, after[j], after[j + 1], c.canceled) {
      assert LinkOk(f, j, c.stages[j], c.stages[j + 1], c.canceled);
    }
  }

  lemma OuterKeepsInv<T>(f: Functions<T>, c: Chain<T>, e: Event<T>)
    requires Inv(f, c) && Enabled(c, e) && !e.Internal()
    ensures Inv(f, Step(f, c, e))
  {
    var c', n := Step(f, c, e), c.Last();
    assert StageOk(c.stages[0], c.canceled) && StageOk(c.stages[n], c.canceled);
    forall j | 0 <= j < |c'.stages| - 1 ensures LinkOk(f, j, c'.stages[j], c'.stages[j + 1], c'.canceled) {
      assert j < n ==> LinkOk(f, j, c.stages[j], c.stages[j + 1], c.canceled);
    }
  }

  lemma StepKeepsInv<T>(f: Functions<T>, c: Chain<T>, e: Event<T>)
    requires Inv(f, c) && Enabled(c, e)
    ensures Inv(f, Step(f, c, e))
  {
    match e
    case TakeNext(i) => TakeKeepsInv(f, c, i);
    case Advance(i) => AdvanceKeepsInv(f, c, i);
    case _ => OuterKeepsInv(f, c, e);
  }

  lemma {:induction false} RunKeepsInv<T>(f: Functions<T>, c: Chain<T>, events: seq<Event<T>>)
    requires Inv(f, c) && Run(f, c, events).Some?
    ensures Inv(f, Run(f, c, events).value)
    decreases |events|
  {
    if |events| > 0 {
      StepKeepsInv(f, c, events[0]);
      RunKeepsInv(f, Step(f, c, events[0]), events[1..]);
    }
  }

  // ---------------------------------------------------------------- consequences

  /** The first i functions, one after another. */
  function Composite<T>(f: Functions<T>, i: nat, v: T): T {
    if i == 0 then v else f(i - 1, Composite(f, i - 1, v))
  }

  /** A stage that holds a value holds the composition of the functions before it, applied to the value
      the promise was resolved with, and each of those functions was started once. */
  lemma {:induction false} ValuesAreComposed<T>(f: Functions<T>, c: Chain<T>, i: nat)
    requires Inv(f, c) && i < |c.stages| && c.stages[i].state.content.Value?
    ensures c.stages[0].state.content.Value?
    ensures c.stages[i].state.content.value == Composite(f, i, c.stages[0].state.content.value)
    ensures forall j :: 0 <= j < i ==> c.stages[j].starts == 1
  {
    if i > 0 {
      assert LinkOk(f, i - 1, c.stages[i - 1], c.stages[i], c.canceled);
      ValuesAreComposed(f, c, i - 1);
    }
  }

  /** Completed stages come first, and among them the cancelled ones last. */
  lemma {:induction false} CanceledStagesAreASuffix<T>(f: Functions<T>, c: Chain<T>, i: nat, j: nat)
    requires Inv(f, c) && i <= j < |c.stages| && c.stages[j].state.Ready()
    ensures c.stages[i].state.Ready()
    ensures c.stages[i].state.content.Canceled? ==> c.stages[j].state.content.Canceled?
    decreases j
  {
    if i < j {
      assert LinkOk(f, j - 1, c.stages[j - 1], c.stages[j], c.canceled);
      CanceledStagesAreASuffix(f, c, i, j - 1);
    }
  }

  /** Nothing is outstanding. */
  ghost predicate Quiescent<T>(c: Chain<T>) {
    forall i :: 0 <= i < |c.stages| ==> c.stages[i].taking == 0 && !Busy(c.stages[i].progress)
  }

  /** Nothing gets lost between then and resolve: once the promise is resolved and no work is left, every
      future of the chain is completed; and, unless it was cancelled, with the composed value. */
  lemma {:induction false} QuiescentIsComplete<T>(f: Functions<T>, c: Chain<T>, i: nat)
    requires Inv(f, c) && Quiescent(c) && c.resolved && i < |c.stages|
    ensures c.stages[i].state.Ready()
    ensures c.stages[0].state.content.Value?
    ensures !c.canceled ==> c.stages[i].state.content == Value(Composite(f, i, c.stages[0].state.content.value))
  {
    assert StageOk(c.stages[i], c.canceled);
    if i > 0 {
      QuiescentIsComplete(f, c, i - 1);
      assert LinkOk(f, i - 1, c.stages[i - 1], c.stages[i], c.canceled);
    }
    if c.stages[i].state.content.Value? {
      ValuesAreComposed(f, c, i);
    }
  }

  /** Work left in a stage: a bound on the steps its continuation and its setter can still make. */
  function StageCost<T>(s: Stage<T>): nat {
    s.taking + match s.progress
      case NotHanded => 6
      case Handed => 5
      case Job(_) => 4
      case Checked(_) => 3
      case Started(_) => 2
      case Skipping => 2
      case Done => 0
  }

  function Cost<T>(stages: seq<Stage<T>>): nat {
    if |stages| == 0 then 0 else StageCost(stages[0]) + Cost(stages[1..])
  }

  lemma {:induction false} CostOfPair<T>(before: seq<Stage<T>>, i: nat, s: Stage<T>, next: Stage<T>)
    requires i + 1 < |before|
    ensures Cost(before[i := s][i + 1 := next]) - Cost(before) ==
            StageCost(s) - StageCost(before[i]) + StageCost(next) - StageCost(before[i + 1])
  {
    var after := before[i := s][i + 1 := next];
    if i == 0 {
      assert after[1..][1..] == before[1..][1..];
    } else {
      CostOfPair(before[1..], i - 1, s, next);
      assert after[1..] == before[1..][i - 1 := s][i := next];
    }
  }

  lemma {:induction false} CostOfOne<T>(before: seq<Stage<T>>, i: nat, s: Stage<T>)
    requires i < |before|
    ensures Cost(before[i := s]) - Cost(before) == StageCost(s) - StageCost(before[i])
  {
    if i == 0 {
      assert before[0 := s][1..] == before[1..];
    } else {
      CostOfOne(before[1..], i - 1, s);
      assert before[i := s][1..] == before[1..][i - 1 := s];
    }
  }

  lemma StepCosts<T>(f: Functions<T>, c: Chain<T>, e: Event<T>)
    requires Inv(f, c) && Enabled(c, e) && e.Internal()
    ensures Cost(Step(f, c, e).stages) < Cost(c.stages)
  {
    AssertionsNeverFail(f, c, e);
    match e
    case TakeNext(i) =>
      var s := c.stages[i];
      assert i < c.Last() ==> LinkOk(f, i, s, c.stages[i + 1], c.canceled);
      CostOfOne(c.stages, i, s.(taking := s.taking - 1).GiveTo(s.state.Next()));
    case Advance(i) =>
      var (s', next') := Advanced(f, i, c.stages[i], c.stages[i + 1], c.canceled);
      AdvancedCost(f, i, c.stages[i], c.stages[i + 1], c.canceled);
      CostOfPair(c.stages, i, s', next');
  }

  lemma AdvancedCost<T>(f: Functions<T>, i: nat, s: Stage<T>, next: Stage<T>, canceled: bool)
    requires Busy(s.progress) && (s.progress.Handed? && !canceled ==> s.state.content.Value?)
    ensures var (s', next') := Advanced(f, i, s, next, canceled);
            StageCost(s') + StageCost(next') < StageCost(s) + StageCost(next)
  {
  }

  /** Left alone, a chain makes at most Cost steps, under any executor. */
  lemma {:induction false} WorkIsBounded<T>(f: Functions<T>, c: Chain<T>, events: seq<Event<T>>)
    requires Inv(f, c) && Run(f, c, events).Some?
    requires forall k :: 0 <= k < |events| ==> events[k].Internal()
    ensures |events| <= Cost(c.stages)
    decreases |events|
  {
    if |events| > 0 {
      StepKeepsInv(f, c, events[0]);
      StepCosts(f, c, events[0]);
      WorkIsBounded(f, Step(f, c, events[0]), events[1..]);
    }
  }

  /** After cancellation, on whatever way the chain goes on, the function of a stage is started only if its
      job had already looked at the token, and then at most once. */
  lemma {:induction false} NoStartAfterCancel<T>(f: Functions<T>, c: Chain<T>, events: seq<Event<T>>, i: nat)
    requires c.canceled && Run(f, c, events).Some? && i < |c.stages|
    ensures var c' := Run(f, c, events).value;
            && c'.canceled && i < |c'.stages|
            && c.stages[i].starts <= c'.stages[i].starts
            && c'.stages[i].starts <= c.stages[i].starts + if c.stages[i].progress.Checked? then 1 else 0
    decreases |events|
  {
    if |events| > 0 {
      var next := Step(f, c, events[0]);
      CanceledStep(f, c, events[0], i);
      NoStartAfterCancel(f, next, events[1..], i);
    }
  }

  /** No job comes to a clear token any more, and a function that starts leaves the point before its start. */
  lemma CanceledStep<T>(f: Functions<T>, c: Chain<T>, e: Event<T>, i: nat)
    requires c.canceled && Enabled(c, e) && i < |c.stages|
    ensures var s, s' := c.stages[i], Step(f, c, e).stages[i];
            if s.progress.Checked? && e == Advance(i) then s'.starts == s.starts + 1 && s'.progress.Started?
            else s'.starts == s.starts && (s'.progress.Checked? ==> s.progress.Checked?)
  {
  }

  ghost predicate StartsWithin<T>(f: Functions<T>, c: Chain<T>, events: seq<Event<T>>, i: nat) {
    && Run(f, c, events).Some? && i < |c.stages| && i < |Run(f, c, events).value.stages|
    && Run(f, c, events).value.stages[i].starts > c.stages[i].starts
  }

  /** That is the exact condition: in a cancelled chain a function can still be started if and only if its
      job is between its look at the token and the call. */
  lemma StartAfterCancelIff<T>(f: Functions<T>, c: Chain<T>, i: nat)
    requires Inv(f, c) && c.canceled && i < |c.stages|
    ensures (exists events: seq<Event<T>> :: StartsWithin(f, c, events, i)) <==> c.stages[i].progress.Checked?
  {
    if events: seq<Event<T>> :| StartsWithin(f, c, events, i) {
      NoStartAfterCancel(f, c, events, i);
    }
    if c.stages[i].progress.Checked? {
      var e: Event<T> := Advance(i);
      CanceledStep(f, c, e, i);
      RunOne(f, c, e);
      assert StartsWithin(f, c, [e], i);
    }
  }

  lemma {:induction false} RunOne<T>(f: Functions<T>, c: Chain<T>, e: Event<T>)
    requires Enabled(c, e)
    ensures Run(f, c, [e]) == Some(Step(f, c, e))
  {
    assert [e][0] == e && [e][1..] == [];
    assert Run(f, Step(f, c, e), []) == Some(Step(f, c, e));
  }

  lemma {:induction false} RunConcat<T>(f: Functions<T>, c: Chain<T>, a: seq<Event<T>>, b: seq<Event<T>>)
    requires Run(f, c, a).Some?
    ensures Run(f, c, a + b) == Run(f, Run(f, c, a).value, b)
    decreases |a|
  {
    if |a| == 0 {
      assert a + b == b;
    } else {
      assert (a + b)[0] == a[0] && (a + b)[1..] == a[1..] + b;
      RunConcat(f, Step(f, c, a[0]), a[1..], b);
    }
  }

  /** A run in which it happens: the job looks, the consumer cancels, the function starts. */
  function LookThenCancel<T>(v: T): seq<Event<T>> {
    [Then, Resolve(v), TakeNext(0), Advance(0), Advance(0), Cancel]
  }

  lemma StartsAfterCancel<T>(f: Functions<T>, v: T)
    ensures var c := Run(f, Start(), LookThenCancel(v));
            c.Some? && c.value.canceled && |c.value.stages| == 2 && c.value.stages[0].starts == 0
    ensures var c := Run(f, Start(), LookThenCancel(v) + [Advance(0)]);
            c.Some? && |c.value.stages| == 2 && c.value.stages[0].starts == 1
  {
    LooksThenCanceled(f, v);
    RunConcat(f, Start(), LookThenCancel(v), [Advance(0)]);
    RunOne(f, Chain([CheckedStage(v), NewStage()], true, true), Advance(0));
  }

  function CheckedStage<T>(v: T): Stage<T> { Stage(StateView(Value(v), false), Checked(v), 0, 1, 0) }

  lemma LooksThenCanceled<T>(f: Functions<T>, v: T)
    ensures Run(f, Start(), LookThenCancel(v)) == Some(Chain([CheckedStage(v), NewStage()], true, true))
  {
    var full := CheckedStage(v);
    var waiting := Stage(StateView(Empty, true), NotHanded, 0, 0, 0);
    var c1 := Chain([waiting, NewStage()], false, false);
    var c2 := Chain([waiting.Filled(Value(v)), NewStage()], true, false);
    var c3 := Chain([full.(progress := Handed), NewStage()], true, false);
    var c4 := Chain([full.(progress := Job(v)), NewStage()], true, false);
    var c5 := Chain([full, NewStage()], true, false);
    var events := LookThenCancel(v);
    RunStep(f, Start(), events, c1);
    RunStep(f, c1, events[1..], c2);
    RunStep(f, c2, events[1..][1..], c3);
    RunStep(f, c3, events[1..][1..][1..], c4);
    RunStep(f, c4, events[1..][1..][1..][1..], c5);
    assert events[1..][1..][1..][1..][1..] == [Cancel];
    RunOne(f, c5, Cancel);
  }

  lemma {:induction false} RunStep<T>(f: Functions<T>, c: Chain<T>, events: seq<Event<T>>, next: Chain<T>)
    requires |events| > 0 && Enabled(c, events[0]) && Step(f, c, events[0]) == next
    ensures Run(f, c, events) == Run(f, next, events[1..])
  {
  }

  /** The value the promise is resolved with, read off the events alone. */
  function ResolvedWith<T>(events: seq<Event<T>>): Content<T> {
    if |events| == 0 then Empty
    else if events[0].Resolve? then Value(events[0].value)
    else ResolvedWith(events[1..])
  }

  lemma {:induction false} FirstStageHoldsResolved<T>(f: Functions<T>, c: Chain<T>, events: seq<Event<T>>)
    requires Inv(f, c) && Run(f, c, events).Some?
    ensures |Run(f, c, events).value.stages| > 0
    ensures Run(f, c, events).value.stages[0].state.content ==
            if c.resolved then c.stages[0].state.content else ResolvedWith(events)
    decreases |events|
  {
    if |events| > 0 {
      StepKeepsInv(f, c, events[0]);
      AssertionsNeverFail(f, c, events[0]);
      FirstStageHoldsResolved(f, Step(f, c, events[0]), events[1..]);
    }
  }

  /** From the beginning, for every run: every state is set at most once and every function started at
      most once; a cancelled stage means a cancelled token; and a value is the composition of the
      functions before it, applied to what the promise was resolved with. */
  lemma {:induction false} ChainIsSafe<T>(f: Functions<T>, events: seq<Event<T>>, i: nat)
    requires Run(f, Start(), events).Some? && i < |Run(f, Start(), events).value.stages|
    ensures var c := Run(f, Start(), events).value; var s := c.stages[i];
            && Inv(f, c) && s.setting <= 1 && s.starts <= 1
            && (s.state.content.Canceled? ==> c.canceled)
            && (s.state.content.Value? ==> ResolvedWith(events).Value?)
            && (s.state.content.Value? ==> s.state.content.value == Composite(f, i, ResolvedWith(events).value))
  {
    RunKeepsInv(f, Start(), events);
    FirstStageHoldsResolved(f, Start(), events);
    var c := Run(f, Start(), events).value;
    assert StageOk(c.stages[i], c.canceled);
    if c.stages[i].state.content.Value? {
      ValuesAreComposed(f, c, i);
    }
  }
}
