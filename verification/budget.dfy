/** The order of the letter buffer, the retry budget and the publish semaphore. */
module RetryBudget {
  import opened Machine
  import opened Common
  import opened PoolCustody
  import opened LetterConservation

  /** Most steps touch neither the letter buffer nor the retry handler. */
  predicate MovesLetters(step: Step) {
    step.QueueLetter? || step.Dequeue? || step.Dispatch? || step.SeeEmpty? || step.Handle? || step.Report? ||
        step.Requeue?
  }

  lemma Frame(cfg: Config, s: State, step: Step)
    requires Enabled(cfg, s, step) && !MovesLetters(step)
    ensures var t := Apply(cfg, s, step);
      && t.letters == s.letters && t.retry == s.retry && t.handler == s.handler
      && (t.dispatcher.Holding? <==> s.dispatcher.Holding?) && (s.dispatcher.Holding? ==> t.dispatcher == s.dispatcher)
      && t.log == s.log.(keeper := t.log.keeper, started := t.log.started, unreported := t.log.unreported)
  {
  }

  // ---------------------------------------------------------------- the letter buffer

  /** The buffer is first in, first out; once it is closed it holds exactly what was accepted
      after the dispatcher last saw it empty. */
  ghost predicate Fifo(s: State) {
    && s.log.emptyMark <= s.log.dequeued <= |s.log.accepted|
    && s.letters == s.log.accepted[s.log.dequeued..]
    && (s.dispatcher.CheckingStop? || s.closed ==> s.log.emptyMark == s.log.dequeued)
    && (s.closed ==> s.dispatcher.Stopped?)
  }

  lemma DispatcherFifo(cfg: Config, s: State, step: Step)
    requires Fifo(s) && Enabled(cfg, s, step) && (step.Dequeue? || step.Dispatch? || step.SeeEmpty?)
    ensures Fifo(Apply(cfg, s, step))
  {
  }

  lemma SendFifo(cfg: Config, s: State, step: Step)
    requires Fifo(s) && Enabled(cfg, s, step) && (step.QueueLetter? || step.Requeue?)
    ensures Fifo(Apply(cfg, s, step))
  {
  }

  lemma StepFifo(cfg: Config, s: State, step: Step)
    requires Fifo(s) && Enabled(cfg, s, step)
    ensures Fifo(Apply(cfg, s, step))
  {
    if step.Dequeue? || step.Dispatch? || step.SeeEmpty? {
      DispatcherFifo(cfg, s, step);
    } else if step.QueueLetter? || step.Requeue? {
      SendFifo(cfg, s, step);
    } else if !MovesLetters(step) {
      Frame(cfg, s, step);
    }
  }

  // ---------------------------------------------------------------- who owes what to whom

  function Monus(a: nat, b: nat): nat {
    if a <= b then 0 else a - b
  }

  /** RetryCount is its initial value plus the requeue attempts, whoever aliases the letter. */
  ghost predicate BudgetAt(cfg: Config, s: State, l: Letter) {
    && |s.retry| == |s.log.initial| == |s.log.attempts|
    && (l < |s.retry| ==>
      && s.retry[l] == s.log.initial[l] + s.log.attempts[l]
      && s.log.attempts[l] <= Monus(cfg.maxRetry, s.log.initial[l])
      && s.log.attempts[l] == s.log.requeued[l] + s.log.refused[l] + InHandler(s.handler, l)
      && (s.log.exhausted[l] > 0 ==> s.retry[l] >= cfg.maxRetry))
  }

  lemma HandleBudget(cfg: Config, s: State, l: Letter)
    requires BudgetAt(cfg, s, l) && CanHandle(s)
    ensures BudgetAt(cfg, HandleReceipt(cfg, s), l)
  {
  }

  lemma FrameBudget(cfg: Config, s: State, step: Step, l: Letter)
    requires BudgetAt(cfg, s, l) && Enabled(cfg, s, step) && !MovesLetters(step)
    ensures BudgetAt(cfg, Apply(cfg, s, step), l)
  {
    Frame(cfg, s, step);
  }

  lemma HandlerBudget(cfg: Config, s: State, step: Step, l: Letter)
    requires BudgetAt(cfg, s, l) && Enabled(cfg, s, step) && (step.Report? || step.Requeue?)
    ensures BudgetAt(cfg, Apply(cfg, s, step), l)
  {
  }

  lemma StepBudget(cfg: Config, s: State, step: Step, l: Letter)
    requires BudgetAt(cfg, s, l) && Enabled(cfg, s, step)
    ensures BudgetAt(cfg, Apply(cfg, s, step), l)
  {
    if step.Handle? {
      HandleBudget(cfg, s, l);
    } else if step.Report? || step.Requeue? {
      HandlerBudget(cfg, s, step, l);
    } else if !MovesLetters(step) {
      FrameBudget(cfg, s, step, l);
    }
  }

  /** Totals: every call of the dispatcher publishes one accepted letter, and every accepted
      letter came from the application or from one requeue attempt. */
  ghost predicate Totals(s: State) {
    && s.log.dispatched + One(s.dispatcher.Holding?) == s.log.dequeued
    && |s.log.accepted| == |s.log.external| + |s.log.requeued|
    && |s.log.requeued| <= Sum(s.log.attempts)
    && |s.log.requeued| + |s.log.refused| + One(s.handler.ReportingRetry? || s.handler.Requeueing?)
       == Sum(s.log.attempts)
  }

  lemma HandleTotals(cfg: Config, s: State)
    requires Totals(s) && CanHandle(s)
    ensures Totals(HandleReceipt(cfg, s))
  {
    if s.receipts[0].failedLetter.Some? {
      var l := s.receipts[0].failedLetter.value;
      SumUpdate(s.log.attempts, l, s.log.attempts[l] + 1);
    }
  }

  lemma DispatcherTotals(cfg: Config, s: State, step: Step)
    requires Totals(s) && Enabled(cfg, s, step) && (step.Dequeue? || step.Dispatch? || step.SeeEmpty?)
    ensures Totals(Apply(cfg, s, step))
  {
  }

  lemma SendTotals(cfg: Config, s: State, step: Step)
    requires Totals(s) && Enabled(cfg, s, step) && (step.QueueLetter? || step.Requeue?)
    ensures Totals(Apply(cfg, s, step))
  {
  }

  lemma ReportTotals(cfg: Config, s: State)
    requires Totals(s) && Enabled(cfg, s, Report)
    ensures Totals(Apply(cfg, s, Report))
  {
  }

  lemma FrameTotals(cfg: Config, s: State, step: Step)
    requires Totals(s) && Enabled(cfg, s, step) && !MovesLetters(step)
    ensures Totals(Apply(cfg, s, step))
  {
    Frame(cfg, s, step);
  }

  lemma StepTotals(cfg: Config, s: State, step: Step)
    requires Totals(s) && Enabled(cfg, s, step)
    ensures Totals(Apply(cfg, s, step))
  {
    match step
    case Handle => HandleTotals(cfg, s);
    case Report => ReportTotals(cfg, s);
    case QueueLetter(_) => SendTotals(cfg, s, step);
    case Requeue => SendTotals(cfg, s, step);
    case Dequeue => DispatcherTotals(cfg, s, step);
    case Dispatch => DispatcherTotals(cfg, s, step);
    case SeeEmpty => DispatcherTotals(cfg, s, step);
    case _ => FrameTotals(cfg, s, step);
  }

  // ---------------------------------------------------------------- the semaphore

  function Running(call: Call): nat {
    One(call.job.Confirm? && call.job.auto && !call.phase.Finished?)
  }

  function AutoRunning(calls: seq<Call>): nat {
    if calls == [] then 0 else AutoRunning(calls[..|calls| - 1]) + Running(calls[|calls| - 1])
  }

  lemma {:induction false} RunningUpdate(calls: seq<Call>, c: nat, call: Call)
    requires c < |calls|
    ensures AutoRunning(calls[c := call]) + Running(calls[c]) == AutoRunning(calls) + Running(call)
  {
    var last := |calls| - 1;
    if c == last {
      assert calls[c := call][..last] == calls[..last];
    } else {
      RunningUpdate(calls[..last], c, call);
      assert calls[c := call][..last] == calls[..last][c := call];
    }
  }

  lemma RunningAppend(calls: seq<Call>, call: Call)
    ensures AutoRunning(calls + [call]) == AutoRunning(calls) + Running(call)
  {
    assert (calls + [call])[..|calls|] == calls;
  }

  /** Calls of the dispatcher that have not released the semaphore. */
  ghost function RunningSet(calls: seq<Call>): set<nat> {
    set c: nat | c < |calls| && Running(calls[c]) == 1
  }

  lemma {:induction false} RunningSize(calls: seq<Call>)
    ensures |RunningSet(calls)| == AutoRunning(calls)
  {
    if calls != [] {
      var last := |calls| - 1;
      RunningSize(calls[..last]);
      assert RunningSet(calls) == RunningSet(calls[..last]) + if Running(calls[last]) == 1 then {last} else {};
    }
  }

  /** The semaphore counts the running publish calls of the dispatcher and bounds them. Each
      dispatch loop makes a semaphore of its own, and starts when none of them is running. */
  ghost predicate Bounded(cfg: Config, s: State) {
    && s.running == AutoRunning(s.calls) <= Parallel(cfg)
    && (s.dispatcher.Starting? || (s.dispatcher.Stopped? && !s.closed) ==> s.running == 0)
  }

  lemma NextRunning(call: Call, v: View, a: Act)
    requires Fits(call) && CanDo(call, v, a)
    ensures Running(NextCall(call, v, a)) + One(a.Release?) == Running(call)
  {
  }

  lemma DoBounded(cfg: Config, s: State, c: nat, a: Act)
    requires Shaped(s) && Bounded(cfg, s) && ActEnabled(cfg, s, c, a)
    ensures Bounded(cfg, Perform(cfg, s, c, a))
  {
    var next := NextCall(s.calls[c], ViewOf(s, s.calls[c].phase), a);
    NextRunning(s.calls[c], ViewOf(s, s.calls[c].phase), a);
    RunningUpdate(s.calls, c, next);
  }

  lemma CallBounded(cfg: Config, s: State, step: Step)
    requires Bounded(cfg, s) && Enabled(cfg, s, step) && (step.Start? || step.Dispatch?)
    ensures Bounded(cfg, Apply(cfg, s, step))
  {
    if step.Start? {
      RunningAppend(s.calls, Call(step.job, Seeking, Undecided));
    } else {
      RunningAppend(s.calls, Call(Confirm(s.dispatcher.letter, true), Seeking, Undecided));
    }
  }

  /** The other steps neither start nor end a call. */
  lemma OtherBounded(cfg: Config, s: State, step: Step)
    requires Bounded(cfg, s) && Enabled(cfg, s, step) && !step.Do? && !step.Start? && !step.Dispatch?
    ensures Bounded(cfg, Apply(cfg, s, step))
  {
  }

  lemma StepBounded(cfg: Config, s: State, step: Step)
    requires Shaped(s) && Bounded(cfg, s) && Enabled(cfg, s, step)
    ensures Bounded(cfg, Apply(cfg, s, step))
  {
    match step
    case Do(c, a) => DoBounded(cfg, s, c, a);
    case Start(_) => CallBounded(cfg, s, step);
    case Dispatch => CallBounded(cfg, s, step);
    case _ => OtherBounded(cfg, s, step);
  }

  // ---------------------------------------------------------------- every letter is a known object

  ghost predicate KnownQueue(s: State) {
    && (forall i :: 0 <= i < |s.letters| ==> s.letters[i] < |s.retry|)
    && (s.dispatcher.Holding? ==> s.dispatcher.letter < |s.retry|)
    && (s.handler.ReportingRetry? || s.handler.Requeueing? ==> s.handler.letter < |s.retry|)
  }

  ghost predicate KnownCalls(s: State) {
    forall c :: 0 <= c < |s.calls| ==> s.calls[c].job.Consume? || s.calls[c].job.letter < |s.retry|
  }

  ghost predicate KnownReceipts(s: State) {
    && (forall r :: r in s.spawned ==> r.letter < |s.retry|)
    && (forall r :: r in s.receipts ==> r.letter < |s.retry|)
  }

  lemma SameLetters(cfg: Config, s: State, step: Step)
    requires Enabled(cfg, s, step)
    ensures |Apply(cfg, s, step).retry| == |s.retry|
  {
  }

  lemma FrameKnownQueue(cfg: Config, s: State, step: Step)
    requires KnownQueue(s) && Enabled(cfg, s, step) && !MovesLetters(step)
    ensures KnownQueue(Apply(cfg, s, step))
  {
    Frame(cfg, s, step);
  }

  lemma HandlerKnownQueue(cfg: Config, s: State, step: Step)
    requires KnownQueue(s) && Enabled(cfg, s, step) && (step.Handle? || step.Report? || step.Requeue?)
    ensures KnownQueue(Apply(cfg, s, step))
  {
  }

  lemma StepKnownQueue(cfg: Config, s: State, step: Step)
    requires KnownQueue(s) && Enabled(cfg, s, step)
    ensures KnownQueue(Apply(cfg, s, step))
  {
    if !MovesLetters(step) {
      FrameKnownQueue(cfg, s, step);
    } else if step.Handle? || step.Report? || step.Requeue? {
      HandlerKnownQueue(cfg, s, step);
    }
  }

  lemma StepKnownCalls(cfg: Config, s: State, step: Step)
    requires Shaped(s) && KnownQueue(s) && KnownCalls(s) && Enabled(cfg, s, step)
    ensures KnownCalls(Apply(cfg, s, step))
  {
    SameLetters(cfg, s, step);
    if step.Do? { NextFits(s.calls[step.call], ViewOf(s, s.calls[step.call].phase), step.act); }
  }

  lemma DoKnownReceipts(cfg: Config, s: State, c: nat, a: Act)
    requires Shaped(s) && KnownCalls(s) && KnownReceipts(s) && ActEnabled(cfg, s, c, a)
    ensures KnownReceipts(Perform(cfg, s, c, a))
  {
    var rs := Receipts(s.calls[c], ViewOf(s, s.calls[c].phase), a);
    OneReceipt(s.calls[c], ViewOf(s, s.calls[c].phase), a);
    assert forall r :: r in s.spawned + rs ==> r in s.spawned || r in rs;
  }

  lemma StepKnownReceipts(cfg: Config, s: State, step: Step)
    requires Shaped(s) && KnownCalls(s) && KnownReceipts(s) && Enabled(cfg, s, step)
    ensures KnownReceipts(Apply(cfg, s, step))
  {
    SameLetters(cfg, s, step);
    match step
    case Do(c, a) => DoKnownReceipts(cfg, s, c, a);
    case SendReceipt(i) => assert s.spawned[i] in s.spawned;
    case _ =>
  }
}
