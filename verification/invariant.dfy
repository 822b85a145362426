/** The invariant of the whole machine, kept by every step of every run. */
module PipelineInvariant {
  import opened Machine
  import opened Common
  import opened PoolCustody
  import opened Attribution
  import opened LetterConservation
  import opened RetryBudget
  import opened LinkCustody

  ghost predicate Balanced(cfg: Config, s: State) {
    && Fifo(s) && Totals(s) && Bounded(cfg, s) && KnownQueue(s) && KnownCalls(s)
    && KnownReceipts(s) && ReceiptsOk(s)
    && (forall l: Letter :: ConservedAt(s, l))
    && (forall l: Letter :: BudgetAt(cfg, s, l))
  }

  ghost predicate Inv(cfg: Config, s: State) {
    Custody(cfg, s) && Attributed(cfg, s) && Balanced(cfg, s) && (WellWired(cfg) ==> LinksOk(cfg, s))
  }

  lemma {:induction false} SumZeros(n: nat)
    ensures Sum(seq(n, i => 0)) == 0
  {
    if n > 0 {
      SumZeros(n - 1);
      assert seq(n, i => 0)[..n - 1] == seq(n - 1, i => 0);
    }
  }

  lemma InitInv(cfg: Config, retry: seq<nat>)
    ensures Inv(cfg, Init(cfg, retry))
  {
    InitCustody(cfg, retry);
    InitAttributed(cfg, retry);
    SumZeros(|retry|);
    var s := Init(cfg, retry);
    assert forall l: Letter :: ConservedAt(s, l);
    if WellWired(cfg) { InitLinks(cfg, retry); }
  }

  lemma StepBalanced(cfg: Config, s: State, step: Step)
    requires Shaped(s) && Balanced(cfg, s) && Enabled(cfg, s, step)
    ensures Balanced(cfg, Apply(cfg, s, step))
  {
    StepFifo(cfg, s, step);
    StepTotals(cfg, s, step);
    StepBounded(cfg, s, step);
    StepKnownQueue(cfg, s, step);
    StepKnownCalls(cfg, s, step);
    StepKnownReceipts(cfg, s, step);
    StepReceipts(cfg, s, step);
    forall l: Letter ensures ConservedAt(Apply(cfg, s, step), l) { StepConserved(cfg, s, step, l); }
    forall l: Letter ensures BudgetAt(cfg, Apply(cfg, s, step), l) { StepBudget(cfg, s, step, l); }
  }

  lemma StepInv(cfg: Config, s: State, step: Step)
    requires Inv(cfg, s) && Enabled(cfg, s, step)
    ensures Inv(cfg, Apply(cfg, s, step))
  {
    StepCustody(cfg, s, step);
    StepAttributed(cfg, s, step);
    StepBalanced(cfg, s, step);
    if WellWired(cfg) { StepLinks(cfg, s, step); }
  }

  lemma {:induction false} RunInv(cfg: Config, s: State, steps: seq<Step>)
    requires Inv(cfg, s) && IsRun(cfg, s, steps)
    ensures Inv(cfg, After(cfg, s, steps))
    decreases |steps|
  {
    if steps != [] {
      StepInv(cfg, s, steps[0]);
      RunInv(cfg, Apply(cfg, s, steps[0]), steps[1..]);
    }
  }

  /** The invariant holds in every reachable state. */
  lemma ReachableInv(cfg: Config, retry: seq<nat>, s: State)
    requires Reachable(cfg, retry, s)
    ensures Inv(cfg, s)
  {
    var steps: seq<Step> :| IsRun(cfg, Init(cfg, retry), steps) && After(cfg, Init(cfg, retry), steps) == s;
    InitInv(cfg, retry);
    RunInv(cfg, Init(cfg, retry), steps);
  }
}
