/** Back-pressure in the v1 publisher: k goroutines queue letters, each checking the letter count
  before it raises it, while the auto-publisher takes letters out and lowers it. */
module V1BackPressure {
  /** QueueLetter, from the last look at the count to the send. */
  datatype Phase = Looking | Passed | Counted

  /** `letterCount` is the publisher's counter, `letters` the fill of its buffer, and
      `publishing` the letters taken out whose publish has not lowered the counter yet. */
  datatype State = State(letterCount: int, letters: nat, publishing: nat, queuers: seq<Phase>, taking: bool)

  datatype Config = Config(letterBuffer: nat, maxOverBuffer: nat)

  datatype Step =
    | Look(queuer: nat)         // the loop condition of QueueLetter
    | Increase(queuer: nat)     // increaseLetterCount
    | Send(queuer: nat)         // into the buffer
    | HandOver(queuer: nat)     // straight to the receiver: the only way when the buffer size is 0
    | Take                      // StartAutoPublish receives a letter
    | Reduce                    // reduceLetterCount, after the publish
    | Toggle                    // auto-publishing starts or stops

  function Bound(cfg: Config): nat {
    cfg.letterBuffer + cfg.maxOverBuffer
  }

  predicate Enabled(cfg: Config, s: State, step: Step) {
    match step
    case Look(q) => q < |s.queuers| && s.queuers[q].Looking?
    case Increase(q) => q < |s.queuers| && s.queuers[q].Passed?
    case Send(q) => q < |s.queuers| && s.queuers[q].Counted? && s.letters < cfg.letterBuffer
    case HandOver(q) => q < |s.queuers| && s.queuers[q].Counted? && s.letters == 0 && s.taking
    case Take => s.taking && s.letters > 0
    case Reduce => s.publishing > 0
    case Toggle => true
  }

  function Apply(cfg: Config, s: State, step: Step): State
    requires Enabled(cfg, s, step)
  {
    match step
    case Look(q) => if s.letterCount >= Bound(cfg) then s else s.(queuers := s.queuers[q := Passed])
    case Increase(q) => s.(letterCount := s.letterCount + 1, queuers := s.queuers[q := Counted])
    case Send(q) => s.(letters := s.letters + 1, queuers := s.queuers[q := Looking])
    case HandOver(q) => s.(publishing := s.publishing + 1, queuers := s.queuers[q := Looking])
    case Take => s.(letters := s.letters - 1, publishing := s.publishing + 1)
    case Reduce => s.(letterCount := s.letterCount - 1, publishing := s.publishing - 1)
    case Toggle => s.(taking := !s.taking)
  }

  function Init(k: nat): State {
    State(0, 0, 0, seq(k, i => Looking), false)
  }

  function InPhase(queuers: seq<Phase>, p: Phase): nat {
    if queuers == [] then 0 else InPhase(queuers[..|queuers| - 1], p) + if queuers[|queuers| - 1] == p then 1 else 0
  }

  lemma {:induction false} PhaseUpdate(queuers: seq<Phase>, q: nat, next: Phase, p: Phase)
    requires q < |queuers|
    ensures InPhase(queuers[q := next], p) + (if queuers[q] == p then 1
              else 0) == InPhase(queuers, p) + if next == p then 1 else 0
  {
    var last := |queuers| - 1;
    if q == last {
      assert queuers[q := next][..last] == queuers[..last];
    } else {
      PhaseUpdate(queuers[..last], q, next, p);
      assert queuers[q := next][..last] == queuers[..last][q := next];
    }
  }

  lemma {:induction false} PhaseBound(queuers: seq<Phase>, q: nat, p: Phase)
    requires q < |queuers|
    ensures InPhase(queuers, p) <= |queuers| && (queuers[q] != p ==> InPhase(queuers, p) <= |queuers| - 1)
  {
    var last := |queuers| - 1;
    if last > 0 {
      PhaseBound(queuers[..last], if q < last then q else 0, p);
    }
  }

  /** The counter is exact, and those who have passed the check but not raised it yet are
      accounted for in the bound. */
  ghost predicate Inv(cfg: Config, s: State) {
    && s.letterCount == InPhase(s.queuers, Counted) + s.letters + s.publishing
    && s.letters <= cfg.letterBuffer
    && (|s.queuers| > 0 ==> s.letterCount + InPhase(s.queuers, Passed) <= Bound(cfg) + |s.queuers| - 1)
  }

  lemma StepInv(cfg: Config, s: State, step: Step)
    requires Inv(cfg, s) && Enabled(cfg, s, step)
    ensures Inv(cfg, Apply(cfg, s, step))
  {
    if step.Look? || step.Increase? || step.Send? || step.HandOver? {
      var q := step.queuer;
      var next := if step.Look? then Passed else if step.Increase? then Counted else Looking;
      PhaseUpdate(s.queuers, q, next, Passed);
      PhaseUpdate(s.queuers, q, next, Counted);
      PhaseBound(s.queuers, q, Passed);
    }
  }

  ghost predicate IsRun(cfg: Config, s: State, steps: seq<Step>)
    decreases |steps|
  {
    steps == [] || (Enabled(cfg, s, steps[0]) && IsRun(cfg, Apply(cfg, s, steps[0]), steps[1..]))
  }

  ghost function After(cfg: Config, s: State, steps: seq<Step>): State
    requires IsRun(cfg, s, steps)
    decreases |steps|
  {
    if steps == [] then s else After(cfg, Apply(cfg, s, steps[0]), steps[1..])
  }

  lemma {:induction false} RunInv(cfg: Config, s: State, steps: seq<Step>)
    requires Inv(cfg, s) && IsRun(cfg, s, steps)
    ensures Inv(cfg, After(cfg, s, steps)) && |After(cfg, s, steps).queuers| == |s.queuers|
    decreases |steps|
  {
    if steps != [] {
      StepInv(cfg, s, steps[0]);
      RunInv(cfg, Apply(cfg, s, steps[0]), steps[1..]);
    }
  }

  lemma {:induction false} NobodyYet(k: nat, p: Phase)
    requires !p.Looking?
    ensures InPhase(seq(k, i => Looking), p) == 0
  {
    if k > 0 {
      NobodyYet(k - 1, p);
      assert seq(k, i => Looking)[..k - 1] == seq(k - 1, i => Looking);
    }
  }

  /** In every run with k queuers the counter counts exactly the letters that are counted and
      not sent, buffered, or taken and not yet published; so it never underflows, and it never
      exceeds letterBuffer + maxOverBuffer + k - 1. */
  lemma CountExactAndBounded(cfg: Config, k: nat, steps: seq<Step>)
    requires k > 0 && IsRun(cfg, Init(k), steps)
    ensures var s := After(cfg, Init(k), steps);
      && s.letterCount == InPhase(s.queuers, Counted) + s.letters + s.publishing
      && 0 <= s.letterCount <= cfg.letterBuffer + cfg.maxOverBuffer + k - 1
      && (s.publishing > 0 ==> s.letterCount > 0)
  {
    NobodyYet(k, Passed);
    NobodyYet(k, Counted);
    RunInv(cfg, Init(k), steps);
  }

  // ---------------------------------------------------------------- the bound is reached

  lemma {:induction false} Join(cfg: Config, s: State, first: seq<Step>, second: seq<Step>)
    requires IsRun(cfg, s, first) && IsRun(cfg, After(cfg, s, first), second)
    ensures IsRun(cfg, s, first + second) && After(cfg, s, first + second) == After(cfg, After(cfg, s, first), second)
    decreases |first|
  {
    if first == [] {
      assert first + second == second;
    } else {
      Join(cfg, Apply(cfg, s, first[0]), first[1..], second);
      assert (first + second)[1..] == first[1..] + second;
    }
  }

  lemma OneStep(cfg: Config, s: State, step: Step)
    requires Enabled(cfg, s, step)
    ensures IsRun(cfg, s, [step]) && After(cfg, s, [step]) == Apply(cfg, s, step)
  {
    assert [step][1..] == [];
    assert IsRun(cfg, Apply(cfg, s, step), []);
  }

  /** `n` queuers have passed the check and the first `m` of them have raised the count. */
  function Queued(k: nat, n: nat, m: nat): seq<Phase> {
    seq(k, i => if i < m then Counted else if i < n then Passed else Looking)
  }

  /** The first queuer gets n letters counted and out of its hands, none of them published yet. */
  lemma {:induction false} Fill(cfg: Config, k: nat, n: nat) returns (steps: seq<Step>)
    requires k > 0 && n <= Bound(cfg)
    ensures IsRun(cfg, Init(k), steps)
    ensures var s := After(cfg, Init(k), steps);
      s.letterCount == n && s.queuers == Queued(k, 0, 0) && s.taking && s.letters <= cfg.letterBuffer
  {
    if n == 0 {
      steps := [Toggle];
      OneStep(cfg, Init(k), Toggle);
      assert After(cfg, Init(k), steps).queuers == Queued(k, 0, 0);
    } else {
      steps := Fill(cfg, k, n - 1);
      var s := After(cfg, Init(k), steps);
      var more := FillOne(cfg, s, k);
      Join(cfg, Init(k), steps, more);
      steps := steps + more;
    }
  }

  /** One letter more. On a full buffer the auto-publisher takes one first; with no buffer it
      takes this one from the queuer's hands. */
  lemma FillOne(cfg: Config, s: State, k: nat) returns (steps: seq<Step>)
    requires k > 0 && s.queuers == Queued(k, 0, 0) && s.taking && s.letters <= cfg.letterBuffer
    requires s.letterCount < Bound(cfg)
    ensures IsRun(cfg, s, steps)
    ensures var t := After(cfg, s, steps);
      t.letterCount == s.letterCount + 1 && t.queuers == s.queuers && t.taking && t.letters <= cfg.letterBuffer
  {
    OneStep(cfg, s, Look(0));
    var s1 := Apply(cfg, s, Look(0));
    OneStep(cfg, s1, Increase(0));
    var s2 := Apply(cfg, s1, Increase(0));
    Join(cfg, s, [Look(0)], [Increase(0)]);
    steps := [Look(0)] + [Increase(0)];
    if cfg.letterBuffer > 0 && s.letters == cfg.letterBuffer {
      OneStep(cfg, s2, Take);
      var s3 := Apply(cfg, s2, Take);
      OneStep(cfg, s3, Send(0));
      Join(cfg, s2, [Take], [Send(0)]);
      Join(cfg, s, steps, [Take] + [Send(0)]);
      steps := steps + ([Take] + [Send(0)]);
    } else {
      var last := if cfg.letterBuffer > 0 then Send(0) else HandOver(0);
      OneStep(cfg, s2, last);
      Join(cfg, s, steps, [last]);
      steps := steps + [last];
    }
    assert After(cfg, s, steps).queuers == s.queuers;
  }

  /** Below the bound n queuers pass the check side by side. */
  lemma {:induction false} AllLook(cfg: Config, s: State, k: nat, n: nat) returns (steps: seq<Step>)
    requires n <= k && s.queuers == Queued(k, 0, 0) && s.letterCount < Bound(cfg)
    ensures IsRun(cfg, s, steps) && After(cfg, s, steps) == s.(queuers := Queued(k, n, 0))
  {
    if n == 0 {
      steps := [];
    } else {
      steps := AllLook(cfg, s, k, n - 1);
      var t := After(cfg, s, steps);
      OneStep(cfg, t, Look(n - 1));
      Join(cfg, s, steps, [Look(n - 1)]);
      steps := steps + [Look(n - 1)];
      assert t.queuers[n - 1 := Passed] == Queued(k, n, 0);
    }
  }

  /** And then they all raise it. */
  lemma {:induction false} AllIncrease(cfg: Config, s: State, k: nat, m: nat) returns (steps: seq<Step>)
    requires m <= k && s.queuers == Queued(k, k, 0)
    ensures IsRun(cfg, s, steps)
    ensures After(cfg, s, steps) == s.(queuers := Queued(k, k, m), letterCount := s.letterCount + m)
  {
    if m == 0 {
      steps := [];
    } else {
      steps := AllIncrease(cfg, s, k, m - 1);
      var t := After(cfg, s, steps);
      OneStep(cfg, t, Increase(m - 1));
      Join(cfg, s, steps, [Increase(m - 1)]);
      steps := steps + [Increase(m - 1)];
      assert t.queuers[m - 1 := Counted] == Queued(k, k, m);
    }
  }

  /** The bound is exact: unless both buffer sizes are 0, some run with k queuers reaches it. */
  lemma BoundReached(cfg: Config, k: nat) returns (steps: seq<Step>)
    requires k > 0 && Bound(cfg) > 0
    ensures IsRun(cfg, Init(k), steps)
    ensures After(cfg, Init(k), steps).letterCount == cfg.letterBuffer + cfg.maxOverBuffer + k - 1
  {
    steps := Fill(cfg, k, Bound(cfg) - 1);
    var s := After(cfg, Init(k), steps);
    var looks := AllLook(cfg, s, k, k);
    Join(cfg, Init(k), steps, looks);
    var t := After(cfg, s, looks);
    var raises := AllIncrease(cfg, t, k, k);
    Join(cfg, Init(k), steps + looks, raises);
    steps := steps + looks + raises;
  }

  /** With both sizes 0 the guard never lets a letter in. */
  lemma {:induction false} NothingPasses(cfg: Config, s: State, steps: seq<Step>)
    requires Bound(cfg) == 0 && IsRun(cfg, s, steps)
    requires s.letterCount == 0 && s.letters == 0 && s.publishing == 0 && forall q :: 0 <= q < |s.queuers| ==>
              s.queuers[q].Looking?
    ensures After(cfg, s, steps).letterCount == 0
    decreases |steps|
  {
    if steps != [] { NothingPasses(cfg, Apply(cfg, s, steps[0]), steps[1..]); }
  }

  // ---------------------------------------------------------------- the count goes down again

  /** A queuer that has raised the count sends its letter; a full buffer makes room first. */
  lemma SendsOne(cfg: Config, s: State, q: nat) returns (steps: seq<Step>)
    requires s.taking && q < |s.queuers| && s.queuers[q].Counted? && s.letters <= cfg.letterBuffer
    ensures IsRun(cfg, s, steps)
    ensures var t := After(cfg, s, steps);
      && t.taking && t.letterCount == s.letterCount && t.queuers == s.queuers[q := Looking]
      && t.letters <= cfg.letterBuffer
  {
    if s.letters < cfg.letterBuffer {
      OneStep(cfg, s, Send(q));
      steps := [Send(q)];
    } else if s.letters == 0 {
      OneStep(cfg, s, HandOver(q));
      steps := [HandOver(q)];
    } else {
      OneStep(cfg, s, Take);
      OneStep(cfg, Apply(cfg, s, Take), Send(q));
      Join(cfg, s, [Take], [Send(q)]);
      steps := [Take] + [Send(q)];
    }
  }

  lemma {:induction false} NoneIn(queuers: seq<Phase>, p: Phase)
    requires forall q :: 0 <= q < |queuers| ==> queuers[q] != p
    ensures InPhase(queuers, p) == 0
  {
    if queuers != [] { NoneIn(queuers[..|queuers| - 1], p); }
  }

  /** All of them do. */
  lemma {:induction false} SendsAll(cfg: Config, s: State) returns (steps: seq<Step>)
    requires Inv(cfg, s) && s.taking
    ensures IsRun(cfg, s, steps)
    ensures var t := After(cfg, s, steps); Inv(cfg, t) && t.taking && InPhase(t.queuers, Counted) == 0
    decreases InPhase(s.queuers, Counted)
  {
    if q :| 0 <= q < |s.queuers| && s.queuers[q].Counted? {
      steps := SendsOne(cfg, s, q);
      RunInv(cfg, s, steps);
      PhaseUpdate(s.queuers, q, Looking, Counted);
      var rest := SendsAll(cfg, After(cfg, s, steps));
      Join(cfg, s, steps, rest);
      steps := steps + rest;
    } else {
      NoneIn(s.queuers, Counted);
      steps := [];
    }
  }

  /** Then every letter is taken and published. */
  lemma {:induction false} PublishesAll(cfg: Config, s: State) returns (steps: seq<Step>)
    requires Inv(cfg, s) && s.taking && InPhase(s.queuers, Counted) == 0
    ensures IsRun(cfg, s, steps) && After(cfg, s, steps).letterCount == 0
    decreases 2 * s.letters + s.publishing
  {
    if s.letters == 0 && s.publishing == 0 {
      steps := [];
    } else {
      var step := if s.publishing > 0 then Reduce else Take;
      OneStep(cfg, s, step);
      StepInv(cfg, s, step);
      var rest := PublishesAll(cfg, Apply(cfg, s, step));
      Join(cfg, s, [step], rest);
      steps := [step] + rest;
    }
  }

  /** Back-pressure is always released: from every reachable state some run publishes every counted
      letter, after which the guard lets the next one in. */
  lemma AlwaysReleases(cfg: Config, k: nat, first: seq<Step>) returns (more: seq<Step>)
    requires k > 0 && IsRun(cfg, Init(k), first)
    ensures IsRun(cfg, After(cfg, Init(k), first), more)
    ensures After(cfg, After(cfg, Init(k), first), more).letterCount == 0
  {
    NobodyYet(k, Passed);
    NobodyYet(k, Counted);
    RunInv(cfg, Init(k), first);
    var s := After(cfg, Init(k), first);
    more := [];
    if !s.taking {
      OneStep(cfg, s, Toggle);
      StepInv(cfg, s, Toggle);
      more := [Toggle];
    }
    var t := After(cfg, s, more);
    var sends := SendsAll(cfg, t);
    Join(cfg, s, more, sends);
    var u := After(cfg, t, sends);
    var publishes := PublishesAll(cfg, u);
    Join(cfg, s, more + sends, publishes);
    more := more + sends + publishes;
  }

  /** Once auto-publishing has stopped, no letter leaves the buffer and none is handed over, in
      every run until it starts again. */
  lemma {:induction false} StoppedTakesNothing(cfg: Config, s: State, steps: seq<Step>)
    requires !s.taking && IsRun(cfg, s, steps) && forall i :: 0 <= i < |steps| ==> !steps[i].Toggle?
    ensures var t := After(cfg, s, steps);
      !t.taking && s.letters <= t.letters && t.publishing <= s.publishing
    decreases |steps|
  {
    if steps != [] { StoppedTakesNothing(cfg, Apply(cfg, s, steps[0]), steps[1..]); }
  }

  lemma ToggleStops(cfg: Config, s: State, steps: seq<Step>)
    requires s.taking && IsRun(cfg, Apply(cfg, s, Toggle), steps)
    requires forall i :: 0 <= i < |steps| ==> !steps[i].Toggle?
    ensures var t := After(cfg, Apply(cfg, s, Toggle), steps);
      !t.taking && s.letters <= t.letters && t.publishing <= s.publishing
  {
    StoppedTakesNothing(cfg, Apply(cfg, s, Toggle), steps);
  }
}
