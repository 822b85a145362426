/** The recovery that does not end. triggerConnectionRecovery flushes the Errors channel of the
  connection it has just connected until it is empty; if that connection is closed again by then,
  its Errors channel is closed too, and a closed Go channel never runs dry. */
module Wedge {
  import opened Machine
  import opened Common
  import opened Streams
  import opened PoolCustody
  import opened LinkCustody
  import opened PipelineInvariant
  import opened Progress
  import StaleConfirm

  /** A call leaves the flush exactly by finding its connection open. */
  lemma LeavesExactly(cfg: Config, s: State, step: Step, c: nat)
    requires Custody(cfg, s) && Enabled(cfg, s, step) && c < |s.calls| && s.calls[c].phase.Clearing?
    ensures c < |Apply(cfg, s, step).calls|
    ensures !Apply(cfg, s, step).calls[c].phase.Clearing? <==> step == Do(c, Clear) && LinkUp(s, s.calls[c].phase.host)
    ensures Apply(cfg, s, step).calls[c].phase.Clearing? ==> Apply(cfg, s, step).calls[c] == s.calls[c]
  {
    assert Holds(s.calls, c, s.calls[c].phase.host);
    if !step.Do? { OtherCalls(cfg, s, step); }
  }

  /** The step dials link k with success. */
  predicate Dials(s: State, step: Step, k: nat) {
    && step.Do? && step.act == Connect(true) && step.call < |s.calls|
    && var h := HostOf(s.calls[step.call].phase);
    h.Some? && h.value < |s.wires| && s.wires[h.value] == k
  }

  ghost predicate NobodyDials(cfg: Config, s: State, steps: seq<Step>, k: nat)
    requires IsRun(cfg, s, steps)
    decreases |steps|
  {
    steps == [] || (!Dials(s, steps[0], k) && NobodyDials(cfg, Apply(cfg, s, steps[0]), steps[1..], k))
  }

  /** Nobody but a dial opens a closed link, and no link changes its host. */
  lemma StaysDown(cfg: Config, s: State, step: Step, h: nat)
    requires LinksOk(cfg, s) && Enabled(cfg, s, step) && h < |s.hosts| && !LinkUp(s, h) && !Dials(s, step, s.wires[h])
    ensures var t := Apply(cfg, s, step); h < |t.wires| && t.wires[h] == s.wires[h] && !LinkUp(t, h)
  {
    if step.Do? {
      StaysDownDo(cfg, s, step.call, step.act, h);
    } else {
      OtherWires(cfg, s, step);
    }
  }

  lemma StaysDownDo(cfg: Config, s: State, c: nat, a: Act, h: nat)
    requires LinksOk(cfg, s) && ActEnabled(cfg, s, c, a) && h < |s.hosts| && !LinkUp(s, h)
    requires !Dials(s, Do(c, a), s.wires[h])
    ensures var t := Perform(cfg, s, c, a); h < |t.wires| && t.wires[h] == s.wires[h] && !LinkUp(t, h)
  {
  }

  lemma WedgeStep(cfg: Config, s: State, step: Step, c: nat)
    requires Custody(cfg, s) && LinksOk(cfg, s) && WedgedCall(s, c) && Enabled(cfg, s, step)
    requires s.calls[c].phase.host < |s.wires| && !Dials(s, step, s.wires[s.calls[c].phase.host])
    ensures var t := Apply(cfg, s, step); var h := s.calls[c].phase.host;
      WedgedCall(t, c) && t.calls[c] == s.calls[c] && h < |t.wires| && t.wires[h] == s.wires[h]
  {
    var h := s.calls[c].phase.host;
    assert Holds(s.calls, c, h);
    LeavesExactly(cfg, s, step, c);
    StaysDown(cfg, s, step, h);
  }

  /** So a call caught there stays until somebody else dials that connection: it does not dial
      again itself, and an open network does not help it. */
  lemma {:induction false} WedgeStays(cfg: Config, s: State, steps: seq<Step>, c: nat)
    requires Inv(cfg, s) && WellWired(cfg) && WedgedCall(s, c) && IsRun(cfg, s, steps)
    requires s.calls[c].phase.host < |s.wires| && NobodyDials(cfg, s, steps, s.wires[s.calls[c].phase.host])
    ensures WedgedCall(After(cfg, s, steps), c) && After(cfg, s, steps).calls[c] == s.calls[c]
    decreases |steps|
  {
    if steps != [] {
      WedgeStep(cfg, s, steps[0], c);
      StepInv(cfg, s, steps[0]);
      WedgeStays(cfg, Apply(cfg, s, steps[0]), steps[1..], c);
    }
  }

  /** And such a dial frees it. */
  lemma DialFrees(cfg: Config, s: State, c: nat, d: nat)
    requires Custody(cfg, s) && LinksOk(cfg, s) && WedgedCall(s, c) && s.calls[c].phase.host < |s.wires|
    requires d < |s.calls| && s.calls[d].phase.Recovering?
    requires Dials(s, Do(d, Connect(true)), s.wires[s.calls[c].phase.host])
    ensures ActEnabled(cfg, s, d, Connect(true))
    ensures var t := Perform(cfg, s, d, Connect(true));
      && t.calls[c] == s.calls[c] && !WedgedCall(t, c) && ActEnabled(cfg, t, c, Clear)
      && NextCall(t.calls[c], ViewOf(t, t.calls[c].phase), Clear).phase.Making?
  {
    assert Holds(s.calls, c, s.calls[c].phase.host) && Holds(s.calls, d, s.calls[d].phase.host);
  }

  // ---------------------------------------------------------------- the whole pool kept

  /** Every cached channel is with a call that is caught, or with a consume loop. */
  ghost predicate PoolKept(cfg: Config, s: State) {
    && s.pool == [] && cfg.channelCount <= |s.log.keeper|
    && forall h :: 0 <= h < cfg.channelCount ==>
         s.log.keeper[h].Some? && KeptBy(s, s.log.keeper[h].value)
  }

  predicate KeptBy(s: State, c: nat) {
    c < |s.calls| && (WedgedCall(s, c) || s.calls[c].job.Consume?)
  }

  lemma KeptHolds(cfg: Config, s: State, h: nat)
    requires Custody(cfg, s) && h < cfg.channelCount && s.log.keeper[h].Some?
    ensures s.log.keeper[h].value in Keepers(s) <==> KeptBy(s, s.log.keeper[h].value)
  {
    assert Holds(s.calls, s.log.keeper[h].value, h);
  }

  lemma KeeperHolds(cfg: Config, s: State, c: nat)
    requires Custody(cfg, s) && c in Keepers(s)
    ensures KeepsOne(cfg.channelCount, s.calls, s.log.keeper, c)
  {
    assert HostOf(s.calls[c].phase).Some? && Holds(s.calls, c, HostOf(s.calls[c].phase).value);
  }

  predicate KeepsOne(n: nat, calls: seq<Call>, keeper: seq<Option<nat>>, c: nat) {
    c < |calls| &&
    var h := HostOf(calls[c].phase);
    h.Some? && h.value < n && h.value < |keeper| && keeper[h.value] == Some(c)
  }

  /** A channel that none of them keeps leaves room for fewer of them. */
  lemma FewerThan(n: nat, calls: seq<Call>, keeper: seq<Option<nat>>, few: set<nat>, h: nat)
    requires forall c :: c in few ==> KeepsOne(n, calls, keeper, c)
    requires h < n <= |keeper| && (keeper[h].Some? ==> keeper[h].value !in few)
    ensures |few| < n
  {
    var m := map c | c in few :: HostOf(calls[c].phase).value;
    InjectiveMap(m, Below(n) - {h});
    assert m.Keys == few;
  }

  lemma NotKept(cfg: Config, s: State) returns (h: nat)
    requires Custody(cfg, s) && !PoolKept(cfg, s)
    ensures h < cfg.channelCount && (s.log.keeper[h].Some? ==> !KeptBy(s, s.log.keeper[h].value))
  {
    if s.pool != [] {
      h := s.pool[0];
    } else {
      h :| 0 <= h < cfg.channelCount && !(s.log.keeper[h].Some? && KeptBy(s, s.log.keeper[h].value));
    }
  }

  /** That is so exactly if as many channels are kept for good as there are, which is what
      Progress.Live excludes. */
  lemma KeptExactly(cfg: Config, s: State)
    requires Custody(cfg, s)
    ensures PoolKept(cfg, s) <==> |Keepers(s)| >= cfg.channelCount
  {
    if PoolKept(cfg, s) && |Keepers(s)| < cfg.channelCount {
      var h := HolderOutside(cfg.channelCount, s.calls, s.log.keeper, Keepers(s));
      KeptHolds(cfg, s, h);
      assert false;
    } else if !PoolKept(cfg, s) {
      var h := NotKept(cfg, s);
      if s.log.keeper[h].Some? { KeptHolds(cfg, s, h); }
      forall c | c in Keepers(s) ensures KeepsOne(cfg.channelCount, s.calls, s.log.keeper, c) {
        KeeperHolds(cfg, s, c);
      }
      FewerThan(cfg.channelCount, s.calls, s.log.keeper, Keepers(s), h);
    }
  }

  /** A consume loop does something, or somebody dials a closed connection of a cached channel. */
  ghost predicate Disturbs(cfg: Config, s: State, step: Step) {
    || (step.Do? && step.call < |s.calls| && s.calls[step.call].job.Consume?)
    || exists h :: 0 <= h < cfg.channelCount && h < |s.wires| && !LinkUp(s, h) && Dials(s, step, s.wires[h])
  }

  ghost predicate Undisturbed(cfg: Config, s: State, steps: seq<Step>)
    requires IsRun(cfg, s, steps)
    decreases |steps|
  {
    steps == [] || (!Disturbs(cfg, s, steps[0]) && Undisturbed(cfg, Apply(cfg, s, steps[0]), steps[1..]))
  }

  /** Who keeps a cached channel stays as it is. */
  lemma KeeperStays(cfg: Config, s: State, step: Step, h: nat)
    requires Inv(cfg, s) && WellWired(cfg) && PoolKept(cfg, s) && Enabled(cfg, s, step) && !Disturbs(cfg, s, step)
    requires h < cfg.channelCount
    ensures var c := s.log.keeper[h].value; var t := Apply(cfg, s, step);
      KeptBy(t, c) && t.calls[c] == s.calls[c]
  {
    var c := s.log.keeper[h].value;
    assert Holds(s.calls, c, h);
    if s.calls[c].job.Consume? {
      if !step.Do? { OtherCalls(cfg, s, step); }
    } else {
      assert !LinkUp(s, h);
      WedgeStep(cfg, s, step, c);
    }
  }

  /** So nobody puts a channel back. */
  lemma KeptAct(cfg: Config, s: State, d: nat, a: Act)
    requires s.pool == [] && cfg.channelCount <= |s.log.keeper| && ActEnabled(cfg, s, d, a)
    requires OnCached(cfg, s, d) ==> WedgedCall(s, d)
    requires s.calls[d].phase.Putting? ==> OnCached(cfg, s, d)
    ensures var t := Perform(cfg, s, d, a);
      && t.pool == [] && |t.log.keeper| >= |s.log.keeper|
      && forall h :: 0 <= h < cfg.channelCount ==> t.log.keeper[h] == s.log.keeper[h]
  {
  }

  predicate OnCached(cfg: Config, s: State, d: nat) {
    d < |s.calls| && HostOf(s.calls[d].phase).Some? && HostOf(s.calls[d].phase).value < cfg.channelCount
  }

  lemma KeptActor(cfg: Config, s: State, d: nat)
    requires Custody(cfg, s) && PoolKept(cfg, s) && d < |s.calls| && !s.calls[d].job.Consume?
    ensures OnCached(cfg, s, d) ==> WedgedCall(s, d)
    ensures s.calls[d].phase.Putting? ==> OnCached(cfg, s, d)
  {
    if HostOf(s.calls[d].phase).Some? { assert Holds(s.calls, d, HostOf(s.calls[d].phase).value); }
  }

  lemma KeptStep(cfg: Config, s: State, step: Step)
    requires Inv(cfg, s) && WellWired(cfg) && PoolKept(cfg, s) && Enabled(cfg, s, step) && !Disturbs(cfg, s, step)
    ensures PoolKept(cfg, Apply(cfg, s, step))
  {
    var t := Apply(cfg, s, step);
    if step.Do? {
      KeptActor(cfg, s, step.call);
      KeptAct(cfg, s, step.call, step.act);
    } else {
      OtherPool(cfg, s, step);
      OtherKeeper(cfg, s, step);
    }
    forall h | 0 <= h < cfg.channelCount ensures t.log.keeper[h].Some? && KeptBy(t, t.log.keeper[h].value) {
      KeeperStays(cfg, s, step, h);
    }
  }

  /** Then the pool stays empty, and the caught calls and their letters stay where they are, in
      every run in which the consume loops keep their channels and nobody dials the connections of
      the caught ones. */
  lemma {:induction false} PoolKeptForever(cfg: Config, s: State, steps: seq<Step>, h: nat)
    requires Inv(cfg, s) && WellWired(cfg) && PoolKept(cfg, s) && IsRun(cfg, s, steps) && Undisturbed(cfg, s, steps)
    requires h < cfg.channelCount
    ensures var t := After(cfg, s, steps); var c := s.log.keeper[h].value;
      PoolKept(cfg, t) && c < |t.calls| && t.calls[c] == s.calls[c]
    decreases |steps|
  {
    if steps != [] {
      var t := Apply(cfg, s, steps[0]);
      KeptStep(cfg, s, steps[0]);
      KeeperStays(cfg, s, steps[0], h);
      StepInv(cfg, s, steps[0]);
      SameKeeper(cfg, s, steps[0], h);
      PoolKeptForever(cfg, t, steps[1..], h);
    }
  }

  lemma SameKeeper(cfg: Config, s: State, step: Step, h: nat)
    requires Inv(cfg, s) && PoolKept(cfg, s) && Enabled(cfg, s, step) && !Disturbs(cfg, s, step) && h < cfg.channelCount
    ensures h < |Apply(cfg, s, step).log.keeper| && Apply(cfg, s, step).log.keeper[h] == s.log.keeper[h]
  {
    if step.Do? {
      KeptActor(cfg, s, step.call);
      KeptAct(cfg, s, step.call, step.act);
    } else {
      OtherKeeper(cfg, s, step);
    }
  }

  // ---------------------------------------------------------------- the whole pipeline caught

  /** Every cached channel is with a call that is caught, and every transient call is caught or done. */
  ghost predicate Caught(cfg: Config, s: State) {
    && s.pool == [] && cfg.channelCount <= |s.log.keeper|
    && (forall h :: 0 <= h < cfg.channelCount ==>
          s.log.keeper[h].Some? && WedgedCall(s, s.log.keeper[h].value))
    && forall c :: 0 <= c < |s.calls| && s.calls[c].job.Transient? ==> s.calls[c].phase.Finished? || WedgedCall(s, c)
  }

  /** Then nobody is left who could dial. */
  lemma NobodyCanDial(cfg: Config, s: State, step: Step, k: nat)
    requires Custody(cfg, s) && Caught(cfg, s) && Enabled(cfg, s, step)
    ensures !Dials(s, step, k)
  {
    if Dials(s, step, k) {
      var h := s.calls[step.call].phase.host;
      assert Holds(s.calls, step.call, h);
      assert false;
    }
  }

  lemma CaughtCallStays(cfg: Config, s: State, step: Step, c: nat)
    requires Inv(cfg, s) && WellWired(cfg) && Caught(cfg, s) && Enabled(cfg, s, step) && WedgedCall(s, c)
    ensures WedgedCall(Apply(cfg, s, step), c) && Apply(cfg, s, step).calls[c] == s.calls[c]
  {
    assert Holds(s.calls, c, s.calls[c].phase.host);
    NobodyCanDial(cfg, s, step, s.wires[s.calls[c].phase.host]);
    WedgeStep(cfg, s, step, c);
  }

  /** Who does an act on a cached channel is one of the caught calls. */
  lemma CaughtActor(cfg: Config, s: State, d: nat)
    requires Custody(cfg, s) && Caught(cfg, s) && d < |s.calls|
    ensures OnCached(cfg, s, d) ==> WedgedCall(s, d)
    ensures s.calls[d].phase.Putting? ==> OnCached(cfg, s, d)
  {
    if HostOf(s.calls[d].phase).Some? { assert Holds(s.calls, d, HostOf(s.calls[d].phase).value); }
  }

  lemma CaughtKeeper(cfg: Config, s: State, step: Step)
    requires Custody(cfg, s) && Caught(cfg, s) && Enabled(cfg, s, step)
    ensures var t := Apply(cfg, s, step);
      && t.pool == [] && |t.log.keeper| >= |s.log.keeper|
      && forall h :: 0 <= h < cfg.channelCount ==> t.log.keeper[h] == s.log.keeper[h]
  {
    if step.Do? {
      CaughtActor(cfg, s, step.call);
      KeptAct(cfg, s, step.call, step.act);
    } else {
      OtherPool(cfg, s, step);
      OtherKeeper(cfg, s, step);
    }
  }

  lemma DoneStays(cfg: Config, s: State, d: nat, a: Act, c: nat)
    requires Shaped(s) && ActEnabled(cfg, s, d, a) && c < |Perform(cfg, s, d, a).calls|
    requires s.calls[c].job.Transient? ==> s.calls[c].phase.Finished?
    ensures Perform(cfg, s, d, a).calls[c].job.Transient? ==> Perform(cfg, s, d, a).calls[c].phase.Finished?
  {
    NextFits(s.calls[d], ViewOf(s, s.calls[d].phase), a);
  }

  lemma CaughtTransient(cfg: Config, s: State, step: Step, c: nat)
    requires Inv(cfg, s) && WellWired(cfg) && Caught(cfg, s) && Enabled(cfg, s, step)
    requires !(step.Start? && step.job.Transient?)
    requires c < |Apply(cfg, s, step).calls| && Apply(cfg, s, step).calls[c].job.Transient?
    ensures Apply(cfg, s, step).calls[c].phase.Finished? || WedgedCall(Apply(cfg, s, step), c)
  {
    if c < |s.calls| && WedgedCall(s, c) {
      CaughtCallStays(cfg, s, step, c);
    } else if step.Do? {
      DoneStays(cfg, s, step.call, step.act, c);
    } else {
      OtherCalls(cfg, s, step);
    }
  }

  lemma CaughtStep(cfg: Config, s: State, step: Step)
    requires Inv(cfg, s) && WellWired(cfg) && Caught(cfg, s) && Enabled(cfg, s, step)
    requires !(step.Start? && step.job.Transient?)
    ensures Caught(cfg, Apply(cfg, s, step))
  {
    var t := Apply(cfg, s, step);
    CaughtKeeper(cfg, s, step);
    forall h | 0 <= h < cfg.channelCount ensures t.log.keeper[h].Some? && WedgedCall(t, t.log.keeper[h].value) {
      CaughtCallStays(cfg, s, step, s.log.keeper[h].value);
    }
    forall c | 0 <= c < |t.calls| && t.calls[c].job.Transient? ensures t.calls[c].phase.Finished? || WedgedCall(t, c) {
      CaughtTransient(cfg, s, step, c);
    }
  }

  ghost predicate NoTransient(steps: seq<Step>) {
    forall i :: 0 <= i < |steps| && steps[i].Start? ==> !steps[i].job.Transient?
  }

  /** Whatever the broker, the network and the scheduler do, and whatever is queued or published
      through the pool: unless a transient publish is started, the pool stays empty and no letter
      of a caught call is ever settled. */
  lemma {:induction false} CaughtForever(cfg: Config, s: State, steps: seq<Step>)
    requires Inv(cfg, s) && WellWired(cfg) && Caught(cfg, s) && IsRun(cfg, s, steps) && NoTransient(steps)
    ensures Caught(cfg, After(cfg, s, steps))
    ensures forall c: nat :: WedgedCall(s, c) ==>
              WedgedCall(After(cfg, s, steps), c) && After(cfg, s, steps).calls[c] == s.calls[c]
    decreases |steps|
  {
    if steps != [] {
      var t := Apply(cfg, s, steps[0]);
      CaughtStep(cfg, s, steps[0]);
      StepInv(cfg, s, steps[0]);
      CaughtForever(cfg, t, steps[1..]);
      forall c: nat | WedgedCall(s, c) ensures WedgedCall(t, c) && t.calls[c] == s.calls[c] {
        CaughtCallStays(cfg, s, steps[0], c);
      }
    }
  }

  // ---------------------------------------------------------------- and how it comes to that

  /** `taken` calls are flushing Errors, each with a channel from the pool, and nobody else is about. */
  ghost predicate Front(cfg: Config, retry: seq<nat>, s: State, taken: nat) {
    && Reachable(cfg, retry, s) && |s.calls| == taken && |s.pool| + taken == cfg.channelCount && |s.retry| > 0
    && forall c :: 0 <= c < taken ==> s.calls[c].phase.Clearing? && s.calls[c].job.Confirm?
  }

  /** The last call is in this position, and has a channel unless it seeks. */
  ghost predicate Last(cfg: Config, retry: seq<nat>, s: State, taken: nat, p: Phase) {
    && Reachable(cfg, retry, s) && |s.calls| == taken + 1 && |s.retry| > 0
    && |s.pool| + taken + (if p.Seeking? then 0 else 1) == cfg.channelCount
    && (forall c :: 0 <= c < taken ==> s.calls[c].phase.Clearing? && s.calls[c].job.Confirm?)
    && s.calls[taken].job.Confirm? && s.calls[taken].phase == p
  }

  lemma ActsAlone(cfg: Config, s: State, c: nat, h: nat, a: Act)
    requires c < |s.calls| && HostOf(s.calls[c].phase) == Some(h) && HasStream(s, h) && h < |s.log.keeper|
    requires CanDo(s.calls[c], ViewOf(s, s.calls[c].phase), a)
    requires a.Flush? || a == Publish(false) || a == Verify(true) || a == Connect(true)
    ensures ActEnabled(cfg, s, c, a)
    ensures var t := Perform(cfg, s, c, a);
      && t.calls == s.calls[c := NextCall(s.calls[c], ViewOf(s, s.calls[c].phase), a)]
      && t.pool == s.pool && t.retry == s.retry
  {
  }

  lemma HasItsChannel(cfg: Config, retry: seq<nat>, s: State, c: nat)
    requires Reachable(cfg, retry, s) && c < |s.calls| && HostOf(s.calls[c].phase).Some?
    ensures HasStream(s, HostOf(s.calls[c].phase).value) && HostOf(s.calls[c].phase).value < |s.log.keeper|
  {
    ReachableInv(cfg, retry, s);
    assert Holds(s.calls, c, HostOf(s.calls[c].phase).value);
  }

  /** One act of the last call that keeps its channel. */
  lemma Acts(cfg: Config, retry: seq<nat>, s: State, taken: nat, p: Phase, a: Act) returns (t: State)
    requires Last(cfg, retry, s, taken, p) && CanDo(s.calls[taken], ViewOf(s, p), a)
    requires a.Flush? || a == Publish(false) || a == Verify(true) || a == Connect(true)
    ensures Last(cfg, retry, t, taken, NextCall(s.calls[taken], ViewOf(s, p), a).phase)
  {
    HasItsChannel(cfg, retry, s, taken);
    ActsAlone(cfg, s, taken, HostOf(p).value, a);
    StaleConfirm.Reach(cfg, retry, s, Do(taken, a));
    t := Apply(cfg, s, Do(taken, a));
  }

  lemma Seeks(cfg: Config, retry: seq<nat>, s: State, taken: nat) returns (t: State)
    requires Front(cfg, retry, s, taken)
    ensures Last(cfg, retry, t, taken, Seeking)
  {
    StaleConfirm.Reach(cfg, retry, s, Start(Confirm(0, false)));
    t := Apply(cfg, s, Start(Confirm(0, false)));
  }

  lemma Comes(cfg: Config, retry: seq<nat>, s: State, taken: nat) returns (t: State, h: nat)
    requires Last(cfg, retry, s, taken, Seeking) && taken < cfg.channelCount
    ensures Last(cfg, retry, t, taken, Flushing(h))
  {
    ReachableInv(cfg, retry, s);
    h := s.pool[0];
    StaleConfirm.Reach(cfg, retry, s, Do(taken, Acquire));
    t := Apply(cfg, s, Do(taken, Acquire));
  }

  /** One more call: its publish errs, it reconnects and goes to flush Errors. */
  lemma OneMoreFlushes(cfg: Config, retry: seq<nat>, s: State, taken: nat) returns (t: State)
    requires Front(cfg, retry, s, taken) && taken < cfg.channelCount
    ensures Front(cfg, retry, t, taken + 1)
  {
    t := Seeks(cfg, retry, s, taken);
    var u, h := Comes(cfg, retry, t, taken);
    var lag := Lag(FlushOne(ViewOf(u, Flushing(h)).stream, !ViewOf(u, Flushing(h)).up));
    t := Acts(cfg, retry, u, taken, Flushing(h), Flush(!ViewOf(u, Flushing(h)).up));
    t := Acts(cfg, retry, t, taken, Publishing(h, 0, lag), Publish(false));
    t := Acts(cfg, retry, t, taken, Reconnecting(h, true), Verify(true));
    t := Acts(cfg, retry, t, taken, Recovering(h, true), Connect(true));
  }

  lemma {:induction false} AllFlush(cfg: Config, retry: seq<nat>, s: State, taken: nat) returns (t: State)
    requires Front(cfg, retry, s, taken) && taken <= cfg.channelCount
    ensures Front(cfg, retry, t, cfg.channelCount)
    decreases cfg.channelCount - taken
  {
    if taken == cfg.channelCount {
      t := s;
    } else {
      t := OneMoreFlushes(cfg, retry, s, taken);
      t := AllFlush(cfg, retry, t, taken + 1);
    }
  }

  /** Then the network closes the connections from k on. */
  lemma {:induction false} AllSevered(cfg: Config, retry: seq<nat>, s: State, taken: nat, k: nat) returns (t: State)
    requires Front(cfg, retry, s, taken) && k <= |s.links|
    requires forall i :: 0 <= i < k ==> !s.links[i]
    ensures Front(cfg, retry, t, taken) && forall i :: 0 <= i < |t.links| ==> !t.links[i]
    decreases |s.links| - k
  {
    if k == |s.links| {
      t := s;
    } else {
      StaleConfirm.Reach(cfg, retry, s, Sever(k));
      t := AllSevered(cfg, retry, Apply(cfg, s, Sever(k)), taken, k + 1);
    }
  }

  /** However many channels and connections there are, such a state is reached: one publish that
      errs on each channel, and connections that are lost before the flush, are enough. */
  lemma CaughtReached(cfg: Config, retry: seq<nat>) returns (s: State)
    requires WellWired(cfg) && retry != []
    ensures Reachable(cfg, retry, s) && Caught(cfg, s)
    ensures |s.calls| == cfg.channelCount
    ensures forall c :: 0 <= c < |s.calls| ==> WedgedCall(s, c) && s.calls[c].job.Confirm?
  {
    s := Init(cfg, retry);
    assert IsRun(cfg, s, []) && After(cfg, s, []) == s;
    s := AllFlush(cfg, retry, s, 0);
    s := AllSevered(cfg, retry, s, cfg.channelCount, 0);
    ReachableInv(cfg, retry, s);
  }
}
