/** What becomes of a channel that failed its caller, and of one that did not. */
module ErredChannels {
  import opened Streams
  import opened Machine
  import opened Common
  import opened PoolCustody
  import opened Attribution
  import opened LinkCustody
  import opened PipelineInvariant
  import Progress

  /** The acts that end with erred: a publish or a subscription that is refused, or a consume loop
      whose channel is closed. */
  predicate Errs(a: Act) {
    a == Publish(false) || a == Emit(false) || a == Subscribe(false) || a.Fault?
  }

  /** Call c is on its way to a new channel for host h. */
  predicate MakesAnew(s: State, c: nat, h: nat) {
    c < |s.calls| && HoldsLink(s.calls[c].phase) && HostOf(s.calls[c].phase) == Some(h) && !s.calls[c].job.Transient?
  }

  /** Host h no longer carries stream k, or does only until call c has made it a new channel. */
  ghost predicate Abandoned(s: State, c: nat, h: nat, k: nat) {
    h < |s.hosts| && k < |s.streams| && (s.hosts[h] == k ==> MakesAnew(s, c, h))
  }

  lemma NextErred(call: Call, v: View, a: Act)
    requires Fits(call) && CanDo(call, v, a) && !call.job.Transient? && Errs(a)
    ensures HoldsLink(NextCall(call, v, a).phase) && HostOf(NextCall(call, v, a).phase) == HostOf(call.phase)
    ensures NextCall(call, v, a).job == call.job && HostOf(call.phase).Some?
  {
  }

  /** It leaves that way only with a new channel. */
  lemma NextMade(call: Call, v: View, a: Act)
    requires Fits(call) && CanDo(call, v, a) && !call.job.Transient? && HoldsLink(call.phase)
    ensures var next := NextCall(call, v, a);
      && next.job == call.job
      && (a == Remake(true) || (HoldsLink(next.phase) && HostOf(next.phase) == HostOf(call.phase)))
  {
  }

  lemma HostsOnly(cfg: Config, s: State, c: nat, a: Act, h: nat)
    requires ActEnabled(cfg, s, c, a) && h < |s.hosts|
    ensures var t := Perform(cfg, s, c, a);
      && h < |t.hosts| && |t.streams| >= |s.streams|
      && t.hosts[h] == (if a == Remake(true) && HostOf(s.calls[c].phase) == Some(h) then |s.streams| else s.hosts[h])
      && t.calls == s.calls[c := NextCall(s.calls[c], ViewOf(s, s.calls[c].phase), a)]
  {
  }

  lemma DoAbandoned(cfg: Config, s: State, d: nat, a: Act, c: nat, h: nat, k: nat)
    requires Custody(cfg, s) && ActEnabled(cfg, s, d, a) && Abandoned(s, c, h, k)
    ensures Abandoned(Perform(cfg, s, d, a), c, h, k)
  {
    HostsOnly(cfg, s, d, a, h);
    if d == c && s.hosts[h] == k { NextMade(s.calls[c], ViewOf(s, s.calls[c].phase), a); }
  }

  lemma OtherAbandoned(cfg: Config, s: State, step: Step, c: nat, h: nat, k: nat)
    requires Enabled(cfg, s, step) && !step.Do? && Abandoned(s, c, h, k)
    ensures Abandoned(Apply(cfg, s, step), c, h, k)
  {
    OtherHosts(cfg, s, step);
    OtherCalls(cfg, s, step);
    OtherCount(cfg, s, step);
  }

  lemma OtherCount(cfg: Config, s: State, step: Step)
    requires Enabled(cfg, s, step) && !step.Do?
    ensures |Apply(cfg, s, step).streams| == |s.streams|
  {
  }

  lemma {:induction false} AbandonedStays(cfg: Config, s: State, steps: seq<Step>, c: nat, h: nat, k: nat)
    requires Custody(cfg, s) && IsRun(cfg, s, steps) && Abandoned(s, c, h, k)
    ensures Custody(cfg, After(cfg, s, steps)) && Abandoned(After(cfg, s, steps), c, h, k)
    decreases |steps|
  {
    if steps != [] {
      if steps[0].Do? {
        DoAbandoned(cfg, s, steps[0].call, steps[0].act, c, h, k);
      } else {
        OtherAbandoned(cfg, s, steps[0], c, h, k);
      }
      StepCustody(cfg, s, steps[0]);
      AbandonedStays(cfg, Apply(cfg, s, steps[0]), steps[1..], c, h, k);
    }
  }

  lemma NotPooled(cfg: Config, s: State, c: nat, h: nat, k: nat)
    requires Custody(cfg, s) && Abandoned(s, c, h, k) && h in s.pool
    ensures s.hosts[h] != k
  {
    if s.hosts[h] == k { assert Holds(s.calls, c, h); }
  }

  lemma ReachableCustody(cfg: Config, retry: seq<nat>, s: State)
    requires Reachable(cfg, retry, s)
    ensures Custody(cfg, s)
  {
    ReachableInv(cfg, retry, s);
  }

  /** Right after the act. */
  lemma ErrsNow(cfg: Config, s: State, c: nat, a: Act, h: nat)
    requires Custody(cfg, s) && ActEnabled(cfg, s, c, a) && Errs(a) && !s.calls[c].job.Transient?
    requires HostOf(s.calls[c].phase) == Some(h)
    ensures h < |s.hosts| && Abandoned(Perform(cfg, s, c, a), c, h, s.hosts[h])
  {
    NextErred(s.calls[c], ViewOf(s, s.calls[c].phase), a);
    HostsOnly(cfg, s, c, a, h);
  }

  /** A channel on which an operation has failed never comes back to the pool: whenever its host is
      there again, in any run, it carries another one. */
  lemma ErredNeverReturns(cfg: Config, retry: seq<nat>, s: State, c: nat, a: Act, steps: seq<Step>)
    requires Reachable(cfg, retry, s) && ActEnabled(cfg, s, c, a) && Errs(a) && !s.calls[c].job.Transient?
    requires IsRun(cfg, Perform(cfg, s, c, a), steps)
    ensures HostOf(s.calls[c].phase).Some? && HasStream(s, HostOf(s.calls[c].phase).value)
    ensures var h := HostOf(s.calls[c].phase).value; var t := After(cfg, Perform(cfg, s, c, a), steps);
      h in t.pool ==> h < |t.hosts| && t.hosts[h] != s.hosts[h]
  {
    ReachableCustody(cfg, retry, s);
    NextErred(s.calls[c], ViewOf(s, s.calls[c].phase), a);
    var h := HostOf(s.calls[c].phase).value;
    ErrsNow(cfg, s, c, a, h);
    StepCustody(cfg, s, Do(c, a));
    AbandonedStays(cfg, Perform(cfg, s, c, a), steps, c, h, s.hosts[h]);
    var t := After(cfg, Perform(cfg, s, c, a), steps);
    if h in t.pool { NotPooled(cfg, t, c, h, s.hosts[h]); }
  }

  // ---------------------------------------------------------------- channels that did not fail

  /** The acts after which a call is through with a channel that did not fail. */
  predicate Leaves(s: State, c: nat, a: Act) {
    c < |s.calls| && !s.calls[c].job.Transient? &&
    (a.Timeout? || a == Emit(true) || a.Unsubscribe?
     || (a.Confirmation? && ReadsAck(ViewOf(s, s.calls[c].phase).stream)))
  }

  /** It is giving host h back with stream k. */
  predicate GivesBack(s: State, c: nat, h: nat, k: nat) {
    && c < |s.calls| && (s.calls[c].phase == Returning(h) || s.calls[c].phase == Putting(h, false))
    && h < |s.hosts| && s.hosts[h] == k
  }

  lemma NextLeaves(call: Call, v: View, a: Act)
    requires CanDo(call, v, a) && !call.job.Transient?
    requires a.Timeout? || a == Emit(true) || a.Unsubscribe? || (a.Confirmation? && ReadsAck(v.stream))
    ensures HostOf(call.phase).Some? && NextCall(call, v, a).phase == Returning(HostOf(call.phase).value)
  {
  }

  lemma LeavesNow(cfg: Config, s: State, c: nat, a: Act, h: nat)
    requires Custody(cfg, s) && ActEnabled(cfg, s, c, a) && Leaves(s, c, a) && HostOf(s.calls[c].phase) == Some(h)
    ensures h < |s.hosts| && GivesBack(Perform(cfg, s, c, a), c, h, s.hosts[h])
  {
    NextLeaves(s.calls[c], ViewOf(s, s.calls[c].phase), a);
    HostsOnly(cfg, s, c, a, h);
  }

  lemma DoGivesBack(cfg: Config, s: State, d: nat, a: Act, c: nat, h: nat, k: nat)
    requires Custody(cfg, s) && ActEnabled(cfg, s, d, a) && GivesBack(s, c, h, k) && !(d == c && a.PutBack?)
    ensures GivesBack(Perform(cfg, s, d, a), c, h, k)
  {
    HostsOnly(cfg, s, d, a, h);
    assert Holds(s.calls, c, h);
    if d != c && HostOf(s.calls[d].phase) == Some(h) { assert Holds(s.calls, d, h); }
  }

  lemma {:induction false} GivesBackStays(cfg: Config, s: State, steps: seq<Step>, c: nat, h: nat, k: nat)
    requires Custody(cfg, s) && IsRun(cfg, s, steps) && GivesBack(s, c, h, k)
    requires forall i :: 0 <= i < |steps| ==> steps[i] != Do(c, PutBack)
    ensures GivesBack(After(cfg, s, steps), c, h, k)
    decreases |steps|
  {
    if steps != [] {
      if steps[0].Do? {
        DoGivesBack(cfg, s, steps[0].call, steps[0].act, c, h, k);
      } else {
        OtherHosts(cfg, s, steps[0]);
        OtherCalls(cfg, s, steps[0]);
      }
      StepCustody(cfg, s, steps[0]);
      GivesBackStays(cfg, Apply(cfg, s, steps[0]), steps[1..], c, h, k);
    }
  }

  /** And a channel on which nothing has failed goes back to the pool as it is: until its call has
      put it there it keeps it, with the same stream. */
  lemma SoundReturnsAsIs(cfg: Config, retry: seq<nat>, s: State, c: nat, a: Act, steps: seq<Step>)
    requires Reachable(cfg, retry, s) && ActEnabled(cfg, s, c, a) && Leaves(s, c, a)
    requires IsRun(cfg, Perform(cfg, s, c, a), steps) && forall i :: 0 <= i < |steps| ==> steps[i] != Do(c, PutBack)
    ensures HostOf(s.calls[c].phase).Some? && HasStream(s, HostOf(s.calls[c].phase).value)
    ensures var h := HostOf(s.calls[c].phase).value;
      GivesBack(After(cfg, Perform(cfg, s, c, a), steps), c, h, s.hosts[h])
  {
    ReachableCustody(cfg, retry, s);
    NextLeaves(s.calls[c], ViewOf(s, s.calls[c].phase), a);
    var h := HostOf(s.calls[c].phase).value;
    LeavesNow(cfg, s, c, a, h);
    StepCustody(cfg, s, Do(c, a));
    GivesBackStays(cfg, Perform(cfg, s, c, a), steps, c, h, s.hosts[h]);
  }

  // ---------------------------------------------------------------- the recovery, step by step

  /** A call that makes a channel anew goes past the health check exactly if nothing was found wrong
      and the connection is open, past the dialling exactly if it is open or a dial succeeds, which
      leaves it open, and makes a channel only on an open one. */
  lemma RecoveryExactly(cfg: Config, s: State, c: nat, a: Act)
    requires WellWired(cfg) && Custody(cfg, s) && LinksOk(cfg, s) && ActEnabled(cfg, s, c, a)
    requires a.Verify? || a.Connect? || a.Remake?
    ensures HostOf(s.calls[c].phase).Some?
    ensures var h, t := HostOf(s.calls[c].phase).value, Perform(cfg, s, c, a);
      && (a.Verify? ==> (t.calls[c].phase.Making? <==> !a.bad && LinkUp(s, h)))
      && (a.Connect? ==> (t.calls[c].phase.Clearing? <==> LinkUp(s, h) || a.ok))
      && (a.Connect? ==> (LinkUp(t, h) <==> LinkUp(s, h) || a.ok))
      && (a == Remake(true) ==> LinkUp(s, h) && HasStream(t, h) && t.streams[t.hosts[h]] == Fresh())
  {
    assert Holds(s.calls, c, s.calls[c].phase.host);
    if a == Remake(true) { HostAfter(cfg, s, c, a, s.calls[c].phase.host); }
  }

  // ---------------------------------------------------------------- consume loops

  /** A consume loop starts to consume exactly by subscribing on an open channel. */
  lemma ConsumesExactly(cfg: Config, s: State, c: nat, a: Act)
    requires ActEnabled(cfg, s, c, a) && !s.calls[c].phase.Consuming?
    ensures Perform(cfg, s, c, a).calls[c].phase.Consuming? <==>
              a == Subscribe(true) && s.calls[c].phase.Subscribing? && StreamOf(s, s.calls[c].phase.host).open
  {
  }

  lemma OneAct(cfg: Config, s: State, c: nat, h: nat, a: Act)
    requires Custody(cfg, s) && c < |s.calls| && HostOf(s.calls[c].phase) == Some(h)
    requires CanDo(s.calls[c], ViewOf(s, s.calls[c].phase), a) && (a.Unsubscribe? || a.Fault? || a.FlushBack?)
    ensures ActEnabled(cfg, s, c, a) && Custody(cfg, Perform(cfg, s, c, a))
    ensures var t := Perform(cfg, s, c, a);
      && t.calls[c] == NextCall(s.calls[c], ViewOf(s, s.calls[c].phase), a) && c < |t.calls|
      && t.pool == s.pool && t.hosts == s.hosts
  {
    assert Holds(s.calls, c, h);
    StepCustody(cfg, s, Do(c, a));
  }

  lemma PutsBack(cfg: Config, s: State, c: nat, h: nat)
    requires Custody(cfg, s) && c < |s.calls| && s.calls[c].phase == Putting(h, false) && s.calls[c].job.Consume?
    ensures ActEnabled(cfg, s, c, PutBack)
    ensures var t := Perform(cfg, s, c, PutBack);
      t.calls[c].phase.Finished? && t.pool == s.pool + [h] && t.hosts == s.hosts
  {
    ReturnNeverBlocks(cfg, s, c);
  }

  /** The flush before it. */
  lemma FlushesBack(cfg: Config, s: State, c: nat, h: nat) returns (steps: seq<Step>)
    requires Custody(cfg, s) && c < |s.calls| && s.calls[c].phase == Returning(h) && s.calls[c].job.Consume?
    ensures IsRun(cfg, s, steps) && |steps| == 2
    ensures var t := After(cfg, s, steps);
      c < |t.calls| && t.calls[c].phase.Finished? && t.pool == s.pool + [h] && t.hosts == s.hosts
  {
    var flush := FlushBack(!ViewOf(s, s.calls[c].phase).up);
    OneAct(cfg, s, c, h, flush);
    var t := Perform(cfg, s, c, flush);
    PutsBack(cfg, t, c, h);
    Progress.Here(cfg, t, Do(c, PutBack));
    Progress.OneMore(cfg, s, Do(c, flush), [Do(c, PutBack)]);
    steps := [Do(c, flush)] + [Do(c, PutBack)];
  }

  /** A consume loop that consumes can always be ended, and then gives its channel back as it is; or
      lose its channel, which it then makes anew. */
  lemma ConsumerEnds(cfg: Config, retry: seq<nat>, s: State, c: nat) returns (steps: seq<Step>)
    requires Reachable(cfg, retry, s) && c < |s.calls| && s.calls[c].phase.Consuming?
    ensures IsRun(cfg, s, steps) && |steps| == 3
    ensures var t, h := After(cfg, s, steps), s.calls[c].phase.host;
      && c < |t.calls| && t.calls[c].phase.Finished? && t.pool == s.pool + [h] && t.hosts == s.hosts
    ensures ActEnabled(cfg, s, c, Fault)
    ensures Perform(cfg, s, c, Fault).calls[c].phase == Reconnecting(s.calls[c].phase.host, true)
  {
    ReachableCustody(cfg, retry, s);
    var h := s.calls[c].phase.host;
    assert s.calls[c].job.Consume?;
    OneAct(cfg, s, c, h, Fault);
    OneAct(cfg, s, c, h, Unsubscribe);
    var rest := FlushesBack(cfg, Perform(cfg, s, c, Unsubscribe), c, h);
    Progress.OneMore(cfg, s, Do(c, Unsubscribe), rest);
    steps := [Do(c, Unsubscribe)] + rest;
  }
}
