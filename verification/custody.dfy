/** Who owns which cached channel: the pool buffer and the callers partition the hosts. */
module PoolCustody {
  import opened Streams
  import opened Machine
  import opened Common

  // ---------------------------------------------------------------- phases fit jobs

  /** Which phases a job passes through, and when its outcome is decided. A transient call
      starts on a channel without history, so its lag is 0. */
  predicate Fits(call: Call) {
    && (call.job.Transient? && call.outcome.Acked? ==> call.outcome.lag == 0 && call.outcome.rounds >= 1)
    && match call.phase
       case Seeking => call.outcome.Undecided?
       case Flushing(_) => call.job.Confirm? && call.outcome.Undecided?
       case Publishing(_, _, lag) => FitsRound(call, lag)
       case Waiting(_, rounds, lag) => FitsRound(call, lag) && rounds >= 1
       case Emitting(_) => call.job.Plain? && call.outcome.Undecided?
       case Subscribing(_) => call.job.Consume? && call.outcome.Undecided?
       case Consuming(_) => call.job.Consume? && call.outcome.Undecided?
       case Reconnecting(_, again) => FitsMaking(call, again)
       case Recovering(_, again) => FitsMaking(call, again)
       case Clearing(_, again) => FitsMaking(call, again)
       case Making(_, again) => FitsMaking(call, again)
       case Returning(_) => !call.job.Transient? && (call.outcome.Undecided? <==> call.job.Consume?)
       case Putting(_, again) => !call.job.Transient? && if again then FitsMaking(call, again)
           else (call.outcome.Undecided? <==> call.job.Consume?)
       case Dropping(_) => call.job.Transient?
       case Leaving => call.job.Confirm? && call.job.auto && !call.outcome.Undecided?
       case Finished => call.outcome.Undecided? <==> call.job.Consume?
  }

  predicate FitsRound(call: Call, lag: int) {
    (call.job.Confirm? || (call.job.Transient? && lag == 0)) && call.outcome.Undecided?
  }

  predicate FitsMaking(call: Call, again: bool) {
    if again then !call.job.Plain? && call.outcome.Undecided? else call.job.Plain? && call.outcome.Failed?
  }

  ghost predicate Shaped(s: State) {
    forall c :: 0 <= c < |s.calls| ==> Fits(s.calls[c])
  }

  // ---------------------------------------------------------------- the partition

  ghost predicate Holds(calls: seq<Call>, c: nat, h: nat) {
    c < |calls| && HostOf(calls[c].phase) == Some(h)
  }

  /** Every host publishes on a stream of its own. */
  ghost predicate HostsOk(hosts: seq<nat>, streams: seq<Stream>) {
    && (forall h :: 0 <= h < |hosts| ==> hosts[h] < |streams|)
    && (forall g, h :: 0 <= g < h < |hosts| ==> hosts[g] != hosts[h])
  }

  /** The pool buffer holds exactly the hosts below n that nobody keeps, each once. */
  ghost predicate PoolOk(n: nat, pool: seq<nat>, keeper: seq<Option<nat>>) {
    && n <= |keeper|
    && (forall i :: 0 <= i < |pool| ==> pool[i] < n && keeper[pool[i]] == None)
    && NoDuplicates(pool)
    && (forall h :: 0 <= h < n && keeper[h] == None ==> h in pool)
  }

  /** The keeper of a host is the one call that holds it. */
  ghost predicate HeldOk(calls: seq<Call>, keeper: seq<Option<nat>>) {
    && (forall c: nat, h: nat :: Holds(calls, c, h) ==> h < |keeper| && keeper[h] == Some(c))
    && (forall h :: 0 <= h < |keeper| && keeper[h].Some? ==> Holds(calls, keeper[h].value, h))
  }

  /** Transient calls hold hosts of their own, the others cached ones. */
  ghost predicate OwnKind(n: nat, calls: seq<Call>) {
    forall c: nat, h: nat :: Holds(calls, c, h) ==> (calls[c].job.Transient? <==> h >= n)
  }

  ghost predicate Custody(cfg: Config, s: State) {
    && Shaped(s)
    && |s.hosts| == |s.log.keeper| >= cfg.channelCount
    && HostsOk(s.hosts, s.streams)
    && PoolOk(cfg.channelCount, s.pool, s.log.keeper)
    && HeldOk(s.calls, s.log.keeper)
    && OwnKind(cfg.channelCount, s.calls)
  }

  lemma InitCustody(cfg: Config, retry: seq<nat>)
    ensures Custody(cfg, Init(cfg, retry))
  {
    var s := Init(cfg, retry);
    forall h | 0 <= h < cfg.channelCount ensures h in s.pool {
      assert s.pool[h] == h;
    }
  }

  // ---------------------------------------------------------------- steps keep it

  lemma NextFits(call: Call, v: View, a: Act)
    requires Fits(call) && CanDo(call, v, a)
    ensures Fits(NextCall(call, v, a)) && NextCall(call, v, a).job == call.job
  {
  }

  lemma StepShaped(cfg: Config, s: State, step: Step)
    requires Shaped(s) && Enabled(cfg, s, step)
    ensures Shaped(Apply(cfg, s, step))
  {
    match step
    case Do(c, a) => NextFits(s.calls[c], ViewOf(s, s.calls[c].phase), a);
    case _ =>
  }

  /** An act keeps the host it works on, except that Acquire takes the head of the pool,
      TakeLink starts a new host, and PutBack and Drop let go. */
  lemma NextHost(call: Call, v: View, a: Act)
    requires CanDo(call, v, a)
    ensures HostOf(NextCall(call, v, a).phase) ==
            if a.Acquire? then v.head else if a.TakeLink? then v.next
            else if a.PutBack? || a.Drop? then None else HostOf(call.phase)
  {
  }

  lemma PoolTake(n: nat, pool: seq<nat>, keeper: seq<Option<nat>>, c: nat)
    requires PoolOk(n, pool, keeper) && pool != []
    ensures PoolOk(n, pool[1..], keeper[pool[0] := Some(c)])
  {
    forall h | 0 <= h < n && keeper[pool[0] := Some(c)][h] == None ensures h in pool[1..] {
      var i :| 0 <= i < |pool| && pool[i] == h;
      assert i > 0 && pool[1..][i - 1] == h;
    }
  }

  lemma PoolPut(n: nat, pool: seq<nat>, keeper: seq<Option<nat>>, h: nat)
    requires PoolOk(n, pool, keeper) && h < n && keeper[h].Some?
    ensures PoolOk(n, pool + [h], keeper[h := None])
  {
    forall g | 0 <= g < n && keeper[h := None][g] == None ensures g in pool + [h] {
      if g == h { assert (pool + [h])[|pool|] == g; }
    }
  }

  /** A host beyond the cached ones changes its keeper. */
  lemma PoolBeyond(n: nat, pool: seq<nat>, keeper: seq<Option<nat>>, h: nat, who: Option<nat>)
    requires PoolOk(n, pool, keeper) && n <= h <= |keeper|
    ensures PoolOk(n, pool, if h < |keeper| then keeper[h := who] else keeper + [who])
  {
  }

  lemma HeldNext(calls: seq<Call>, keeper: seq<Option<nat>>, c: nat, call: Call)
    requires HeldOk(calls, keeper) && c < |calls| && HostOf(call.phase) == HostOf(calls[c].phase)
    ensures HeldOk(calls[c := call], keeper)
  {
    var next := calls[c := call];
    assert forall d: nat, h: nat :: Holds(next, d, h) <==> Holds(calls, d, h);
    assert HeldOk(next, keeper);
  }

  lemma HeldTake(calls: seq<Call>, keeper: seq<Option<nat>>, c: nat, call: Call, h: nat)
    requires HeldOk(calls, keeper) && c < |calls| && HostOf(calls[c].phase) == None
    requires h < |keeper| && keeper[h] == None && HostOf(call.phase) == Some(h)
    ensures HeldOk(calls[c := call], keeper[h := Some(c)])
  {
    var next, kept := calls[c := call], keeper[h := Some(c)];
    assert forall d: nat, g: nat :: Holds(next, d, g) <==> Holds(calls, d, g) || (d == c && g == h);
    assert HeldOk(next, kept);
  }

  lemma HeldNew(calls: seq<Call>, keeper: seq<Option<nat>>, c: nat, call: Call)
    requires HeldOk(calls, keeper) && c < |calls| && HostOf(calls[c].phase) == None
    requires HostOf(call.phase) == Some(|keeper|)
    ensures HeldOk(calls[c := call], keeper + [Some(c)])
  {
    var next, kept := calls[c := call], keeper + [Some(c)];
    assert forall d: nat, g: nat :: Holds(next, d, g) <==> Holds(calls, d, g) || (d == c && g == |keeper|);
    assert HeldOk(next, kept);
  }

  lemma HeldPut(calls: seq<Call>, keeper: seq<Option<nat>>, c: nat, call: Call, h: nat)
    requires HeldOk(calls, keeper) && Holds(calls, c, h) && HostOf(call.phase) == None
    ensures h < |keeper| && keeper[h] == Some(c) && HeldOk(calls[c := call], keeper[h := None])
  {
    var next, kept := calls[c := call], keeper[h := None];
    assert forall d: nat, g: nat :: Holds(next, d, g) <==> Holds(calls, d, g) && d != c;
    assert HeldOk(next, kept);
  }

  /** Taking a host. */
  lemma DoTake(cfg: Config, s: State, c: nat, a: Act)
    requires Custody(cfg, s) && ActEnabled(cfg, s, c, a) && (a.Acquire? || a.TakeLink?)
    ensures var t := Perform(cfg, s, c, a);
      PoolOk(cfg.channelCount, t.pool, t.log.keeper) && HeldOk(t.calls, t.log.keeper) && |t.log.keeper| == |t.hosts|
  {
    var call, v := s.calls[c], ViewOf(s, s.calls[c].phase);
    var next := NextCall(call, v, a);
    NextHost(call, v, a);
    if a.Acquire? {
      PoolTake(cfg.channelCount, s.pool, s.log.keeper, c);
      HeldTake(s.calls, s.log.keeper, c, next, s.pool[0]);
    } else {
      PoolBeyond(cfg.channelCount, s.pool, s.log.keeper, |s.log.keeper|, Some(c));
      HeldNew(s.calls, s.log.keeper, c, next);
    }
  }

  /** Letting a host go. */
  lemma DoGive(cfg: Config, s: State, c: nat, a: Act)
    requires Custody(cfg, s) && ActEnabled(cfg, s, c, a) && (a.PutBack? || a.Drop?)
    ensures var t := Perform(cfg, s, c, a);
      PoolOk(cfg.channelCount, t.pool, t.log.keeper) && HeldOk(t.calls, t.log.keeper) && |t.log.keeper| == |t.hosts|
  {
    var call, v := s.calls[c], ViewOf(s, s.calls[c].phase);
    var next := NextCall(call, v, a);
    NextHost(call, v, a);
    var h := call.phase.host;
    assert Holds(s.calls, c, h);
    HeldPut(s.calls, s.log.keeper, c, next, h);
    if a.PutBack? {
      PoolPut(cfg.channelCount, s.pool, s.log.keeper, h);
    } else {
      PoolBeyond(cfg.channelCount, s.pool, s.log.keeper, h, None);
    }
  }

  lemma DoCustody(cfg: Config, s: State, c: nat, a: Act)
    requires Custody(cfg, s) && ActEnabled(cfg, s, c, a)
    ensures var t := Perform(cfg, s, c, a);
      PoolOk(cfg.channelCount, t.pool, t.log.keeper) && HeldOk(t.calls, t.log.keeper) && |t.log.keeper| == |t.hosts|
  {
    if a.Acquire? || a.TakeLink? {
      DoTake(cfg, s, c, a);
    } else if a.PutBack? || a.Drop? {
      DoGive(cfg, s, c, a);
    } else {
      var call, v := s.calls[c], ViewOf(s, s.calls[c].phase);
      NextHost(call, v, a);
      HeldNext(s.calls, s.log.keeper, c, NextCall(call, v, a));
    }
  }

  lemma DoOwnKind(cfg: Config, s: State, c: nat, a: Act)
    requires Custody(cfg, s) && ActEnabled(cfg, s, c, a)
    ensures OwnKind(cfg.channelCount, Perform(cfg, s, c, a).calls)
  {
    var call, v := s.calls[c], ViewOf(s, s.calls[c].phase);
    var next := NextCall(call, v, a);
    NextHost(call, v, a);
    NextFits(call, v, a);
    var later := s.calls[c := next];
    forall d: nat, h: nat | Holds(later, d, h) ensures later[d].job.Transient? <==> h >= cfg.channelCount {
      if d != c || HostOf(call.phase) == Some(h) { assert Holds(s.calls, d, h); }
    }
  }

  lemma DoHosts(cfg: Config, s: State, c: nat, a: Act)
    requires HostsOk(s.hosts, s.streams) && ActEnabled(cfg, s, c, a)
    ensures HostsOk(Perform(cfg, s, c, a).hosts, Perform(cfg, s, c, a).streams)
  {
  }

  lemma StepHosts(cfg: Config, s: State, step: Step)
    requires HostsOk(s.hosts, s.streams) && Enabled(cfg, s, step)
    ensures HostsOk(Apply(cfg, s, step).hosts, Apply(cfg, s, step).streams)
  {
    if step.Do? { DoHosts(cfg, s, step.call, step.act); }
  }

  function NewCalls(s: State, step: Step): seq<Call> {
    if step.Start? then [Call(step.job, Seeking, Undecided)]
    else if step.Dispatch? && s.dispatcher.Holding? then [Call(Confirm(s.dispatcher.letter, true), Seeking, Undecided)]
    else []
  }

  /** Steps that are not taken by a goroutine with a channel leave the pool alone, and at most
      start a new call that holds nothing. */
  lemma OtherPool(cfg: Config, s: State, step: Step)
    requires Enabled(cfg, s, step) && !step.Do?
    ensures Apply(cfg, s, step).pool == s.pool
  {
  }

  lemma OtherKeeper(cfg: Config, s: State, step: Step)
    requires Enabled(cfg, s, step) && !step.Do?
    ensures Apply(cfg, s, step).log.keeper == s.log.keeper
  {
  }

  lemma OtherHosts(cfg: Config, s: State, step: Step)
    requires Enabled(cfg, s, step) && !step.Do?
    ensures Apply(cfg, s, step).hosts == s.hosts
  {
  }

  lemma OtherWires(cfg: Config, s: State, step: Step)
    requires Enabled(cfg, s, step) && !step.Do?
    ensures Apply(cfg, s, step).wires == s.wires
  {
  }

  lemma OtherFree(cfg: Config, s: State, step: Step)
    requires Enabled(cfg, s, step) && !step.Do?
    ensures Apply(cfg, s, step).free == s.free
  {
  }

  lemma OtherCalls(cfg: Config, s: State, step: Step)
    requires Enabled(cfg, s, step) && !step.Do?
    ensures Apply(cfg, s, step).calls == s.calls + NewCalls(s, step)
  {
  }

  lemma StepCustody(cfg: Config, s: State, step: Step)
    requires Custody(cfg, s) && Enabled(cfg, s, step)
    ensures Custody(cfg, Apply(cfg, s, step))
  {
    StepShaped(cfg, s, step);
    StepHosts(cfg, s, step);
    if step.Do? {
      DoCustody(cfg, s, step.call, step.act);
      DoOwnKind(cfg, s, step.call, step.act);
    } else {
      OtherPool(cfg, s, step);
      OtherKeeper(cfg, s, step);
      OtherHosts(cfg, s, step);
      OtherCalls(cfg, s, step);
      var t := Apply(cfg, s, step);
      assert forall c: nat, h: nat :: Holds(t.calls, c, h) <==> Holds(s.calls, c, h);
    }
  }

  // ---------------------------------------------------------------- what it gives

  /** The send at the end of ReturnChannel always finds room in the pool buffer. */
  lemma ReturnNeverBlocks(cfg: Config, s: State, c: nat)
    requires Custody(cfg, s) && c < |s.calls| && s.calls[c].phase.Putting?
    ensures |s.pool| < cfg.channelCount && ActEnabled(cfg, s, c, PutBack)
  {
    var h := s.calls[c].phase.host;
    assert Holds(s.calls, c, h);
    ShorterThan(cfg.channelCount, s.pool, h);
  }

  ghost function Holders(s: State, h: nat): set<nat> {
    set c: nat | c < |s.calls| && Holds(s.calls, c, h)
  }

  /** Every host is in the pool or with exactly one caller, never both and never twice. */
  lemma Partition(cfg: Config, s: State, h: nat)
    requires Custody(cfg, s) && h < cfg.channelCount
    ensures multiset(s.pool)[h] + |Holders(s, h)| == 1
  {
    CountOnce(s.pool, h);
    if s.log.keeper[h].Some? {
      assert Holders(s, h) == {s.log.keeper[h].value};
    } else {
      assert Holders(s, h) == {};
    }
  }
}
