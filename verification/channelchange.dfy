/** A call that has to change its channel: whatever it found on the old one, on the next one it can
  be given a success for somebody else's publish. */
module ChannelChange {
  import opened Streams
  import opened Machine
  import opened Common
  import opened PoolCustody
  import opened LinkCustody
  import opened PipelineInvariant
  import FalseSuccess
  import StaleConfirm

  /** A state that a run passes, where `inv` is a set of states that no step leaves. */
  ghost predicate Passed(cfg: Config, inv: State -> bool, s: State) {
    StaleConfirm.Inductive(cfg, inv) && inv(s)
  }

  /** Call c is in this position and holds host h. */
  predicate Busy(s: State, c: nat, call: Call, h: nat) {
    && c < |s.calls| && s.calls[c] == call && HostOf(call.phase) == Some(h) && call.job.Confirm?
    && HasStream(s, h) && h < |s.log.keeper| && Wired(s, h)
  }

  /** Host h is wired to an open connection and carries stream number k. */
  predicate Carries(s: State, h: nat, k: nat, st: Stream) {
    && HasStream(s, h) && s.hosts[h] == k && s.streams[k] == st && h < |s.log.keeper| && LinkUp(s, h)
  }

  /** The other calls stay where they are, and so do the letters. */
  predicate OnlyMoves(s: State, t: State, c: nat) {
    && |t.calls| == |s.calls| && |t.retry| == |s.retry|
    && forall d :: 0 <= d < |s.calls| && d != c ==> t.calls[d] == s.calls[d]
  }

  // ---------------------------------------------------------------- the pool is emptied

  predicate PoolKept(s: State) {
    forall i :: 0 <= i < |s.pool| ==> s.pool[i] < |s.log.keeper|
  }

  /** A new call takes the head of the pool. */
  lemma OneTaken(cfg: Config, s: State, c: nat, call: Call, h: nat, l: Letter, inv: State -> bool) returns (t: State)
    requires Passed(cfg, inv, s) && Busy(s, c, call, h) && PoolKept(s) && l < |s.retry| && s.pool != []
    ensures Passed(cfg, inv, t) && Busy(t, c, call, h) && PoolKept(t) && l < |t.retry| && t.pool == s.pool[1..]
    ensures |t.streams| == |s.streams|
  {
    var u := Apply(cfg, s, Start(Confirm(l, false)));
    t := Apply(cfg, u, Do(|s.calls|, Acquire));
  }

  lemma {:induction false} EmptyPool(cfg: Config, s: State, c: nat, call: Call, h: nat, l: Letter, inv: State -> bool)
    returns (t: State)
    requires Passed(cfg, inv, s) && Busy(s, c, call, h) && PoolKept(s) && l < |s.retry|
    ensures Passed(cfg, inv, t) && Busy(t, c, call, h) && l < |t.retry| && t.pool == []
    ensures |t.streams| == |s.streams|
    decreases |s.pool|
  {
    if s.pool == [] {
      t := s;
    } else {
      t := OneTaken(cfg, s, c, call, h, l, inv);
      t := EmptyPool(cfg, t, c, call, h, l, inv);
    }
  }

  // ---------------------------------------------------------------- call c gives its channel up

  /** One act on the way to a new channel; only a dial touches the connection. */
  lemma Errs(cfg: Config, s: State, c: nat, call: Call, h: nat, inv: State -> bool) returns (t: State)
    requires Passed(cfg, inv, s) && Busy(s, c, call, h) && call.phase.Publishing?
    ensures Passed(cfg, inv, t) && Busy(t, c, call.(phase := Reconnecting(h, true)), h)
    ensures t.pool == s.pool && |t.retry| == |s.retry| && |t.streams| == |s.streams|
  {
    t := Apply(cfg, s, Do(c, Publish(false)));
  }

  lemma Verifies(cfg: Config, s: State, c: nat, call: Call, h: nat, inv: State -> bool) returns (t: State)
    requires Passed(cfg, inv, s) && Busy(s, c, call, h) && call.phase == Reconnecting(h, true)
    ensures Passed(cfg, inv, t) && Busy(t, c, call.(phase := Recovering(h, true)), h)
    ensures t.pool == s.pool && |t.retry| == |s.retry| && |t.streams| == |s.streams|
  {
    t := Apply(cfg, s, Do(c, Verify(true)));
  }

  lemma Dials(cfg: Config, s: State, c: nat, call: Call, h: nat, inv: State -> bool) returns (t: State)
    requires Passed(cfg, inv, s) && Busy(s, c, call, h) && call.phase == Recovering(h, true)
    ensures Passed(cfg, inv, t) && Busy(t, c, call.(phase := Clearing(h, true)), h) && LinkUp(t, h)
    ensures t.pool == s.pool && |t.retry| == |s.retry| && |t.streams| == |s.streams|
  {
    t := Apply(cfg, s, Do(c, Connect(true)));
  }

  lemma Clears(cfg: Config, s: State, c: nat, call: Call, h: nat, inv: State -> bool) returns (t: State)
    requires Passed(cfg, inv, s) && Busy(s, c, call, h) && call.phase == Clearing(h, true) && LinkUp(s, h)
    ensures Passed(cfg, inv, t) && Busy(t, c, call.(phase := Making(h, true)), h) && LinkUp(t, h)
    ensures t.pool == s.pool && |t.retry| == |s.retry| && |t.streams| == |s.streams|
  {
    t := Apply(cfg, s, Do(c, Clear));
  }

  lemma Remakes(cfg: Config, s: State, c: nat, call: Call, h: nat, inv: State -> bool) returns (t: State)
    requires Passed(cfg, inv, s) && Busy(s, c, call, h) && call.phase == Making(h, true) && LinkUp(s, h)
    ensures Passed(cfg, inv, t) && Busy(t, c, call.(phase := Putting(h, true)), h)
    ensures Carries(t, h, |s.streams|, Fresh()) && t.pool == s.pool && |t.retry| == |s.retry|
  {
    t := Apply(cfg, s, Do(c, Remake(true)));
  }

  /** The new channel goes back to the empty pool. */
  lemma GivesBack(cfg: Config, s: State, c: nat, call: Call, h: nat, k: nat, st: Stream, inv: State -> bool)
    returns (t: State)
    requires Passed(cfg, inv, s) && Busy(s, c, call, h) && call.phase.Putting? && Carries(s, h, k, st)
    requires s.pool == [] && cfg.channelCount > 0
    ensures Passed(cfg, inv, t) && Carries(t, h, k, st) && t.pool == [h] && OnlyMoves(s, t, c)
    ensures t.calls[c] == call.(phase := if call.phase.again then Seeking
                                         else if call.job.auto then Leaving else Finished)
  {
    t := Apply(cfg, s, Do(c, PutBack));
  }

  lemma GivesUp(cfg: Config, s: State, c: nat, call: Call, h: nat, inv: State -> bool) returns (t: State)
    requires Passed(cfg, inv, s) && Busy(s, c, call, h) && call.phase.Publishing? && s.pool == []
    requires cfg.channelCount > 0
    ensures Passed(cfg, inv, t) && c < |t.calls| && t.calls[c] == call.(phase := Seeking)
    ensures Carries(t, h, |s.streams|, Fresh()) && t.pool == [h] && |t.retry| == |s.retry|
  {
    t := Errs(cfg, s, c, call, h, inv);
    t := Verifies(cfg, t, c, call.(phase := Reconnecting(h, true)), h, inv);
    t := Dials(cfg, t, c, call.(phase := Recovering(h, true)), h, inv);
    t := Clears(cfg, t, c, call.(phase := Clearing(h, true)), h, inv);
    t := Remakes(cfg, t, c, call.(phase := Making(h, true)), h, inv);
    t := GivesBack(cfg, t, c, call.(phase := Putting(h, true)), h, |s.streams|, Fresh(), inv);
  }

  // ---------------------------------------------------------------- who takes it next

  /** A seeking call takes the only channel in the pool. */
  lemma Acquires(cfg: Config, s: State, c: nat, call: Call, h: nat, k: nat, st: Stream, inv: State -> bool)
    returns (t: State)
    requires Passed(cfg, inv, s) && c < |s.calls| && s.calls[c] == call && call.job.Confirm? && call.phase == Seeking
    requires Carries(s, h, k, st) && s.pool == [h]
    ensures Passed(cfg, inv, t) && Busy(t, c, call.(phase := Flushing(h)), h) && Carries(t, h, k, st) && t.pool == []
    ensures OnlyMoves(s, t, c)
  {
    t := Apply(cfg, s, Do(c, Acquire));
  }

  /** An act that leaves the call with its host and the host with its channel. */
  lemma Acts(cfg: Config, s: State, c: nat, call: Call, h: nat, k: nat, st: Stream, a: Act, inv: State -> bool)
    returns (t: State)
    requires Passed(cfg, inv, s) && Busy(s, c, call, h) && Carries(s, h, k, st) && s.pool == []
    requires a.Flush? || a.Publish? || a.Timeout? || a.FlushBack?
    requires CanDo(call, View(st, k, true, None, None), a)
    ensures Passed(cfg, inv, t) && Busy(t, c, NextCall(call, View(st, k, true, None, None), a), h) && t.pool == []
    ensures Carries(t, h, k, NextStream(st, c, a)) && OnlyMoves(s, t, c)
  {
    t := Apply(cfg, s, Do(c, a));
  }

  /** A new call publishes there and its wait times out. */
  lemma AnotherTimesOut(cfg: Config, s: State, h: nat, k: nat, l: Letter, inv: State -> bool) returns (t: State)
    requires Passed(cfg, inv, s) && Carries(s, h, k, Fresh()) && s.pool == [h] && l < |s.retry|
    ensures Passed(cfg, inv, t) && Carries(t, h, k, Stream([|s.calls|], [], 0, true, true)) && t.pool == []
    ensures Busy(t, |s.calls|, Call(Confirm(l, false), Returning(h), Failed), h)
    ensures |t.retry| == |s.retry| && forall d :: 0 <= d < |s.calls| ==> d < |t.calls| && t.calls[d] == s.calls[d]
  {
    var job := Confirm(l, false);
    t := Apply(cfg, s, Start(job));
    t := Acquires(cfg, t, |s.calls|, Call(job, Seeking, Undecided), h, k, Fresh(), inv);
    t := Acts(cfg, t, |s.calls|, Call(job, Flushing(h), Undecided), h, k, Fresh(), Flush(false), inv);
    t := Acts(cfg, t, |s.calls|, Call(job, Publishing(h, 0, 0), Undecided), h, k, Fresh(), Publish(true), inv);
    t := Acts(cfg, t, |s.calls|, Call(job, Waiting(h, 1, 0), Undecided), h, k,
        Stream([|s.calls|], [], 0, true, false), Timeout, inv);
  }

  /** It gives the channel back with its publish unanswered. */
  lemma AnotherReturns(cfg: Config, s: State, d: nat, l: Letter, h: nat, k: nat, st: Stream, inv: State -> bool)
    returns (t: State)
    requires Passed(cfg, inv, s) && Carries(s, h, k, st) && Buffered(st) == 0 && s.pool == [] && cfg.channelCount > 0
    requires Busy(s, d, Call(Confirm(l, false), Returning(h), Failed), h)
    ensures Passed(cfg, inv, t) && Carries(t, h, k, st) && t.pool == [h] && OnlyMoves(s, t, d)
  {
    t := Acts(cfg, s, d, Call(Confirm(l, false), Returning(h), Failed), h, k, st, FlushBack(false), inv);
    t := GivesBack(cfg, t, d, Call(Confirm(l, false), Putting(h, false), Failed), h, k, st, inv);
  }

  /** Call c takes the channel after it and is at the label Publish, with that publish open. */
  lemma Comes(cfg: Config, s: State, c: nat, job: Job, h: nat, k: nat, st: Stream, inv: State -> bool)
    returns (t: State)
    requires Passed(cfg, inv, s) && Carries(s, h, k, st) && Buffered(st) == 0 && s.pool == [h]
    requires c < |s.calls| && s.calls[c] == Call(job, Seeking, Undecided) && job.Confirm?
    ensures Passed(cfg, inv, t) && Carries(t, h, k, st)
    ensures Busy(t, c, Call(job, Publishing(h, 0, Lag(st)), Undecided), h)
  {
    t := Acquires(cfg, s, c, Call(job, Seeking, Undecided), h, k, st, inv);
    t := Acts(cfg, t, c, Call(job, Flushing(h), Undecided), h, k, st, Flush(false), inv);
  }

  // ---------------------------------------------------------------- all together

  ghost predicate RunLeads(cfg: Config, s: State, t: State) {
    exists steps: seq<Step> :: IsRun(cfg, s, steps) && After(cfg, s, steps) == t
  }

  lemma RunsOn(cfg: Config, s: State)
    ensures Passed(cfg, t => RunLeads(cfg, s, t), s)
  {
    assert IsRun(cfg, s, []) && After(cfg, s, []) == s;
    forall t, step | RunLeads(cfg, s, t) && Enabled(cfg, t, step) ensures RunLeads(cfg, s, Apply(cfg, t, step)) {
      var steps: seq<Step> :| IsRun(cfg, s, steps) && After(cfg, s, steps) == t;
      StaleConfirm.RunAppend(cfg, s, steps, step);
    }
  }

  lemma {:induction false} RunJoin(cfg: Config, s: State, steps: seq<Step>, more: seq<Step>)
    requires IsRun(cfg, s, steps) && IsRun(cfg, After(cfg, s, steps), more)
    ensures IsRun(cfg, s, steps + more)
    ensures After(cfg, s, steps + more) == After(cfg, After(cfg, s, steps), more)
    decreases |steps|
  {
    if steps == [] {
      assert steps + more == more;
    } else {
      assert (steps + more)[1..] == steps[1..] + more;
      RunJoin(cfg, Apply(cfg, s, steps[0]), steps[1..], more);
    }
  }

  /** The run up to the label Publish on the new channel, with another call's publish open there. */
  lemma ReachesNext(cfg: Config, s: State, c: nat, call: Call, h: nat, l: Letter, inv: State -> bool)
    returns (t: State, d: nat)
    requires Passed(cfg, inv, s) && Busy(s, c, call, h) && call.phase.Publishing? && call.outcome.Undecided?
    requires PoolKept(s) && l < |s.retry| && cfg.channelCount > 0
    ensures Passed(cfg, inv, t) && Busy(t, c, Call(call.job, Publishing(h, 0, 1), Undecided), h)
    ensures Carries(t, h, |s.streams|, Stream([d], [], 0, true, true)) && d != c
  {
    t := EmptyPool(cfg, s, c, call, h, l, inv);
    t := GivesUp(cfg, t, c, call, h, inv);
    d := |t.calls|;
    t := AnotherTimesOut(cfg, t, h, |s.streams|, l, inv);
    t := AnotherReturns(cfg, t, d, l, h, |s.streams|, Stream([d], [], 0, true, true), inv);
    t := Comes(cfg, t, c, call.job, h, |s.streams|, Stream([d], [], 0, true, true), inv);
  }

  /** No lag protects a confirmed publish: from every reachable state in which it is at the label
      Publish, some run gives it a success, on a channel opened after that state, for a publish
      that is another call's. Its next publish errs and it goes on with another channel. */
  lemma AnyCallCanBeMisled(cfg: Config, retry: seq<nat>, s: State, c: nat)
    requires WellWired(cfg) && Reachable(cfg, retry, s)
    requires c < |s.calls| && s.calls[c].job.Confirm? && s.calls[c].phase.Publishing?
    ensures exists steps: seq<Step> :: FalseSuccess.RunMisleads(cfg, s, steps, c, |s.streams|)
  {
    ReachableInv(cfg, retry, s);
    var h := s.calls[c].phase.host;
    assert Holds(s.calls, c, h);
    RunsOn(cfg, s);
    var t, d := ReachesNext(cfg, s, c, s.calls[c], h, s.calls[c].job.letter, t => RunLeads(cfg, s, t));
    var steps: seq<Step> :| IsRun(cfg, s, steps) && After(cfg, s, steps) == t;
    var more := FalseSuccess.MisledNow(cfg, t, c, h, |s.streams|, 0, 1);
    RunJoin(cfg, s, steps, more);
    assert FalseSuccess.RunMisleads(cfg, s, steps + more, c, |s.streams|);
  }
}
