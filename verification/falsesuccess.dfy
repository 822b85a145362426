/** When a call can be misled: the exact condition, at the label Publish, under which some run gives
  it, on the channel it holds, a success for somebody else's publish. */
module FalseSuccess {
  import opened Streams
  import opened Machine
  import opened Common
  import opened PoolCustody
  import opened Attribution
  import opened PipelineInvariant
  import opened Progress

  /** Among the publishes that are still to be confirmed, one has been acked or not answered. */
  ghost predicate Risky(st: Stream) {
    exists p :: Open(st, p)
  }

  predicate Open(st: Stream, p: int) {
    st.taken <= p < |st.sent| && (p < |st.verdicts| ==> st.verdicts[p])
  }

  /** The call's success on stream k rests on a publish that is not its own. */
  predicate Misled(t: State, c: nat, k: nat) {
    && c < |t.calls| && t.calls[c].outcome.Acked? && t.calls[c].outcome.stream == k
    && k < |t.streams| && t.calls[c].outcome.pos < |t.streams[k].sent|
    && t.streams[k].sent[t.calls[c].outcome.pos] != c
  }

  // ---------------------------------------------------------------- how a call is misled

  /** Call c is in phase p on host h, whose stream is number k. */
  predicate On(s: State, c: nat, h: nat, k: nat, p: Phase) {
    && c < |s.calls| && s.calls[c].phase == p && s.calls[c].job.Confirm? && HostOf(p) == Some(h)
    && HasStream(s, h) && s.hosts[h] == k && h < |s.log.keeper|
  }

  lemma Publishes(cfg: Config, s: State, c: nat, h: nat, k: nat, rounds: nat, lag: int)
    requires On(s, c, h, k, Publishing(h, rounds, lag)) && s.streams[k].open
    ensures Enabled(cfg, s, Do(c, Publish(true)))
    ensures var t := Apply(cfg, s, Do(c, Publish(true)));
      On(t, c, h, k, Waiting(h, rounds + 1, lag)) && t.streams[k] == Send(s.streams[k], c)
  {
  }

  lemma Reads(cfg: Config, s: State, c: nat, h: nat, k: nat, rounds: nat, lag: int)
    requires On(s, c, h, k, Waiting(h, rounds, lag)) && Buffered(s.streams[k]) > 0
    requires s.streams[k].taken < |s.streams[k].verdicts|
    ensures Enabled(cfg, s, Do(c, Confirmation))
    ensures var t := Apply(cfg, s, Do(c, Confirmation)); var st := s.streams[k];
      && k < |t.streams| && t.streams[k] == Take(st) && c < |t.calls|
      && if st.verdicts[st.taken] then t.calls[c].outcome.Acked? && t.calls[c].outcome.stream == k &&
          t.calls[c].outcome.pos == st.taken
         else On(t, c, h, k, Publishing(h, rounds, lag))
  {
  }

  lemma Answers(cfg: Config, s: State, c: nat, h: nat, k: nat, p: Phase)
    requires On(s, c, h, k, p) && CanAnswer(s.streams[k])
    ensures Enabled(cfg, s, BrokerAnswer(k, true))
    ensures var t := Apply(cfg, s, BrokerAnswer(k, true));
      On(t, c, h, k, p) && t.streams[k] == Answer(s.streams[k], true)
  {
  }

  /** The answer is in the buffer, or the broker gives it now. */
  lemma MisledWaiting(cfg: Config, s: State, c: nat, h: nat, k: nat, rounds: nat, lag: int) returns (steps: seq<Step>)
    requires On(s, c, h, k, Waiting(h, rounds, lag)) && s.streams[k].open && WellFormed(s.streams[k])
    requires Open(s.streams[k], s.streams[k].taken) && s.streams[k].sent[s.streams[k].taken] != c
    ensures IsRun(cfg, s, steps) && Misled(After(cfg, s, steps), c, k)
  {
    if Buffered(s.streams[k]) > 0 {
      Reads(cfg, s, c, h, k, rounds, lag);
      Here(cfg, s, Do(c, Confirmation));
      steps := [Do(c, Confirmation)];
    } else {
      Answers(cfg, s, c, h, k, Waiting(h, rounds, lag));
      var t := Apply(cfg, s, BrokerAnswer(k, true));
      Reads(cfg, t, c, h, k, rounds, lag);
      Here(cfg, t, Do(c, Confirmation));
      OneMore(cfg, s, BrokerAnswer(k, true), [Do(c, Confirmation)]);
      steps := [BrokerAnswer(k, true)] + [Do(c, Confirmation)];
    }
  }

  /** The first outstanding answer is, or can be, an ack for somebody else. */
  lemma MisledNow(cfg: Config, s: State, c: nat, h: nat, k: nat, rounds: nat, lag: int) returns (steps: seq<Step>)
    requires On(s, c, h, k, Publishing(h, rounds, lag)) && s.streams[k].open && WellFormed(s.streams[k])
    requires Open(s.streams[k], s.streams[k].taken) && s.streams[k].sent[s.streams[k].taken] != c
    ensures IsRun(cfg, s, steps) && Misled(After(cfg, s, steps), c, k)
  {
    Publishes(cfg, s, c, h, k, rounds, lag);
    var t := Apply(cfg, s, Do(c, Publish(true)));
    var rest := MisledWaiting(cfg, t, c, h, k, rounds + 1, lag);
    OneMore(cfg, s, Do(c, Publish(true)), rest);
    steps := [Do(c, Publish(true))] + rest;
  }

  /** A nack in front of it is read first, and answered with one more publish. */
  lemma {:induction false} CanBeMisled(cfg: Config, s: State, c: nat, h: nat, k: nat, rounds: nat, lag: int, p: nat)
    returns (steps: seq<Step>)
    requires On(s, c, h, k, Publishing(h, rounds, lag)) && s.streams[k].open && WellFormed(s.streams[k])
    requires Open(s.streams[k], p) && s.streams[k].sent[p] != c
    requires forall i :: s.streams[k].taken <= i < p ==> !Open(s.streams[k], i)
    ensures IsRun(cfg, s, steps) && Misled(After(cfg, s, steps), c, k)
    decreases p - s.streams[k].taken
  {
    var st := s.streams[k];
    if p == st.taken {
      steps := MisledNow(cfg, s, c, h, k, rounds, lag);
    } else {
      assert !Open(st, st.taken);
      Publishes(cfg, s, c, h, k, rounds, lag);
      var t := Apply(cfg, s, Do(c, Publish(true)));
      Reads(cfg, t, c, h, k, rounds + 1, lag);
      var u := Apply(cfg, t, Do(c, Confirmation));
      assert u.streams[k] == Take(Send(st, c));
      forall i | st.taken + 1 <= i < p ensures !Open(u.streams[k], i) { assert !Open(st, i); }
      var rest := CanBeMisled(cfg, u, c, h, k, rounds + 1, lag, p);
      OneMore(cfg, t, Do(c, Confirmation), rest);
      OneMore(cfg, s, Do(c, Publish(true)), [Do(c, Confirmation)] + rest);
      steps := [Do(c, Publish(true))] + ([Do(c, Confirmation)] + rest);
    }
  }

  lemma {:induction false} FirstOpen(st: Stream, p: nat) returns (q: nat)
    requires Open(st, p)
    ensures Open(st, q) && forall i :: st.taken <= i < q ==> !Open(st, i)
    decreases p
  {
    if i :| st.taken <= i < p && Open(st, i) { q := FirstOpen(st, i); } else { q := p; }
  }

  // ---------------------------------------------------------------- when it cannot be

  /** Everything that was outstanding has been nacked. */
  predicate AllNacked(was: Stream) {
    && was.taken <= |was.verdicts| == |was.sent|
    && forall i :: was.taken <= i < |was.sent| ==> !was.verdicts[i]
  }

  /** On host h call c works on stream k. */
  predicate AtHome(t: State, c: nat, h: nat, k: nat) {
    c < |t.calls| && HostOf(t.calls[c].phase) == Some(h) && HasStream(t, h) && t.hosts[h] == k
  }

  predicate Sending(p: Phase) {
    p.Publishing? || p.Waiting?
  }

  /** Since then call c has published `rounds` times on stream k, or is about to give that stream
      up, or has done so; or it is decided and was not misled. */
  predicate Place(was: Stream, t: State, c: nat, h: nat, k: nat) {
    && c < |t.calls| && k < |t.streams|
    && var call := t.calls[c];
    if !call.outcome.Undecided? then !Misled(t, c, k)
    else k in t.hosts ==>
      && AtHome(t, c, h, k)
      && (if Sending(call.phase) then |t.streams[k].sent| == |was.sent| + call.phase.rounds else HoldsLink(call.phase))
  }

  ghost predicate Safe(was: Stream, t: State, c: nat, h: nat, k: nat) {
    k < |t.streams| && Extends(was, t.streams[k]) && Place(was, t, c, h, k)
  }

  /** A decided call stays as it is, and so does the publish its success rests on. */
  lemma DecidedStays(cfg: Config, s: State, step: Step, c: nat, k: nat)
    requires Inv(cfg, s) && Enabled(cfg, s, step) && c < |s.calls| && !s.calls[c].outcome.Undecided? && k < |s.streams|
    requires !Misled(s, c, k) && AllExtend(s.streams, Apply(cfg, s, step).streams)
    ensures c < |Apply(cfg, s, step).calls| && !Apply(cfg, s, step).calls[c].outcome.Undecided?
    ensures !Misled(Apply(cfg, s, step), c, k)
  {
    assert Evidence(s.streams, c, s.calls[c].outcome);
    OutcomeStays(cfg, s, step, c);
  }

  lemma OutcomeStays(cfg: Config, s: State, step: Step, c: nat)
    requires Shaped(s) && Enabled(cfg, s, step) && c < |s.calls| && !s.calls[c].outcome.Undecided?
    ensures c < |Apply(cfg, s, step).calls| && Apply(cfg, s, step).calls[c].outcome == s.calls[c].outcome
  {
    if step.Do? && step.call == c {
      DecidedNext(s.calls[step.call], ViewOf(s, s.calls[step.call].phase), step.act);
    } else if !step.Do? {
      OtherCalls(cfg, s, step);
    }
  }

  lemma DecidedNext(call: Call, v: View, a: Act)
    requires Fits(call) && CanDo(call, v, a) && !call.outcome.Undecided?
    ensures NextCall(call, v, a).outcome == call.outcome
  {
  }

  /** A stream that no host carries any more is never carried again. */
  lemma GoneStays(cfg: Config, s: State, step: Step, k: nat)
    requires Enabled(cfg, s, step) && k < |s.streams| && k !in s.hosts
    ensures k !in Apply(cfg, s, step).hosts
  {
    if !step.Do? { OtherHosts(cfg, s, step); }
  }

  /** And no success comes from it. */
  lemma GoneNotMisled(cfg: Config, s: State, c: nat, a: Act, k: nat)
    requires Inv(cfg, s) && ActEnabled(cfg, s, c, a) && k !in s.hosts && s.calls[c].outcome.Undecided?
    ensures !Misled(Perform(cfg, s, c, a), c, k)
  {
    var v := ViewOf(s, s.calls[c].phase);
    NextReads(s.calls[c], v, a);
    if HostOf(s.calls[c].phase).Some? { assert s.hosts[HostOf(s.calls[c].phase).value] in s.hosts; }
  }

  /** The call's own act while it is on stream k. */
  lemma HomeAct(cfg: Config, was: Stream, s: State, c: nat, a: Act, h: nat, k: nat)
    requires Inv(cfg, s) && ActEnabled(cfg, s, c, a) && AllNacked(was) && Safe(was, s, c, h, k)
    requires s.calls[c].job.Confirm? && s.calls[c].outcome.Undecided? && k in s.hosts
    ensures Place(was, Perform(cfg, s, c, a), c, h, k)
  {
    assert Holds(s.calls, c, h);
    if Sending(s.calls[c].phase) {
      assert HostTracks(s.calls, s.log.keeper[h], h < cfg.channelCount, s.streams[k]);
      HomeSending(cfg, was, s, c, a, h, k);
    } else {
      HomeMaking(cfg, was, s, c, a, h, k);
    }
  }

  /** While it makes a new channel: it keeps the old stream until it has one. */
  lemma HomeMaking(cfg: Config, was: Stream, s: State, c: nat, a: Act, h: nat, k: nat)
    requires HostsOk(s.hosts, s.streams) && ActEnabled(cfg, s, c, a) && AtHome(s, c, h, k) && k < |s.streams|
    requires s.calls[c].job.Confirm? && s.calls[c].outcome.Undecided? && HoldsLink(s.calls[c].phase)
    ensures Place(was, Perform(cfg, s, c, a), c, h, k)
  {
  }

  /** Publishing and waiting change no host. */
  lemma HostsKept(cfg: Config, s: State, c: nat, a: Act, h: nat)
    requires ActEnabled(cfg, s, c, a) && Sending(s.calls[c].phase) && HostOf(s.calls[c].phase) == Some(h)
    ensures var t := Perform(cfg, s, c, a);
      && t.hosts == s.hosts
      && t.streams == s.streams[s.hosts[h] := NextStream(StreamOf(s, h), c, a)]
      && t.calls == s.calls[c := NextCall(s.calls[c], ViewOf(s, s.calls[c].phase), a)]
  {
  }

  /** What the call can do there, and where that leaves it. */
  lemma SendingNext(call: Call, v: View, a: Act)
    requires CanDo(call, v, a) && Sending(call.phase) && call.job.Confirm? && call.outcome.Undecided?
    ensures var next := NextCall(call, v, a); var later := NextStream(v.stream, 0, a);
      if next.outcome.Acked? then ReadsAck(v.stream) && next.outcome.stream == v.number &&
          next.outcome.pos == v.stream.taken && a.Confirmation?
      else if next.outcome.Undecided? then
        && HostOf(next.phase) == HostOf(call.phase)
        && (if Sending(next.phase) then |later.sent| == |v.stream.sent| + next.phase.rounds - call.phase.rounds
            else HoldsLink(next.phase))
      else true
  {
  }

  /** While it publishes and waits: what it reads as an ack is behind everything that was
      outstanding, so it is its own. */
  lemma HomeSending(cfg: Config, was: Stream, s: State, c: nat, a: Act, h: nat, k: nat)
    requires ActEnabled(cfg, s, c, a) && AllNacked(was) && k < |s.streams| && Extends(was, s.streams[k])
    requires AtHome(s, c, h, k) && Sending(s.calls[c].phase) && Tracks(c, s.calls[c].phase, s.streams[k])
    requires |s.streams[k].sent| == |was.sent| + s.calls[c].phase.rounds
    requires s.calls[c].job.Confirm? && s.calls[c].outcome.Undecided?
    ensures Place(was, Perform(cfg, s, c, a), c, h, k)
  {
    var call, v := s.calls[c], ViewOf(s, s.calls[c].phase);
    HostsKept(cfg, s, c, a, h);
    SendingNext(call, v, a);
    if ReadsAck(v.stream) { OwnAck(was, v.stream, c, call.phase.rounds); }
  }

  lemma OwnAck(was: Stream, st: Stream, c: nat, rounds: nat)
    requires AllNacked(was) && Extends(was, st) && OwnTail(st, c, rounds) && |st.sent| == |was.sent| + rounds
    requires ReadsAck(st)
    ensures st.taken < |st.sent| && st.sent[st.taken] == c
  {
    assert forall i :: was.taken <= i < |was.sent| ==> st.verdicts[i] == was.verdicts[i];
  }

  lemma MyStep(cfg: Config, was: Stream, s: State, c: nat, a: Act, h: nat, k: nat)
    requires Inv(cfg, s) && ActEnabled(cfg, s, c, a) && AllNacked(was) && Safe(was, s, c, h, k)
    requires s.calls[c].job.Confirm?
    ensures Place(was, Perform(cfg, s, c, a), c, h, k)
  {
    DoExtends(cfg, s, c, a);
    if !s.calls[c].outcome.Undecided? {
      DecidedStays(cfg, s, Do(c, a), c, k);
    } else if k !in s.hosts {
      GoneStays(cfg, s, Do(c, a), k);
      GoneNotMisled(cfg, s, c, a, k);
    } else {
      HomeAct(cfg, was, s, c, a, h, k);
    }
  }

  /** An act of another call leaves the stream of c alone. */
  lemma OtherAct(cfg: Config, was: Stream, s: State, c: nat, d: nat, a: Act, h: nat, k: nat)
    requires Inv(cfg, s) && ActEnabled(cfg, s, d, a) && d != c && Safe(was, s, c, h, k)
    ensures Place(was, Perform(cfg, s, d, a), c, h, k)
  {
    DoExtends(cfg, s, d, a);
    if !s.calls[c].outcome.Undecided? {
      DecidedStays(cfg, s, Do(d, a), c, k);
    } else if k !in s.hosts {
      GoneStays(cfg, s, Do(d, a), k);
    } else {
      assert Holds(s.calls, c, h);
      if HostOf(s.calls[d].phase).Some? { assert Holds(s.calls, d, HostOf(s.calls[d].phase).value); }
      HostAfter(cfg, s, d, a, h);
      HostStays(cfg, s, d, a, h);
    }
  }

  lemma HostStays(cfg: Config, s: State, d: nat, a: Act, h: nat)
    requires ActEnabled(cfg, s, d, a) && h < |s.hosts| && HostOf(s.calls[d].phase) != Some(h)
    ensures h < |Perform(cfg, s, d, a).hosts| && Perform(cfg, s, d, a).hosts[h] == s.hosts[h]
  {
  }

  /** Neither does any step that is no call's. */
  lemma OtherPlace(cfg: Config, was: Stream, s: State, c: nat, step: Step, h: nat, k: nat)
    requires Inv(cfg, s) && Enabled(cfg, s, step) && !step.Do? && Safe(was, s, c, h, k)
    ensures AllExtend(s.streams, Apply(cfg, s, step).streams) && Place(was, Apply(cfg, s, step), c, h, k)
  {
    OtherExtends(cfg, s, step);
    if !s.calls[c].outcome.Undecided? {
      DecidedStays(cfg, s, step, c, k);
    } else {
      OtherCalls(cfg, s, step);
      OtherHosts(cfg, s, step);
    }
  }

  lemma OtherExtends(cfg: Config, s: State, step: Step)
    requires StreamsOk(s) && Enabled(cfg, s, step) && !step.Do?
    ensures AllExtend(s.streams, Apply(cfg, s, step).streams)
    ensures forall k :: 0 <= k < |s.streams| ==> Apply(cfg, s, step).streams[k].sent == s.streams[k].sent
  {
    if FromOutside(step) {
      OutsideLength(cfg, s, step);
      forall k | 0 <= k < |s.streams|
        ensures Extends(s.streams[k], Apply(cfg, s, step).streams[k])
        ensures Apply(cfg, s, step).streams[k].sent == s.streams[k].sent
      {
        OutsideStream(cfg, s, step, k);
        StreamTracks([], None, false, s.streams[k], step.BrokerAnswer? && step.ack);
      }
    } else {
      OtherStreams(cfg, s, step);
    }
  }

  lemma SafeStep(cfg: Config, was: Stream, s: State, c: nat, step: Step, h: nat, k: nat)
    requires Inv(cfg, s) && Enabled(cfg, s, step) && AllNacked(was) && Safe(was, s, c, h, k) && s.calls[c].job.Confirm?
    ensures Safe(was, Apply(cfg, s, step), c, h, k) && Apply(cfg, s, step).calls[c].job.Confirm?
  {
    if step.Do? {
      DoExtends(cfg, s, step.call, step.act);
      NextFits(s.calls[step.call], ViewOf(s, s.calls[step.call].phase), step.act);
      if step.call == c { MyStep(cfg, was, s, c, step.act, h, k); }
          else { OtherAct(cfg, was, s, c, step.call, step.act, h, k); }
    } else {
      OtherPlace(cfg, was, s, c, step, h, k);
      OtherCalls(cfg, s, step);
    }
  }

  lemma {:induction false} NeverMisled(cfg: Config, was: Stream, s: State, c: nat, steps: seq<Step>, h: nat, k: nat)
    requires Inv(cfg, s) && IsRun(cfg, s, steps) && AllNacked(was) && Safe(was, s, c, h, k) && s.calls[c].job.Confirm?
    ensures !Misled(After(cfg, s, steps), c, k)
    decreases |steps|
  {
    if steps != [] {
      SafeStep(cfg, was, s, c, steps[0], h, k);
      StepInv(cfg, s, steps[0]);
      NeverMisled(cfg, was, Apply(cfg, s, steps[0]), c, steps[1..], h, k);
    }
  }

  /** At the label Publish, before its first publish on an open channel, a call can be given a
      success on that channel for somebody else's publish if and only if one of the publishes that
      are outstanding there has been acked or not answered. With nothing outstanding it cannot; a
      lag above 0 does no harm there exactly when all of it is nacks that wait in the buffer. This
      is about the one channel: a call whose publish errs goes on with another one, where it can
      be misled whatever it left behind (ChannelChange.AnyCallCanBeMisled). */
  lemma FalseSuccessExactly(cfg: Config, retry: seq<nat>, s: State, c: nat)
    requires Reachable(cfg, retry, s) && c < |s.calls| && s.calls[c].job.Confirm?
    requires s.calls[c].phase.Publishing? && s.calls[c].phase.rounds == 0
    requires var h := s.calls[c].phase.host; HasStream(s, h) && StreamOf(s, h).open
    ensures var h := s.calls[c].phase.host;
      Risky(StreamOf(s, h)) <==> exists steps: seq<Step> :: RunMisleads(cfg, s, steps, c, s.hosts[h])
    ensures Lag(StreamOf(s, s.calls[c].phase.host)) == 0 ==> !Risky(StreamOf(s, s.calls[c].phase.host))
  {
    ReachableInv(cfg, retry, s);
    var h := s.calls[c].phase.host;
    if Risky(StreamOf(s, h)) {
      var steps := RiskyMisleads(cfg, s, c, h);
      assert RunMisleads(cfg, s, steps, c, s.hosts[h]);
    } else {
      forall steps: seq<Step> ensures !RunMisleads(cfg, s, steps, c, s.hosts[h]) {
        if IsRun(cfg, s, steps) { NackedNeverMisleads(cfg, s, c, h, steps); }
      }
    }
  }

  ghost predicate RunMisleads(cfg: Config, s: State, steps: seq<Step>, c: nat, k: nat) {
    IsRun(cfg, s, steps) && Misled(After(cfg, s, steps), c, k)
  }

  lemma RiskyMisleads(cfg: Config, s: State, c: nat, h: nat) returns (steps: seq<Step>)
    requires Inv(cfg, s) && c < |s.calls| && s.calls[c].job.Confirm? && HasStream(s, h) && StreamOf(s, h).open
    requires s.calls[c].phase.Publishing? && s.calls[c].phase.rounds == 0 && s.calls[c].phase.host == h
    requires Risky(StreamOf(s, h))
    ensures IsRun(cfg, s, steps) && Misled(After(cfg, s, steps), c, s.hosts[h])
  {
    assert Holds(s.calls, c, h);
    assert HostTracks(s.calls, s.log.keeper[h], h < cfg.channelCount, StreamOf(s, h));
    var p :| Open(StreamOf(s, h), p);
    var q := FirstOpen(StreamOf(s, h), p);
    steps := CanBeMisled(cfg, s, c, h, s.hosts[h], 0, s.calls[c].phase.lag, q);
  }

  lemma NotRisky(st: Stream)
    requires WellFormed(st) && !Risky(st)
    ensures AllNacked(st)
  {
    assert !Open(st, |st.verdicts|);
    forall i | st.taken <= i < |st.sent| ensures !st.verdicts[i] { assert !Open(st, i); }
  }

  lemma NackedNeverMisleads(cfg: Config, s: State, c: nat, h: nat, steps: seq<Step>)
    requires Inv(cfg, s) && c < |s.calls| && s.calls[c].job.Confirm? && HasStream(s, h) && IsRun(cfg, s, steps)
    requires s.calls[c].phase.Publishing? && s.calls[c].phase.rounds == 0 && s.calls[c].phase.host == h
    requires !Risky(StreamOf(s, h))
    ensures !Misled(After(cfg, s, steps), c, s.hosts[h])
  {
    var st := StreamOf(s, h);
    assert Holds(s.calls, c, h);
    NotRisky(st);
    NeverMisled(cfg, st, s, c, steps, h, s.hosts[h]);
  }
}
