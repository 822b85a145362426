/** Which publish a confirmation belongs to, over every run of the machine.

  `lag` is the number of unanswered publishes a call finds on its channel after its flush.
  Each confirmation the call then reads answers the publish exactly `lag` places before its
  latest one; so a success is about the call's own letter exactly when lag < rounds. */
module Attribution {
  import opened Streams
  import opened Machine
  import opened Common
  import opened PoolCustody

  // ---------------------------------------------------------------- one call on its own channel

  /** An untainted stream has nothing outstanding between confirmed publishes. */
  predicate Quiet(st: Stream) {
    !st.tainted ==> Lag(st) == 0
  }

  /** The lag law for call c in the middle of its work on a stream. */
  ghost predicate Tracks(c: nat, p: Phase, st: Stream) {
    match p
    case Publishing(_, rounds, lag) =>
      && OwnTail(st, c, rounds) && lag >= 0
      && (st.open ==> Lag(st) == lag)
      && (!st.tainted ==> lag == 0)
    case Waiting(_, rounds, lag) =>
      && OwnTail(st, c, rounds) && rounds >= 1 && lag >= 0
      && Lag(st) == lag + 1
      && (!st.tainted ==> lag == 0)
    case Reconnecting(_, _) => true
    case Recovering(_, _) => true
    case Clearing(_, _) => true
    case Making(_, _) => true
    case Dropping(_) => true
    case _ => Quiet(st)
  }

  /** A phase in which the call may have publishes of its own on the current stream. */
  predicate Sends(p: Phase) {
    p.Publishing? || p.Waiting? || HoldsLink(p)
  }

  /** What a success records: the ack that was read is for the publish `lag` places before the
      call's latest one, and that publish is the call's own iff lag < rounds. */
  ghost predicate Evidence(streams: seq<Stream>, c: nat, o: Outcome) {
    o.Acked? ==>
      && o.stream < |streams|
      && var st := streams[o.stream];
      && o.pos < st.taken <= |st.verdicts| <= |st.sent|
      && st.verdicts[o.pos]
      && o.lag >= 0 && o.pos + o.lag == o.mine < |st.sent|
      && st.sent[o.mine] == c
      && (st.sent[o.pos] == c <==> o.lag < o.rounds)
      && (!st.tainted ==> o.lag == 0)
  }

  /** A stream only grows. */
  ghost predicate Extends(st: Stream, later: Stream) {
    && WellFormed(later) && st.taken <= later.taken
    && st.sent <= later.sent && st.verdicts <= later.verdicts
    && (later.open ==> st.open) && (st.tainted ==> later.tainted)
  }

  lemma NextExtends(st: Stream, who: nat, a: Act)
    requires WellFormed(st)
    ensures Extends(st, NextStream(st, who, a))
  {
  }

  lemma SendTail(st: Stream, c: nat, n: nat)
    requires OwnTail(st, c, n)
    ensures OwnTail(Send(st, c), c, n + 1)
  {
  }

  /** One act of the holder keeps the lag law. */
  lemma NextTracks(c: nat, call: Call, v: View, a: Act)
    requires Fits(call) && CanDo(call, v, a) && !a.Acquire? && !a.TakeLink? && !a.PutBack? && !a.Drop?
    requires !(a.Remake? && a.ok)
    requires WellFormed(v.stream) && Tracks(c, call.phase, v.stream)
    requires call.phase.Flushing? ==> c !in v.stream.sent
    ensures Tracks(c, NextCall(call, v, a).phase, NextStream(v.stream, c, a))
  {
    if a == Publish(true) { SendTail(v.stream, c, call.phase.rounds); }
  }

  /** When the act is the success, the ledger entry is right. */
  lemma NextEvidence(c: nat, call: Call, v: View, a: Act, streams: seq<Stream>)
    requires Fits(call) && CanDo(call, v, a) && call.phase.Waiting?
    requires WellFormed(v.stream) && Tracks(c, call.phase, v.stream)
    requires v.number < |streams| && streams[v.number] == NextStream(v.stream, c, a)
    ensures Evidence(streams, c, NextCall(call, v, a).outcome)
  {
  }

  // ---------------------------------------------------------------- all calls and all channels

  ghost predicate StreamsOk(s: State) {
    forall k :: 0 <= k < |s.streams| ==> WellFormed(s.streams[k])
  }

  /** A cached host in the pool is quiet; a transient one that was dropped is of no concern. */
  ghost predicate HostTracks(calls: seq<Call>, keeper: Option<nat>, cached: bool, st: Stream) {
    match keeper
    case None => cached ==> Quiet(st)
    case Some(c) => c < |calls| && Tracks(c, calls[c].phase, st)
  }

  ghost predicate Tracked(n: nat, s: State) {
    && |s.log.keeper| == |s.hosts| && HostsOk(s.hosts, s.streams)
    && forall h :: 0 <= h < |s.hosts| ==> HostTracks(s.calls, s.log.keeper[h], h < n, s.streams[s.hosts[h]])
  }

  /** On cached channels an undecided call has publishes only where it is working. */
  ghost predicate OnlyHere(n: nat, s: State, c: nat, h: nat) {
    c < |s.calls| && h < n && h < |s.hosts| && s.hosts[h] < |s.streams| &&
    s.calls[c].outcome.Undecided? && c in s.streams[s.hosts[h]].sent
    ==> HostOf(s.calls[c].phase) == Some(h) && Sends(s.calls[c].phase)
  }

  ghost predicate Local(n: nat, s: State) {
    && (forall c: nat, h: nat :: OnlyHere(n, s, c, h))
    && (forall k, i :: 0 <= k < |s.streams| && 0 <= i < |s.streams[k].sent| ==> s.streams[k].sent[i] < |s.calls|)
  }

  ghost predicate Proven(s: State) {
    && (forall c :: 0 <= c < |s.calls| ==> Evidence(s.streams, c, s.calls[c].outcome))
    && (forall c, d :: 0 <= c < d < |s.calls| && s.calls[c].outcome.Acked? && s.calls[d].outcome.Acked?
          && s.calls[c].outcome.stream == s.calls[d].outcome.stream
          ==> s.calls[c].outcome.pos != s.calls[d].outcome.pos)
  }

  ghost predicate Attributed(cfg: Config, s: State) {
    StreamsOk(s) && Tracked(cfg.channelCount, s) && Local(cfg.channelCount, s) && Proven(s)
  }

  lemma InitAttributed(cfg: Config, retry: seq<nat>)
    ensures Attributed(cfg, Init(cfg, retry))
  {
  }

  ghost predicate AllExtend(streams: seq<Stream>, later: seq<Stream>) {
    |streams| <= |later| && forall k :: 0 <= k < |streams| ==> Extends(streams[k], later[k])
  }

  /** An act opens a new stream, or works on that of the held channel. */
  lemma StreamsAfter(cfg: Config, s: State, c: nat, a: Act)
    requires ActEnabled(cfg, s, c, a)
    ensures var streams := NextStreams(s, c, a);
      if a.TakeLink? then streams == s.streams + [Shut(Fresh())]
      else if a.Remake? && a.ok then streams == s.streams + [Fresh()]
      else if HostOf(s.calls[c].phase).Some? then
        var h := HostOf(s.calls[c].phase).value;
        streams == s.streams[s.hosts[h] := NextStream(StreamOf(s, h), c, a)]
      else streams == s.streams
  {
  }

  lemma AppendExtends(streams: seq<Stream>, st: Stream)
    requires WellFormed(st) && forall k :: 0 <= k < |streams| ==> WellFormed(streams[k])
    ensures AllExtend(streams, streams + [st])
    ensures var next := streams + [st]; forall k :: 0 <= k < |next| ==> WellFormed(next[k])
  {
  }

  lemma UpdateExtends(streams: seq<Stream>, i: nat, st: Stream)
    requires i < |streams| && Extends(streams[i], st) && forall k :: 0 <= k < |streams| ==> WellFormed(streams[k])
    ensures AllExtend(streams, streams[i := st])
  {
  }

  lemma NextStreamsExtend(cfg: Config, s: State, c: nat, a: Act)
    requires StreamsOk(s) && ActEnabled(cfg, s, c, a)
    ensures var streams := NextStreams(s, c, a);
      AllExtend(s.streams, streams) && forall k :: 0 <= k < |streams| ==> WellFormed(streams[k])
  {
    StreamsAfter(cfg, s, c, a);
    AppendExtends(s.streams, Fresh());
    AppendExtends(s.streams, Shut(Fresh()));
    var h := HostOf(s.calls[c].phase);
    if h.Some? {
      NextExtends(StreamOf(s, h.value), c, a);
      UpdateExtends(s.streams, s.hosts[h.value], NextStream(StreamOf(s, h.value), c, a));
    }
  }

  lemma DoExtends(cfg: Config, s: State, c: nat, a: Act)
    requires StreamsOk(s) && ActEnabled(cfg, s, c, a)
    ensures AllExtend(s.streams, Perform(cfg, s, c, a).streams) && StreamsOk(Perform(cfg, s, c, a))
  {
    NextStreamsExtend(cfg, s, c, a);
  }

  lemma EvidenceLasts(streams: seq<Stream>, later: seq<Stream>, c: nat, o: Outcome)
    requires Evidence(streams, c, o) && AllExtend(streams, later)
    ensures Evidence(later, c, o)
  {
  }

  /** What an act does to the current stream of a host. */
  lemma HostAfter(cfg: Config, s: State, c: nat, a: Act, h: nat)
    requires HostsOk(s.hosts, s.streams) && ActEnabled(cfg, s, c, a) && h < |s.hosts|
    ensures HasStream(Perform(cfg, s, c, a), h)
    ensures StreamOf(Perform(cfg, s, c, a), h) ==
            if HostOf(s.calls[c].phase) != Some(h) then StreamOf(s, h)
            else if a.Remake? && a.ok then Fresh() else NextStream(StreamOf(s, h), c, a)
  {
  }

  lemma MyHost(cfg: Config, s: State, c: nat, a: Act, h: nat)
    requires Custody(cfg, s) && StreamsOk(s) && Tracked(cfg.channelCount, s) && Local(cfg.channelCount, s)
    requires ActEnabled(cfg, s, c, a)
    requires HostOf(s.calls[c].phase) == Some(h)
    ensures var t := Perform(cfg, s, c, a);
      h < |s.hosts| && HasStream(t, h) && HostTracks(t.calls, t.log.keeper[h], h < cfg.channelCount, StreamOf(t, h))
  {
    assert Holds(s.calls, c, h) && OnlyHere(cfg.channelCount, s, c, h);
    HostAfter(cfg, s, c, a, h);
    var v := ViewOf(s, s.calls[c].phase);
    assert HostTracks(s.calls, s.log.keeper[h], h < cfg.channelCount, v.stream);
    if !a.PutBack? && !a.Drop? && !(a.Remake? && a.ok) { NextTracks(c, s.calls[c], v, a); }
  }

  lemma OtherHost(cfg: Config, s: State, c: nat, a: Act, h: nat)
    requires Custody(cfg, s) && StreamsOk(s) && Tracked(cfg.channelCount, s) && ActEnabled(cfg, s, c, a)
    requires HostOf(s.calls[c].phase) != Some(h) && h < |s.hosts|
    ensures var t := Perform(cfg, s, c, a);
      HasStream(t, h) && HostTracks(t.calls, t.log.keeper[h], h < cfg.channelCount, StreamOf(t, h))
  {
    HostAfter(cfg, s, c, a, h);
    assert HostTracks(s.calls, s.log.keeper[h], h < cfg.channelCount, StreamOf(s, h));
    if s.log.keeper[h].Some? {
      assert Holds(s.calls, s.log.keeper[h].value, h);
    }
  }

  lemma DoTracked(cfg: Config, s: State, c: nat, a: Act)
    requires Custody(cfg, s) && StreamsOk(s) && Tracked(cfg.channelCount, s) && Local(cfg.channelCount, s)
    requires ActEnabled(cfg, s, c, a)
    ensures Tracked(cfg.channelCount, Perform(cfg, s, c, a))
  {
    var t := Perform(cfg, s, c, a);
    DoHosts(cfg, s, c, a);
    DoCustody(cfg, s, c, a);
    forall h | 0 <= h < |t.hosts| ensures HostTracks(t.calls, t.log.keeper[h], h < cfg.channelCount,
        t.streams[t.hosts[h]]) {
      if h == |s.hosts| {
        assert a.TakeLink?;
      } else if HostOf(s.calls[c].phase) == Some(h) {
        MyHost(cfg, s, c, a, h);
      } else {
        OtherHost(cfg, s, c, a, h);
      }
    }
  }

  // A call that is undecided after the act was undecided before it.
  lemma NextUndecided(call: Call, v: View, a: Act)
    requires Fits(call) && CanDo(call, v, a) && NextCall(call, v, a).outcome.Undecided?
    ensures call.outcome.Undecided?
    ensures Sends(call.phase) && !call.job.Transient? && !(a.Remake? && a.ok) ==> Sends(NextCall(call, v, a).phase)
    ensures a.Publish? && a.ok ==> NextCall(call, v, a).phase.Waiting?
    ensures !(a.Emit? && a.ok)
  {
  }

  lemma DoOnlyHere(cfg: Config, s: State, c: nat, a: Act, d: nat, h: nat)
    requires Custody(cfg, s) && Local(cfg.channelCount, s) && ActEnabled(cfg, s, c, a)
    ensures OnlyHere(cfg.channelCount, Perform(cfg, s, c, a), d, h)
  {
    var t := Perform(cfg, s, c, a);
    var v := ViewOf(s, s.calls[c].phase);
    if h < cfg.channelCount {
      HostAfter(cfg, s, c, a, h);
      NextHost(s.calls[c], v, a);
      assert OnlyHere(cfg.channelCount, s, d, h);
      if HostOf(s.calls[c].phase) == Some(h) { assert Holds(s.calls, c, h); }
      if d == c && t.calls[c].outcome.Undecided? { NextUndecided(s.calls[c], v, a); }
    }
  }

  lemma DoSent(cfg: Config, s: State, c: nat, a: Act)
    requires Custody(cfg, s) && Local(cfg.channelCount, s) && ActEnabled(cfg, s, c, a)
    ensures var t := Perform(cfg, s, c, a);
      forall k, i :: 0 <= k < |t.streams| && 0 <= i < |t.streams[k].sent| ==> t.streams[k].sent[i] < |t.calls|
  {
  }

  lemma DoLocal(cfg: Config, s: State, c: nat, a: Act)
    requires Custody(cfg, s) && Local(cfg.channelCount, s) && ActEnabled(cfg, s, c, a)
    ensures Local(cfg.channelCount, Perform(cfg, s, c, a))
  {
    var t := Perform(cfg, s, c, a);
    DoSent(cfg, s, c, a);
    forall d: nat, h: nat ensures OnlyHere(cfg.channelCount, t, d, h) { DoOnlyHere(cfg, s, c, a, d, h); }
  }

  lemma DoEvidence(cfg: Config, s: State, c: nat, a: Act, d: nat)
    requires Custody(cfg, s) && Attributed(cfg, s) && ActEnabled(cfg, s, c, a) && d < |s.calls|
    ensures Evidence(Perform(cfg, s, c, a).streams, d, Perform(cfg, s, c, a).calls[d].outcome)
  {
    var t := Perform(cfg, s, c, a);
    var call, v := s.calls[c], ViewOf(s, s.calls[c].phase);
    DoExtends(cfg, s, c, a);
    EvidenceLasts(s.streams, t.streams, d, s.calls[d].outcome);
    if d == c && t.calls[c].outcome != call.outcome && call.phase.Waiting? {
      var h := call.phase.host;
      assert Holds(s.calls, c, h);
      assert HostTracks(s.calls, s.log.keeper[h], h < cfg.channelCount, v.stream);
      NextEvidence(c, call, v, a, t.streams);
    }
  }

  /** A new success reads an answer that nobody has read before. */
  lemma NextReads(call: Call, v: View, a: Act)
    requires CanDo(call, v, a)
    ensures var o := NextCall(call, v, a).outcome;
      o == call.outcome || !o.Acked? || (o.stream == v.number && o.pos == v.stream.taken)
  {
  }

  lemma DoProven(cfg: Config, s: State, c: nat, a: Act)
    requires Custody(cfg, s) && Attributed(cfg, s) && ActEnabled(cfg, s, c, a)
    ensures Proven(Perform(cfg, s, c, a))
  {
    var t := Perform(cfg, s, c, a);
    forall d | 0 <= d < |t.calls| ensures Evidence(t.streams, d, t.calls[d].outcome) {
      DoEvidence(cfg, s, c, a, d);
    }
    var v := ViewOf(s, s.calls[c].phase);
    NextReads(s.calls[c], v, a);
    assert t.calls == s.calls[c := NextCall(s.calls[c], v, a)];
    forall d, e | 0 <= d < e < |t.calls| && t.calls[d].outcome.Acked? && t.calls[e].outcome.Acked?
                  && t.calls[d].outcome.stream == t.calls[e].outcome.stream
      ensures t.calls[d].outcome.pos != t.calls[e].outcome.pos
    {
      assert Evidence(s.streams, d, s.calls[d].outcome) && Evidence(s.streams, e, s.calls[e].outcome);
      if d == c || e == c {
        assert t.calls[c].outcome == s.calls[c].outcome || v.stream == s.streams[t.calls[c].outcome.stream];
      }
    }
  }

  /** The broker answers, or the network closes a channel. */
  lemma StreamTracks(calls: seq<Call>, keeper: Option<nat>, cached: bool, st: Stream, ack: bool)
    requires WellFormed(st) && HostTracks(calls, keeper, cached, st)
    ensures HostTracks(calls, keeper, cached, Shut(st)) && Extends(st, Shut(st))
    ensures CanAnswer(st) ==> HostTracks(calls, keeper, cached, Answer(st, ack)) && Extends(st, Answer(st, ack))
  {
  }

  predicate FromOutside(step: Step) {
    step.BrokerAnswer? || step.Close? || step.Sever?
  }

  /** What happens to a stream from outside. */
  lemma OutsideStream(cfg: Config, s: State, step: Step, k: nat)
    requires Enabled(cfg, s, step) && FromOutside(step) && k < |s.streams|
    ensures var t := Apply(cfg, s, step);
      && |t.streams| == |s.streams|
      && (t.streams[k] == s.streams[k] || t.streams[k] == Shut(s.streams[k])
          || (step.BrokerAnswer? && CanAnswer(s.streams[k]) && t.streams[k] == Answer(s.streams[k], step.ack)))
  {
  }

  lemma OutsideKeeps(cfg: Config, s: State, step: Step)
    requires Enabled(cfg, s, step) && FromOutside(step)
    ensures var t := Apply(cfg, s, step); t.calls == s.calls && t.hosts == s.hosts && t.log == s.log
  {
  }

  lemma OutsideStep(cfg: Config, s: State, step: Step)
    requires Attributed(cfg, s) && Enabled(cfg, s, step) && FromOutside(step)
    ensures Attributed(cfg, Apply(cfg, s, step))
  {
    var n := cfg.channelCount;
    var t := Apply(cfg, s, step);
    var ack := step.BrokerAnswer? && step.ack;
    OutsideKeeps(cfg, s, step);
    forall k | 0 <= k < |s.streams| ensures Extends(s.streams[k], t.streams[k]) &&
        t.streams[k].sent == s.streams[k].sent {
      OutsideStream(cfg, s, step, k);
      StreamTracks([], None, false, s.streams[k], ack);
    }
    OutsideLength(cfg, s, step);
    forall d | 0 <= d < |t.calls| ensures Evidence(t.streams, d, t.calls[d].outcome) {
      EvidenceLasts(s.streams, t.streams, d, s.calls[d].outcome);
    }
    forall h | 0 <= h < |t.hosts| ensures HostTracks(t.calls, t.log.keeper[h], h < n, t.streams[t.hosts[h]]) {
      assert HostTracks(s.calls, s.log.keeper[h], h < n, s.streams[s.hosts[h]]);
      OutsideStream(cfg, s, step, s.hosts[h]);
      StreamTracks(s.calls, s.log.keeper[h], h < n, s.streams[s.hosts[h]], ack);
    }
    forall d: nat, h: nat ensures OnlyHere(n, t, d, h) { assert OnlyHere(n, s, d, h); }
  }

  lemma OutsideLength(cfg: Config, s: State, step: Step)
    requires Enabled(cfg, s, step) && FromOutside(step)
    ensures |Apply(cfg, s, step).streams| == |s.streams|
  {
  }

  /** Every other step leaves channels alone and at most starts a new call. */
  lemma OtherStreams(cfg: Config, s: State, step: Step)
    requires Enabled(cfg, s, step) && !step.Do? && !FromOutside(step)
    ensures Apply(cfg, s, step).streams == s.streams
  {
  }

  lemma OtherStep(cfg: Config, s: State, step: Step)
    requires Attributed(cfg, s) && Enabled(cfg, s, step) && !step.Do? && !FromOutside(step)
    ensures Attributed(cfg, Apply(cfg, s, step))
  {
    var n := cfg.channelCount;
    OtherStreams(cfg, s, step);
    OtherKeeper(cfg, s, step);
    OtherHosts(cfg, s, step);
    OtherCalls(cfg, s, step);
    var t := Apply(cfg, s, step);
    forall h | 0 <= h < |t.hosts| ensures HostTracks(t.calls, t.log.keeper[h], h < n, t.streams[t.hosts[h]]) {
      assert HostTracks(s.calls, s.log.keeper[h], h < n, s.streams[s.hosts[h]]);
    }
    forall d: nat, h: nat ensures OnlyHere(n, t, d, h) {
      assert OnlyHere(n, s, d, h);
    }
    forall d | 0 <= d < |t.calls| ensures Evidence(t.streams, d, t.calls[d].outcome) {
      if d < |s.calls| { assert Evidence(s.streams, d, s.calls[d].outcome); }
    }
  }

  lemma StepAttributed(cfg: Config, s: State, step: Step)
    requires Custody(cfg, s) && Attributed(cfg, s) && Enabled(cfg, s, step)
    ensures Attributed(cfg, Apply(cfg, s, step))
  {
    if step.Do? {
      DoExtends(cfg, s, step.call, step.act);
      DoTracked(cfg, s, step.call, step.act);
      DoLocal(cfg, s, step.call, step.act);
      DoProven(cfg, s, step.call, step.act);
    } else if FromOutside(step) {
      OutsideStep(cfg, s, step);
    } else {
      OtherStep(cfg, s, step);
    }
  }
}
