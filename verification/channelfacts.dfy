/** More that every run keeps: open channels are on open connections, receipts are about publishes
  that took place, buffers stay within their size, each connection is in one place. */
module ChannelFacts {
  import opened Streams
  import opened Machine
  import opened Common
  import opened PoolCustody
  import opened Attribution
  import opened LetterConservation
  import opened RetryBudget
  import opened LinkCustody
  import opened PipelineInvariant
  import Endings
  import StaleConfirm

  // ---------------------------------------------------------------- open channels

  /** The channel of host h is open only while its connection is. */
  ghost predicate UpTogether(s: State, h: nat) {
    HasStream(s, h) && StreamOf(s, h).open ==> LinkUp(s, h)
  }

  lemma NextOpen(st: Stream, who: nat, a: Act)
    ensures NextStream(st, who, a).open == (st.open && !a.Drop?)
  {
  }

  lemma LinksRise(cfg: Config, s: State, c: nat, a: Act, h: nat)
    requires LinksOk(cfg, s) && ActEnabled(cfg, s, c, a) && h < |s.hosts| && LinkUp(s, h)
    ensures LinkUp(Perform(cfg, s, c, a), h)
  {
  }

  /** The new host of a transient call has no open channel yet. */
  lemma NewHostUp(cfg: Config, s: State, c: nat, a: Act, h: nat)
    requires |s.hosts| <= h && ActEnabled(cfg, s, c, a)
    ensures UpTogether(Perform(cfg, s, c, a), h)
  {
  }

  lemma DoUp(cfg: Config, s: State, c: nat, a: Act, h: nat)
    requires HostsOk(s.hosts, s.streams) && LinksOk(cfg, s) && ActEnabled(cfg, s, c, a)
    requires h < |s.hosts| && UpTogether(s, h)
    ensures UpTogether(Perform(cfg, s, c, a), h)
  {
    HostAfter(cfg, s, c, a, h);
    NextOpen(StreamOf(s, h), c, a);
    if StreamOf(Perform(cfg, s, c, a), h).open {
      MadeUp(cfg, s, c, a, h);
      LinksRise(cfg, s, c, a, h);
    }
  }

  /** A channel is made only on an open connection. */
  lemma MadeUp(cfg: Config, s: State, c: nat, a: Act, h: nat)
    requires ActEnabled(cfg, s, c, a) && UpTogether(s, h) && HasStream(s, h)
    requires StreamOf(s, h).open || (a == Remake(true) && HostOf(s.calls[c].phase) == Some(h))
    ensures LinkUp(s, h)
  {
  }

  lemma OtherUp(cfg: Config, s: State, step: Step, h: nat)
    requires Custody(cfg, s) && LinksOk(cfg, s) && Enabled(cfg, s, step) && !step.Do?
    requires h < |s.hosts| ==> UpTogether(s, h)
    ensures UpTogether(Apply(cfg, s, step), h)
  {
    OtherHosts(cfg, s, step);
    OtherWires(cfg, s, step);
    if step.Sever? && h < |s.hosts| { Endings.SeverExactly(cfg, s, step.link, h); }
  }

  ghost predicate AllUp(s: State) {
    forall h: nat :: UpTogether(s, h)
  }

  lemma StepUp(cfg: Config, s: State, step: Step)
    requires Custody(cfg, s) && LinksOk(cfg, s) && AllUp(s) && Enabled(cfg, s, step)
    ensures AllUp(Apply(cfg, s, step))
  {
    forall h: nat ensures UpTogether(Apply(cfg, s, step), h) {
      if !step.Do? {
        OtherUp(cfg, s, step, h);
      } else if h < |s.hosts| {
        DoUp(cfg, s, step.call, step.act, h);
      } else {
        NewHostUp(cfg, s, step.call, step.act, h);
      }
    }
  }

  // ---------------------------------------------------------------- who has published

  ghost predicate Published(s: State, c: nat) {
    exists k :: 0 <= k < |s.streams| && c in s.streams[k].sent
  }

  /** A consume loop publishes nothing, an unconfirmed publish has taken place exactly if its
      receipt says so, and no confirmed one is decided before it has published. */
  ghost predicate PublishedOk(s: State, c: nat) {
    if c >= |s.calls| then !Published(s, c)
    else
      match s.calls[c].job
      case Consume => !Published(s, c)
      case Plain(_, _) => Published(s, c) <==> s.calls[c].outcome.Emitted?
      case _ => !s.calls[c].outcome.Undecided? ==> Published(s, c)
  }

  predicate Sending(a: Act) {
    a == Publish(true) || a == Emit(true)
  }

  /** Sending is the only way to have published. */
  lemma SentAfter(cfg: Config, s: State, c: nat, a: Act, d: nat)
    requires StreamsOk(s) && ActEnabled(cfg, s, c, a)
    ensures Published(Perform(cfg, s, c, a), d) <==> Published(s, d) || (d == c && Sending(a))
  {
    var t := Perform(cfg, s, c, a);
    StreamsAfter(cfg, s, c, a);
    DoExtends(cfg, s, c, a);
    var h := HostOf(s.calls[c].phase);
    if Published(s, d) {
      var k :| 0 <= k < |s.streams| && d in s.streams[k].sent;
      assert Extends(s.streams[k], t.streams[k]);
    } else if d == c && Sending(a) {
      SendsIt(StreamOf(s, h.value), c, a);
      assert c in t.streams[s.hosts[h.value]].sent;
    } else if h.Some? {
      SendsIt(StreamOf(s, h.value), c, a);
    }
  }

  lemma SendsIt(st: Stream, c: nat, a: Act)
    ensures NextStream(st, c, a).sent == st.sent + if Sending(a) then [c] else []
  {
  }

  /** Whoever waits has published here. */
  lemma WaitingPublished(cfg: Config, s: State, c: nat)
    requires Custody(cfg, s) && Attributed(cfg, s) && c < |s.calls| && s.calls[c].phase.Waiting?
    ensures Published(s, c)
  {
    var h := s.calls[c].phase.host;
    assert Holds(s.calls, c, h);
    assert HostTracks(s.calls, s.log.keeper[h], h < cfg.channelCount, StreamOf(s, h));
    var st := s.streams[s.hosts[h]];
    assert st.sent[|st.sent| - 1] == c;
  }

  lemma NextPublished(call: Call, v: View, a: Act)
    requires Fits(call) && CanDo(call, v, a)
    ensures var next := NextCall(call, v, a);
      && next.job == call.job
      && (call.job.Plain? ==> (next.outcome.Emitted? <==> call.outcome.Emitted? || Sending(a)))
      && (call.job.Consume? ==> !Sending(a))
      && (Decides(call, next) && !call.job.Plain? ==> call.phase.Waiting?)
  {
  }

  lemma DoPublished(cfg: Config, s: State, c: nat, a: Act, d: nat)
    requires Custody(cfg, s) && Attributed(cfg, s) && ActEnabled(cfg, s, c, a) && PublishedOk(s, d)
    ensures PublishedOk(Perform(cfg, s, c, a), d)
  {
    SentAfter(cfg, s, c, a, d);
    if d == c {
      NextPublished(s.calls[c], ViewOf(s, s.calls[c].phase), a);
      if s.calls[c].phase.Waiting? { WaitingPublished(cfg, s, c); }
    }
  }

  lemma OtherPublished(cfg: Config, s: State, step: Step, d: nat)
    requires Enabled(cfg, s, step) && !step.Do? && PublishedOk(s, d)
    ensures PublishedOk(Apply(cfg, s, step), d)
  {
    var t := Apply(cfg, s, step);
    OtherCalls(cfg, s, step);
    OtherSent(cfg, s, step);
  }

  /** A step that is no call's shuts streams, or answers, or leaves them alone. */
  lemma OutsideOrNot(cfg: Config, s: State, step: Step)
    requires Enabled(cfg, s, step) && !step.Do?
    ensures var t := Apply(cfg, s, step);
      && |t.streams| == |s.streams|
      && forall k :: 0 <= k < |s.streams| ==>
          || t.streams[k] == s.streams[k] || t.streams[k] == Shut(s.streams[k])
          || (step.BrokerAnswer? && CanAnswer(s.streams[k]) && t.streams[k] == Answer(s.streams[k], step.ack))
  {
    if FromOutside(step) {
      OutsideLength(cfg, s, step);
      forall k | 0 <= k < |s.streams| { OutsideStream(cfg, s, step, k); }
    } else {
      OtherStreams(cfg, s, step);
    }
  }

  lemma OtherSent(cfg: Config, s: State, step: Step)
    requires Enabled(cfg, s, step) && !step.Do?
    ensures var t := Apply(cfg, s, step);
      |t.streams| == |s.streams| && forall k :: 0 <= k < |s.streams| ==> t.streams[k].sent == s.streams[k].sent
  {
    OutsideOrNot(cfg, s, step);
  }

  // ---------------------------------------------------------------- transient channels

  /** The channel of a transient call is closed once the call has let it go. */
  ghost predicate Dropped(cfg: Config, s: State, h: nat) {
    cfg.channelCount <= h < |s.hosts| && h < |s.log.keeper| && s.log.keeper[h] == None && HasStream(s, h)
    ==> !StreamOf(s, h).open
  }

  /** Who lets a host go. */
  lemma KeeperAfter(cfg: Config, s: State, c: nat, a: Act, h: nat)
    requires Custody(cfg, s) && ActEnabled(cfg, s, c, a) && cfg.channelCount <= h
    requires h < |Perform(cfg, s, c, a).log.keeper| && Perform(cfg, s, c, a).log.keeper[h] == None
    ensures h < |s.log.keeper| && (s.log.keeper[h] == None || (a.Drop? && HostOf(s.calls[c].phase) == Some(h)))
    ensures !(a.Remake? && HostOf(s.calls[c].phase) == Some(h))
  {
    if HostOf(s.calls[c].phase) == Some(h) { assert Holds(s.calls, c, h); }
    if a.PutBack? { assert Holds(s.calls, c, HostOf(s.calls[c].phase).value); }
  }

  lemma DoDropped(cfg: Config, s: State, c: nat, a: Act, h: nat)
    requires Custody(cfg, s) && ActEnabled(cfg, s, c, a) && Dropped(cfg, s, h)
    ensures Dropped(cfg, Perform(cfg, s, c, a), h)
  {
    var t := Perform(cfg, s, c, a);
    if cfg.channelCount <= h < |t.hosts| && h < |t.log.keeper| && t.log.keeper[h] == None {
      KeeperAfter(cfg, s, c, a, h);
      HostAfter(cfg, s, c, a, h);
    }
  }

  lemma OtherDropped(cfg: Config, s: State, step: Step, h: nat)
    requires Custody(cfg, s) && Enabled(cfg, s, step) && !step.Do? && Dropped(cfg, s, h)
    ensures Dropped(cfg, Apply(cfg, s, step), h)
  {
    OtherHosts(cfg, s, step);
    OtherKeeper(cfg, s, step);
    OtherOpen(cfg, s, step);
  }

  lemma OtherOpen(cfg: Config, s: State, step: Step)
    requires Enabled(cfg, s, step) && !step.Do?
    ensures var t := Apply(cfg, s, step);
      |t.streams| == |s.streams| && forall k :: 0 <= k < |s.streams| ==> (t.streams[k].open ==> s.streams[k].open)
  {
    OutsideOrNot(cfg, s, step);
  }

  // ---------------------------------------------------------------- sizes

  ghost predicate Fits100(s: State) {
    forall k :: 0 <= k < |s.streams| ==> Buffered(s.streams[k]) <= 100
  }

  lemma DoFits(cfg: Config, s: State, c: nat, a: Act)
    requires Fits100(s) && ActEnabled(cfg, s, c, a)
    ensures Fits100(Perform(cfg, s, c, a))
  {
  }

  lemma OtherFits(cfg: Config, s: State, step: Step)
    requires Fits100(s) && Enabled(cfg, s, step) && !step.Do?
    ensures Fits100(Apply(cfg, s, step))
  {
    OutsideOrNot(cfg, s, step);
  }

  // ---------------------------------------------------------------- connections

  /** A transient call keeps connection k out of the queue. */
  ghost predicate KeepsIt(calls: seq<Call>, wires: seq<nat>, c: nat, k: nat) {
    c < |calls| && KeepsLink(calls[c]) == 1 && calls[c].phase.host < |wires| && wires[calls[c].phase.host] == k
  }

  /** No connection is in two places. */
  ghost predicate OnePlace(calls: seq<Call>, wires: seq<nat>, free: seq<nat>) {
    && NoDuplicates(free)
    && (forall c: nat, k: nat :: KeepsIt(calls, wires, c, k) ==> k !in free)
    && (forall c: nat, d: nat, k: nat :: KeepsIt(calls, wires, c, k) && KeepsIt(calls, wires, d, k) ==> c == d)
  }

  lemma KeepsOn(calls: seq<Call>, wires: seq<nat>, free: seq<nat>, c: nat, call: Call)
    requires OnePlace(calls, wires, free) && c < |calls|
    requires KeepsLink(call) == KeepsLink(calls[c])
    requires KeepsLink(call) == 1 ==> HostOf(call.phase) == HostOf(calls[c].phase)
    ensures OnePlace(calls[c := call], wires, free)
  {
    var next := calls[c := call];
    assert forall d: nat, k: nat :: KeepsIt(next, wires, d, k) <==> KeepsIt(calls, wires, d, k);
  }

  lemma TakesIt(calls: seq<Call>, wires: seq<nat>, free: seq<nat>, c: nat, call: Call)
    requires OnePlace(calls, wires, free) && c < |calls| && KeepsLink(calls[c]) == 0 && free != []
    requires KeepsLink(call) == 1 && HostOf(call.phase) == Some(|wires|)
    requires forall d :: 0 <= d < |calls| && KeepsLink(calls[d]) == 1 ==> calls[d].phase.host < |wires|
    ensures OnePlace(calls[c := call], wires + [free[0]], free[1..])
  {
    var next, more := calls[c := call], wires + [free[0]];
    assert forall d: nat, k: nat :: KeepsIt(next, more, d, k) <==>
        KeepsIt(calls, wires, d, k) || (d == c && k == free[0]);
  }

  lemma GivesIt(calls: seq<Call>, wires: seq<nat>, free: seq<nat>, c: nat, call: Call)
    requires OnePlace(calls, wires, free) && c < |calls| && KeepsLink(calls[c]) == 1 && KeepsLink(call) == 0
    requires calls[c].phase.host < |wires|
    ensures OnePlace(calls[c := call], wires, free + [wires[calls[c].phase.host]])
  {
    var next, k := calls[c := call], wires[calls[c].phase.host];
    assert KeepsIt(calls, wires, c, k);
    assert forall d: nat, i: nat :: KeepsIt(next, wires, d, i) <==> KeepsIt(calls, wires, d, i) && d != c;
  }

  ghost predicate InOnePlace(s: State) {
    OnePlace(s.calls, s.wires, s.free)
  }

  /** What an act does to calls, wires and the queue of connections. */
  lemma LinkParts(cfg: Config, s: State, c: nat, a: Act)
    requires ActEnabled(cfg, s, c, a)
    ensures var t, next := Perform(cfg, s, c, a), NextCall(s.calls[c], ViewOf(s, s.calls[c].phase), a);
      && t.calls == s.calls[c := next]
      && (a.TakeLink? ==> s.free != [] && t.wires == s.wires + [s.free[0]] && t.free == s.free[1..]
                          && next.phase == Reconnecting(|s.hosts|, true))
      && (!a.TakeLink? ==> t.wires == s.wires)
      && (!a.TakeLink? && !(a.Remake? && s.calls[c].job.Transient?) ==> t.free == s.free)
      && (a.Remake? && s.calls[c].job.Transient? && s.calls[c].phase.host < |s.wires| ==>
            t.free == s.free + [s.wires[s.calls[c].phase.host]])
  {
  }

  lemma KeepsHost(call: Call, v: View, a: Act)
    requires Fits(call) && CanDo(call, v, a) && KeepsLink(NextCall(call, v, a)) == 1 && !a.TakeLink?
    ensures HostOf(NextCall(call, v, a).phase) == HostOf(call.phase)
  {
  }

  lemma DoOnePlace(cfg: Config, s: State, c: nat, a: Act)
    requires Custody(cfg, s) && LinksOk(cfg, s) && InOnePlace(s) && ActEnabled(cfg, s, c, a)
    ensures InOnePlace(Perform(cfg, s, c, a))
  {
    var call, v := s.calls[c], ViewOf(s, s.calls[c].phase);
    var next := NextCall(call, v, a);
    LinkParts(cfg, s, c, a);
    NextKeeps(call, v, a);
    if a.TakeLink? {
      forall d | 0 <= d < |s.calls| && KeepsLink(s.calls[d]) == 1 ensures s.calls[d].phase.host < |s.wires| {
        assert Holds(s.calls, d, s.calls[d].phase.host);
      }
      TakesIt(s.calls, s.wires, s.free, c, next);
    } else if a.Remake? && call.job.Transient? {
      assert Holds(s.calls, c, call.phase.host);
      GivesIt(s.calls, s.wires, s.free, c, next);
    } else {
      if KeepsLink(next) == 1 { KeepsHost(call, v, a); }
      KeepsOn(s.calls, s.wires, s.free, c, next);
    }
  }

  lemma OtherOnePlace(cfg: Config, s: State, step: Step)
    requires InOnePlace(s) && Enabled(cfg, s, step) && !step.Do?
    ensures InOnePlace(Apply(cfg, s, step))
  {
    OtherWires(cfg, s, step);
    OtherFree(cfg, s, step);
    OtherCalls(cfg, s, step);
    assert forall d: nat, k: nat :: KeepsIt(s.calls + NewCalls(s, step), s.wires, d, k) <==>
        KeepsIt(s.calls, s.wires, d, k);
  }

  /** How many numbers below n are left outside free, and other than k. */
  lemma LeftOver(n: nat, free: seq<nat>, k: nat)
    requires NoDuplicates(free) && (forall i :: 0 <= i < |free| ==> free[i] < n) && k < n && k !in free
    ensures |Below(n) - Members(free) - {k}| == n - |free| - 1
  {
    MembersSize(free);
    assert forall x :: x in Members(free) ==> x in Below(n);
    assert |Below(n) - Members(free)| == n - |free|;
  }

  /** If every free and every kept connection exists and is another one, and k is neither, they are
      not all of them. */
  lemma {:induction false} CoversAll(n: nat, free: seq<nat>, of: map<nat, nat>, k: nat)
    requires NoDuplicates(free) && (forall i :: 0 <= i < |free| ==> free[i] < n) && k < n && k !in free
    requires forall c :: c in of ==> of[c] < n && of[c] !in free && of[c] != k
    requires forall c, d :: c in of && d in of && c != d ==> of[c] != of[d]
    ensures |free| + |of| < n
  {
    LeftOver(n, free, k);
    InjectiveMap(of, Below(n) - Members(free) - {k});
  }

  ghost function KeepersOf(s: State, k: nat): set<nat> {
    set c: nat | c < |s.calls| && KeepsIt(s.calls, s.wires, c, k)
  }

  lemma Covered(cfg: Config, s: State, k: nat)
    requires Custody(cfg, s) && LinksOk(cfg, s) && InOnePlace(s) && k < cfg.linkCount && k !in s.free
    ensures exists c :: c in KeepersOf(s, k)
  {
    HolderSize(s.calls);
    var keepers := HolderSet(s.calls);
    forall c | c in keepers
      ensures s.calls[c].phase.host < |s.wires| && s.wires[s.calls[c].phase.host] < cfg.linkCount
    {
      assert Holds(s.calls, c, s.calls[c].phase.host);
    }
    var of := map c | c in keepers :: s.wires[s.calls[c].phase.host];
    assert forall c :: c in keepers ==> KeepsIt(s.calls, s.wires, c, of[c]);
    if KeepersOf(s, k) == {} {
      assert forall c :: c in keepers && of[c] == k ==> c in KeepersOf(s, k);
      assert of.Keys == keepers;
      CoversAll(cfg.linkCount, s.free, of, k);
      assert false;
    }
  }

  // ---------------------------------------------------------------- every run

  ghost predicate Facts(cfg: Config, s: State) {
    && (forall c: nat :: PublishedOk(s, c)) && Fits100(s) && InOnePlace(s) && (WellWired(cfg) ==> AllUp(s))
    && (forall h: nat :: Dropped(cfg, s, h))
  }

  lemma InitFacts(cfg: Config, retry: seq<nat>)
    ensures Facts(cfg, Init(cfg, retry))
  {
  }

  lemma StepFacts(cfg: Config, s: State, step: Step)
    requires Inv(cfg, s) && WellWired(cfg) && Facts(cfg, s) && Enabled(cfg, s, step)
    ensures Facts(cfg, Apply(cfg, s, step))
  {
    var t := Apply(cfg, s, step);
    StepUp(cfg, s, step);
    if step.Do? {
      forall c: nat ensures PublishedOk(t, c) { DoPublished(cfg, s, step.call, step.act, c); }
      forall h: nat ensures Dropped(cfg, t, h) { DoDropped(cfg, s, step.call, step.act, h); }
      DoFits(cfg, s, step.call, step.act);
      DoOnePlace(cfg, s, step.call, step.act);
    } else {
      forall c: nat ensures PublishedOk(t, c) { OtherPublished(cfg, s, step, c); }
      forall h: nat ensures Dropped(cfg, t, h) { OtherDropped(cfg, s, step, h); }
      OtherFits(cfg, s, step);
      OtherOnePlace(cfg, s, step);
    }
  }

  lemma {:induction false} RunFacts(cfg: Config, s: State, steps: seq<Step>)
    requires Inv(cfg, s) && WellWired(cfg) && Facts(cfg, s) && IsRun(cfg, s, steps)
    ensures Facts(cfg, After(cfg, s, steps))
    decreases |steps|
  {
    if steps != [] {
      StepFacts(cfg, s, steps[0]);
      StepInv(cfg, s, steps[0]);
      RunFacts(cfg, Apply(cfg, s, steps[0]), steps[1..]);
    }
  }

  lemma ReachableFacts(cfg: Config, retry: seq<nat>, s: State)
    requires WellWired(cfg) && Reachable(cfg, retry, s)
    ensures Facts(cfg, s)
  {
    var steps: seq<Step> :| IsRun(cfg, Init(cfg, retry), steps) && After(cfg, Init(cfg, retry), steps) == s;
    InitInv(cfg, retry);
    InitFacts(cfg, retry);
    RunFacts(cfg, Init(cfg, retry), steps);
  }

  /** No channel outlives its connection: a channel that can still publish is on an open one. */
  lemma OpenOnOpen(cfg: Config, retry: seq<nat>, s: State, h: nat)
    requires WellWired(cfg) && Reachable(cfg, retry, s) && HasStream(s, h) && StreamOf(s, h).open
    ensures h < |s.wires| && s.wires[h] < |s.links| && s.links[s.wires[h]]
  {
    ReachableFacts(cfg, retry, s);
    assert UpTogether(s, h);
  }

  /** Receipts are about publishes: an unconfirmed publish is reported as a success exactly if it
      took place, and a confirmed one is decided, either way, only after it took place. */
  lemma ReceiptsOnPublishes(cfg: Config, retry: seq<nat>, s: State, c: nat)
    requires WellWired(cfg) && Reachable(cfg, retry, s) && c < |s.calls|
    ensures s.calls[c].job.Plain? ==>
              (s.calls[c].outcome.Emitted? <==> exists k :: 0 <= k < |s.streams| && c in s.streams[k].sent)
    ensures (s.calls[c].job.Confirm? || s.calls[c].job.Transient?) && !s.calls[c].outcome.Undecided? ==>
              exists k :: 0 <= k < |s.streams| && c in s.streams[k].sent
  {
    ReachableFacts(cfg, retry, s);
    assert PublishedOk(s, c);
  }

  /** A channel that a transient publish has had is closed once the publish has let it go. */
  lemma TransientClosed(cfg: Config, retry: seq<nat>, s: State, h: nat)
    requires WellWired(cfg) && Reachable(cfg, retry, s) && cfg.channelCount <= h < |s.hosts|
    requires forall c: nat :: !Holds(s.calls, c, h)
    ensures HasStream(s, h) && !StreamOf(s, h).open
  {
    ReachableInv(cfg, retry, s);
    ReachableFacts(cfg, retry, s);
    assert Dropped(cfg, s, h);
  }

  /** The buffer of a cached channel never holds more than 100 answers, and the broker waits exactly
      when it is full. (That of a transient channel has room for one, which it never exceeds, since
      by Guarantees.LagLaw it has no more than one publish outstanding.) */
  lemma AnswersWait(cfg: Config, retry: seq<nat>, s: State, k: nat, ack: bool)
    requires WellWired(cfg) && Reachable(cfg, retry, s) && k < |s.streams|
    ensures var st := s.streams[k];
      && |st.verdicts| - st.taken <= 100
      && (Enabled(cfg, s, BrokerAnswer(k, ack)) <==>
          st.open && |st.verdicts| < |st.sent| && |st.verdicts| - st.taken < 100)
  {
    ReachableFacts(cfg, retry, s);
  }

  /** Every connection is in the queue once, or with exactly one transient call that is opening its
      channel, never both. */
  lemma LinksPartitioned(cfg: Config, retry: seq<nat>, s: State, k: nat)
    requires WellWired(cfg) && Reachable(cfg, retry, s) && k < cfg.linkCount
    ensures multiset(s.free)[k] + |KeepersOf(s, k)| == 1
    ensures forall i :: 0 <= i < |s.free| ==> s.free[i] < cfg.linkCount
  {
    ReachableInv(cfg, retry, s);
    ReachableFacts(cfg, retry, s);
    CountOnce(s.free, k);
    if k in s.free {
      assert KeepersOf(s, k) == {};
    } else {
      Covered(cfg, s, k);
      var c :| c in KeepersOf(s, k);
      assert KeepersOf(s, k) == {c};
    }
  }

  // ---------------------------------------------------------------- the buffers of the service

  predicate WithinBuffers(cfg: Config, s: State) {
    |s.letters| <= cfg.letterCap && |s.receipts| <= cfg.receiptCap && s.errors <= cfg.errorCap
  }

  lemma StepWithin(cfg: Config, s: State, step: Step)
    requires WithinBuffers(cfg, s) && Enabled(cfg, s, step)
    ensures WithinBuffers(cfg, Apply(cfg, s, step))
  {
  }

  /** Letters, receipts and error reports never exceed their buffers, in any run. */
  lemma {:induction false} BuffersBounded(cfg: Config, s: State, steps: seq<Step>)
    requires WithinBuffers(cfg, s) && IsRun(cfg, s, steps)
    ensures WithinBuffers(cfg, After(cfg, s, steps))
    decreases |steps|
  {
    if steps != [] {
      StepWithin(cfg, s, steps[0]);
      BuffersBounded(cfg, Apply(cfg, s, steps[0]), steps[1..]);
    }
  }

  lemma AlwaysWithin(cfg: Config, retry: seq<nat>, s: State)
    requires Reachable(cfg, retry, s)
    ensures |s.letters| <= cfg.letterCap && |s.receipts| <= cfg.receiptCap && s.errors <= cfg.errorCap
  {
    var steps: seq<Step> :| IsRun(cfg, Init(cfg, retry), steps) && After(cfg, Init(cfg, retry), steps) == s;
    BuffersBounded(cfg, Init(cfg, retry), steps);
  }

  // ---------------------------------------------------------------- the dispatcher's semaphore

  /** The dispatcher waits with a letter exactly while MaxCacheChannelCount / 2 + 1 of its publish
      calls are running. */
  lemma ParallelExactly(cfg: Config, retry: seq<nat>, s: State)
    requires Reachable(cfg, retry, s) && s.dispatcher.Holding?
    ensures Enabled(cfg, s, Dispatch) <==> |RunningSet(s.calls)| < cfg.channelCount / 2 + 1
    ensures |RunningSet(s.calls)| <= cfg.channelCount / 2 + 1
  {
    ReachableInv(cfg, retry, s);
    RunningSize(s.calls);
  }

  ghost predicate Rising(cfg: Config, retry: seq<nat>, s: State, n: nat) {
    && Reachable(cfg, retry, s) && s.dispatcher.Draining? && s.letters == [] && !s.closed
    && s.running == n && |s.retry| > 0
  }

  lemma OneRises(cfg: Config, retry: seq<nat>, s: State, n: nat) returns (t: State)
    requires Rising(cfg, retry, s, n) && n < Parallel(cfg) && cfg.letterCap > 0
    ensures Rising(cfg, retry, t, n + 1)
  {
    StaleConfirm.Reach(cfg, retry, s, QueueLetter(0));
    t := Apply(cfg, s, QueueLetter(0));
    StaleConfirm.Reach(cfg, retry, t, Dequeue);
    t := Apply(cfg, t, Dequeue);
    StaleConfirm.Reach(cfg, retry, t, Dispatch);
    t := Apply(cfg, t, Dispatch);
  }

  /** And that many do run at once in some run. */
  lemma {:induction false} ParallelReached(cfg: Config, retry: seq<nat>, n: nat) returns (s: State)
    requires n <= cfg.channelCount / 2 + 1 && cfg.letterCap > 0 && retry != []
    ensures Rising(cfg, retry, s, n) && |RunningSet(s.calls)| == n
  {
    if n == 0 {
      s := Init(cfg, retry);
      assert IsRun(cfg, s, []) && After(cfg, s, []) == s;
      StaleConfirm.Reach(cfg, retry, s, Begin);
      s := Apply(cfg, s, Begin);
    } else {
      s := ParallelReached(cfg, retry, n - 1);
      s := OneRises(cfg, retry, s, n - 1);
    }
    ReachableInv(cfg, retry, s);
    RunningSize(s.calls);
  }
}
