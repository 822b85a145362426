/** What the pipeline guarantees in every reachable state. */
module Guarantees {
  import opened Streams
  import opened Machine
  import opened Common
  import opened PoolCustody
  import opened Attribution
  import opened LetterConservation
  import opened RetryBudget
  import opened PipelineInvariant
  import opened Progress

  // ---------------------------------------------------------------- channels

  /** Every cached channel is in the pool or with exactly one goroutine, and a goroutine that
      returns one never blocks. */
  lemma ChannelsPartitioned(cfg: Config, retry: seq<nat>, s: State)
    requires Reachable(cfg, retry, s)
    ensures forall h: nat :: h < cfg.channelCount ==> multiset(s.pool)[h] + |Holders(s, h)| == 1
    ensures forall i :: 0 <= i < |s.pool| ==> s.pool[i] < cfg.channelCount
    ensures forall c :: 0 <= c < |s.calls| && s.calls[c].phase.Putting? ==>
              |s.pool| < cfg.channelCount && ActEnabled(cfg, s, c, PutBack)
  {
    ReachableInv(cfg, retry, s);
    forall h: nat | h < cfg.channelCount ensures multiset(s.pool)[h] + |Holders(s, h)| == 1 {
      Partition(cfg, s, h);
    }
    forall c | 0 <= c < |s.calls| && s.calls[c].phase.Putting?
      ensures |s.pool| < cfg.channelCount && ActEnabled(cfg, s, c, PutBack)
    {
      ReturnNeverBlocks(cfg, s, c);
    }
  }

  // ---------------------------------------------------------------- confirmations

  /** The lag law: the next confirmation a waiting call reads answers the publish exactly `lag`
      places before the call's latest one, which is the call's own iff lag < rounds. */
  lemma LagLaw(cfg: Config, retry: seq<nat>, s: State, c: nat)
    requires Reachable(cfg, retry, s) && c < |s.calls| && s.calls[c].phase.Waiting?
    ensures var p := s.calls[c].phase;
      && HasStream(s, p.host)
      && var st := StreamOf(s, p.host);
      && 0 <= p.lag && 1 <= p.rounds
      && st.taken + p.lag == |st.sent| - 1
      && st.sent[|st.sent| - 1] == c
      && (st.sent[st.taken] == c <==> p.lag < p.rounds)
      && (!st.tainted ==> p.lag == 0)
  {
    ReachableInv(cfg, retry, s);
    assert Holds(s.calls, c, s.calls[c].phase.host);
  }

  /** How one act changes the channel it works on: a flush removes one answer exactly if the
      connection is open and an answer is there, a publish raises the lag, reading an answer lowers
      it, a new channel starts at zero, and the wait that times out leaves the unread answer
      behind. */
  lemma LagSteps(cfg: Config, s: State, c: nat, a: Act)
    requires Custody(cfg, s) && StreamsOk(s) && ActEnabled(cfg, s, c, a) && HostOf(s.calls[c].phase).Some?
    ensures var h := HostOf(s.calls[c].phase).value;
      && HasStream(Perform(cfg, s, c, a), h)
      && var st, later := StreamOf(s, h), StreamOf(Perform(cfg, s, c, a), h);
      && (a.Flush? || a.FlushBack? ==>
            if LinkUp(s, h) && st.taken < |st.verdicts| then later == st.(taken := st.taken + 1) else later == st)
      && (a.Publish? || a.Emit? ==> Lag(later) == Lag(st) + One(a.ok))
      && (a.Timeout? || a.PutBack? ==> Lag(later) == Lag(st))
      && (a.Confirmation? ==> Lag(later) == Lag(st) - One(Buffered(st) > 0))
      && (a.Remake? && a.ok ==> Lag(later) == 0)
  {
    var h := HostOf(s.calls[c].phase).value;
    assert Holds(s.calls, c, h);
    HostAfter(cfg, s, c, a, h);
  }

  lemma WaitingStands(cfg: Config, retry: seq<nat>, s: State, c: nat)
    requires Reachable(cfg, retry, s) && c < |s.calls| && s.calls[c].phase.Waiting?
    ensures HasStream(s, s.calls[c].phase.host) && s.calls[c].phase.host < |s.log.keeper|
    ensures s.calls[c].outcome.Undecided? && s.calls[c].phase.host < |s.hosts|
  {
    ReachableInv(cfg, retry, s);
    assert Holds(s.calls, c, s.calls[c].phase.host);
  }

  lemma WaitingNext(call: Call, v: View)
    requires call.phase.Waiting? && call.outcome.Undecided?
    ensures CanDo(call, v, Timeout) && NextCall(call, v, Timeout).outcome == Failed
    ensures CanDo(call, v, Confirmation) <==> v.stream.taken < |v.stream.verdicts| || !v.stream.open
    ensures CanDo(call, v, Confirmation) ==>
              var p, next := call.phase, NextCall(call, v, Confirmation);
              if 0 <= v.stream.taken < |v.stream.verdicts| && v.stream.verdicts[v.stream.taken] then next.outcome.Acked?
              else next == call.(phase := Publishing(p.host, p.rounds, p.lag))
  {
  }

  /** What a waiting call can do, and where that leaves it: it reads exactly when an answer is there or
      the channel is closed, succeeds exactly if the answer is an ack, and otherwise publishes again;
      and at any moment its time can be over. */
  lemma ConfirmationExactly(cfg: Config, retry: seq<nat>, s: State, c: nat)
    requires Reachable(cfg, retry, s) && c < |s.calls| && s.calls[c].phase.Waiting?
    ensures HasStream(s, s.calls[c].phase.host)
    ensures ActEnabled(cfg, s, c, Timeout) && Perform(cfg, s, c, Timeout).calls[c].outcome == Failed
    ensures var p := s.calls[c].phase; var st := StreamOf(s, p.host);
      && (ActEnabled(cfg, s, c, Confirmation) <==> st.taken < |st.verdicts| || !st.open)
      && (ActEnabled(cfg, s, c, Confirmation) ==>
            var next := Perform(cfg, s, c, Confirmation).calls[c];
            if st.taken < |st.verdicts| && st.verdicts[st.taken] then next.outcome.Acked?
            else next == s.calls[c].(phase := Publishing(p.host, p.rounds, p.lag)))
  {
    WaitingStands(cfg, retry, s, c);
    WaitingNext(s.calls[c], ViewOf(s, s.calls[c].phase));
  }

  /** A success receipt rests on a broker ack, and that ack is for a publish of this very call
      exactly when the lag it found was smaller than the number of its publishes there. */
  lemma SuccessAttribution(cfg: Config, retry: seq<nat>, s: State, c: nat)
    requires Reachable(cfg, retry, s) && c < |s.calls| && s.calls[c].outcome.Acked?
    ensures Evidence(s.streams, c, s.calls[c].outcome)
    ensures var o := s.calls[c].outcome;
      && s.streams[o.stream].verdicts[o.pos]
      && (s.streams[o.stream].sent[o.pos] == c <==> o.lag < o.rounds)
  {
    ReachableInv(cfg, retry, s);
  }

  /** On a channel where no wait ever timed out and nobody published without waiting, every
      success is true: the broker acked a publish of this call. */
  lemma CleanSuccess(cfg: Config, retry: seq<nat>, s: State, c: nat)
    requires Reachable(cfg, retry, s) && c < |s.calls| && s.calls[c].outcome.Acked?
    requires s.calls[c].outcome.stream < |s.streams| && !s.streams[s.calls[c].outcome.stream].tainted
    ensures var o := s.calls[c].outcome;
      var st := s.streams[o.stream];
      o.lag == 0 && o.pos < |st.verdicts| && o.pos < |st.sent| && st.verdicts[o.pos] && st.sent[o.pos] == c
  {
    ReachableInv(cfg, retry, s);
    assert Evidence(s.streams, c, s.calls[c].outcome);
  }

  /** A success of a transient call is true without any condition. */
  lemma TransientSuccess(cfg: Config, retry: seq<nat>, s: State, c: nat)
    requires Reachable(cfg, retry, s) && c < |s.calls| && s.calls[c].job.Transient? && s.calls[c].outcome.Acked?
    ensures var o := s.calls[c].outcome;
      && o.stream < |s.streams| && o.pos < |s.streams[o.stream].verdicts| && o.pos < |s.streams[o.stream].sent|
      && s.streams[o.stream].verdicts[o.pos] && s.streams[o.stream].sent[o.pos] == c
  {
    ReachableInv(cfg, retry, s);
    assert Fits(s.calls[c]) && Evidence(s.streams, c, s.calls[c].outcome);
  }

  ghost function Successes(s: State): set<nat> {
    set c: nat | c < |s.calls| && s.calls[c].outcome.Acked?
  }

  /** The publishes the broker has acked, as (stream, position). */
  ghost function Acks(s: State): set<(nat, nat)> {
    set k: nat, p: nat | k < |s.streams| && p < |s.streams[k].verdicts| && s.streams[k].verdicts[p] :: (k, p)
  }

  /** The ack each success rests on. */
  ghost function AckOf(s: State): map<nat, (nat, nat)> {
    map c | c in Successes(s) :: (s.calls[c].outcome.stream, s.calls[c].outcome.pos)
  }

  lemma AcksDistinct(s: State)
    requires Proven(s)
    ensures forall c :: c in AckOf(s) ==> AckOf(s)[c] in Acks(s)
    ensures forall c, d :: c in AckOf(s) && d in AckOf(s) && c != d ==> AckOf(s)[c] != AckOf(s)[d]
  {
    forall c | c in AckOf(s) ensures AckOf(s)[c] in Acks(s) {
      assert Evidence(s.streams, c, s.calls[c].outcome);
    }
  }

  /** Even with timeouts and stale confirmations, no ack is counted twice: successes map one to
      one into acked publishes, so there are never more successes than acks. */
  lemma SuccessesWithinAcks(cfg: Config, retry: seq<nat>, s: State)
    requires Reachable(cfg, retry, s)
    ensures |Successes(s)| <= |Acks(s)|
  {
    ReachableInv(cfg, retry, s);
    AcksDistinct(s);
    assert AckOf(s).Keys == Successes(s);
    InjectiveMap(AckOf(s), Acks(s));
  }

  // ---------------------------------------------------------------- letters

  /** Letter conservation, for every letter: what came in is in exactly one place in the
      pipeline or has exactly one outcome, and no receipt ever comes back without its letter. */
  lemma LettersConserved(cfg: Config, retry: seq<nat>, s: State, l: Letter)
    requires Reachable(cfg, retry, s)
    ensures s.log.external[l] + s.log.started[l] ==
            InBuffer(s.letters, l) + InDispatcher(s.dispatcher, l) + InFlight(s.calls, l)
            + InReceipts(s.spawned, l) + InReceipts(s.receipts, l) + InHandler(s.handler, l)
            + s.log.delivered[l] + s.log.exhausted[l] + s.log.refused[l] + s.log.unreported[l]
    ensures !s.handler.ReportingLost?
    ensures forall r :: r in s.receipts || r in s.spawned ==> ReceiptOk(r)
  {
    ReachableInv(cfg, retry, s);
    assert ConservedAt(s, l);
  }

  /** Before shutdown, with room in every buffer for one element, the system can settle every
      letter on its own as long as it is live: some run of its own steps ends with each letter
      delivered, exhausted, refused, published without a receipt, left behind by a stop, or with
      a call that was caught flushing Errors. Only if a stop has left the buffer open can the run
      end with the handler stuck on it instead. */
  lemma EveryLetterSettles(cfg: Config, retry: seq<nat>, s: State) returns (steps: seq<Step>)
    requires Reachable(cfg, retry, s) && Live(cfg, s)
    ensures IsRun(cfg, s, steps) && forall i :: 0 <= i < |steps| ==> Own(steps[i])
    ensures var t := After(cfg, s, steps);
      || (Stuck(cfg, t) && s.dispatcher.Stopped? && !s.closed)
      || ((t.letters != [] ==> t.dispatcher.Stopped?) && forall l :: SettledAt(t, l))
  {
    ReachableInv(cfg, retry, s);
    steps := Drains(cfg, s);
    var t := After(cfg, s, steps);
    if !Stuck(cfg, t) {
      forall l ensures SettledAt(t, l) { DrainedSettled(cfg, t, l); }
      DrainedSettled(cfg, t, 0);
    }
  }

  /** Without being live it still comes to rest: no state loops, and what can go on does. */
  lemma AlwaysComesToRest(cfg: Config, retry: seq<nat>, s: State) returns (steps: seq<Step>)
    requires Reachable(cfg, retry, s) && Sound(cfg, s)
    ensures IsRun(cfg, s, steps) && forall i :: 0 <= i < |steps| ==> Own(steps[i])
    ensures AtRest(cfg, After(cfg, s, steps))
  {
    ReachableInv(cfg, retry, s);
    steps := ComesToRest(cfg, s);
  }

  /** The stuck states are exactly those in which a handler that wants to queue a letter again is
      blocked in every continuation, until the auto-publisher is started again. */
  lemma HandlerBlockedExactly(cfg: Config, retry: seq<nat>, s: State)
    requires Reachable(cfg, retry, s) && Live(cfg, s) && s.handler.Requeueing?
    ensures Stuck(cfg, s) <==> forall steps: seq<Step> :: Unfreed(cfg, s, steps)
  {
    ReachableInv(cfg, retry, s);
    BlockedExactly(cfg, s);
  }

  const UINT32_MAX: nat := 0xFFFF_FFFF

  /** The counters never exceed what they started from. */
  lemma {:induction false} RunKeepsInitial(cfg: Config, s: State, steps: seq<Step>)
    requires IsRun(cfg, s, steps)
    ensures After(cfg, s, steps).log.initial == s.log.initial
    decreases |steps|
  {
    if steps != [] {
      StepKeepsInitial(cfg, s, steps[0]);
      RunKeepsInitial(cfg, Apply(cfg, s, steps[0]), steps[1..]);
    }
  }

  lemma StepKeepsInitial(cfg: Config, s: State, step: Step)
    requires Enabled(cfg, s, step)
    ensures Apply(cfg, s, step).log.initial == s.log.initial
  {
  }

  lemma InitialIsInput(cfg: Config, retry: seq<nat>, s: State)
    requires Reachable(cfg, retry, s)
    ensures s.log.initial == retry
  {
    var steps: seq<Step> :| IsRun(cfg, Init(cfg, retry), steps) && After(cfg, Init(cfg, retry), steps) == s;
    RunKeepsInitial(cfg, Init(cfg, retry), steps);
  }

  /** A letter is given up only when no retry is left: every retry it had at the start has been
      tried. */
  lemma ExhaustedExactly(cfg: Config, retry: seq<nat>, s: State, l: Letter)
    requires Reachable(cfg, retry, s) && l < |retry| && s.log.exhausted[l] > 0
    ensures l < |s.retry| && s.retry[l] >= cfg.maxRetry && l < |s.log.attempts|
    ensures s.log.attempts[l] == Monus(cfg.maxRetry, retry[l])
  {
    ReachableInv(cfg, retry, s);
    InitialIsInput(cfg, retry, s);
    assert BudgetAt(cfg, s, l);
  }

  /** However often one letter object is queued, over a whole run it is requeued at most as
      often as it had retries left, RetryCount counts exactly the attempts, and its 32-bit
      increment never wraps. */
  lemma RetriesBounded(cfg: Config, retry: seq<nat>, s: State, l: Letter)
    requires Reachable(cfg, retry, s) && l < |retry|
    ensures |s.retry| == |s.log.attempts| == |retry|
    ensures s.retry[l] == retry[l] + s.log.attempts[l]
    ensures s.log.attempts[l] <= Monus(cfg.maxRetry, retry[l])
    ensures s.log.requeued[l] + s.log.refused[l] <= s.log.attempts[l]
    ensures retry[l] <= UINT32_MAX && cfg.maxRetry <= UINT32_MAX ==> s.retry[l] <= UINT32_MAX
  {
    ReachableInv(cfg, retry, s);
    InitialIsInput(cfg, retry, s);
    assert BudgetAt(cfg, s, l);
  }

  lemma {:induction false} AttemptsWithin(maxRetry: nat, initial: seq<nat>, attempts: seq<nat>)
    requires |initial| == |attempts|
    requires forall l :: 0 <= l < |initial| ==> attempts[l] <= Monus(maxRetry, initial[l])
    ensures Sum(attempts) <= RetriesLeft(maxRetry, initial)
  {
    if initial != [] { AttemptsWithin(maxRetry, initial[..|initial| - 1], attempts[..|attempts| - 1]); }
  }

  /** The dispatcher starts at most one publish call per letter accepted from outside plus one
      per retry the letter objects had left. */
  lemma PublishesBounded(cfg: Config, retry: seq<nat>, s: State)
    requires Reachable(cfg, retry, s)
    ensures s.log.dispatched <= |s.log.external| + RetriesLeft(cfg.maxRetry, retry)
  {
    ReachableInv(cfg, retry, s);
    InitialIsInput(cfg, retry, s);
    assert BudgetAt(cfg, s, 0);
    forall l | 0 <= l < |retry| ensures s.log.attempts[l] <= Monus(cfg.maxRetry, retry[l]) {
      assert BudgetAt(cfg, s, l);
    }
    AttemptsWithin(cfg.maxRetry, retry, s.log.attempts);
  }

  /** At most MaxCacheChannelCount / 2 + 1 publish calls of the dispatcher run at a time. */
  lemma ParallelBounded(cfg: Config, retry: seq<nat>, s: State)
    requires Reachable(cfg, retry, s)
    ensures |RunningSet(s.calls)| == s.running <= cfg.channelCount / 2 + 1
  {
    ReachableInv(cfg, retry, s);
    RunningSize(s.calls);
  }

  /** Letters leave the buffer in the order in which they entered it, and the letters left
      behind by close(letters) are exactly those accepted after the dispatcher last saw the
      buffer empty. */
  lemma LeftBehind(cfg: Config, retry: seq<nat>, s: State)
    requires Reachable(cfg, retry, s)
    ensures s.log.dequeued <= |s.log.accepted| && s.letters == s.log.accepted[s.log.dequeued..]
    ensures s.closed ==> s.dispatcher.Stopped?
    ensures s.closed ==> s.log.emptyMark <= |s.log.accepted| && s.letters == s.log.accepted[s.log.emptyMark..]
    ensures forall step :: s.closed && Enabled(cfg, s, step) ==>
              Apply(cfg, s, step).letters == s.letters && Apply(cfg, s, step).log.accepted == s.log.accepted
  {
    ReachableInv(cfg, retry, s);
    forall step | s.closed && Enabled(cfg, s, step)
      ensures Apply(cfg, s, step).letters == s.letters && Apply(cfg, s, step).log.accepted == s.log.accepted
    {
      if !MovesLetters(step) { Frame(cfg, s, step); }
    }
  }
}
