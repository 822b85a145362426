/** Whole runs in numbers and in order: what the ledger and the counters of the machine add up to,
  event by event, and in which order channels, connections and receipts leave their queues. */
module RunAccounts {
  import opened Machine
  import opened Common
  import opened PoolCustody
  import opened Attribution
  import opened LetterConservation
  import opened RetryBudget
  import opened LinkCustody
  import opened Streams
  import opened PipelineInvariant
  import opened Guarantees

  // ---------------------------------------------------------------- double entry

  /** What is counted. */
  datatype Account =
    | External(letter: Letter)
    | Started(letter: Letter)
    | Delivered(letter: Letter)
    | Failures(letter: Letter)
    | Requeued(letter: Letter)
    | Refused(letter: Letter)
    | Dequeued
    | Dispatched
    | Calls
    | Errors
    | Reports
    | Stops

  /** The handler has a report to make: of a retry, a refusal, a letter given up or one lost. */
  predicate Reporting(h: Handler) {
    !h.Idle? && !h.Requeueing?
  }

  /** How the state has it. For the reports that is what there was to report, less the one that is
      still to be made. */
  function Balance(s: State, a: Account): int {
    match a
    case External(l) => s.log.external[l]
    case Started(l) => s.log.started[l]
    case Delivered(l) => s.log.delivered[l]
    case Failures(l) => (if l < |s.log.attempts| then s.log.attempts[l] else 0) + s.log.exhausted[l]
    case Requeued(l) => s.log.requeued[l]
    case Refused(l) => s.log.refused[l]
    case Dequeued => s.log.dequeued
    case Dispatched => s.log.dispatched
    case Calls => |s.calls|
    case Errors => s.errors
    case Reports => Sum(s.log.attempts) + |s.log.exhausted| + |s.log.refused| + |s.log.lost| - One(Reporting(s.handler))
    case Stops => s.stops
  }

  /** A receipt about letter l is handled. */
  predicate Handles(s: State, step: Step, l: Letter, success: bool) {
    step.Handle? && s.receipts != [] && s.receipts[0].letter == l && s.receipts[0].success == success
  }

  /** The retry handler sends letter l. */
  predicate Sends(s: State, step: Step, l: Letter) {
    step.Requeue? && s.handler == Requeueing(l)
  }

  /** What really happens at a step. */
  function Entry(s: State, step: Step, a: Account): int {
    match a
    case External(l) => One(step == QueueLetter(l) && !s.closed)
    case Started(l) => One(step.Start? && !step.job.Consume? && step.job.letter == l)
    case Delivered(l) => One(Handles(s, step, l, true))
    case Failures(l) => One(Handles(s, step, l, false))
    case Requeued(l) => One(Sends(s, step, l) && !s.closed)
    case Refused(l) => One(Sends(s, step, l) && s.closed)
    case Dequeued => One(step.Dequeue?)
    case Dispatched => One(step.Dispatch?)
    case Calls => One(step.Start? || step.Dispatch?)
    case Errors => One(step.Report?) - One(step.DrainError?)
    case Reports => One(step.Report?)
    case Stops => One(step.RequestStop?) - One(step.StopEarly? || step.TakeStop?)
  }

  /** All entries of a run. */
  ghost function Total(cfg: Config, s: State, steps: seq<Step>, a: Account): int
    requires IsRun(cfg, s, steps)
    decreases |steps|
  {
    if steps == [] then 0 else Entry(s, steps[0], a) + Total(cfg, Apply(cfg, s, steps[0]), steps[1..], a)
  }

  lemma StartedEntry(cfg: Config, s: State, step: Step, l: Letter)
    requires Enabled(cfg, s, step)
    ensures Balance(Apply(cfg, s, step), Started(l)) == Balance(s, Started(l)) + Entry(s, step, Started(l))
  {
  }

  lemma CallsEntry(cfg: Config, s: State, step: Step)
    requires Enabled(cfg, s, step)
    ensures Balance(Apply(cfg, s, step), Calls) == Balance(s, Calls) + Entry(s, step, Calls)
  {
  }

  lemma CounterEntry(cfg: Config, s: State, step: Step, a: Account)
    requires Enabled(cfg, s, step) && (a == Errors || a == Stops)
    ensures Balance(Apply(cfg, s, step), a) == Balance(s, a) + Entry(s, step, a)
  {
  }

  /** Accounts that only steps on the letter buffer and the handler enter. */
  predicate OfLetters(a: Account) {
    a.External? || a.Delivered? || a.Failures? || a.Requeued? || a.Refused? || a.Dequeued? || a.Dispatched?
  }

  lemma DispatcherEntry(cfg: Config, s: State, step: Step, a: Account)
    requires Enabled(cfg, s, step) && OfLetters(a)
    requires step.Dequeue? || step.Dispatch? || step.SeeEmpty? || step.Report?
    ensures Balance(Apply(cfg, s, step), a) == Balance(s, a) + Entry(s, step, a)
  {
  }

  lemma SendEntry(cfg: Config, s: State, step: Step, a: Account)
    requires Enabled(cfg, s, step) && OfLetters(a) && (step.QueueLetter? || step.Requeue?)
    ensures Balance(Apply(cfg, s, step), a) == Balance(s, a) + Entry(s, step, a)
  {
  }

  lemma HandleReports(cfg: Config, s: State)
    requires CanHandle(s)
    ensures Balance(HandleReceipt(cfg, s), Reports) == Balance(s, Reports)
  {
    if s.receipts[0].failedLetter.Some? {
      var l := s.receipts[0].failedLetter.value;
      SumUpdate(s.log.attempts, l, s.log.attempts[l] + 1);
    }
  }

  lemma ReportsEntry(cfg: Config, s: State, step: Step)
    requires Enabled(cfg, s, step)
    ensures Balance(Apply(cfg, s, step), Reports) == Balance(s, Reports) + Entry(s, step, Reports)
  {
    if step.Handle? {
      HandleReports(cfg, s);
    } else if step.Report? || step.Requeue? {
      HandlerReports(cfg, s, step);
    } else {
      NoReports(cfg, s, step);
    }
  }

  lemma HandlerReports(cfg: Config, s: State, step: Step)
    requires Enabled(cfg, s, step) && (step.Report? || step.Requeue?)
    ensures Balance(Apply(cfg, s, step), Reports) == Balance(s, Reports) + Entry(s, step, Reports)
  {
  }

  lemma NoReports(cfg: Config, s: State, step: Step)
    requires Enabled(cfg, s, step) && !step.Handle? && !step.Report? && !step.Requeue?
    ensures Balance(Apply(cfg, s, step), Reports) == Balance(s, Reports)
  {
    if !MovesLetters(step) { Frame(cfg, s, step); }
  }

  lemma SettleEntry(cfg: Config, s: State, l: Letter, success: bool)
    requires CanHandle(s) && ReceiptOk(s.receipts[0])
    ensures var t, a := HandleReceipt(cfg, s), if success then Delivered(l) else Failures(l);
      Balance(t, a) == Balance(s, a) + Entry(s, Handle, a)
  {
  }

  lemma HandleEntry(cfg: Config, s: State, a: Account)
    requires ReceiptsOk(s) && CanHandle(s) && OfLetters(a)
    ensures Balance(HandleReceipt(cfg, s), a) == Balance(s, a) + Entry(s, Handle, a)
  {
    assert s.receipts[0] in s.receipts;
    if a.Delivered? || a.Failures? {
      SettleEntry(cfg, s, a.letter, a.Delivered?);
    } else {
      HandleKeeps(cfg, s);
    }
  }

  /** Handling a receipt neither sends nor takes a letter. */
  lemma HandleKeeps(cfg: Config, s: State)
    requires CanHandle(s)
    ensures var was, log := s.log, HandleReceipt(cfg, s).log;
      && log.external == was.external && log.requeued == was.requeued && log.refused == was.refused
      && log.dequeued == was.dequeued && log.dispatched == was.dispatched
  {
  }

  lemma FrameEntry(cfg: Config, s: State, step: Step, a: Account)
    requires Enabled(cfg, s, step) && OfLetters(a) && !MovesLetters(step)
    ensures Balance(Apply(cfg, s, step), a) == Balance(s, a) + Entry(s, step, a)
  {
    Frame(cfg, s, step);
  }

  lemma StepEntry(cfg: Config, s: State, step: Step, a: Account)
    requires ReceiptsOk(s) && Enabled(cfg, s, step)
    ensures Balance(Apply(cfg, s, step), a) == Balance(s, a) + Entry(s, step, a)
  {
    if a.Started? {
      StartedEntry(cfg, s, step, a.letter);
    } else if a.Reports? {
      ReportsEntry(cfg, s, step);
    } else if a.Calls? {
      CallsEntry(cfg, s, step);
    } else if !OfLetters(a) {
      CounterEntry(cfg, s, step, a);
    } else if !MovesLetters(step) {
      FrameEntry(cfg, s, step, a);
    } else if step.Handle? {
      HandleEntry(cfg, s, a);
    } else if step.QueueLetter? || step.Requeue? {
      SendEntry(cfg, s, step, a);
    } else {
      DispatcherEntry(cfg, s, step, a);
    }
  }

  lemma {:induction false} RunEntries(cfg: Config, s: State, steps: seq<Step>, a: Account)
    requires Inv(cfg, s) && IsRun(cfg, s, steps)
    ensures Balance(After(cfg, s, steps), a) == Balance(s, a) + Total(cfg, s, steps, a)
    decreases |steps|
  {
    if steps != [] {
      StepEntry(cfg, s, steps[0], a);
      StepInv(cfg, s, steps[0]);
      RunEntries(cfg, Apply(cfg, s, steps[0]), steps[1..], a);
    }
  }

  /** Every counter and every history of the machine is the number of the events it stands for. */
  lemma AccountsExact(cfg: Config, retry: seq<nat>, steps: seq<Step>, a: Account)
    requires IsRun(cfg, Init(cfg, retry), steps)
    ensures Balance(After(cfg, Init(cfg, retry), steps), a) == Total(cfg, Init(cfg, retry), steps, a)
  {
    InitInv(cfg, retry);
    RunEntries(cfg, Init(cfg, retry), steps, a);
    if a.Failures? && a.letter < |retry| { assert seq(|retry|, i => 0)[a.letter] == 0; }
    if a.Reports? { SumZeros(|retry|); }
  }

  function Min(a: int, b: int): int {
    if a <= b then a else b
  }

  /** The retry policy, over every run: a letter object is tried again at each of its failed
      receipts until its retries are used up, and given up at every one after that. */
  lemma RetriesExactly(cfg: Config, retry: seq<nat>, steps: seq<Step>, l: Letter)
    requires IsRun(cfg, Init(cfg, retry), steps) && l < |retry|
    ensures var s := After(cfg, Init(cfg, retry), steps);
      var failures := Total(cfg, Init(cfg, retry), steps, Failures(l));
      && |s.log.attempts| == |s.retry| == |retry|
      && s.log.attempts[l] == Min(failures, Monus(cfg.maxRetry, retry[l]))
      && s.retry[l] == retry[l] + s.log.attempts[l]
      && s.log.exhausted[l] == failures - s.log.attempts[l]
  {
    var s := After(cfg, Init(cfg, retry), steps);
    assert Reachable(cfg, retry, s);
    AccountsExact(cfg, retry, steps, Failures(l));
    RetriesBounded(cfg, retry, s, l);
    if s.log.exhausted[l] > 0 { ExhaustedExactly(cfg, retry, s, l); }
  }

  // ---------------------------------------------------------------- first in, first out

  /** The queues of the pool: channels, and connections. */
  datatype Queue = Channels | Connections

  function Contents(s: State, q: Queue): seq<nat> {
    if q.Channels? then s.pool else s.free
  }

  /** A call puts its channel back; a transient call has tried to open one on its connection. */
  function In(s: State, step: Step, q: Queue): seq<nat> {
    if !step.Do? || step.call >= |s.calls| || HostOf(s.calls[step.call].phase).None? then []
    else
      var call, h := s.calls[step.call], HostOf(s.calls[step.call].phase).value;
      match q
      case Channels => if step.act.PutBack? then [h] else []
      case Connections => if step.act.Remake? && call.job.Transient? && h < |s.wires| then [s.wires[h]] else []
  }

  /** What a call takes: the channel it holds afterwards, or the connection of its new channel. */
  function Out(cfg: Config, s: State, step: Step, q: Queue): seq<nat>
    requires Enabled(cfg, s, step)
  {
    var t := Apply(cfg, s, step);
    if !step.Do? then []
    else match q
      case Channels =>
        var h := HostOf(t.calls[step.call].phase);
        if step.act.Acquire? && h.Some? then [h.value] else []
      case Connections => if step.act.TakeLink? && |t.wires| > |s.wires| then [t.wires[|s.wires|]] else []
  }

  ghost function AllIn(cfg: Config, s: State, steps: seq<Step>, q: Queue): seq<nat>
    requires IsRun(cfg, s, steps)
    decreases |steps|
  {
    if steps == [] then [] else In(s, steps[0], q) + AllIn(cfg, Apply(cfg, s, steps[0]), steps[1..], q)
  }

  ghost function AllOut(cfg: Config, s: State, steps: seq<Step>, q: Queue): seq<nat>
    requires IsRun(cfg, s, steps)
    decreases |steps|
  {
    if steps == [] then [] else Out(cfg, s, steps[0], q) + AllOut(cfg, Apply(cfg, s, steps[0]), steps[1..], q)
  }

  lemma OtherQueues(cfg: Config, s: State, step: Step)
    requires Enabled(cfg, s, step) && !step.Do?
    ensures Apply(cfg, s, step).pool == s.pool && Apply(cfg, s, step).free == s.free
  {
  }

  lemma StepQueue(cfg: Config, s: State, step: Step, q: Queue)
    requires Enabled(cfg, s, step) && |s.wires| == |s.hosts|
    ensures Contents(s, q) + In(s, step, q) == Out(cfg, s, step, q) + Contents(Apply(cfg, s, step), q)
  {
    if step.Do? { NextHost(s.calls[step.call], ViewOf(s, s.calls[step.call].phase), step.act); }
    else { OtherQueues(cfg, s, step); }
  }

  lemma {:induction false} RunQueue(cfg: Config, s: State, steps: seq<Step>, q: Queue)
    requires Inv(cfg, s) && WellWired(cfg) && IsRun(cfg, s, steps)
    ensures Contents(s, q) + AllIn(cfg, s, steps, q) == AllOut(cfg, s, steps, q) + Contents(After(cfg, s, steps), q)
    decreases |steps|
  {
    if steps != [] {
      var t := Apply(cfg, s, steps[0]);
      StepQueue(cfg, s, steps[0], q);
      StepInv(cfg, s, steps[0]);
      RunQueue(cfg, t, steps[1..], q);
      Regroup(Contents(s, q), In(s, steps[0], q), AllIn(cfg, t, steps[1..], q), Out(cfg, s, steps[0], q),
              Contents(t, q), AllOut(cfg, t, steps[1..], q), Contents(After(cfg, t, steps[1..]), q));
    }
  }

  lemma Regroup(a: seq<nat>, put: seq<nat>, more: seq<nat>, taken: seq<nat>, b: seq<nat>, later: seq<nat>, c: seq<nat>)
    requires a + put == taken + b && b + more == later + c
    ensures a + (put + more) == (taken + later) + c
  {
    assert a + (put + more) == (a + put) + more == taken + (b + more);
  }

  /** Channels and connections come out of their queues in the order in which they went in, the
      first ones in the order in which they were made. */
  lemma PoolsFifo(cfg: Config, retry: seq<nat>, steps: seq<Step>)
    requires WellWired(cfg) && IsRun(cfg, Init(cfg, retry), steps)
    ensures var init := Init(cfg, retry); var s := After(cfg, init, steps);
      && Numbers(cfg.channelCount) + AllIn(cfg, init, steps, Channels) == AllOut(cfg, init, steps, Channels) + s.pool
      && Numbers(cfg.linkCount) + AllIn(cfg, init, steps, Connections)
         == AllOut(cfg, init, steps, Connections) + s.free
  {
    InitInv(cfg, retry);
    RunQueue(cfg, Init(cfg, retry), steps, Channels);
    RunQueue(cfg, Init(cfg, retry), steps, Connections);
  }

  /** The receipts that reach the handler, and those that it takes. */
  ghost function Sent(cfg: Config, s: State, steps: seq<Step>): seq<Receipt>
    requires IsRun(cfg, s, steps)
    decreases |steps|
  {
    if steps == [] then []
    else
      (if steps[0].SendReceipt? then [s.spawned[steps[0].index]] else [])
      + Sent(cfg, Apply(cfg, s, steps[0]), steps[1..])
  }

  ghost function Taken(cfg: Config, s: State, steps: seq<Step>): nat
    requires IsRun(cfg, s, steps)
    decreases |steps|
  {
    if steps == [] then 0 else One(steps[0].Handle?) + Taken(cfg, Apply(cfg, s, steps[0]), steps[1..])
  }

  lemma OtherReceipts(cfg: Config, s: State, step: Step)
    requires Enabled(cfg, s, step) && !step.SendReceipt? && !step.Handle?
    ensures Apply(cfg, s, step).receipts == s.receipts
  {
  }

  lemma StepReceiptQueue(cfg: Config, s: State, step: Step)
    requires Enabled(cfg, s, step)
    ensures var more := if step.SendReceipt? then [s.spawned[step.index]] else [];
      Apply(cfg, s, step).receipts == (s.receipts + more)[One(step.Handle?)..]
  {
    if !step.SendReceipt? && !step.Handle? { OtherReceipts(cfg, s, step); }
  }

  lemma TakeInTurn(receipts: seq<Receipt>, more: seq<Receipt>, rest: seq<Receipt>, m: nat, n: nat)
    requires m <= |receipts + more| && n <= |(receipts + more)[m..] + rest|
    ensures m + n <= |receipts + (more + rest)|
    ensures ((receipts + more)[m..] + rest)[n..] == (receipts + (more + rest))[m + n..]
  {
  }

  /** The handler takes the receipts in the order in which they reached it. */
  lemma {:induction false} ReceiptsFifo(cfg: Config, s: State, steps: seq<Step>)
    requires IsRun(cfg, s, steps)
    ensures var all := s.receipts + Sent(cfg, s, steps); var n := Taken(cfg, s, steps);
      n <= |all| && After(cfg, s, steps).receipts == all[n..]
    decreases |steps|
  {
    if steps != [] {
      StepReceiptQueue(cfg, s, steps[0]);
      ReceiptsFifo(cfg, Apply(cfg, s, steps[0]), steps[1..]);
      var more := if steps[0].SendReceipt? then [s.spawned[steps[0].index]] else [];
      TakeInTurn(s.receipts, more, Sent(cfg, Apply(cfg, s, steps[0]), steps[1..]), One(steps[0].Handle?),
                 Taken(cfg, Apply(cfg, s, steps[0]), steps[1..]));
    }
  }

  // ---------------------------------------------------------------- what happened on a channel

  function SentOn(s: State, k: nat): seq<nat> {
    if k < |s.streams| then s.streams[k].sent else []
  }

  function AnsweredOn(s: State, k: nat): seq<bool> {
    if k < |s.streams| then s.streams[k].verdicts else []
  }

  /** Who publishes on stream k at a step. */
  function Publishes(s: State, step: Step, k: nat): seq<nat> {
    if !step.Do? || step.call >= |s.calls| then []
    else
      var h := HostOf(s.calls[step.call].phase);
      var sends := step.act == Publish(true) || step.act == Emit(true);
      if sends && h.Some? && h.value < |s.hosts| && s.hosts[h.value] == k then [step.call] else []
  }

  /** What the broker answers on stream k at a step. */
  function Answers(step: Step, k: nat): seq<bool> {
    if step.BrokerAnswer? && step.stream == k then [step.ack] else []
  }

  ghost function AllPublishes(cfg: Config, s: State, steps: seq<Step>, k: nat): seq<nat>
    requires IsRun(cfg, s, steps)
    decreases |steps|
  {
    if steps == [] then [] else Publishes(s, steps[0], k) + AllPublishes(cfg, Apply(cfg, s, steps[0]), steps[1..], k)
  }

  ghost function AllAnswers(cfg: Config, s: State, steps: seq<Step>, k: nat): seq<bool>
    requires IsRun(cfg, s, steps)
    decreases |steps|
  {
    if steps == [] then [] else Answers(steps[0], k) + AllAnswers(cfg, Apply(cfg, s, steps[0]), steps[1..], k)
  }

  lemma NextSent(st: Stream, c: nat, a: Act)
    ensures var later := NextStream(st, c, a);
      && later.sent == st.sent + (if a == Publish(true) || a == Emit(true) then [c] else [])
      && later.verdicts == st.verdicts
  {
  }

  lemma DoOn(cfg: Config, s: State, c: nat, a: Act, k: nat)
    requires ActEnabled(cfg, s, c, a)
    ensures SentOn(Perform(cfg, s, c, a), k) == SentOn(s, k) + Publishes(s, Do(c, a), k)
    ensures AnsweredOn(Perform(cfg, s, c, a), k) == AnsweredOn(s, k)
  {
    StreamsAfter(cfg, s, c, a);
    assert Perform(cfg, s, c, a).streams == NextStreams(s, c, a);
    var h := HostOf(s.calls[c].phase);
    if h.Some? { NextSent(StreamOf(s, h.value), c, a); }
  }

  lemma AnswerOn(cfg: Config, s: State, i: nat, ack: bool, k: nat)
    requires Enabled(cfg, s, BrokerAnswer(i, ack))
    ensures SentOn(Apply(cfg, s, BrokerAnswer(i, ack)), k) == SentOn(s, k)
    ensures AnsweredOn(Apply(cfg, s, BrokerAnswer(i, ack)), k) == AnsweredOn(s, k) + Answers(BrokerAnswer(i, ack), k)
  {
  }

  lemma OtherOn(cfg: Config, s: State, step: Step, k: nat)
    requires Enabled(cfg, s, step) && !step.Do? && !step.BrokerAnswer?
    ensures SentOn(Apply(cfg, s, step), k) == SentOn(s, k) && AnsweredOn(Apply(cfg, s, step), k) == AnsweredOn(s, k)
  {
    if !FromOutside(step) { OtherStreams(cfg, s, step); }
  }

  lemma StepOn(cfg: Config, s: State, step: Step, k: nat)
    requires Enabled(cfg, s, step)
    ensures SentOn(Apply(cfg, s, step), k) == SentOn(s, k) + Publishes(s, step, k)
    ensures AnsweredOn(Apply(cfg, s, step), k) == AnsweredOn(s, k) + Answers(step, k)
  {
    match step
    case Do(c, a) => DoOn(cfg, s, c, a, k);
    case BrokerAnswer(i, ack) => AnswerOn(cfg, s, i, ack, k);
    case _ => OtherOn(cfg, s, step, k);
  }

  lemma {:induction false} RunSent(cfg: Config, s: State, steps: seq<Step>, k: nat)
    requires IsRun(cfg, s, steps)
    ensures SentOn(After(cfg, s, steps), k) == SentOn(s, k) + AllPublishes(cfg, s, steps, k)
    decreases |steps|
  {
    if steps != [] {
      StepOn(cfg, s, steps[0], k);
      RunSent(cfg, Apply(cfg, s, steps[0]), steps[1..], k);
      InTurn(SentOn(s, k), Publishes(s, steps[0], k), AllPublishes(cfg, Apply(cfg, s, steps[0]), steps[1..], k));
    }
  }

  lemma {:induction false} RunAnswered(cfg: Config, s: State, steps: seq<Step>, k: nat)
    requires IsRun(cfg, s, steps)
    ensures AnsweredOn(After(cfg, s, steps), k) == AnsweredOn(s, k) + AllAnswers(cfg, s, steps, k)
    decreases |steps|
  {
    if steps != [] {
      StepOn(cfg, s, steps[0], k);
      RunAnswered(cfg, Apply(cfg, s, steps[0]), steps[1..], k);
      InTurn(AnsweredOn(s, k), Answers(steps[0], k), AllAnswers(cfg, Apply(cfg, s, steps[0]), steps[1..], k));
    }
  }

  lemma InTurn<T>(a: seq<T>, b: seq<T>, c: seq<T>)
    ensures a + b + c == a + (b + c)
  {
  }

  /** The streams are what happened: on each channel the publishes are those of the calls that held
      it, in order, and its answers are those that the broker gave, as it gave them. */
  lemma StreamsExact(cfg: Config, retry: seq<nat>, steps: seq<Step>, k: nat)
    requires IsRun(cfg, Init(cfg, retry), steps)
    ensures var init := Init(cfg, retry); var s := After(cfg, init, steps);
      k < |s.streams| ==>
        && s.streams[k].sent == AllPublishes(cfg, init, steps, k)
        && s.streams[k].verdicts == AllAnswers(cfg, init, steps, k)
  {
    RunSent(cfg, Init(cfg, retry), steps, k);
    RunAnswered(cfg, Init(cfg, retry), steps, k);
  }
}
