/** The v2 confirmed-publish pipeline as one interleaved state machine.

  Every atomic action of every goroutine is one Step: the callers of QueueLetter, the
  dispatcher of deliverLetters, each running publish call or consume loop, the receipt
  goroutines, the retry handler and the error drain of the service, and the broker and
  the network as an adversary. A letter object is an index into the `retry` table, so the
  same object may sit in several places at once; a publish call is an index into `calls`.

  A channel host is wired to a link, the connection host it opens its channels on. When a link
  is severed its Errors channel is closed and stays closed until the link is dialled again. */
module Machine {
  import opened Common
  import opened Streams

  type Letter = nat

  /** `wires[h]` is the link of cached channel h. The rest are capacities. */
  datatype Config = Config(wires: seq<nat>, linkCount: nat, letterCap: nat, receiptCap: nat, errorCap: nat,
      maxRetry: nat) {
    const channelCount: nat := |wires|
  }

  /** The size of the publish semaphore. */
  function Parallel(cfg: Config): nat {
    cfg.channelCount / 2 + 1
  }

  /** What a goroutine that uses the channel pool is doing. */
  datatype Job =
    | Confirm(letter: Letter, auto: bool)    // PublishWithConfirmation, by the dispatcher or by the application
    | Plain(letter: Letter, silent: bool)    // Publish; silent = skipReceipt
    | Transient(letter: Letter)              // PublishWithConfirmationTransient
    | Consume                                // a consume loop

  /** In the four phases of making a channel, `again` tells whether the call starts over with it
      or only gives it back. */
  datatype Phase =
    | Seeking                                       // about to receive from the pool, or from the connection queue
    | Flushing(host: nat)
    | Publishing(host: nat, rounds: nat, lag: int)  // at the label Publish
    | Waiting(host: nat, rounds: nat, lag: int)     // polling for confirm or timeout
    | Emitting(host: nat)                           // an unconfirmed publish
    | Subscribing(host: nat)
    | Consuming(host: nat)
    | Reconnecting(host: nat, again: bool)          // before verifyHealthyConnection
    | Recovering(host: nat, again: bool)            // triggerConnectionRecovery: dialling
    | Clearing(host: nat, again: bool)              // triggerConnectionRecovery: flushing Errors
    | Making(host: nat, again: bool)                // before MakeChannel
    | Returning(host: nat)                          // ReturnChannel(not erred): before its flush
    | Putting(host: nat, again: bool)               // about to send the host back to the pool
    | Dropping(host: nat)                           // about to close a transient channel
    | Leaving                                       // returned, semaphore not yet released
    | Finished

  datatype Outcome =
    | Undecided
    | Acked(stream: nat, pos: nat, mine: int, lag: int, rounds: nat)
    | Emitted
    | Failed

  datatype Call = Call(job: Job, phase: Phase, outcome: Outcome)

  datatype Receipt = Receipt(letter: Letter, success: bool, failedLetter: Option<Letter>)

  datatype Dispatcher = Starting | Draining | Holding(letter: Letter) | CheckingStop | Stopped

  datatype Handler =
    | Idle
    | ReportingRetry(letter: Letter)
    | Requeueing(letter: Letter)
    | ReportingRefusal
    | ReportingExhausted
    | ReportingLost

  /** History that the program does not keep. */
  datatype Ledger = Ledger(
    keeper: seq<Option<nat>>,       // which call holds a channel host; None = in the pool, or dropped
    initial: seq<nat>,              // RetryCount of each letter at the start
    attempts: seq<nat>,             // requeue attempts per letter
    accepted: seq<Letter>,          // everything that ever entered the letter buffer
    dequeued: nat,                  // how many letters ever left it
    emptyMark: nat,                 // |accepted| when the dispatcher last saw the buffer empty
    dispatched: nat,                // publish calls started by the dispatcher
    external: multiset<Letter>,     // accepted from the application
    requeued: multiset<Letter>,     // accepted from the retry handler
    started: multiset<Letter>,      // published directly by the application
    delivered: multiset<Letter>,    // settled by a success receipt
    exhausted: multiset<Letter>,    // settled: no retries left
    refused: multiset<Letter>,      // settled: requeue found the buffer closed
    unreported: multiset<Letter>,   // settled: published with skipReceipt
    lost: multiset<Letter>)         // settled: failed receipt without its letter

  /** Hosts below channelCount are the cached ones; each transient channel adds one. `free` is
      the queue of connections. */
  datatype State = State(
    letters: seq<Letter>, closed: bool, stops: nat,
    dispatcher: Dispatcher, running: nat, calls: seq<Call>,
    pool: seq<nat>, hosts: seq<nat>, streams: seq<Stream>,
    links: seq<bool>, wires: seq<nat>, free: seq<nat>,
    spawned: seq<Receipt>, receipts: seq<Receipt>,
    handler: Handler, errors: nat, shutdown: bool,
    retry: seq<nat>, log: Ledger)

  /** What a goroutine with a channel can do next. */
  datatype Act =
    | Acquire
    | TakeLink
    | Flush(connectionClosed: bool)
    | Publish(ok: bool)
    | Timeout
    | Confirmation
    | Emit(ok: bool)
    | Subscribe(ok: bool)
    | Fault
    | Unsubscribe
    | Verify(bad: bool)
    | Connect(ok: bool)
    | Clear
    | Remake(ok: bool)
    | FlushBack(connectionClosed: bool)
    | PutBack
    | Drop
    | Release
    | Quit

  datatype Step =
    // the application, the broker and the network
    | QueueLetter(letter: Letter)
    | Start(job: Job)
    | RequestStop
    | Restart
    | Shutdown
    | BrokerAnswer(stream: nat, ack: bool)
    | Close(stream: nat)
    | Sever(link: nat)
    // the dispatcher
    | StopEarly
    | Begin
    | Dequeue
    | Dispatch
    | SeeEmpty
    | NoStop
    | TakeStop
    // a goroutine that uses the channel pool
    | Do(call: nat, act: Act)
    // receipts and the service
    | SendReceipt(index: nat)
    | Handle
    | Report
    | Requeue
    | DrainError

  // ---------------------------------------------------------------- start

  /** createCacheChannel has filled the pool; nothing has been queued. */
  function Init(cfg: Config, retry: seq<nat>): State {
    State([], false, 0, Starting, 0, [],
          Numbers(cfg.channelCount), Numbers(cfg.channelCount), seq(cfg.channelCount, i => Fresh()),
          seq(cfg.linkCount, i => true), cfg.wires, Numbers(cfg.linkCount),
          [], [], Idle, 0, false, retry,
          Ledger(seq(cfg.channelCount, i => None), retry, seq(|retry|, i => 0), [], 0, 0, 0,
                 multiset{}, multiset{}, multiset{}, multiset{}, multiset{}, multiset{}, multiset{}, multiset{}))
  }

  // ---------------------------------------------------------------- goroutines with a channel

  function HostOf(p: Phase): Option<nat> {
    match p
    case Seeking => None
    case Leaving => None
    case Finished => None
    case _ => Some(p.host)
  }

  /** The stream a host currently publishes on. */
  predicate HasStream(s: State, h: nat) {
    h < |s.hosts| && s.hosts[h] < |s.streams|
  }

  function StreamOf(s: State, h: nat): Stream
    requires HasStream(s, h)
  {
    s.streams[s.hosts[h]]
  }

  predicate Wired(s: State, h: nat) {
    h < |s.wires| && s.wires[h] < |s.links|
  }

  /** Is the connection of the host open? */
  predicate LinkUp(s: State, h: nat) {
    Wired(s, h) && s.links[s.wires[h]]
  }

  /** The phases in which a transient call keeps its connection out of the queue. */
  predicate HoldsLink(p: Phase) {
    p.Reconnecting? || p.Recovering? || p.Clearing? || p.Making?
  }

  function FirstPhase(job: Job, h: nat): Phase {
    match job
    case Confirm(_, _) => Flushing(h)
    case Plain(_, _) => Emitting(h)
    case Transient(_) => Reconnecting(h, true)
    case Consume => Subscribing(h)
  }

  /** What the goroutine sees of the world: the stream of the channel it holds, its number among
      all streams, whether its connection is open, the host at the head of the pool, and the
      number the next transient channel gets if a connection is free. */
  datatype View = View(stream: Stream, number: nat, up: bool, head: Option<nat>, next: Option<nat>)

  function ViewOf(s: State, p: Phase): View {
    var h := HostOf(p);
    var head := if s.pool == [] then None else Some(s.pool[0]);
    var next := if s.free == [] then None else Some(|s.hosts|);
    if h.Some? && HasStream(s, h.value) then View(StreamOf(s, h.value), s.hosts[h.value], LinkUp(s, h.value), head,
        next)
    else View(Fresh(), 0, false, head, next)
  }

  /** Whether a goroutine in this position can perform the act. */
  predicate CanDo(call: Call, v: View, a: Act) {
    var p := call.phase;
    match a
    case Acquire => p.Seeking? && !call.job.Transient? && v.head.Some?
    case TakeLink => p.Seeking? && call.job.Transient? && v.next.Some?
    case Flush(connectionClosed) => p.Flushing? && connectionClosed == !v.up
    case Publish(ok) => p.Publishing? && (ok ==> v.stream.open)
    case Timeout => p.Waiting?
    case Confirmation => p.Waiting? && (Buffered(v.stream) > 0 || !v.stream.open)
    case Emit(ok) => p.Emitting? && (ok ==> v.stream.open)
    case Subscribe(ok) => p.Subscribing? && (ok ==> v.stream.open)
    case Fault => p.Consuming?
    case Unsubscribe => p.Consuming?
    case Verify(_) => p.Reconnecting?
    case Connect(_) => p.Recovering?
    case Clear => p.Clearing?
    case Remake(ok) => p.Making? && (ok ==> v.up)
    case FlushBack(connectionClosed) => p.Returning? && connectionClosed == !v.up
    case PutBack => p.Putting?
    case Drop => p.Dropping?
    case Release => p.Leaving?
    case Quit => p.Seeking? && call.job.Consume?
  }

  /** Is an answer in the buffer, and is it an ack? A drained closed buffer reads as a nack. */
  predicate ReadsAck(st: Stream) {
    Buffered(st) > 0 && st.verdicts[st.taken]
  }

  /** A cached channel is given back, a transient one is closed. */
  function Ending(job: Job, h: nat): Phase {
    if job.Transient? then Dropping(h) else Returning(h)
  }

  /** The goroutine after the act. */
  function NextCall(call: Call, v: View, a: Act): Call
    requires CanDo(call, v, a)
  {
    var p := call.phase;
    match a
    case Acquire => call.(phase := FirstPhase(call.job, v.head.value))
    case TakeLink => call.(phase := FirstPhase(call.job, v.next.value))
    case Flush(connectionClosed) => call.(phase := Publishing(p.host, 0, Lag(FlushOne(v.stream, connectionClosed))))
    case Publish(ok) =>
      call.(phase := if ok then Waiting(p.host, p.rounds + 1, p.lag)
                     else if call.job.Transient? then Dropping(p.host) else Reconnecting(p.host, true))
    case Timeout => call.(phase := Ending(call.job, p.host), outcome := Failed)
    case Confirmation =>
      if ReadsAck(v.stream)
      then call.(phase := Ending(call.job, p.host),
                 outcome := Acked(v.number, v.stream.taken, |v.stream.sent| - 1, p.lag, p.rounds))
      else call.(phase := Publishing(p.host, p.rounds, p.lag))     // goto Publish
    case Emit(ok) =>
      if ok then call.(phase := Returning(p.host), outcome := Emitted)
      else call.(phase := Reconnecting(p.host, false), outcome := Failed)
    case Subscribe(ok) => call.(phase := if ok then Consuming(p.host) else Reconnecting(p.host, true))
    case Fault => call.(phase := Reconnecting(p.host, true))
    case Unsubscribe => call.(phase := Returning(p.host))
    case Verify(bad) => call.(phase := if bad || !v.up then Recovering(p.host, p.again) else Making(p.host, p.again))
    case Connect(ok) => if v.up || ok then call.(phase := Clearing(p.host, p.again)) else call
    case Clear =>
      // A closed Errors channel never runs dry.
      if v.up then call.(phase := Making(p.host, p.again)) else call
    case Remake(ok) =>
      if call.job.Transient? then call.(phase := if ok then Publishing(p.host, 0, 0) else Dropping(p.host))
      else call.(phase := if ok then Putting(p.host, p.again) else Reconnecting(p.host, p.again))
    case FlushBack(_) => call.(phase := Putting(p.host, false))
    case PutBack => call.(phase := if p.again then Seeking else if call.job.Confirm? && call.job.auto then Leaving
        else Finished)
    case Drop => call.(phase := if call.outcome.Undecided? then Seeking else Finished)
    case Release => call.(phase := Finished)
    case Quit => call.(phase := Finished)
  }

  /** The stream of the held channel after the act. */
  function NextStream(st: Stream, who: nat, a: Act): Stream {
    match a
    case Flush(connectionClosed) => FlushOne(st, connectionClosed)
    case Publish(ok) => if ok then Send(st, who) else st
    case Timeout => st.(tainted := true)
    case Confirmation => if Buffered(st) > 0 then Take(st) else st
    case Emit(ok) => if ok then Send(st, who).(tainted := true) else st
    case FlushBack(connectionClosed) => FlushOne(st, connectionClosed)
    case Drop => Shut(st)
    case _ => st
  }

  /** publishReceipt: the receipts handed to a goroutine of their own by the act. */
  function Receipts(call: Call, v: View, a: Act): seq<Receipt> {
    match a
    case Timeout => if call.job.Consume? then [] else [Receipt(call.job.letter, false, Some(call.job.letter))]
    case Confirmation => if ReadsAck(v.stream) && !call.job.Consume? then [Receipt(call.job.letter, true, None)] else []
    case Emit(ok) => if call.job.Plain? && !call.job.silent
      then [Receipt(call.job.letter, ok, if ok then None else Some(call.job.letter))] else []
    case _ => []
  }

  function Unreported(call: Call, a: Act): multiset<Letter> {
    if a.Emit? && call.job.Plain? && call.job.silent then multiset{call.job.letter} else multiset{}
  }

  predicate ActEnabled(cfg: Config, s: State, c: nat, a: Act) {
    c < |s.calls| &&
    var p := s.calls[c].phase;
    && CanDo(s.calls[c], ViewOf(s, p), a)
    && (HostOf(p).Some? ==> HasStream(s, HostOf(p).value) && HostOf(p).value < |s.log.keeper|)
    && (a.Acquire? ==> s.pool[0] < |s.log.keeper|)
    && (a.PutBack? ==> |s.pool| < cfg.channelCount)    // the send in ReturnChannel blocks on a full buffer
    && (a.Release? ==> s.running > 0)
  }

  /** Who keeps each host after the act. */
  function NextKeeper(s: State, c: nat, a: Act): seq<Option<nat>>
    requires c < |s.calls|
  {
    var h := HostOf(s.calls[c].phase);
    if a.Acquire? && s.pool != [] && s.pool[0] < |s.log.keeper| then s.log.keeper[s.pool[0] := Some(c)]
    else if a.TakeLink? then s.log.keeper + [Some(c)]
    else if (a.PutBack? || a.Drop?) && h.Some? && h.value < |s.log.keeper| then s.log.keeper[h.value := None]
    else s.log.keeper
  }

  function NextPool(s: State, c: nat, a: Act): seq<nat>
    requires c < |s.calls|
  {
    var p := s.calls[c].phase;
    if a.Acquire? && s.pool != [] then s.pool[1..] else if a.PutBack? && p.Putting? then s.pool + [p.host] else s.pool
  }

  /** Streams and hosts after the act: MakeChannel opens a new stream for the host, and a
      transient call starts with a host that has no open channel yet. */
  function NextStreams(s: State, c: nat, a: Act): seq<Stream>
    requires c < |s.calls|
  {
    var h := HostOf(s.calls[c].phase);
    if a.TakeLink? then s.streams + [Shut(Fresh())]
    else if a.Remake? && a.ok then s.streams + [Fresh()]
    else if h.Some? && HasStream(s, h.value) then s.streams[s.hosts[h.value] := NextStream(StreamOf(s, h.value), c, a)]
    else s.streams
  }

  function NextHosts(s: State, c: nat, a: Act): seq<nat>
    requires c < |s.calls|
  {
    var h := HostOf(s.calls[c].phase);
    if a.TakeLink? then s.hosts + [|s.streams|]
    else if a.Remake? && a.ok && h.Some? && h.value < |s.hosts| then s.hosts[h.value := |s.streams|]
    else s.hosts
  }

  function NextLinks(s: State, c: nat, a: Act): seq<bool>
    requires c < |s.calls|
  {
    var h := HostOf(s.calls[c].phase);
    if a.Connect? && a.ok && h.Some? && Wired(s, h.value) then s.links[s.wires[h.value] := true] else s.links
  }

  function NextWires(s: State, c: nat, a: Act): seq<nat> {
    if a.TakeLink? && s.free != [] then s.wires + [s.free[0]] else s.wires
  }

  /** GetTransientChannel gives the connection back once it has tried to open a channel on it. */
  function NextFree(s: State, c: nat, a: Act): seq<nat>
    requires c < |s.calls|
  {
    var h := HostOf(s.calls[c].phase);
    if a.TakeLink? && s.free != [] then s.free[1..]
    else if a.Remake? && s.calls[c].job.Transient? && h.Some? && h.value < |s.wires| then s.free + [s.wires[h.value]]
    else s.free
  }

  function Perform(cfg: Config, s: State, c: nat, a: Act): State
    requires ActEnabled(cfg, s, c, a)
  {
    var call := s.calls[c];
    var v := ViewOf(s, call.phase);
    s.(calls := s.calls[c := NextCall(call, v, a)],
       pool := NextPool(s, c, a), hosts := NextHosts(s, c, a), streams := NextStreams(s, c, a),
       links := NextLinks(s, c, a), wires := NextWires(s, c, a), free := NextFree(s, c, a),
       running := if a.Release? then s.running - 1 else s.running,
       spawned := s.spawned + Receipts(call, v, a),
       log := s.log.(keeper := NextKeeper(s, c, a), unreported := s.log.unreported + Unreported(call, a)))
  }

  // ---------------------------------------------------------------- the whole machine

  /** A send on the letter buffer goes ahead when there is room, or panics because it is closed. */
  predicate CanSend(cfg: Config, s: State) {
    s.closed || |s.letters| < cfg.letterCap
  }

  /** The retry handler takes a receipt while it is idle and the service is not shut down. */
  predicate CanHandle(s: State) {
    && s.handler.Idle? && !s.shutdown && s.receipts != []
    && var l := s.receipts[0].failedLetter; (l.Some? ==> l.value < |s.retry| && l.value < |s.log.attempts|)
  }

  predicate Enabled(cfg: Config, s: State, step: Step) {
    match step
    case QueueLetter(l) => l < |s.retry| && CanSend(cfg, s)
    case Start(job) =>
      match job {
        case Confirm(l, auto) => l < |s.retry| && !auto
        case Plain(l, _) => l < |s.retry|
        case Transient(l) => l < |s.retry|
        case Consume => true
      }
    case RequestStop => true
    case Restart => s.dispatcher.Stopped? && !s.closed
    case Shutdown => true
    case BrokerAnswer(k, _) => k < |s.streams| && CanAnswer(s.streams[k])
    case Close(k) => k < |s.streams|
    case Sever(k) => k < |s.links|
    case StopEarly => s.dispatcher.Starting? && s.stops > 0
    case Begin => s.dispatcher.Starting?
    case Dequeue => s.dispatcher.Draining? && s.letters != []
    case Dispatch => s.dispatcher.Holding? && s.running < Parallel(cfg)
    case SeeEmpty => s.dispatcher.Draining? && s.letters == []
    case NoStop => s.dispatcher.CheckingStop?
    case TakeStop => s.dispatcher.CheckingStop? && s.stops > 0
    case Do(c, a) => ActEnabled(cfg, s, c, a)
    case SendReceipt(i) => i < |s.spawned| && |s.receipts| < cfg.receiptCap
    case Handle => CanHandle(s)
    case Report => !s.handler.Idle? && !s.handler.Requeueing? && s.errors < cfg.errorCap
    case Requeue => s.handler.Requeueing? && CanSend(cfg, s)
    case DrainError => s.errors > 0 && !s.shutdown
  }

  /** A stream that some host carries on link k. */
  predicate OnLink(s: State, i: nat, k: nat) {
    exists h :: 0 <= h < |s.hosts| && h < |s.wires| && s.hosts[h] == i && s.wires[h] == k
  }

  /** When a connection is lost, its channels are. */
  function Severed(s: State, k: nat): (r: seq<Stream>)
    ensures |r| == |s.streams|
    ensures forall i :: 0 <= i < |r| ==> r[i] == if OnLink(s, i, k) then Shut(s.streams[i]) else s.streams[i]
  {
    seq(|s.streams|, i requires 0 <= i < |s.streams| => if OnLink(s, i, k) then Shut(s.streams[i]) else s.streams[i])
  }

  /** The letter enters the buffer. */
  function Accept(s: State, l: Letter): State {
    s.(letters := s.letters + [l], log := s.log.(accepted := s.log.accepted + [l]))
  }

  /** One turn of processPublishReceipts, up to its first blocking send. */
  function HandleReceipt(cfg: Config, s: State): State
    requires CanHandle(s)
  {
    var r := s.receipts[0];
    var t := s.(receipts := s.receipts[1..]);
    if r.success then t.(log := t.log.(delivered := t.log.delivered + multiset{r.letter}))
    else match r.failedLetter
      case None => t.(handler := ReportingLost, log := t.log.(lost := t.log.lost + multiset{r.letter}))
      case Some(l) =>
        if s.retry[l] < cfg.maxRetry then
          t.(handler := ReportingRetry(l), retry := s.retry[l := s.retry[l] + 1],
             log := t.log.(attempts := t.log.attempts[l := t.log.attempts[l] + 1]))
        else
          t.(handler := ReportingExhausted, log := t.log.(exhausted := t.log.exhausted + multiset{l}))
  }

  function Apply(cfg: Config, s: State, step: Step): State
    requires Enabled(cfg, s, step)
  {
    match step
    case QueueLetter(l) =>
      if s.closed then s
      else Accept(s, l).(log := Accept(s, l).log.(external := s.log.external + multiset{l}))
    case Start(job) =>
      s.(calls := s.calls + [Call(job, Seeking, Undecided)],
         log := if job.Consume? then s.log else s.log.(started := s.log.started + multiset{job.letter}))
    case RequestStop => s.(stops := s.stops + 1)
    case Restart => s.(dispatcher := Starting)     // StartAutoPublishing after a stop that left the buffer open
    case Shutdown => s.(shutdown := true)
    case BrokerAnswer(k, ack) => s.(streams := s.streams[k := Answer(s.streams[k], ack)])
    case Close(k) => s.(streams := s.streams[k := Shut(s.streams[k])])
    case Sever(k) => s.(links := s.links[k := false], streams := Severed(s, k))
    case StopEarly => s.(dispatcher := Stopped, stops := s.stops - 1)
    case Begin => s.(dispatcher := Draining)
    case Dequeue => s.(dispatcher := Holding(s.letters[0]), letters := s.letters[1..],
        log := s.log.(dequeued := s.log.dequeued + 1))
    case Dispatch =>
      s.(dispatcher := Draining, running := s.running + 1,
         calls := s.calls + [Call(Confirm(s.dispatcher.letter, true), Seeking, Undecided)],
         log := s.log.(dispatched := s.log.dispatched + 1))
    case SeeEmpty => s.(dispatcher := CheckingStop, log := s.log.(emptyMark := |s.log.accepted|))
    case NoStop => s.(dispatcher := Draining)
    case TakeStop => s.(dispatcher := Stopped, closed := true, stops := s.stops - 1)
    case Do(c, a) => Perform(cfg, s, c, a)
    case SendReceipt(i) => s.(spawned := s.spawned[..i] + s.spawned[i + 1..], receipts := s.receipts + [s.spawned[i]])
    case Handle => HandleReceipt(cfg, s)
    case Report =>
      s.(errors := s.errors + 1,
         handler := if s.handler.ReportingRetry? then Requeueing(s.handler.letter) else Idle)
    case Requeue =>
      var l := s.handler.letter;
      if s.closed then s.(handler := ReportingRefusal, log := s.log.(refused := s.log.refused + multiset{l}))
      else Accept(s, l).(handler := Idle, log := Accept(s, l).log.(requeued := s.log.requeued + multiset{l}))
    case DrainError => s.(errors := s.errors - 1)
  }

  // ---------------------------------------------------------------- runs

  /** A run from s: every step is enabled where it is taken. */
  ghost predicate IsRun(cfg: Config, s: State, steps: seq<Step>)
    decreases |steps|
  {
    steps == [] || (Enabled(cfg, s, steps[0]) && IsRun(cfg, Apply(cfg, s, steps[0]), steps[1..]))
  }

  ghost function After(cfg: Config, s: State, steps: seq<Step>): State
    requires IsRun(cfg, s, steps)
    decreases |steps|
  {
    if steps == [] then s else After(cfg, Apply(cfg, s, steps[0]), steps[1..])
  }

  /** s is reached from the start by some run. */
  ghost predicate Reachable(cfg: Config, retry: seq<nat>, s: State) {
    exists steps: seq<Step> :: IsRun(cfg, Init(cfg, retry), steps) && After(cfg, Init(cfg, retry), steps) == s
  }
}
