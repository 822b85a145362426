/** No letter is lost and none is invented: conservation over every run of the machine. */
module LetterConservation {
  import opened Common
  import opened Machine
  import opened PoolCustody

  // ---------------------------------------------------------------- where a letter can be

  function One(b: bool): nat {
    if b then 1 else 0
  }

  function InBuffer(letters: seq<Letter>, l: Letter): nat {
    if letters == [] then 0 else InBuffer(letters[..|letters| - 1], l) + One(letters[|letters| - 1] == l)
  }

  /** 1 while the call has not decided the outcome of letter l. */
  function Owes(call: Call, l: Letter): nat {
    One(!call.job.Consume? && call.outcome.Undecided? && call.job.letter == l)
  }

  function InFlight(calls: seq<Call>, l: Letter): nat {
    if calls == [] then 0 else InFlight(calls[..|calls| - 1], l) + Owes(calls[|calls| - 1], l)
  }

  function InReceipts(rs: seq<Receipt>, l: Letter): nat {
    if rs == [] then 0 else InReceipts(rs[..|rs| - 1], l) + One(rs[|rs| - 1].letter == l)
  }

  function InDispatcher(d: Dispatcher, l: Letter): nat {
    One(d.Holding? && d.letter == l)
  }

  function InHandler(h: Handler, l: Letter): nat {
    One((h.ReportingRetry? || h.Requeueing?) && h.letter == l)
  }

  function Settled(log: Ledger, l: Letter): nat {
    log.delivered[l] + log.exhausted[l] + log.refused[l] + log.unreported[l] + log.lost[l]
  }

  function Moving(s: State, l: Letter): nat {
    InBuffer(s.letters, l) + InDispatcher(s.dispatcher, l) + InFlight(s.calls, l)
      + InReceipts(s.spawned, l) + InReceipts(s.receipts, l) + InHandler(s.handler, l)
  }

  /** Every queueing and every direct publish of l is in exactly one place. */
  ghost predicate ConservedAt(s: State, l: Letter) {
    s.log.external[l] + s.log.started[l] == Moving(s, l) + Settled(s.log, l)
  }

  // ---------------------------------------------------------------- sequences

  lemma BufferAppend(letters: seq<Letter>, x: Letter, l: Letter)
    ensures InBuffer(letters + [x], l) == InBuffer(letters, l) + One(x == l)
  {
    assert (letters + [x])[..|letters|] == letters;
  }

  lemma {:induction false} BufferHead(letters: seq<Letter>, l: Letter)
    requires letters != []
    ensures InBuffer(letters, l) == One(letters[0] == l) + InBuffer(letters[1..], l)
  {
    var last := |letters| - 1;
    if last > 0 {
      BufferHead(letters[..last], l);
      assert letters[1..][..last - 1] == letters[..last][1..];
    }
  }

  lemma {:induction false} InFlightUpdate(calls: seq<Call>, c: nat, call: Call, l: Letter)
    requires c < |calls|
    ensures InFlight(calls[c := call], l) + Owes(calls[c], l) == InFlight(calls, l) + Owes(call, l)
  {
    var last := |calls| - 1;
    if c == last {
      assert calls[c := call][..last] == calls[..last];
    } else {
      InFlightUpdate(calls[..last], c, call, l);
      assert calls[c := call][..last] == calls[..last][c := call];
    }
  }

  lemma InFlightAppend(calls: seq<Call>, call: Call, l: Letter)
    ensures InFlight(calls + [call], l) == InFlight(calls, l) + Owes(call, l)
  {
    assert (calls + [call])[..|calls|] == calls;
  }

  lemma ReceiptsAppend(rs: seq<Receipt>, r: Receipt, l: Letter)
    ensures InReceipts(rs + [r], l) == InReceipts(rs, l) + One(r.letter == l)
  {
    assert (rs + [r])[..|rs|] == rs;
  }

  lemma {:induction false} ReceiptsRemove(rs: seq<Receipt>, i: nat, l: Letter)
    requires i < |rs|
    ensures InReceipts(rs, l) == InReceipts(rs[..i] + rs[i + 1..], l) + One(rs[i].letter == l)
  {
    var last := |rs| - 1;
    if i == last {
      assert rs[..i] + rs[i + 1..] == rs[..last];
    } else {
      ReceiptsRemove(rs[..last], i, l);
      assert (rs[..i] + rs[i + 1..])[..last - 1] == rs[..last][..i] + rs[..last][i + 1..];
    }
  }

  lemma ReceiptsHead(rs: seq<Receipt>, l: Letter)
    requires rs != []
    ensures InReceipts(rs, l) == InReceipts(rs[1..], l) + One(rs[0].letter == l)
  {
    ReceiptsRemove(rs, 0, l);
    assert rs[..0] + rs[1..] == rs[1..];
  }

  // ---------------------------------------------------------------- receipts

  /** A receipt is a success or carries its letter, never both. */
  predicate ReceiptOk(r: Receipt) {
    r.failedLetter == if r.success then None else Some(r.letter)
  }

  predicate Decides(call: Call, next: Call) {
    call.outcome.Undecided? && !next.outcome.Undecided?
  }

  predicate Silent(job: Job) {
    job.Plain? && job.silent
  }

  /** A call makes one receipt, about its own letter, exactly when it decides its outcome and
      the caller did not ask to skip it. */
  lemma OneReceipt(call: Call, v: View, a: Act)
    requires Fits(call) && CanDo(call, v, a)
    ensures var next := NextCall(call, v, a);
      Receipts(call, v, a) ==
        if Decides(call, next) && !Silent(call.job)
        then [Receipt(call.job.letter, !next.outcome.Failed?, if next.outcome.Failed? then Some(call.job.letter)
            else None)]
        else []
    ensures Decides(call, NextCall(call, v, a)) ==> !call.job.Consume?
    ensures !call.outcome.Undecided? ==> !NextCall(call, v, a).outcome.Undecided?
  {
  }

  lemma SkippedReceipt(call: Call, v: View, a: Act)
    requires Fits(call) && CanDo(call, v, a)
    ensures Unreported(call, a) ==
      if Decides(call, NextCall(call, v, a)) && Silent(call.job) then multiset{call.job.letter} else multiset{}
  {
  }

  ghost predicate ReceiptsOk(s: State) {
    && (forall r :: r in s.spawned ==> ReceiptOk(r))
    && (forall r :: r in s.receipts ==> ReceiptOk(r))
    && s.log.lost == multiset{}
    && !s.handler.ReportingLost?
  }

  lemma DoReceipts(cfg: Config, s: State, c: nat, a: Act)
    requires Shaped(s) && ReceiptsOk(s) && ActEnabled(cfg, s, c, a)
    ensures ReceiptsOk(Perform(cfg, s, c, a))
  {
    var rs := Receipts(s.calls[c], ViewOf(s, s.calls[c].phase), a);
    OneReceipt(s.calls[c], ViewOf(s, s.calls[c].phase), a);
    assert forall r :: r in s.spawned + rs ==> r in s.spawned || r in rs;
  }

  lemma StepReceipts(cfg: Config, s: State, step: Step)
    requires Shaped(s) && ReceiptsOk(s) && Enabled(cfg, s, step)
    ensures ReceiptsOk(Apply(cfg, s, step))
  {
    match step
    case Do(c, a) => DoReceipts(cfg, s, c, a);
    case Handle => assert s.receipts[0] in s.receipts;
    case SendReceipt(i) => assert s.spawned[i] in s.spawned;
    case _ =>
  }

  // ---------------------------------------------------------------- steps keep the balance

  lemma DoConserved(cfg: Config, s: State, c: nat, a: Act, l: Letter)
    requires Shaped(s) && ConservedAt(s, l) && ActEnabled(cfg, s, c, a)
    ensures ConservedAt(Perform(cfg, s, c, a), l)
  {
    var call, v := s.calls[c], ViewOf(s, s.calls[c].phase);
    var rs := Receipts(call, v, a);
    NextFits(call, v, a);
    OneReceipt(call, v, a);
    SkippedReceipt(call, v, a);
    InFlightUpdate(s.calls, c, NextCall(call, v, a), l);
    if rs == [] { assert s.spawned + rs == s.spawned; } else { ReceiptsAppend(s.spawned, rs[0], l); }
  }

  lemma StartConserved(cfg: Config, s: State, job: Job, l: Letter)
    requires ConservedAt(s, l) && Enabled(cfg, s, Start(job))
    ensures ConservedAt(Apply(cfg, s, Start(job)), l)
  {
    InFlightAppend(s.calls, Call(job, Seeking, Undecided), l);
  }

  lemma DequeueConserved(cfg: Config, s: State, l: Letter)
    requires ConservedAt(s, l) && Enabled(cfg, s, Dequeue)
    ensures ConservedAt(Apply(cfg, s, Dequeue), l)
  {
    BufferHead(s.letters, l);
  }

  lemma DispatchConserved(cfg: Config, s: State, l: Letter)
    requires ConservedAt(s, l) && Enabled(cfg, s, Dispatch)
    ensures ConservedAt(Apply(cfg, s, Dispatch), l)
  {
    InFlightAppend(s.calls, Call(Confirm(s.dispatcher.letter, true), Seeking, Undecided), l);
  }

  lemma SendReceiptConserved(cfg: Config, s: State, i: nat, l: Letter)
    requires ConservedAt(s, l) && Enabled(cfg, s, SendReceipt(i))
    ensures ConservedAt(Apply(cfg, s, SendReceipt(i)), l)
  {
    ReceiptsRemove(s.spawned, i, l);
    ReceiptsAppend(s.receipts, s.spawned[i], l);
  }

  lemma SuccessConserved(cfg: Config, s: State, l: Letter)
    requires ConservedAt(s, l) && CanHandle(s) && s.receipts[0].success
    ensures ConservedAt(HandleReceipt(cfg, s), l)
  {
    ReceiptsHead(s.receipts, l);
  }

  lemma RetryConserved(cfg: Config, s: State, l: Letter)
    requires ConservedAt(s, l) && CanHandle(s) && s.receipts[0].failedLetter == Some(s.receipts[0].letter)
    requires !s.receipts[0].success
    requires s.retry[s.receipts[0].letter] < cfg.maxRetry
    ensures ConservedAt(HandleReceipt(cfg, s), l)
  {
    ReceiptsHead(s.receipts, l);
    assert HandleReceipt(cfg, s).handler == ReportingRetry(s.receipts[0].letter);
  }

  lemma ExhaustedConserved(cfg: Config, s: State, l: Letter)
    requires ConservedAt(s, l) && CanHandle(s) && s.receipts[0].failedLetter == Some(s.receipts[0].letter)
    requires !s.receipts[0].success
    requires s.retry[s.receipts[0].letter] >= cfg.maxRetry
    ensures ConservedAt(HandleReceipt(cfg, s), l)
  {
    ReceiptsHead(s.receipts, l);
    assert HandleReceipt(cfg, s).handler == ReportingExhausted;
  }

  lemma SendConserved(cfg: Config, s: State, step: Step, l: Letter)
    requires ConservedAt(s, l) && Enabled(cfg, s, step)
    requires step.QueueLetter? || step.Requeue?
    ensures ConservedAt(Apply(cfg, s, step), l)
  {
    BufferAppend(s.letters, if step.QueueLetter? then step.letter else s.handler.letter, l);
  }

  lemma StepConserved(cfg: Config, s: State, step: Step, l: Letter)
    requires Shaped(s) && ReceiptsOk(s) && ConservedAt(s, l) && Enabled(cfg, s, step)
    ensures ConservedAt(Apply(cfg, s, step), l)
  {
    match step
    case Do(c, a) => DoConserved(cfg, s, c, a, l);
    case Start(job) => StartConserved(cfg, s, job, l);
    case Dequeue => DequeueConserved(cfg, s, l);
    case Dispatch => DispatchConserved(cfg, s, l);
    case SendReceipt(i) => SendReceiptConserved(cfg, s, i, l);
    case Handle =>
      assert s.receipts[0] in s.receipts;
      if s.receipts[0].success {
        SuccessConserved(cfg, s, l);
      } else if s.retry[s.receipts[0].letter] < cfg.maxRetry {
        RetryConserved(cfg, s, l);
      } else {
        ExhaustedConserved(cfg, s, l);
      }
    case QueueLetter(_) => SendConserved(cfg, s, step, l);
    case Requeue => SendConserved(cfg, s, step, l);
    case _ =>
  }
}
