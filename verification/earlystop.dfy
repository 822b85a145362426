/** A concrete run in which the retry handler is blocked until the auto-publisher is started again,
  so that the exception of Guarantees.EveryLetterSettles for stuck states cannot be dropped. */
module EarlyStop {
  import opened Machine
  import opened Common
  import opened Streams
  import opened Progress
  import StaleConfirm

  /** The service side of a state with nothing queued yet. */
  ghost predicate Waits(s: State, spawned: seq<Receipt>) {
    && s.letters == [] && !s.closed && s.stops == 0 && s.dispatcher.Starting?
    && s.spawned == spawned && s.receipts == [] && s.handler.Idle? && s.errors == 0 && !s.shutdown
    && s.retry == [0] && |s.log.attempts| == 1
  }

  /** An unconfirmed publish of letter 0 takes the only channel. */
  lemma Begins(cfg: Config, s: State, inv: State -> bool) returns (t: State)
    requires StaleConfirm.Inductive(cfg, inv) && inv(s) && Waits(s, [])
    requires s.calls == [] && s.pool == [0] && s.hosts == [0] && s.streams == [Fresh()] && |s.log.keeper| == 1
    ensures inv(t) && Waits(t, []) && t.calls == [Call(Plain(0, false), Emitting(0), Undecided)]
    ensures HasStream(t, 0) && |t.log.keeper| == 1
  {
    var job := Plain(0, false);
    t := Apply(cfg, s, Start(job));
    assert t.calls == [Call(job, Seeking, Undecided)];
    t := Apply(cfg, t, Do(0, Acquire));
    assert t.calls == [Call(job, Emitting(0), Undecided)];
  }

  /** It fails. */
  lemma FailsOnce(cfg: Config, s: State, inv: State -> bool) returns (t: State)
    requires StaleConfirm.Inductive(cfg, inv) && inv(s) && Waits(s, [])
    requires s.calls == [Call(Plain(0, false), Emitting(0), Undecided)] && HasStream(s, 0) && |s.log.keeper| == 1
    ensures inv(t) && Waits(t, [Receipt(0, false, Some(0))])
  {
    t := Apply(cfg, s, Do(0, Emit(false)));
    assert t.spawned == [] + [Receipt(0, false, Some(0))];
  }

  /** The receipt reaches the handler. */
  lemma ReceiptArrives(cfg: Config, s: State, inv: State -> bool) returns (t: State)
    requires StaleConfirm.Inductive(cfg, inv) && inv(s) && Waits(s, [Receipt(0, false, Some(0))]) && cfg.receiptCap > 0
    ensures inv(t) && t.letters == [] && !t.closed && t.stops == 0 && t.dispatcher.Starting? && !t.shutdown
    ensures t.errors == 0
    ensures t.receipts == [Receipt(0, false, Some(0))] && t.handler.Idle? && t.retry == [0] && |t.log.attempts| == 1
  {
    t := Apply(cfg, s, SendReceipt(0));
  }

  /** It makes the handler queue letter 0 again. */
  lemma HandlerRetries(cfg: Config, s: State, inv: State -> bool) returns (t: State)
    requires StaleConfirm.Inductive(cfg, inv) && inv(s) && cfg.errorCap > 0 && cfg.maxRetry > 0
    requires s.letters == [] && !s.closed && s.stops == 0 && s.dispatcher.Starting? && !s.shutdown && s.errors == 0
    requires s.receipts == [Receipt(0, false, Some(0))] && s.handler.Idle? && s.retry == [0] && |s.log.attempts| == 1
    ensures inv(t) && t.handler == Requeueing(0) && t.letters == [] && !t.closed && t.dispatcher.Starting?
    ensures t.stops == 0 && |t.retry| == 1
  {
    t := Apply(cfg, s, Handle);
    t := Apply(cfg, t, Report);
  }

  /** But the application fills the buffer, and the dispatcher takes a stop at the top of its
      loop. */
  lemma StopsEarly(cfg: Config, s: State, inv: State -> bool) returns (t: State)
    requires StaleConfirm.Inductive(cfg, inv) && inv(s) && cfg.letterCap == 1
    requires s.handler == Requeueing(0) && s.letters == [] && !s.closed && s.dispatcher.Starting?
    requires s.stops == 0 && |s.retry| == 1
    ensures inv(t) && Stuck(cfg, t) && t.handler == Requeueing(0)
  {
    t := Apply(cfg, s, QueueLetter(0));
    t := Apply(cfg, t, RequestStop);
    t := Apply(cfg, t, StopEarly);
  }

  ghost function ReachableFrom(cfg: Config, retry: seq<nat>): State -> bool {
    s => Reachable(cfg, retry, s)
  }

  lemma ReachableIsInductive(cfg: Config, retry: seq<nat>)
    ensures StaleConfirm.Inductive(cfg, ReachableFrom(cfg, retry))
    ensures ReachableFrom(cfg, retry)(Init(cfg, retry))
  {
    var inv := ReachableFrom(cfg, retry);
    forall s, step | inv(s) && Enabled(cfg, s, step) ensures inv(Apply(cfg, s, step)) {
      StaleConfirm.Reach(cfg, retry, s, step);
    }
    assert IsRun(cfg, Init(cfg, retry), []) && After(cfg, Init(cfg, retry), []) == Init(cfg, retry);
  }

  /** So a stuck state is reached. By Progress.StuckStays only a restart frees it. */
  lemma StuckReached(cfg: Config) returns (s: State)
    requires cfg.channelCount == 1 && cfg.letterCap == 1 && cfg.receiptCap > 0 && cfg.errorCap > 0 && cfg.maxRetry > 0
    ensures Reachable(cfg, [0], s) && Stuck(cfg, s)
  {
    ReachableIsInductive(cfg, [0]);
    var inv := ReachableFrom(cfg, [0]);
    s := Init(cfg, [0]);
    s := Begins(cfg, s, inv);
    s := FailsOnce(cfg, s, inv);
    s := ReceiptArrives(cfg, s, inv);
    s := HandlerRetries(cfg, s, inv);
    s := StopsEarly(cfg, s, inv);
    assert inv(s);
  }
}
