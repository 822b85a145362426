/** What is over for good: a stop between two dispatch rounds, a shutdown, a closed channel. */
module Endings {
  import opened Machine
  import opened PoolCustody
  import opened RetryBudget
  import EarlyStop
  import StaleConfirm

  // ---------------------------------------------------------------- the stop

  /** Closed and stopped, with these letters left behind and this many dispatched. */
  ghost predicate Over(s: State, letters: seq<Letter>, dispatched: nat) {
    s.closed && s.dispatcher.Stopped? && s.letters == letters && s.log.dispatched == dispatched
  }

  lemma OverStep(cfg: Config, s: State, step: Step)
    requires Over(s, s.letters, s.log.dispatched) && Enabled(cfg, s, step)
    ensures Over(Apply(cfg, s, step), s.letters, s.log.dispatched)
  {
    if !MovesLetters(step) { OverFrame(cfg, s, step); }
  }

  lemma OverFrame(cfg: Config, s: State, step: Step)
    requires Over(s, s.letters, s.log.dispatched) && Enabled(cfg, s, step) && !MovesLetters(step)
    ensures Over(Apply(cfg, s, step), s.letters, s.log.dispatched)
  {
    Frame(cfg, s, step);
  }

  lemma {:induction false} OverStays(cfg: Config, s: State, steps: seq<Step>)
    requires Over(s, s.letters, s.log.dispatched) && IsRun(cfg, s, steps)
    ensures Over(After(cfg, s, steps), s.letters, s.log.dispatched)
    decreases |steps|
  {
    if steps != [] {
      OverStep(cfg, s, steps[0]);
      OverStays(cfg, Apply(cfg, s, steps[0]), steps[1..]);
    }
  }

  /** A stop that the dispatcher takes after it saw the buffer empty is final: the buffer is closed
      and the dispatcher stopped in every continuation, nothing is dispatched any more, and what
      was queued since the last look stays where it is. */
  lemma StopCloses(cfg: Config, s: State, steps: seq<Step>)
    requires Enabled(cfg, s, TakeStop) && IsRun(cfg, Apply(cfg, s, TakeStop), steps)
    ensures var t := After(cfg, Apply(cfg, s, TakeStop), steps);
      && t.closed && t.dispatcher.Stopped? && t.letters == s.letters
      && t.log.dispatched == s.log.dispatched
  {
    OverStays(cfg, Apply(cfg, s, TakeStop), steps);
  }

  lemma ClosedStep(cfg: Config, s: State, step: Step)
    requires Enabled(cfg, s, step)
    ensures Apply(cfg, s, step).closed <==> s.closed || step.TakeStop?
  {
  }

  lemma {:induction false} ClosedRun(cfg: Config, s: State, steps: seq<Step>)
    requires IsRun(cfg, s, steps)
    ensures After(cfg, s, steps).closed <==> s.closed || exists i :: 0 <= i < |steps| && steps[i].TakeStop?
    decreases |steps|
  {
    if steps != [] {
      ClosedStep(cfg, s, steps[0]);
      ClosedRun(cfg, Apply(cfg, s, steps[0]), steps[1..]);
      if i :| 0 <= i < |steps| && steps[i].TakeStop? {
        if i > 0 { assert steps[1..][i - 1].TakeStop?; }
      }
    }
  }

  /** A send waits exactly while the buffer is open and full; on a closed buffer it ends at once, and
      nothing has happened. */
  lemma SendsExactly(cfg: Config, s: State, l: Letter)
    requires l < |s.retry|
    ensures Enabled(cfg, s, QueueLetter(l)) <==> s.closed || |s.letters| < cfg.letterCap
    ensures s.closed ==> Apply(cfg, s, QueueLetter(l)) == s
    ensures !s.closed && |s.letters| < cfg.letterCap ==> Apply(cfg, s, QueueLetter(l)).letters == s.letters + [l]
  {
  }

  /** Nothing else closes the buffer. */
  lemma ClosedExactly(cfg: Config, retry: seq<nat>, steps: seq<Step>)
    requires IsRun(cfg, Init(cfg, retry), steps)
    ensures After(cfg, Init(cfg, retry), steps).closed <==> exists i :: 0 <= i < |steps| && steps[i].TakeStop?
  {
    ClosedRun(cfg, Init(cfg, retry), steps);
  }

  /** The dispatcher sees the buffer empty while the handler has letter 0 to queue again, and then a
      letter comes in. */
  lemma Looks(cfg: Config, s: State, inv: State -> bool) returns (t: State)
    requires StaleConfirm.Inductive(cfg, inv) && inv(s) && cfg.letterCap > 0
    requires s.handler == Requeueing(0) && s.letters == [] && !s.closed && s.dispatcher.Starting? && |s.retry| == 1
    ensures inv(t) && t.handler == Requeueing(0) && t.letters == [0] && !t.closed && t.dispatcher.CheckingStop?
  {
    t := Apply(cfg, s, Begin);
    t := Apply(cfg, t, SeeEmpty);
    t := Apply(cfg, t, QueueLetter(0));
  }

  /** It stops: that letter is left behind, and the other one is refused. */
  lemma Stops(cfg: Config, s: State, inv: State -> bool) returns (t: State)
    requires StaleConfirm.Inductive(cfg, inv) && inv(s)
    requires s.handler == Requeueing(0) && s.letters == [0] && !s.closed && s.dispatcher.CheckingStop?
    ensures inv(t) && t.closed && t.letters == [0] && t.log.refused[0] > 0
  {
    t := Apply(cfg, s, RequestStop);
    t := Apply(cfg, t, TakeStop);
    t := Apply(cfg, t, Requeue);
  }

  /** Such a state is reached: closed, with a letter left behind and a retry refused. */
  lemma LeftBehindReached(cfg: Config) returns (s: State)
    requires cfg.channelCount == 1 && cfg.letterCap > 0 && cfg.receiptCap > 0 && cfg.errorCap > 0 && cfg.maxRetry > 0
    ensures Reachable(cfg, [0], s) && s.closed && s.letters == [0] && s.log.refused[0] > 0
  {
    EarlyStop.ReachableIsInductive(cfg, [0]);
    var inv := EarlyStop.ReachableFrom(cfg, [0]);
    s := Init(cfg, [0]);
    s := EarlyStop.Begins(cfg, s, inv);
    s := EarlyStop.FailsOnce(cfg, s, inv);
    s := EarlyStop.ReceiptArrives(cfg, s, inv);
    s := EarlyStop.HandlerRetries(cfg, s, inv);
    s := Looks(cfg, s, inv);
    s := Stops(cfg, s, inv);
    assert inv(s);
  }

  // ---------------------------------------------------------------- the shutdown

  /** Nothing has been handled or drained between s and t. */
  ghost predicate Frozen(s: State, t: State) {
    && t.shutdown && t.log.delivered == s.log.delivered && t.log.exhausted == s.log.exhausted
    && t.log.attempts == s.log.attempts && t.retry == s.retry
    && s.errors <= t.errors && s.receipts <= t.receipts
  }

  lemma FrozenDo(cfg: Config, s: State, c: nat, a: Act)
    requires s.shutdown && ActEnabled(cfg, s, c, a)
    ensures Frozen(s, Perform(cfg, s, c, a))
  {
  }

  lemma FrozenSend(cfg: Config, s: State, i: nat)
    requires s.shutdown && Enabled(cfg, s, SendReceipt(i))
    ensures Frozen(s, Apply(cfg, s, SendReceipt(i)))
  {
  }

  lemma FrozenOther(cfg: Config, s: State, step: Step)
    requires s.shutdown && Enabled(cfg, s, step) && !step.Do? && !step.SendReceipt?
    ensures Frozen(s, Apply(cfg, s, step))
  {
  }

  lemma FrozenStep(cfg: Config, s: State, step: Step)
    requires s.shutdown && Enabled(cfg, s, step)
    ensures Frozen(s, Apply(cfg, s, step))
  {
    if step.Do? {
      FrozenDo(cfg, s, step.call, step.act);
    } else if step.SendReceipt? {
      FrozenSend(cfg, s, step.index);
    } else {
      FrozenOther(cfg, s, step);
    }
  }

  /** After a shutdown the handler takes no receipt and nobody drains the errors, in any run. */
  lemma {:induction false} ShutdownFreezes(cfg: Config, s: State, steps: seq<Step>)
    requires s.shutdown && IsRun(cfg, s, steps)
    ensures Frozen(s, After(cfg, s, steps))
    decreases |steps|
  {
    if steps != [] {
      FrozenStep(cfg, s, steps[0]);
      ShutdownFreezes(cfg, Apply(cfg, s, steps[0]), steps[1..]);
    }
  }

  lemma ShutdownTakesEffect(cfg: Config, s: State, steps: seq<Step>)
    requires IsRun(cfg, Apply(cfg, s, Shutdown), steps)
    ensures Frozen(s, After(cfg, Apply(cfg, s, Shutdown), steps))
  {
    ShutdownFreezes(cfg, Apply(cfg, s, Shutdown), steps);
  }

  // ---------------------------------------------------------------- closed channels

  /** Stream k is closed with these publishes and answers. */
  predicate Silent(s: State, k: nat, sent: seq<nat>, verdicts: seq<bool>) {
    k < |s.streams| && !s.streams[k].open && s.streams[k].sent == sent && s.streams[k].verdicts == verdicts
  }

  lemma SilentDo(cfg: Config, s: State, c: nat, a: Act, k: nat)
    requires k < |s.streams| && !s.streams[k].open && ActEnabled(cfg, s, c, a)
    ensures Silent(Perform(cfg, s, c, a), k, s.streams[k].sent, s.streams[k].verdicts)
  {
  }

  lemma SilentOther(cfg: Config, s: State, step: Step, k: nat)
    requires k < |s.streams| && !s.streams[k].open && Enabled(cfg, s, step) && !step.Do?
    ensures Silent(Apply(cfg, s, step), k, s.streams[k].sent, s.streams[k].verdicts)
  {
  }

  /** On a closed channel nothing is published or answered any more. */
  lemma {:induction false} ClosedSilent(cfg: Config, s: State, steps: seq<Step>, k: nat)
    requires k < |s.streams| && !s.streams[k].open && IsRun(cfg, s, steps)
    ensures Silent(After(cfg, s, steps), k, s.streams[k].sent, s.streams[k].verdicts)
    decreases |steps|
  {
    if steps != [] {
      if steps[0].Do? { SilentDo(cfg, s, steps[0].call, steps[0].act, k); } else { SilentOther(cfg, s, steps[0], k); }
      ClosedSilent(cfg, Apply(cfg, s, steps[0]), steps[1..], k);
    }
  }

  lemma CloseSilences(cfg: Config, s: State, steps: seq<Step>, k: nat)
    requires k < |s.streams| && IsRun(cfg, Apply(cfg, s, Close(k)), steps)
    ensures Silent(After(cfg, Apply(cfg, s, Close(k)), steps), k, s.streams[k].sent, s.streams[k].verdicts)
  {
    ClosedSilent(cfg, Apply(cfg, s, Close(k)), steps, k);
  }

  /** A connection that is lost takes exactly its own channels with it. */
  lemma SeverExactly(cfg: Config, s: State, k: nat, h: nat)
    requires HostsOk(s.hosts, s.streams) && k < |s.links| && h < |s.hosts| && h < |s.wires|
    ensures var t := Apply(cfg, s, Sever(k));
      && !t.links[k] && (forall i :: 0 <= i < |s.links| && i != k ==> t.links[i] == s.links[i])
      && StreamOf(t, h) == (if s.wires[h] == k then StreamOf(s, h).(open := false) else StreamOf(s, h))
  {
    assert s.wires[h] == k ==> OnLink(s, s.hosts[h], k);
  }
}
