/** The pipeline cannot get stuck before shutdown, and every letter in it can be drained. */
module Progress {
  import opened Machine
  import opened Common
  import opened PoolCustody
  import opened Attribution
  import opened LetterConservation
  import opened RetryBudget
  import opened LinkCustody
  import opened PipelineInvariant

  // ---------------------------------------------------------------- the token measure

  /** Retries that the letter objects have left, each object counted once. */
  function RetriesLeft(maxRetry: nat, retry: seq<nat>): nat {
    if retry == [] then 0
    else RetriesLeft(maxRetry, retry[..|retry| - 1]) + Monus(maxRetry, retry[|retry| - 1])
  }

  lemma {:induction false} RetriesUpdate(maxRetry: nat, retry: seq<nat>, l: nat, v: nat)
    requires l < |retry|
    ensures RetriesLeft(maxRetry, retry[l := v]) + Monus(maxRetry, retry[l]) == RetriesLeft(maxRetry,
              retry) + Monus(maxRetry, v)
  {
    var last := |retry| - 1;
    if l == last {
      assert retry[l := v][..last] == retry[..last];
    } else {
      RetriesUpdate(maxRetry, retry[..last], l, v);
      assert retry[l := v][..last] == retry[..last][l := v];
    }
  }

  /** Calls that still owe a letter. */
  function Active(calls: seq<Call>): nat {
    if calls == [] then 0 else Active(calls[..|calls| - 1]) + One(Undone(calls[|calls| - 1]))
  }

  predicate Undone(call: Call) {
    !call.job.Consume? && call.outcome.Undecided?
  }

  lemma {:induction false} ActiveUpdate(calls: seq<Call>, c: nat, call: Call)
    requires c < |calls|
    ensures Active(calls[c := call]) + One(Undone(calls[c])) == Active(calls) + One(Undone(call))
  {
    var last := |calls| - 1;
    if c == last {
      assert calls[c := call][..last] == calls[..last];
    } else {
      ActiveUpdate(calls[..last], c, call);
      assert calls[c := call][..last] == calls[..last][c := call];
    }
  }

  lemma ActiveAppend(calls: seq<Call>, call: Call)
    ensures Active(calls + [call]) == Active(calls) + One(Undone(call))
  {
    assert (calls + [call])[..|calls|] == calls;
  }

  function HandlerWeight(h: Handler): nat {
    match h
    case Idle => 0
    case ReportingRetry(_) => 8
    case Requeueing(_) => 7
    case _ => 1
  }

  /** Work still to be done on the letters in the pipeline, the retries they may cause included. */
  function Work(cfg: Config, s: State): nat {
    7 * RetriesLeft(cfg.maxRetry, s.retry) + 6 * |s.letters| + 5 * One(s.dispatcher.Holding?)
      + 4 * Active(s.calls) + 3 * |s.spawned| + 2 * |s.receipts| + HandlerWeight(s.handler)
  }

  /** Steps that bring new letters in from outside. */
  predicate External(step: Step) {
    step.QueueLetter? || step.Start?
  }

  /** Steps that move a letter. */
  predicate MovesToken(s: State, step: Step) {
    match step
    case Do(c, a) => c < |s.calls| && CanDo(s.calls[c], ViewOf(s, s.calls[c].phase), a)
                     && Decides(s.calls[c], NextCall(s.calls[c], ViewOf(s, s.calls[c].phase), a))
    case Dequeue => true
    case Dispatch => true
    case SendReceipt(_) => true
    case Handle => true
    case Report => true
    case Requeue => true
    case _ => false
  }

  lemma DoWork(cfg: Config, s: State, c: nat, a: Act)
    requires Shaped(s) && ActEnabled(cfg, s, c, a)
    ensures var t := Perform(cfg, s, c, a);
      if MovesToken(s, Do(c, a)) then Work(cfg, t) < Work(cfg, s) else Work(cfg, t) == Work(cfg, s)
  {
    var call, v := s.calls[c], ViewOf(s, s.calls[c].phase);
    NextFits(call, v, a);
    OneReceipt(call, v, a);
    ActiveUpdate(s.calls, c, NextCall(call, v, a));
  }

  lemma HandleWork(cfg: Config, s: State)
    requires CanHandle(s)
    ensures Work(cfg, HandleReceipt(cfg, s)) < Work(cfg, s)
  {
    if s.receipts[0].failedLetter.Some? {
      var l := s.receipts[0].failedLetter.value;
      RetriesUpdate(cfg.maxRetry, s.retry, l, s.retry[l] + 1);
    }
  }

  lemma TokenWork(cfg: Config, s: State, step: Step)
    requires Enabled(cfg, s, step) && (step.Dequeue? || step.SendReceipt? || step.Report? || step.Requeue?)
    ensures Work(cfg, Apply(cfg, s, step)) < Work(cfg, s)
  {
  }

  lemma IdleWork(cfg: Config, s: State, step: Step)
    requires Enabled(cfg, s, step) && !External(step) && !step.Do? && !MovesToken(s, step)
    ensures Work(cfg, Apply(cfg, s, step)) == Work(cfg, s)
  {
    if !MovesLetters(step) { Frame(cfg, s, step); }
  }

  /** Without new letters from outside, every step that moves a letter takes work away and no
      step adds any. */
  lemma StepWork(cfg: Config, s: State, step: Step)
    requires Shaped(s) && Enabled(cfg, s, step) && !External(step)
    ensures var t := Apply(cfg, s, step);
      if MovesToken(s, step) then Work(cfg, t) < Work(cfg, s) else Work(cfg, t) == Work(cfg, s)
  {
    if step.Do? {
      DoWork(cfg, s, step.call, step.act);
    } else {
      OtherWork(cfg, s, step);
    }
  }

  lemma DispatchWork(cfg: Config, s: State)
    requires Enabled(cfg, s, Dispatch)
    ensures Work(cfg, Apply(cfg, s, Dispatch)) < Work(cfg, s)
  {
    ActiveAppend(s.calls, Call(Confirm(s.dispatcher.letter, true), Seeking, Undecided));
  }

  lemma OtherWork(cfg: Config, s: State, step: Step)
    requires Enabled(cfg, s, step) && !External(step) && !step.Do?
    ensures var t := Apply(cfg, s, step);
      if MovesToken(s, step) then Work(cfg, t) < Work(cfg, s) else Work(cfg, t) == Work(cfg, s)
  {
    if step.Dispatch? {
      DispatchWork(cfg, s);
    } else if step.Handle? {
      HandleWork(cfg, s);
    } else if MovesToken(s, step) {
      TokenWork(cfg, s, step);
    } else {
      IdleWork(cfg, s, step);
    }
  }

  /** How many steps of a run move a letter. */
  ghost function Moves(cfg: Config, s: State, steps: seq<Step>): nat
    requires IsRun(cfg, s, steps)
    decreases |steps|
  {
    if steps == [] then 0 else One(MovesToken(s, steps[0])) + Moves(cfg, Apply(cfg, s, steps[0]), steps[1..])
  }

  /** A run that brings in no new letters moves letters at most Work times, whatever the broker,
      the network and the scheduler do; so it makes finitely many publish calls. */
  lemma {:induction false} MovesBounded(cfg: Config, s: State, steps: seq<Step>)
    requires Shaped(s) && IsRun(cfg, s, steps) && forall i :: 0 <= i < |steps| ==> !External(steps[i])
    ensures Moves(cfg, s, steps) + Work(cfg, After(cfg, s, steps)) <= Work(cfg, s)
    decreases |steps|
  {
    if steps != [] {
      StepWork(cfg, s, steps[0]);
      StepShaped(cfg, s, steps[0]);
      MovesBounded(cfg, Apply(cfg, s, steps[0]), steps[1..]);
    }
  }

  // ---------------------------------------------------------------- the rank of the channel work

  /** Which hosts have an open channel; a transient host that was dropped needs none. */
  function Opens(n: nat, s: State): (r: seq<bool>)
    ensures |r| == |s.hosts|
    ensures forall h :: 0 <= h < |r| ==> r[h] == (HostOpen(s, h) || HostDropped(n, s, h))
  {
    seq(|s.hosts|, h requires 0 <= h < |s.hosts| => HostOpen(s, h) || HostDropped(n, s, h))
  }

  predicate HostOpen(s: State, h: nat) {
    HasStream(s, h) && StreamOf(s, h).open
  }

  predicate HostDropped(n: nat, s: State, h: nat) {
    n <= h < |s.log.keeper| && s.log.keeper[h] == None
  }

  /** Which hosts have an open connection. */
  function Ups(s: State): (r: seq<bool>)
    ensures |r| == |s.hosts|
    ensures forall h :: 0 <= h < |r| ==> r[h] == LinkUp(s, h)
  {
    seq(|s.hosts|, h requires 0 <= h < |s.hosts| => LinkUp(s, h))
  }

  /** What a closed channel adds to the rank, and its making takes away. */
  const CREDIT: nat := 10

  /** The last step of making a channel: worth more if there is an open one already. */
  function MakingDistance(call: Call, open: bool): nat {
    if !open then 4 else if call.job.Transient? then CREDIT + 20 else 14
  }

  /** How far a call is from done, if it goes straight ahead: a call on a closed channel first
      has to make a new one, on a connection that may have to be dialled. */
  function DistanceAt(call: Call, open: bool, up: bool): nat {
    if call.job.Consume? then 0
    else match call.phase
      case Seeking => if call.job.Transient? then CREDIT + 8 else 12
      case Flushing(_) => 11
      case Emitting(_) => 11
      case Publishing(_, _, _) => 10
      case Waiting(_, _, _) => 9
      case Reconnecting(_, _) => MakingDistance(call, open) + 3
      case Recovering(_, _) => MakingDistance(call, open) + 2
      case Clearing(_, _) => MakingDistance(call, open) + 1
      case Making(_, _) => MakingDistance(call, open) + if up then 0 else 6
      case Putting(_, again) => if again then 13 else 2
      case Returning(_) => 3
      case Dropping(_) => if !call.outcome.Undecided? then 1 else if open then CREDIT + 9 else 9
      case Leaving => 1
      case _ => 0
  }

  predicate AtHost(xs: seq<bool>, h: Option<nat>) {
    h.Some? && h.value < |xs| && xs[h.value]
  }

  function Distance(call: Call, opens: seq<bool>, ups: seq<bool>): nat {
    DistanceAt(call, AtHost(opens, HostOf(call.phase)), AtHost(ups, HostOf(call.phase)))
  }

  function Distances(calls: seq<Call>, opens: seq<bool>, ups: seq<bool>): nat {
    if calls == [] then 0 else Distances(calls[..|calls| - 1], opens, ups) + Distance(calls[|calls| - 1], opens, ups)
  }

  function Closed(opens: seq<bool>): nat {
    if opens == [] then 0 else Closed(opens[..|opens| - 1]) + One(!opens[|opens| - 1])
  }

  function DispatcherRank(d: Dispatcher): nat {
    match d
    case Starting => 2
    case CheckingStop => 1
    case _ => 0
  }

  function ChannelRank(calls: seq<Call>, opens: seq<bool>, ups: seq<bool>): nat {
    Distances(calls, opens, ups) + CREDIT * Closed(opens)
  }

  function Rank(cfg: Config, s: State): nat {
    ChannelRank(s.calls, Opens(cfg.channelCount, s), Ups(s)) + DispatcherRank(s.dispatcher) + s.errors
  }

  lemma {:induction false} DistancesMost(calls: seq<Call>, opens: seq<bool>, ups: seq<bool>, opens': seq<bool>,
            ups': seq<bool>)
    requires forall d :: 0 <= d < |calls| ==> Distance(calls[d], opens', ups') <= Distance(calls[d], opens, ups)
    ensures Distances(calls, opens', ups') <= Distances(calls, opens, ups)
  {
    if calls != [] { DistancesMost(calls[..|calls| - 1], opens, ups, opens', ups'); }
  }

  lemma {:induction false} DistancesUpdate(calls: seq<Call>, c: nat, call: Call, opens: seq<bool>, ups: seq<bool>,
                                           opens': seq<bool>, ups': seq<bool>)
    requires c < |calls|
    requires forall d :: 0 <= d < |calls| && d != c ==>
              Distance(calls[d], opens', ups') <= Distance(calls[d], opens, ups)
    ensures Distances(calls[c := call], opens', ups') + Distance(calls[c], opens, ups)
            <= Distances(calls, opens, ups) + Distance(call, opens', ups')
  {
    var last := |calls| - 1;
    if c == last {
      assert calls[c := call][..last] == calls[..last];
      DistancesMost(calls[..last], opens, ups, opens', ups');
    } else {
      DistancesUpdate(calls[..last], c, call, opens, ups, opens', ups');
      assert calls[c := call][..last] == calls[..last][c := call];
    }
  }

  lemma {:induction false} ClosedUpdate(opens: seq<bool>, h: nat, open: bool)
    requires h < |opens|
    ensures Closed(opens[h := open]) + One(!opens[h]) == Closed(opens) + One(!open)
  {
    var last := |opens| - 1;
    if h == last {
      assert opens[h := open][..last] == opens[..last];
    } else {
      ClosedUpdate(opens[..last], h, open);
      assert opens[h := open][..last] == opens[..last][h := open];
    }
  }

  lemma ClosedAppend(opens: seq<bool>)
    ensures Closed(opens + [false]) == Closed(opens) + 1
  {
    assert (opens + [false])[..|opens|] == opens;
  }

  // ---------------------------------------------------------------- one call goes straight ahead

  /** The act that brings a publish call closer to its end; a wait is ended by its timer, and a
      dial succeeds. */
  function Forward(call: Call, v: View): Act {
    match call.phase
    case Seeking => if call.job.Transient? then TakeLink else Acquire
    case Flushing(_) => Flush(!v.up)
    case Publishing(_, _, _) => Publish(v.stream.open)
    case Waiting(_, _, _) => Timeout
    case Emitting(_) => Emit(v.stream.open)
    case Reconnecting(_, _) => Verify(false)
    case Recovering(_, _) => Connect(true)
    case Clearing(_, _) => Clear
    case Making(_, _) => Remake(v.up)
    case Returning(_) => FlushBack(!v.up)
    case Putting(_, _) => PutBack
    case Dropping(_) => Drop
    case Leaving => Release
    case _ => Quit
  }

  predicate Alive(call: Call) {
    !call.job.Consume? && !call.phase.Finished?
  }

  /** The call can go ahead: somebody who seeks finds something, and the recovery does not
      flush the Errors channel of a connection that is closed again. */
  predicate Free(call: Call, v: View) {
    && (call.phase.Seeking? ==> if call.job.Transient? then v.next.Some? else v.head.Some?)
    && (call.phase.Clearing? ==> v.up)
  }

  /** What the forward act does to the channels that are open. */
  function OpensNext(call: Call, v: View, opens: seq<bool>): (r: seq<bool>) {
    var h := HostOf(call.phase);
    if call.phase.Seeking? && call.job.Transient? then opens + [false]
    else if h.Some? && h.value < |opens| &&
        (call.phase.Dropping? || (call.phase.Making? && v.up)) then opens[h.value := true]
    else opens
  }

  /** And to the connections: only Connect opens one. */
  ghost predicate UpsNext(call: Call, ups: seq<bool>, ups': seq<bool>) {
    && |ups| <= |ups'|
    && (forall h :: 0 <= h < |ups| && ups[h] ==> ups'[h])
  }

  lemma ForwardCan(call: Call, v: View)
    requires Fits(call) && Alive(call) && Free(call, v)
    ensures CanDo(call, v, Forward(call, v))
  {
  }

  /** How the forward act changes the number of closed channels. */
  function ClosedChange(call: Call, v: View, open: bool): int {
    if call.phase.Seeking? && call.job.Transient? then 1
    else if !open && (call.phase.Dropping? || (call.phase.Making? && v.up)) then -1
    else 0
  }

  predicate OpenNext(call: Call, v: View, open: bool) {
    open || call.phase.Dropping? || (call.phase.Making? && v.up)
  }

  lemma ForwardNearer(call: Call, v: View, open: bool, open': bool, up': bool)
    requires Fits(call) && Alive(call) && Free(call, v)
    requires call.phase.Publishing? || call.phase.Dropping? ==> v.stream.open == open
    requires !call.phase.Seeking? ==> open' == OpenNext(call, v, open) && (v.up ==> up')
    requires call.phase.Seeking? && call.job.Transient? ==> !open'
    ensures var a := Forward(call, v);
      && CanDo(call, v, a)
      && var next := NextCall(call, v, a);
      (Decides(call, next) ||
          DistanceAt(next, open', up') + CREDIT * ClosedChange(call, v, open) < DistanceAt(call, open, v.up))
  {
    ForwardCan(call, v);
  }

  lemma ClosedAfter(call: Call, v: View, opens: seq<bool>)
    requires var h := HostOf(call.phase); h.Some? ==> h.value < |opens|
    ensures Closed(OpensNext(call, v, opens)) == Closed(opens) + ClosedChange(call, v,
              AtHost(opens, HostOf(call.phase)))
  {
    ClosedAppend(opens);
    if HostOf(call.phase).Some? { ClosedUpdate(opens, HostOf(call.phase).value, true); }
  }

  /** A call keeps its host, but for taking one and letting it go. */
  lemma NextAtHost(call: Call, v: View, opens: seq<bool>, ups: seq<bool>, ups': seq<bool>)
    requires Fits(call) && Alive(call) && Free(call, v) && UpsNext(call, ups, ups') && |ups| == |opens|
    requires v.next.Some? ==> v.next.value == |opens|
    requires var h := HostOf(call.phase); h.Some? ==> h.value < |opens| && v.up == ups[h.value]
    ensures CanDo(call, v, Forward(call, v))
    ensures var next := NextCall(call, v, Forward(call, v)); var opens' := OpensNext(call, v, opens);
      && (!call.phase.Seeking? && HostOf(next.phase).Some? ==>
           && HostOf(next.phase) == HostOf(call.phase)
           && AtHost(opens', HostOf(next.phase)) == OpenNext(call, v, AtHost(opens, HostOf(call.phase)))
           && (v.up ==> AtHost(ups', HostOf(next.phase))))
      && (call.phase.Seeking? && call.job.Transient? ==> !AtHost(opens', HostOf(next.phase)))
  {
    ForwardCan(call, v);
  }

  lemma ForwardDistance(call: Call, v: View, opens: seq<bool>, ups: seq<bool>, ups': seq<bool>)
    requires Fits(call) && Alive(call) && Free(call, v) && UpsNext(call, ups, ups') && |ups| == |opens|
    requires v.next.Some? ==> v.next.value == |opens|
    requires var h := HostOf(call.phase); h.Some? ==> h.value < |opens| && v.up == ups[h.value]
    requires call.phase.Publishing? || call.phase.Dropping? ==> v.stream.open == opens[call.phase.host]
    requires HostOf(call.phase).None? ==> !v.up
    ensures var a := Forward(call, v);
      && CanDo(call, v, a)
      && var next := NextCall(call, v, a);
      var opens' := OpensNext(call, v, opens);
      && (Decides(call, next)
          || Distance(next, opens', ups') + CREDIT * Closed(opens') < Distance(call, opens,
              ups) + CREDIT * Closed(opens))
  {
    NextAtHost(call, v, opens, ups, ups');
    ClosedAfter(call, v, opens);
    var next := NextCall(call, v, Forward(call, v));
    var open := AtHost(opens, HostOf(call.phase));
    if !call.phase.Seeking? && HostOf(next.phase).None? {
      ForwardNearer(call, v, open, OpenNext(call, v, open), v.up);
    } else {
      ForwardNearer(call, v, open, AtHost(OpensNext(call, v, opens), HostOf(next.phase)),
          AtHost(ups', HostOf(next.phase)));
    }
  }

  function ForwardAct(s: State, c: nat): Act
    requires c < |s.calls|
  {
    Forward(s.calls[c], ViewOf(s, s.calls[c].phase))
  }

  predicate FreeCall(s: State, c: nat) {
    c < |s.calls| && Alive(s.calls[c]) && Free(s.calls[c], ViewOf(s, s.calls[c].phase))
  }

  lemma {:induction false} SomeRunning(calls: seq<Call>, c: nat)
    requires c < |calls|
    ensures AutoRunning(calls) >= Running(calls[c])
  {
    if c < |calls| - 1 { SomeRunning(calls[..|calls| - 1], c); }
  }

  lemma ForwardEnabled(cfg: Config, s: State, c: nat)
    requires Inv(cfg, s) && FreeCall(s, c)
    ensures ActEnabled(cfg, s, c, ForwardAct(s, c))
  {
    var p := s.calls[c].phase;
    var h := HostOf(p);
    ForwardCan(s.calls[c], ViewOf(s, p));
    if h.Some? { assert Holds(s.calls, c, h.value); }
    if p.Putting? { ReturnNeverBlocks(cfg, s, c); }
    if p.Leaving? { SomeRunning(s.calls, c); }
  }

  lemma OpenAfter(cfg: Config, s: State, c: nat, h: nat)
    requires Custody(cfg, s) && FreeCall(s, c) && ActEnabled(cfg, s, c, ForwardAct(s, c)) && h < |s.hosts|
    ensures var t := Perform(cfg, s, c, ForwardAct(s, c));
      h < |t.hosts| && Opens(cfg.channelCount, t)[h]
                       == OpensNext(s.calls[c], ViewOf(s, s.calls[c].phase), Opens(cfg.channelCount, s))[h]
  {
    var p := HostOf(s.calls[c].phase);
    if p.Some? { assert Holds(s.calls, c, p.value); }
    HostAfter(cfg, s, c, ForwardAct(s, c), h);
  }

  lemma OpensAfter(cfg: Config, s: State, c: nat)
    requires Custody(cfg, s) && FreeCall(s, c) && ActEnabled(cfg, s, c, ForwardAct(s, c))
    ensures var t := Perform(cfg, s, c, ForwardAct(s, c));
      Opens(cfg.channelCount, t) == OpensNext(s.calls[c], ViewOf(s, s.calls[c].phase), Opens(cfg.channelCount, s))
  {
    var t := Perform(cfg, s, c, ForwardAct(s, c));
    var later := OpensNext(s.calls[c], ViewOf(s, s.calls[c].phase), Opens(cfg.channelCount, s));
    forall h | 0 <= h < |t.hosts| && h < |s.hosts| ensures Opens(cfg.channelCount, t)[h] == later[h] {
      OpenAfter(cfg, s, c, h);
    }
  }

  lemma UpsAfter(cfg: Config, s: State, c: nat)
    requires Inv(cfg, s) && WellWired(cfg) && FreeCall(s, c) && ActEnabled(cfg, s, c, ForwardAct(s, c))
    ensures UpsNext(s.calls[c], Ups(s), Ups(Perform(cfg, s, c, ForwardAct(s, c))))
  {
  }

  /** Lexicographic: less work, or the same work and a lower rank. */
  ghost predicate Closer(cfg: Config, t: State, s: State) {
    Work(cfg, t) < Work(cfg, s) || (Work(cfg, t) == Work(cfg, s) && Rank(cfg, t) < Rank(cfg, s))
  }

  lemma DistanceMonotone(call: Call, open: bool, up: bool, up': bool)
    requires up ==> up'
    ensures DistanceAt(call, open, up') <= DistanceAt(call, open, up)
  {
  }

  /** The forward act of one call does not push the others back. */
  lemma OthersNoFarther(cfg: Config, s: State, c: nat, d: nat, ups': seq<bool>)
    requires Custody(cfg, s) && FreeCall(s, c) && d < |s.calls| && d != c
    requires UpsNext(s.calls[c], Ups(s), ups')
    ensures Distance(s.calls[d], OpensNext(s.calls[c], ViewOf(s, s.calls[c].phase), Opens(cfg.channelCount, s)), ups')
            <= Distance(s.calls[d], Opens(cfg.channelCount, s), Ups(s))
  {
    OthersHosts(cfg, s, c, d);
    var g := HostOf(s.calls[d].phase);
    DistanceMonotone(s.calls[d], AtHost(Opens(cfg.channelCount, s), g), AtHost(Ups(s), g), AtHost(ups', g));
  }

  /** Another call's host stays as it is. */
  lemma OthersHosts(cfg: Config, s: State, c: nat, d: nat)
    requires Custody(cfg, s) && FreeCall(s, c) && d < |s.calls| && d != c
    ensures var opens := Opens(cfg.channelCount, s); var g := HostOf(s.calls[d].phase);
      AtHost(OpensNext(s.calls[c], ViewOf(s, s.calls[c].phase), opens), g) == AtHost(opens, g)
      && (g.Some? ==> g.value < |s.hosts|)
  {
    var h, g := HostOf(s.calls[c].phase), HostOf(s.calls[d].phase);
    if h.Some? { assert Holds(s.calls, c, h.value); }
    if g.Some? { assert Holds(s.calls, d, g.value); }
  }

  lemma ForwardRank(cfg: Config, s: State, c: nat)
    requires Inv(cfg, s) && WellWired(cfg) && FreeCall(s, c) && ActEnabled(cfg, s, c, ForwardAct(s, c))
    requires !Decides(s.calls[c], NextCall(s.calls[c], ViewOf(s, s.calls[c].phase), ForwardAct(s, c)))
    ensures var t := Perform(cfg, s, c, ForwardAct(s, c));
      ChannelRank(t.calls, Opens(cfg.channelCount, t), Ups(t)) < ChannelRank(s.calls, Opens(cfg.channelCount, s),
          Ups(s))
  {
    var call, v := s.calls[c], ViewOf(s, s.calls[c].phase);
    var next := NextCall(call, v, ForwardAct(s, c));
    OpensAfter(cfg, s, c);
    UpsAfter(cfg, s, c);
    var opens, ups := Opens(cfg.channelCount, s), Ups(s);
    var opens', ups' := OpensNext(call, v, opens), Ups(Perform(cfg, s, c, ForwardAct(s, c)));
    if HostOf(call.phase).Some? { HostFacts(cfg, s, c); }
    ForwardDistance(call, v, opens, ups, ups');
    forall d | 0 <= d < |s.calls| &&
        d != c ensures Distance(s.calls[d], opens', ups') <= Distance(s.calls[d], opens, ups) {
      OthersNoFarther(cfg, s, c, d, ups');
    }
    DistancesUpdate(s.calls, c, next, opens, ups, opens', ups');
  }

  /** What a call sees of its own host. */
  lemma HostFacts(cfg: Config, s: State, c: nat)
    requires Inv(cfg, s) && c < |s.calls| && HostOf(s.calls[c].phase).Some?
    ensures var h := HostOf(s.calls[c].phase).value; var v := ViewOf(s, s.calls[c].phase);
      h < |s.hosts| && v.up == Ups(s)[h] && v.stream.open == Opens(cfg.channelCount, s)[h]
  {
    assert Holds(s.calls, c, HostOf(s.calls[c].phase).value);
  }

  lemma CallForward(cfg: Config, s: State, c: nat)
    requires Inv(cfg, s) && WellWired(cfg) && FreeCall(s, c)
    ensures ActEnabled(cfg, s, c, ForwardAct(s, c))
    ensures Closer(cfg, Perform(cfg, s, c, ForwardAct(s, c)), s)
  {
    var a := ForwardAct(s, c);
    ForwardEnabled(cfg, s, c);
    DoWork(cfg, s, c, a);
    if !Decides(s.calls[c], NextCall(s.calls[c], ViewOf(s, s.calls[c].phase), a)) { ForwardRank(cfg, s, c); }
  }

  // ---------------------------------------------------------------- a seeker waits for a holder

  /** Consume loops that have a channel; each may keep it for as long as it likes. */
  ghost function Consumers(calls: seq<Call>): set<nat> {
    set c: nat | c < |calls| && calls[c].job.Consume? && HostOf(calls[c].phase).Some?
  }

  /** A recovering call that has connected flushes the Errors channel of its connection. If the
      connection is closed again by then, so is the channel, and the flush does not end. */
  predicate WedgedCall(s: State, c: nat) {
    && c < |s.calls| && s.calls[c].phase.Clearing?
    && !ViewOf(s, s.calls[c].phase).up
  }

  /** Who may keep a cached channel for good: consume loops, and calls caught in that flush. */
  ghost function Keepers(s: State): set<nat> {
    Consumers(s.calls) + set c: nat | c < |s.calls| && WedgedCall(s, c) && !s.calls[c].job.Transient?
  }

  /** Transient calls caught in it: each keeps a connection out of the queue. */
  ghost function CaughtTransients(s: State): set<nat> {
    set c: nat | c < |s.calls| && WedgedCall(s, c) && s.calls[c].job.Transient?
  }

  /** Calls of the dispatcher caught in it: each keeps a place in the semaphore. */
  ghost function CaughtAutos(s: State): set<nat> {
    set c: nat | c < |s.calls| && WedgedCall(s, c) && Running(s.calls[c]) == 1
  }

  lemma HolderOutside(n: nat, calls: seq<Call>, keeper: seq<Option<nat>>, few: set<nat>) returns (h: nat)
    requires HeldOk(calls, keeper) && n <= |keeper| && |few| < n
    requires forall g :: 0 <= g < n ==> keeper[g].Some?
    ensures h < n && keeper[h].value !in few && Holds(calls, keeper[h].value, h)
  {
    if g :| 0 <= g < n && keeper[g].value !in few {
      h := g;
    } else {
      var f := seq(n, g requires 0 <= g < n => keeper[g].value);
      forall g, k | 0 <= g < k < n ensures f[g] != f[k] {
        assert Holds(calls, keeper[g].value, g) && Holds(calls, keeper[k].value, k);
      }
      Injection(n, f, few);
      assert false;
    }
  }

  /** With the pool empty, somebody else than the keepers holds a channel, unless they all do. */
  lemma SomePublisherHolds(cfg: Config, s: State) returns (c: nat)
    requires Custody(cfg, s) && s.pool == [] && |Keepers(s)| < cfg.channelCount
    ensures c < |s.calls| && Alive(s.calls[c]) && HostOf(s.calls[c].phase).Some? && !WedgedCall(s, c)
  {
    forall g | 0 <= g < cfg.channelCount ensures s.log.keeper[g].Some? {
    }
    var h := HolderOutside(cfg.channelCount, s.calls, s.log.keeper, Keepers(s));
    c := s.log.keeper[h].value;
  }

  /** The same for the queue of connections. */
  lemma SomeTransientHolds(cfg: Config, s: State) returns (c: nat)
    requires LinksOk(cfg, s) && s.free == [] && |CaughtTransients(s)| < cfg.linkCount
    ensures c < |s.calls| && KeepsLink(s.calls[c]) == 1 && !WedgedCall(s, c)
  {
    HolderSize(s.calls);
    if d :| d in HolderSet(s.calls) && !WedgedCall(s, d) {
      c := d;
    } else {
      SubsetSize(HolderSet(s.calls), CaughtTransients(s));
      assert false;
    }
  }

  /** Steps of the pipeline itself: not of the application, the broker or the network, and
      not a stop. */
  predicate Own(step: Step) {
    match step
    case Do(_, _) => true
    case Begin => true
    case Dequeue => true
    case Dispatch => true
    case NoStop => true
    case SendReceipt(_) => true
    case Handle => true
    case Report => true
    case Requeue => true
    case DrainError => true
    case _ => false
  }

  /** Consume loops are not asked to do anything either. */
  predicate Inner(s: State, step: Step) {
    Own(step) && (step.Do? ==> step.call < |s.calls| && !s.calls[step.call].job.Consume?)
  }

  /** A step of the pipeline brings it strictly closer to the end. */
  ghost predicate CanAdvance(cfg: Config, s: State, step: Step) {
    Inner(s, step) && Enabled(cfg, s, step) && Closer(cfg, Apply(cfg, s, step), s)
  }

  /** The steps that move no letter and hold no channel lower the rank. */
  lemma SpinLowers(cfg: Config, s: State, step: Step)
    requires Shaped(s) && Enabled(cfg, s, step) && (step.Begin? || step.NoStop? || step.DrainError?)
    ensures CanAdvance(cfg, s, step)
  {
    var t := Apply(cfg, s, step);
    StepWork(cfg, s, step);
    assert Opens(cfg.channelCount, t) == Opens(cfg.channelCount, s) && Ups(t) == Ups(s);
  }

  lemma MoveAdvances(cfg: Config, s: State, step: Step)
    requires Shaped(s) && Enabled(cfg, s, step) && Inner(s, step) && MovesToken(s, step)
    ensures CanAdvance(cfg, s, step)
  {
    StepWork(cfg, s, step);
  }

  /** Room for one element in every buffer, a connection for every channel, and the service not
      shut down. */
  predicate Sound(cfg: Config, s: State) {
    cfg.letterCap > 0 && cfg.receiptCap > 0 && cfg.errorCap > 0 && WellWired(cfg) && !s.shutdown
  }

  /** Nothing that the system does on its own can advance any more: no publish call is free to go
      on, and dispatcher, handler and receipts wait for one another or have nothing to do. */
  ghost predicate AtRest(cfg: Config, s: State) {
    && (forall c: nat :: !FreeCall(s, c))
    && (s.dispatcher.Holding? ==> s.running >= Parallel(cfg))
    && (s.letters != [] ==> s.dispatcher.Holding? || s.dispatcher.Stopped?)
    && (s.handler.Idle? ==> s.receipts == [])
    && (!s.handler.Idle? ==> s.handler.Requeueing? && !CanSend(cfg, s))
    && (s.spawned != [] ==> |s.receipts| >= cfg.receiptCap)
  }

  /** The letter buffer keeps moving as long as the dispatcher lives. */
  lemma DispatcherAdvances(cfg: Config, s: State) returns (step: Step)
    requires Inv(cfg, s) && (s.dispatcher.Holding? ==> s.running < Parallel(cfg))
    requires !s.dispatcher.Holding? ==> s.letters != [] && !s.dispatcher.Stopped?
    ensures CanAdvance(cfg, s, step)
  {
    if s.dispatcher.Starting? {
      step := Begin;
      SpinLowers(cfg, s, step);
    } else if s.dispatcher.CheckingStop? {
      step := NoStop;
      SpinLowers(cfg, s, step);
    } else if s.dispatcher.Draining? {
      step := Dequeue;
      MoveAdvances(cfg, s, step);
    } else {
      step := Dispatch;
      MoveAdvances(cfg, s, step);
    }
  }

  lemma HandlerAdvances(cfg: Config, s: State) returns (step: Step)
    requires Inv(cfg, s) && Sound(cfg, s)
    requires if s.handler.Idle? then s.receipts != [] else !s.handler.Requeueing? || CanSend(cfg, s)
    ensures CanAdvance(cfg, s, step)
  {
    if s.handler.Idle? {
      assert s.receipts[0] in s.receipts;
      assert BudgetAt(cfg, s, s.receipts[0].letter);
      step := Handle;
      MoveAdvances(cfg, s, step);
    } else if s.handler.Requeueing? {
      step := Requeue;
      MoveAdvances(cfg, s, step);
    } else if s.errors < cfg.errorCap {
      step := Report;
      MoveAdvances(cfg, s, step);
    } else {
      step := DrainError;
      SpinLowers(cfg, s, step);
    }
  }

  /** Without a free publish call, what is not at rest is the dispatcher, the handler or a
      receipt. */
  lemma ServiceAdvances(cfg: Config, s: State) returns (step: Step)
    requires Inv(cfg, s) && Sound(cfg, s) && !AtRest(cfg, s) && forall c: nat :: !FreeCall(s, c)
    ensures CanAdvance(cfg, s, step)
  {
    if s.spawned != [] && |s.receipts| < cfg.receiptCap {
      step := SendReceipt(0);
      MoveAdvances(cfg, s, step);
    } else if if s.handler.Idle? then s.receipts == [] else s.handler.Requeueing? && !CanSend(cfg, s) {
      step := DispatcherAdvances(cfg, s);
    } else {
      step := HandlerAdvances(cfg, s);
    }
  }

  lemma CallAdvances(cfg: Config, s: State, c: nat)
    requires Inv(cfg, s) && WellWired(cfg) && FreeCall(s, c)
    ensures CanAdvance(cfg, s, Do(c, ForwardAct(s, c)))
  {
    CallForward(cfg, s, c);
  }

  /** In every state but those at rest some step is enabled that brings the system strictly
      closer to the end, however full the buffers are and whoever is caught. */
  lemma Advances(cfg: Config, s: State) returns (step: Step)
    requires Inv(cfg, s) && Sound(cfg, s) && !AtRest(cfg, s)
    ensures CanAdvance(cfg, s, step)
  {
    if c: nat :| FreeCall(s, c) {
      CallAdvances(cfg, s, c);
      step := Do(c, ForwardAct(s, c));
    } else {
      step := ServiceAdvances(cfg, s);
    }
  }

  // ---------------------------------------------------------------- what it comes to rest at

  /** What keeps the pipeline going: fewer channels kept for good than there are, fewer caught
      transient calls than connections, and a place in the semaphore that no caught call keeps. */
  ghost predicate Live(cfg: Config, s: State) {
    && Sound(cfg, s)
    && |Keepers(s)| < cfg.channelCount && |CaughtTransients(s)| < cfg.linkCount && |CaughtAutos(s)| < Parallel(cfg)
  }

  /** A stop was taken at the top of the loop, which leaves the buffer open; it has filled up and
      the retry handler is blocked on it. */
  predicate Stuck(cfg: Config, s: State) {
    s.dispatcher.Stopped? && !s.closed && |s.letters| >= cfg.letterCap && s.handler.Requeueing?
  }

  /** Nothing is left to do for any letter but those of calls that are caught. */
  ghost predicate Drained(s: State) {
    && s.handler.Idle? && s.receipts == [] && s.spawned == [] && !s.dispatcher.Holding?
    && (s.letters == [] || s.dispatcher.Stopped?)
    && forall c :: 0 <= c < |s.calls| && Alive(s.calls[c]) ==> WedgedCall(s, c)
  }

  /** Who seeks in vain waits for a call that can go ahead. */
  lemma SomeoneFree(cfg: Config, s: State, c: nat) returns (d: nat)
    requires Custody(cfg, s) && LinksOk(cfg, s) && Live(cfg, s)
    requires c < |s.calls| && Alive(s.calls[c]) && !WedgedCall(s, c)
    ensures FreeCall(s, d)
  {
    d := c;
    if s.calls[c].phase.Seeking? {
      if s.calls[c].job.Transient? && s.free == [] {
        d := SomeTransientHolds(cfg, s);
      } else if !s.calls[c].job.Transient? && s.pool == [] {
        d := SomePublisherHolds(cfg, s);
      }
    }
  }

  /** So at rest nobody seeks. */
  lemma RestCaught(cfg: Config, s: State, c: nat)
    requires Inv(cfg, s) && Live(cfg, s) && AtRest(cfg, s) && c < |s.calls| && Alive(s.calls[c])
    ensures WedgedCall(s, c)
  {
    if !WedgedCall(s, c) {
      var d := SomeoneFree(cfg, s, c);
      assert false;
    }
  }

  /** A live pipeline comes to rest only when every letter is drained, or at a stuck handler. */
  lemma RestDrained(cfg: Config, s: State)
    requires Inv(cfg, s) && Live(cfg, s) && AtRest(cfg, s)
    ensures Drained(s) || Stuck(cfg, s)
  {
    forall c | 0 <= c < |s.calls| && Alive(s.calls[c]) ensures WedgedCall(s, c) { RestCaught(cfg, s, c); }
    if s.dispatcher.Holding? {
      RunningSize(s.calls);
      SubsetSize(RunningSet(s.calls), CaughtAutos(s));
      assert false;
    }
  }

  lemma DoKeeps(cfg: Config, s: State, c: nat, a: Act)
    requires ActEnabled(cfg, s, c, a)
    ensures var t := Perform(cfg, s, c, a);
      t.shutdown == s.shutdown && t.closed == s.closed && t.dispatcher == s.dispatcher
  {
  }

  /** Advancing starts no consume loop, stops nothing and shuts nothing down. */
  lemma AdvanceKeeps(cfg: Config, s: State, step: Step)
    requires Own(step) && Enabled(cfg, s, step)
    ensures var t := Apply(cfg, s, step);
      && t.shutdown == s.shutdown && t.closed == s.closed
      && (t.dispatcher.Stopped? <==> s.dispatcher.Stopped?)
  {
    if step.Do? { DoKeeps(cfg, s, step.call, step.act); }
  }

  lemma DoConsumers(cfg: Config, s: State, c: nat, a: Act)
    requires Custody(cfg, s) && ActEnabled(cfg, s, c, a) && !s.calls[c].job.Consume?
    ensures Consumers(Perform(cfg, s, c, a).calls) == Consumers(s.calls)
  {
    NextFits(s.calls[c], ViewOf(s, s.calls[c].phase), a);
  }

  lemma OtherConsumers(cfg: Config, s: State, step: Step)
    requires Enabled(cfg, s, step) && !step.Do? && !step.Start?
    ensures Consumers(Apply(cfg, s, step).calls) == Consumers(s.calls)
  {
    OtherCalls(cfg, s, step);
  }

  lemma AdvanceConsumers(cfg: Config, s: State, step: Step)
    requires Custody(cfg, s) && CanAdvance(cfg, s, step)
    ensures Consumers(Apply(cfg, s, step).calls) == Consumers(s.calls)
  {
    if step.Do? { DoConsumers(cfg, s, step.call, step.act); } else { OtherConsumers(cfg, s, step); }
  }

  /** Only the network closes a connection. */
  lemma LinksStayUp(cfg: Config, s: State, step: Step, h: nat)
    requires LinksOk(cfg, s) && Enabled(cfg, s, step) && !step.Sever? && h < |s.hosts| && LinkUp(s, h)
    ensures LinkUp(Apply(cfg, s, step), h)
  {
    if step.Do? { LinksStayUpDo(cfg, s, step.call, step.act, h); }
  }

  lemma LinksStayUpDo(cfg: Config, s: State, c: nat, a: Act, h: nat)
    requires LinksOk(cfg, s) && ActEnabled(cfg, s, c, a) && h < |s.hosts| && LinkUp(s, h)
    ensures LinkUp(Perform(cfg, s, c, a), h)
  {
  }

  /** A call that is flushing Errors after an act of its own has just connected, or did so
      before. */
  lemma ClearingNext(call: Call, v: View, a: Act)
    requires CanDo(call, v, a) && NextCall(call, v, a).phase.Clearing?
    ensures HostOf(NextCall(call, v, a).phase) == HostOf(call.phase) && HostOf(call.phase).Some?
    ensures (call.phase.Clearing? && a.Clear?) || (a.Connect? && (v.up || a.ok))
  {
  }

  lemma ConnectUp(cfg: Config, s: State, c: nat)
    requires LinksOk(cfg, s) && ActEnabled(cfg, s, c, Connect(true))
    requires HostOf(s.calls[c].phase).Some? && HostOf(s.calls[c].phase).value < |s.hosts|
    ensures LinkUp(Perform(cfg, s, c, Connect(true)), HostOf(s.calls[c].phase).value)
  {
  }

  /** What WedgedCall means for a call of the invariant. */
  lemma WedgedLink(cfg: Config, s: State, d: nat)
    requires Custody(cfg, s) && d < |s.calls| && s.calls[d].phase.Clearing?
    ensures s.calls[d].phase.host < |s.hosts| && (WedgedCall(s, d) <==> !LinkUp(s, s.calls[d].phase.host))
  {
    assert Holds(s.calls, d, s.calls[d].phase.host);
  }

  lemma DoWedged(cfg: Config, s: State, c: nat, a: Act, d: nat)
    requires Custody(cfg, s) && LinksOk(cfg, s) && ActEnabled(cfg, s, c, a) && WedgedCall(Perform(cfg, s, c, a), d)
    requires Custody(cfg, Perform(cfg, s, c, a))
    ensures WedgedCall(s, d) && Perform(cfg, s, c, a).calls[d].job == s.calls[d].job
  {
    var t := Perform(cfg, s, c, a);
    WedgedLink(cfg, t, d);
    if d == c {
      ClearingNext(s.calls[c], ViewOf(s, s.calls[c].phase), a);
      NextFits(s.calls[c], ViewOf(s, s.calls[c].phase), a);
    }
    var h := t.calls[d].phase.host;
    assert Holds(s.calls, d, h);
    if LinkUp(s, h) {
      LinksStayUp(cfg, s, Do(c, a), h);
    } else if !s.calls[d].phase.Clearing? {
      ConnectUp(cfg, s, c);
    }
  }

  lemma OtherWedged(cfg: Config, s: State, step: Step, d: nat)
    requires Custody(cfg, s) && LinksOk(cfg, s) && Enabled(cfg, s, step) && !step.Sever? && !step.Do?
    requires Custody(cfg, Apply(cfg, s, step)) && WedgedCall(Apply(cfg, s, step), d)
    ensures WedgedCall(s, d) && Apply(cfg, s, step).calls[d].job == s.calls[d].job
  {
    OtherCalls(cfg, s, step);
    WedgedLink(cfg, Apply(cfg, s, step), d);
    WedgedLink(cfg, s, d);
    if LinkUp(s, s.calls[d].phase.host) { LinksStayUp(cfg, s, step, s.calls[d].phase.host); }
  }

  /** Nothing but the network brings a recovery into trouble. */
  lemma StepWedged(cfg: Config, s: State, step: Step, d: nat)
    requires Custody(cfg, s) && LinksOk(cfg, s) && Enabled(cfg, s, step) && !step.Sever?
    requires WedgedCall(Apply(cfg, s, step), d)
    ensures WedgedCall(s, d) && Apply(cfg, s, step).calls[d].job == s.calls[d].job
  {
    StepCustody(cfg, s, step);
    if step.Do? { DoWedged(cfg, s, step.call, step.act, d); } else { OtherWedged(cfg, s, step, d); }
  }

  /** So advancing makes none of the three counts larger. */
  lemma AdvanceCounts(cfg: Config, s: State, step: Step)
    requires Custody(cfg, s) && LinksOk(cfg, s) && CanAdvance(cfg, s, step)
    ensures var t := Apply(cfg, s, step);
      && |Keepers(t)| <= |Keepers(s)| && |CaughtTransients(t)| <= |CaughtTransients(s)|
      && |CaughtAutos(t)| <= |CaughtAutos(s)|
  {
    var t := Apply(cfg, s, step);
    AdvanceConsumers(cfg, s, step);
    forall d: nat | d < |t.calls| && WedgedCall(t, d) ensures WedgedCall(s, d) && t.calls[d].job == s.calls[d].job {
      StepWedged(cfg, s, step, d);
    }
    SubsetSize(Keepers(t), Keepers(s));
    SubsetSize(CaughtTransients(t), CaughtTransients(s));
    SubsetSize(CaughtAutos(t), CaughtAutos(s));
  }

  /** Advancing keeps the pipeline going. */
  lemma AdvanceLive(cfg: Config, s: State, step: Step)
    requires Inv(cfg, s) && Sound(cfg, s) && CanAdvance(cfg, s, step)
    ensures var t := Apply(cfg, s, step);
      && Inv(cfg, t) && Sound(cfg, t) && (Live(cfg, s) ==> Live(cfg, t))
      && t.closed == s.closed && (t.dispatcher.Stopped? <==> s.dispatcher.Stopped?)
  {
    StepInv(cfg, s, step);
    AdvanceKeeps(cfg, s, step);
    AdvanceCounts(cfg, s, step);
  }

  /** The next step of such a run. */
  lemma NextAdvance(cfg: Config, s: State) returns (step: Step)
    requires Inv(cfg, s) && Sound(cfg, s) && !AtRest(cfg, s)
    ensures Own(step) && Enabled(cfg, s, step)
    ensures var t := Apply(cfg, s, step);
      && Closer(cfg, t, s) && Inv(cfg, t) && Sound(cfg, t) && (Live(cfg, s) ==> Live(cfg, t))
      && t.closed == s.closed && (t.dispatcher.Stopped? <==> s.dispatcher.Stopped?)
  {
    step := Advances(cfg, s);
    AdvanceLive(cfg, s, step);
  }

  lemma OneMore(cfg: Config, s: State, step: Step, rest: seq<Step>)
    requires Enabled(cfg, s, step) && IsRun(cfg, Apply(cfg, s, step), rest)
    ensures IsRun(cfg, s, [step] + rest) && After(cfg, s, [step] + rest) == After(cfg, Apply(cfg, s, step), rest)
  {
    assert ([step] + rest)[1..] == rest;
  }

  lemma Here(cfg: Config, s: State, step: Step)
    requires Enabled(cfg, s, step)
    ensures IsRun(cfg, s, [step]) && After(cfg, s, [step]) == Apply(cfg, s, step)
  {
    assert [step][1..] == [];
    assert IsRun(cfg, Apply(cfg, s, step), []);
  }

  /** A run of the system alone, without a stop or a restart, to a state at rest. */
  ghost predicate LeadsToRest(cfg: Config, s: State, steps: seq<Step>) {
    && IsRun(cfg, s, steps) && (forall i :: 0 <= i < |steps| ==> Own(steps[i]))
    && var t := After(cfg, s, steps);
    && Inv(cfg, t) && AtRest(cfg, t) && (Live(cfg, s) ==> Live(cfg, t))
    && t.closed == s.closed && (t.dispatcher.Stopped? <==> s.dispatcher.Stopped?)
  }

  lemma RestMore(cfg: Config, s: State, step: Step, rest: seq<Step>)
    requires Own(step) && Enabled(cfg, s, step) && LeadsToRest(cfg, Apply(cfg, s, step), rest)
    requires Apply(cfg, s, step).closed == s.closed && (Live(cfg, s) ==> Live(cfg, Apply(cfg, s, step)))
    requires Apply(cfg, s, step).dispatcher.Stopped? <==> s.dispatcher.Stopped?
    ensures LeadsToRest(cfg, s, [step] + rest)
  {
    OneMore(cfg, s, step, rest);
  }

  /** From every state the system comes to rest on its own. */
  lemma {:induction false} ComesToRest(cfg: Config, s: State) returns (steps: seq<Step>)
    requires Inv(cfg, s) && Sound(cfg, s)
    ensures LeadsToRest(cfg, s, steps)
    decreases Work(cfg, s), Rank(cfg, s)
  {
    if AtRest(cfg, s) {
      steps := [];
    } else {
      var step := NextAdvance(cfg, s);
      var rest := ComesToRest(cfg, Apply(cfg, s, step));
      RestMore(cfg, s, step, rest);
      steps := [step] + rest;
    }
  }

  /** From every live state some run of the system alone drains every letter, unless a stop left
      the buffer open and it fills up. */
  lemma Drains(cfg: Config, s: State) returns (steps: seq<Step>)
    requires Inv(cfg, s) && Live(cfg, s)
    ensures LeadsToRest(cfg, s, steps) && (Drained(After(cfg, s, steps)) || Stuck(cfg, After(cfg, s, steps)))
  {
    steps := ComesToRest(cfg, s);
    RestDrained(cfg, After(cfg, s, steps));
  }

  /** The calls that still owe letter l. */
  ghost function Owing(calls: seq<Call>, l: Letter): set<nat> {
    set c: nat | c < |calls| && Owes(calls[c], l) == 1
  }

  lemma {:induction false} OwingSize(calls: seq<Call>, l: Letter)
    ensures |Owing(calls, l)| == InFlight(calls, l)
  {
    if calls != [] {
      var last := |calls| - 1;
      OwingSize(calls[..last], l);
      assert Owing(calls, l) == Owing(calls[..last], l) + if Owes(calls[last], l) == 1 then {last} else {};
    }
  }

  /** The calls caught with letter l. */
  ghost function CaughtWith(s: State, l: Letter): set<nat> {
    set c: nat | c < |s.calls| && WedgedCall(s, c) && Owes(s.calls[c], l) == 1
  }

  /** Every letter that came in has an outcome, is still in the buffer, or is with a call that is
      caught. */
  ghost predicate SettledAt(s: State, l: Letter) {
    s.log.external[l] + s.log.started[l] ==
    s.log.delivered[l] + s.log.exhausted[l] + s.log.refused[l] + s.log.unreported[l]
    + InBuffer(s.letters, l) + |CaughtWith(s, l)|
  }

  /** Once drained, every letter ever queued or published is settled. */
  lemma DrainedSettled(cfg: Config, s: State, l: Letter)
    requires Inv(cfg, s) && Drained(s)
    ensures SettledAt(s, l) && (s.letters != [] ==> s.dispatcher.Stopped?)
  {
    OwingSize(s.calls, l);
    assert Owing(s.calls, l) == CaughtWith(s, l);
    assert ConservedAt(s, l);
  }

  // ---------------------------------------------------------------- the stuck states

  predicate NoRestart(steps: seq<Step>) {
    forall i :: 0 <= i < |steps| ==> !steps[i].Restart?
  }

  /** Until somebody starts the auto-publisher again, nothing frees the handler. */
  lemma {:induction false} StuckStays(cfg: Config, s: State, steps: seq<Step>)
    requires Stuck(cfg, s) && IsRun(cfg, s, steps) && NoRestart(steps)
    ensures Stuck(cfg, After(cfg, s, steps)) && After(cfg, s, steps).handler == s.handler
    decreases |steps|
  {
    if steps != [] {
      StuckStep(cfg, s, steps[0]);
      StuckStays(cfg, Apply(cfg, s, steps[0]), steps[1..]);
    }
  }

  lemma StuckStep(cfg: Config, s: State, step: Step)
    requires Stuck(cfg, s) && Enabled(cfg, s, step) && !step.Restart?
    ensures Stuck(cfg, Apply(cfg, s, step)) && Apply(cfg, s, step).handler == s.handler
  {
    if !MovesLetters(step) { Frame(cfg, s, step); }
  }

  /** A new loop takes a letter out, and the handler sends its own. */
  lemma LoopFrees(cfg: Config, s: State)
    requires s.dispatcher.Starting? && !s.closed && s.letters != [] && |s.letters| <= cfg.letterCap
    requires s.handler.Requeueing?
    ensures IsRun(cfg, s, [Begin, Dequeue, Requeue]) && After(cfg, s, [Begin, Dequeue, Requeue]).handler.Idle?
  {
    var s1 := Apply(cfg, s, Begin);
    var s2 := Apply(cfg, s1, Dequeue);
    Here(cfg, s2, Requeue);
    OneMore(cfg, s1, Dequeue, [Requeue]);
    OneMore(cfg, s, Begin, [Dequeue, Requeue]);
    assert [Begin] + [Dequeue, Requeue] == [Begin, Dequeue, Requeue] && [Dequeue] + [Requeue] == [Dequeue, Requeue];
  }

  /** Starting the auto-publisher again frees the handler. */
  lemma RestartFrees(cfg: Config, s: State)
    requires Stuck(cfg, s) && cfg.letterCap > 0 && |s.letters| == cfg.letterCap
    ensures IsRun(cfg, s, [Restart, Begin, Dequeue, Requeue])
    ensures After(cfg, s, [Restart, Begin, Dequeue, Requeue]).handler.Idle?
  {
    LoopFrees(cfg, Apply(cfg, s, Restart));
    OneMore(cfg, s, Restart, [Begin, Dequeue, Requeue]);
    assert [Restart] + [Begin, Dequeue, Requeue] == [Restart, Begin, Dequeue, Requeue];
  }

  /** A handler that waits for room while the dispatcher lives gets it. */
  lemma HandlerFreed(cfg: Config, s: State) returns (steps: seq<Step>)
    requires Inv(cfg, s) && Live(cfg, s) && s.handler.Requeueing? && !Stuck(cfg, s) && !CanSend(cfg, s)
    ensures IsRun(cfg, s, steps) && NoRestart(steps) && After(cfg, s, steps).handler.Idle?
  {
    steps := Drains(cfg, s);
  }

  lemma SendFrees(cfg: Config, s: State)
    requires s.handler.Requeueing? && CanSend(cfg, s)
    ensures IsRun(cfg, s, [Requeue]) && !After(cfg, s, [Requeue]).handler.Requeueing?
  {
    Here(cfg, s, Requeue);
  }

  /** If it is not stuck, some run frees it. */
  lemma SomeRunFrees(cfg: Config, s: State) returns (steps: seq<Step>)
    requires Inv(cfg, s) && Live(cfg, s) && s.handler.Requeueing? && !Stuck(cfg, s)
    ensures IsRun(cfg, s, steps) && NoRestart(steps) && !After(cfg, s, steps).handler.Requeueing?
  {
    if CanSend(cfg, s) {
      steps := [Requeue];
      SendFrees(cfg, s);
    } else {
      steps := HandlerFreed(cfg, s);
    }
  }

  /** If this is a run without a restart, it leaves the handler as it is. */
  ghost predicate Unfreed(cfg: Config, s: State, steps: seq<Step>) {
    IsRun(cfg, s, steps) && NoRestart(steps) ==> After(cfg, s, steps).handler == s.handler
  }

  lemma StuckUnfreed(cfg: Config, s: State, steps: seq<Step>)
    requires Stuck(cfg, s)
    ensures Unfreed(cfg, s, steps)
  {
    if IsRun(cfg, s, steps) && NoRestart(steps) { StuckStays(cfg, s, steps); }
  }

  /** Exactly the stuck states block a handler that wants to queue a letter again. */
  lemma BlockedExactly(cfg: Config, s: State)
    requires Inv(cfg, s) && Live(cfg, s) && s.handler.Requeueing?
    ensures Stuck(cfg, s) <==> forall steps: seq<Step> :: Unfreed(cfg, s, steps)
  {
    if Stuck(cfg, s) {
      forall steps: seq<Step> ensures Unfreed(cfg, s, steps) { StuckUnfreed(cfg, s, steps); }
    } else {
      var steps := SomeRunFrees(cfg, s);
      assert !Unfreed(cfg, s, steps);
    }
  }
}
