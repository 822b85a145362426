/** Start and stop of the v1 consumer: callers of StartConsuming and StopConsuming, the consume
  loops they start, and the goroutines that place messages, as one interleaved machine. A
  session is numbered by the consume loop it started. */
module V1Consumer {
  import opened Common

  datatype Config = Config(messageBuffer: nat)

  /** Where a consume loop is. */
  datatype Phase =
    | Top                        // the stop check of the outer loop
    | Getting                    // getDeliveryChannel
    | CheckingErrors             // processDeliveries: close errors
    | Delivering                 // processDeliveries: deliveries
    | Bottom                     // processDeliveries: the stop check
    | Asking                     // about to read stopImmediate under the lock
    | Awaiting                   // messageGroup.Wait
    | Clearing(immediate: bool)  // about to clear `started` under the lock
    | Ended

  /** StopConsuming holds conLock from its check of `started` until it returns. */
  datatype Stopper = Away | Sending(session: nat, flush: bool) | Flushing(flush: bool)

  /** Fields of the consumer, and the history of its sessions: per session the stop it heard and
      whether any of its stops was immediate; per delivery the session that pulled it. */
  datatype State = State(
    started: bool, stopImmediate: bool, consumeStop: seq<nat>, stopper: Stopper,
    loops: seq<Phase>, group: nat, placing: set<nat>, finishing: nat, messages: seq<nat>,
    heard: seq<Option<nat>>, hasty: seq<bool>, pulled: seq<nat>, gone: seq<nat>)

  datatype Act =
    | CheckStop
    | Get(ok: bool)
    | CheckClose(closed: bool)
    | Deliver(some: bool)
    | Ask
    | Waited
    | Clear

  datatype Step =
    | StartConsuming(enabled: bool)
    | StopConsuming(immediate: bool, flush: bool)   // up to the send
    | SendStop
    | FlushMessage
    | StopReturns
    | FlushStop                                     // exported: anyone may call it
    | Receive                                       // the application takes a message
    | Loop(session: nat, act: Act)
    | Place(delivery: nat)                          // convertDelivery's goroutine sends its message
    | Done                                          // and leaves the wait group

  function Init(): State {
    State(false, false, [], Away, [], 0, {}, 0, [], [], [], [], [])
  }

  predicate ActEnabled(s: State, i: nat, a: Act) {
    && i < |s.loops| && i < |s.heard|
    && match a
       case CheckStop => s.loops[i].Top? || s.loops[i].Bottom?
       case Get(_) => s.loops[i].Getting?
       case CheckClose(_) => s.loops[i].CheckingErrors?
       case Deliver(_) => s.loops[i].Delivering?
       case Ask => s.loops[i].Asking? && s.stopper.Away?
       case Waited => s.loops[i].Awaiting? && s.group == 0
       case Clear => s.loops[i].Clearing? && s.stopper.Away?
  }

  predicate Enabled(cfg: Config, s: State, step: Step) {
    match step
    case StartConsuming(_) => s.stopper.Away?
    case StopConsuming(_, _) => s.stopper.Away?
    case SendStop => s.stopper.Sending? && |s.consumeStop| < 1
    case FlushMessage => s.stopper.Flushing? && s.stopper.flush && s.messages != []
    case StopReturns => s.stopper.Flushing? && (s.stopper.flush ==> s.messages == [])
    case FlushStop => true
    case Receive => s.messages != []
    case Loop(i, a) => ActEnabled(s, i, a)
    case Place(d) => d in s.placing && |s.messages| < cfg.messageBuffer
    case Done => s.finishing > 0 && s.group > 0
  }

  function NextPhase(s: State, p: Phase, a: Act): Phase {
    match a
    case CheckStop => if s.consumeStop != [] then Asking else if p.Top? then Getting else CheckingErrors
    case Get(ok) => if ok then CheckingErrors else Top
    case CheckClose(closed) => if closed then Top else Delivering
    case Deliver(_) => Bottom
    case Ask => if s.stopImmediate then Clearing(true) else Awaiting
    case Waited => Clearing(false)
    case Clear => Ended
  }

  function Perform(s: State, i: nat, a: Act): State
    requires ActEnabled(s, i, a)
  {
    var t := s.(loops := s.loops[i := NextPhase(s, s.loops[i], a)]);
    match a
    case CheckStop =>
      if s.consumeStop == [] then t
      else t.(consumeStop := s.consumeStop[1..], heard := s.heard[i := Some(s.consumeStop[0])])
    case Deliver(some) =>
      if some then t.(group := s.group + 1, placing := s.placing + {|s.pulled|}, pulled := s.pulled + [i]) else t
    case Clear => t.(started := false, stopImmediate := false)
    case _ => t
  }

  function TakeMessage(s: State): State
    requires s.messages != []
  {
    s.(messages := s.messages[1..], gone := s.gone + [s.messages[0]])
  }

  function Apply(cfg: Config, s: State, step: Step): State
    requires Enabled(cfg, s, step)
  {
    match step
    case StartConsuming(enabled) =>
      if s.started || !enabled then s
      else s.(started := true, consumeStop := [], loops := s.loops + [Top], heard := s.heard + [None],
          hasty := s.hasty + [false])
    case StopConsuming(immediate, flush) =>
      if !s.started || |s.loops| == 0 || |s.hasty| < |s.loops| then s
      else s.(stopImmediate := immediate, stopper := Sending(|s.loops| - 1, flush),
              hasty := s.hasty[|s.loops| - 1 := s.hasty[|s.loops| - 1] || immediate])
    case SendStop => s.(consumeStop := s.consumeStop + [s.stopper.session], stopper := Flushing(s.stopper.flush))
    case FlushMessage => TakeMessage(s)
    case StopReturns => s.(stopper := Away)
    case FlushStop => s.(consumeStop := [])
    case Receive => TakeMessage(s)
    case Loop(i, a) => Perform(s, i, a)
    case Place(d) => s.(placing := s.placing - {d}, messages := s.messages + [d], finishing := s.finishing + 1)
    case Done => s.(finishing := s.finishing - 1, group := s.group - 1)
  }

  ghost predicate IsRun(cfg: Config, s: State, steps: seq<Step>)
    decreases |steps|
  {
    steps == [] || (Enabled(cfg, s, steps[0]) && IsRun(cfg, Apply(cfg, s, steps[0]), steps[1..]))
  }

  ghost function After(cfg: Config, s: State, steps: seq<Step>): State
    requires IsRun(cfg, s, steps)
    decreases |steps|
  {
    if steps == [] then s else After(cfg, Apply(cfg, s, steps[0]), steps[1..])
  }

  // ---------------------------------------------------------------- the invariant

  /** At most the newest loop runs, and `started` says whether it does. */
  ghost predicate OneLoop(s: State) {
    && |s.heard| == |s.loops| == |s.hasty|
    && (forall i :: 0 <= i < |s.loops| - 1 ==> s.loops[i].Ended?)
    && (s.started <==> |s.loops| > 0 && !s.loops[|s.loops| - 1].Ended?)
    && (!s.stopper.Away? ==> s.started)
  }

  predicate HasHeard(p: Phase) {
    p.Asking? || p.Awaiting? || p.Clearing? || p.Ended?
  }

  /** Every stop under way or heard belongs to the session it reaches. */
  ghost predicate OwnStops(s: State) {
    && |s.heard| == |s.loops|
    && |s.consumeStop| <= 1
    && (forall t :: t in s.consumeStop ==> t == |s.loops| - 1)
    && (s.stopper.Sending? ==> s.stopper.session == |s.loops| - 1)
    && (forall i :: 0 <= i < |s.loops| ==> s.heard[i] == if HasHeard(s.loops[i]) then Some(i) else None)
  }

  /** Immediate stops leave a trace, and a session starts without one. */
  ghost predicate Haste(s: State) {
    && |s.hasty| == |s.loops|
    && (s.stopImmediate ==> |s.loops| > 0 && s.started && s.hasty[|s.loops| - 1])
    && (forall i :: 0 <= i < |s.loops| && s.loops[i].Clearing? && s.loops[i].immediate ==> s.hasty[i])
  }

  /** Deliveries on the messages buffer or already taken from it, in order. */
  function Placed(s: State): seq<nat> {
    s.gone + s.messages
  }

  /** Every delivery pulled is either still to be placed or placed, and the wait group counts the
      goroutines that are not through with theirs. */
  ghost predicate Booked(group: nat, placing: set<nat>, finishing: nat, placed: seq<nat>, pulled: nat) {
    && group == |placing| + finishing
    && NoDuplicates(placed)
    && (forall d :: d in placing ==> d < pulled && d !in placed)
    && (forall d :: 0 <= d < pulled ==> d in placing || d in placed)
    && (forall d :: d in placed ==> d < pulled)
  }

  ghost predicate Counted(s: State) {
    && Booked(s.group, s.placing, s.finishing, Placed(s), |s.pulled|)
    && (forall d :: 0 <= d < |s.pulled| ==> s.pulled[d] < |s.loops|)
  }

  ghost predicate Waiting(s: State) {
    forall i :: 0 <= i < |s.loops| && s.loops[i].Clearing? && !s.loops[i].immediate ==> s.group == 0
  }

  ghost predicate Graceful(s: State) {
    && |s.hasty| == |s.loops|
    && forall i, d ::
         0 <= i < |s.loops| && s.loops[i].Ended? && !s.hasty[i] && 0 <= d < |s.pulled| && s.pulled[d] == i ==>
           d in Placed(s)
  }

  ghost predicate Inv(s: State) {
    OneLoop(s) && OwnStops(s) && Haste(s) && Counted(s) && Waiting(s) && Graceful(s)
  }

  lemma StepOneLoop(cfg: Config, s: State, step: Step)
    requires OneLoop(s) && Enabled(cfg, s, step)
    ensures OneLoop(Apply(cfg, s, step))
  {
  }

  lemma LoopOwnStops(cfg: Config, s: State, i: nat, a: Act)
    requires OneLoop(s) && OwnStops(s) && Enabled(cfg, s, Loop(i, a))
    ensures OwnStops(Apply(cfg, s, Loop(i, a)))
  {
    assert i == |s.loops| - 1;
    assert s.heard[i] == if HasHeard(s.loops[i]) then Some(i) else None;
    assert Apply(cfg, s, Loop(i, a)).loops[i] == NextPhase(s, s.loops[i], a);
    if a.CheckStop? && s.consumeStop != [] {
      assert s.consumeStop[0] in s.consumeStop;
    }
  }

  lemma StepOwnStops(cfg: Config, s: State, step: Step)
    requires OneLoop(s) && OwnStops(s) && Enabled(cfg, s, step)
    ensures OwnStops(Apply(cfg, s, step))
  {
    if step.Loop? { LoopOwnStops(cfg, s, step.session, step.act); }
  }

  lemma LoopHaste(cfg: Config, s: State, i: nat, a: Act)
    requires OneLoop(s) && Haste(s) && Enabled(cfg, s, Loop(i, a))
    ensures Haste(Apply(cfg, s, Loop(i, a)))
  {
  }

  lemma StepHaste(cfg: Config, s: State, step: Step)
    requires OneLoop(s) && Haste(s) && Enabled(cfg, s, step)
    ensures Haste(Apply(cfg, s, step))
  {
    if step.Loop? { LoopHaste(cfg, s, step.session, step.act); }
  }

  lemma PulledBooked(group: nat, placing: set<nat>, finishing: nat, placed: seq<nat>, pulled: nat)
    requires Booked(group, placing, finishing, placed, pulled)
    ensures Booked(group + 1, placing + {pulled}, finishing, placed, pulled + 1)
  {
  }

  lemma PlacedBooked(group: nat, placing: set<nat>, finishing: nat, placed: seq<nat>, pulled: nat, d: nat)
    requires Booked(group, placing, finishing, placed, pulled) && d in placing
    ensures Booked(group, placing - {d}, finishing + 1, placed + [d], pulled)
  {
  }

  lemma LoopCounted(cfg: Config, s: State, i: nat, a: Act)
    requires Counted(s) && Enabled(cfg, s, Loop(i, a))
    ensures Counted(Apply(cfg, s, Loop(i, a)))
  {
    if a.Deliver? && a.some {
      PulledBooked(s.group, s.placing, s.finishing, Placed(s), |s.pulled|);
    }
  }

  lemma StepCounted(cfg: Config, s: State, step: Step)
    requires Counted(s) && Enabled(cfg, s, step)
    ensures Counted(Apply(cfg, s, step))
  {
    var t := Apply(cfg, s, step);
    match step
    case Loop(i, a) => LoopCounted(cfg, s, i, a);
    case Place(d) =>
      PlacedBooked(s.group, s.placing, s.finishing, Placed(s), |s.pulled|, d);
      assert Placed(t) == Placed(s) + [d];
    case _ => assert Placed(t) == Placed(s);
  }

  lemma StepWaiting(cfg: Config, s: State, step: Step)
    requires OneLoop(s) && Waiting(s) && Enabled(cfg, s, step)
    ensures Waiting(Apply(cfg, s, step))
  {
  }

  lemma StepPlaced(cfg: Config, s: State, step: Step)
    requires Enabled(cfg, s, step)
    ensures Placed(s) <= Placed(Apply(cfg, s, step)) && s.pulled <= Apply(cfg, s, step).pulled
    ensures s.gone <= Apply(cfg, s, step).gone
  {
    if step.Receive? || step.FlushMessage? {
      assert Placed(Apply(cfg, s, step)) == Placed(s);
    }
  }

  lemma LoopGraceful(cfg: Config, s: State, i: nat, a: Act)
    requires Haste(s) && Counted(s) && Waiting(s) && Graceful(s) && Enabled(cfg, s, Loop(i, a))
    ensures Graceful(Apply(cfg, s, Loop(i, a)))
  {
    if a.Clear? && !s.loops[i].immediate { NothingPlacing(s); }
  }

  lemma StepGraceful(cfg: Config, s: State, step: Step)
    requires OneLoop(s) && Haste(s) && Counted(s) && Waiting(s) && Graceful(s) && Enabled(cfg, s, step)
    ensures Graceful(Apply(cfg, s, step))
  {
    if step.Loop? {
      LoopGraceful(cfg, s, step.session, step.act);
    } else {
      StepPlaced(cfg, s, step);
    }
  }

  lemma NothingPlacing(s: State)
    requires Counted(s) && s.group == 0
    ensures s.placing == {} && forall d :: 0 <= d < |s.pulled| ==> d in Placed(s)
  {
  }

  lemma {:induction false} RunInv(cfg: Config, s: State, steps: seq<Step>)
    requires Inv(s) && IsRun(cfg, s, steps)
    ensures Inv(After(cfg, s, steps))
    decreases |steps|
  {
    if steps != [] {
      var step := steps[0];
      StepOneLoop(cfg, s, step);
      StepOwnStops(cfg, s, step);
      StepHaste(cfg, s, step);
      StepCounted(cfg, s, step);
      StepWaiting(cfg, s, step);
      StepGraceful(cfg, s, step);
      RunInv(cfg, Apply(cfg, s, step), steps[1..]);
    }
  }

  // ---------------------------------------------------------------- what every run keeps

  /** At most one consume loop is alive, exactly when `started` is true. */
  lemma OneLoopAlive(cfg: Config, steps: seq<Step>)
    requires IsRun(cfg, Init(), steps)
    ensures var s := After(cfg, Init(), steps);
      && (forall i, j :: 0 <= i < |s.loops| && 0 <= j < |s.loops| && !s.loops[i].Ended? && !s.loops[j].Ended? ==>
          i == j)
      && (s.started <==> exists i :: 0 <= i < |s.loops| && !s.loops[i].Ended?)
  {
    RunInv(cfg, Init(), steps);
  }

  /** A consume loop hears only a stop of its own session, and every loop that has ended its
      deliveries heard one. */
  lemma StopsStayInSession(cfg: Config, steps: seq<Step>, i: nat)
    requires IsRun(cfg, Init(), steps) && i < |After(cfg, Init(), steps).loops|
    ensures var s := After(cfg, Init(), steps);
      && |s.heard| == |s.loops|
      && (s.heard[i].Some? ==> s.heard[i].value == i)
      && (HasHeard(s.loops[i]) <==> s.heard[i].Some?)
  {
    RunInv(cfg, Init(), steps);
  }

  /** When a session none of whose stops was immediate has ended, every delivery it pulled has
      been placed on `messages`; and any stop that waited leaves nothing to place. */
  lemma GracefulStopPlacesAll(cfg: Config, steps: seq<Step>, i: nat)
    requires IsRun(cfg, Init(), steps) && i < |After(cfg, Init(), steps).loops|
    ensures var s := After(cfg, Init(), steps);
      && |s.hasty| == |s.loops|
      && (s.loops[i].Ended? && !s.hasty[i] ==> forall d :: 0 <= d < |s.pulled| && s.pulled[d] == i ==>
          d in s.gone + s.messages)
      && (s.loops[i] == Clearing(false) ==> s.placing == {} && forall d :: 0 <= d < |s.pulled| ==>
          d in s.gone + s.messages)
  {
    RunInv(cfg, Init(), steps);
    var s := After(cfg, Init(), steps);
    if s.loops[i] == Clearing(false) { NothingPlacing(s); }
  }

  /** Messages leave the buffer in the order in which they were placed, and every delivery keeps its
      place in the order in which it was pulled. */
  lemma {:induction false} PlacedInOrder(cfg: Config, s: State, steps: seq<Step>)
    requires IsRun(cfg, s, steps)
    ensures s.gone + s.messages <= After(cfg, s, steps).gone + After(cfg, s, steps).messages
    ensures s.gone <= After(cfg, s, steps).gone && s.pulled <= After(cfg, s, steps).pulled
    decreases |steps|
  {
    if steps != [] {
      StepPlaced(cfg, s, steps[0]);
      PlacedInOrder(cfg, Apply(cfg, s, steps[0]), steps[1..]);
    }
  }

  /** Every delivery pulled is with one goroutine, or placed exactly once; the wait group counts
      the goroutines. */
  lemma DeliveriesConserved(cfg: Config, steps: seq<Step>, d: nat)
    requires IsRun(cfg, Init(), steps)
    ensures var s := After(cfg, Init(), steps);
      && NoDuplicates(s.gone + s.messages)
      && (d < |s.pulled| <==> d in s.placing || d in s.gone + s.messages)
      && !(d in s.placing && d in s.gone + s.messages)
      && s.group == |s.placing| + s.finishing
  {
    RunInv(cfg, Init(), steps);
    var s := After(cfg, Init(), steps);
    assert Counted(s);
  }

  // ---------------------------------------------------------------- a stop that blocks for good

  /** A stop call is blocked on a full buffer while it holds the lock that the loop, which reads
      no more stops, needs to finish. */
  predicate Wedged(s: State) {
    && s.stopper.Sending? && |s.consumeStop| >= 1
    && |s.loops| > 0 && HasHeard(s.loops[|s.loops| - 1])
  }

  /** Only a FlushStop from outside ends this; StartConsuming and StopConsuming block as well. */
  lemma WedgedStays(cfg: Config, s: State, step: Step)
    requires Inv(s) && Wedged(s) && Enabled(cfg, s, step) && !step.FlushStop?
    ensures Wedged(Apply(cfg, s, step)) && !step.StartConsuming? && !step.StopConsuming?
  {
  }

  /** Once the loop has heard its stop, the second further StopConsuming is wedged if the loop
      has not cleared `started` in between. */
  lemma TwoMoreStopsWedge(cfg: Config, s: State, first: bool, second: bool, flush: bool)
    requires Inv(s) && s.started && s.stopper.Away? && s.consumeStop == [] && HasHeard(s.loops[|s.loops| - 1])
    ensures var steps := [StopConsuming(first, false), SendStop, StopReturns, StopConsuming(second, flush)];
      IsRun(cfg, s, steps) && Wedged(After(cfg, s, steps))
  {
    var steps := [StopConsuming(first, false), SendStop, StopReturns, StopConsuming(second, flush)];
    var s1 := Apply(cfg, s, steps[0]);
    var s2 := Apply(cfg, s1, steps[1]);
    var s3 := Apply(cfg, s2, steps[2]);
    var s4 := Apply(cfg, s3, steps[3]);
    OneMore(cfg, s3, [steps[3]], s4);
    OneMore(cfg, s2, [steps[2], steps[3]], s4);
    OneMore(cfg, s1, [steps[1], steps[2], steps[3]], s4);
    OneMore(cfg, s, steps, s4);
  }

  lemma OneMore(cfg: Config, s: State, steps: seq<Step>, end: State)
    requires steps != [] && Enabled(cfg, s, steps[0])
    requires IsRun(cfg, Apply(cfg, s, steps[0]), steps[1..]) && After(cfg, Apply(cfg, s, steps[0]), steps[1..]) == end
    ensures IsRun(cfg, s, steps) && After(cfg, s, steps) == end
  {
  }

  /** Loop steps until the next stop check. */
  function Distance(p: Phase): nat {
    match p
    case Getting => 3
    case CheckingErrors => 2
    case Delivering => 1
    case _ => 0
  }

  /** In every other state a blocked stop call comes through: it can send, or the loop can step
      and each of its steps brings the next stop check nearer or takes a stop off the buffer. */
  lemma UnlessWedgedSends(cfg: Config, s: State, i: nat)
    requires Inv(s) && s.stopper.Sending? && !Wedged(s) && i == |s.loops| - 1
    ensures Enabled(cfg, s, SendStop) || (exists a :: ActEnabled(s, i, a))
    ensures forall a :: !Enabled(cfg, s, SendStop) && ActEnabled(s, i, a) ==>
              var t := Perform(s, i, a);
              |t.consumeStop| < 1 || (!Wedged(t) && t.stopper == s.stopper &&
                  Distance(t.loops[i]) < Distance(s.loops[i]))
  {
    if !Enabled(cfg, s, SendStop) {
      var a := match s.loops[i]
        case Getting => Get(true)
        case CheckingErrors => CheckClose(false)
        case Delivering => Deliver(false)
        case _ => CheckStop;
      assert ActEnabled(s, i, a);
    }
  }

  // ---------------------------------------------------------------- what a run adds up to

  datatype Account = Sessions | Pulled | Taken

  function Balance(s: State, a: Account): int {
    match a
    case Sessions => |s.loops|
    case Pulled => |s.pulled|
    case Taken => |s.gone|
  }

  function One(b: bool): int {
    if b then 1 else 0
  }

  /** What really happens at a step. */
  function Entry(s: State, step: Step, a: Account): int {
    match a
    case Sessions => One(step == StartConsuming(true) && !s.started)
    case Pulled => One(step.Loop? && step.act == Deliver(true))
    case Taken => One(step.Receive? || step.FlushMessage?)
  }

  ghost function Total(cfg: Config, s: State, steps: seq<Step>, a: Account): int
    requires IsRun(cfg, s, steps)
    decreases |steps|
  {
    if steps == [] then 0 else Entry(s, steps[0], a) + Total(cfg, Apply(cfg, s, steps[0]), steps[1..], a)
  }

  /** A session is opened at each start that finds the consumer enabled and stopped, a delivery is
      numbered at each one pulled, and a message is gone once it is received or flushed. */
  lemma {:induction false} AccountsExact(cfg: Config, s: State, steps: seq<Step>, a: Account)
    requires IsRun(cfg, s, steps)
    ensures Balance(After(cfg, s, steps), a) == Balance(s, a) + Total(cfg, s, steps, a)
    decreases |steps|
  {
    if steps != [] { AccountsExact(cfg, Apply(cfg, s, steps[0]), steps[1..], a); }
  }

  // ---------------------------------------------------------------- a stop ends the session

  /** Steps of the loop, of the goroutines that place messages, and of an application that goes on
      receiving. */
  predicate Inner(step: Step) {
    step.Loop? || step.Place? || step.Done? || step.Receive?
  }

  ghost predicate Leads(cfg: Config, s: State, t: State) {
    exists steps: seq<Step> :: IsRun(cfg, s, steps) && (forall i :: 0 <= i < |steps| ==> Inner(steps[i]))
      && After(cfg, s, steps) == t
  }

  lemma {:induction false} RunAppend(cfg: Config, s: State, steps: seq<Step>, step: Step)
    requires IsRun(cfg, s, steps) && Enabled(cfg, After(cfg, s, steps), step)
    ensures IsRun(cfg, s, steps + [step])
    ensures After(cfg, s, steps + [step]) == Apply(cfg, After(cfg, s, steps), step)
    decreases |steps|
  {
    if steps == [] {
      assert [step][1..] == [];
    } else {
      assert (steps + [step])[1..] == steps[1..] + [step];
      RunAppend(cfg, Apply(cfg, s, steps[0]), steps[1..], step);
    }
  }

  lemma LeadsOn(cfg: Config, s: State, t: State, step: Step)
    requires Leads(cfg, s, t) && Enabled(cfg, t, step) && Inner(step)
    ensures Leads(cfg, s, Apply(cfg, t, step))
  {
    var steps: seq<Step> :| IsRun(cfg, s, steps) && (forall i :: 0 <= i < |steps| ==> Inner(steps[i]))
      && After(cfg, s, steps) == t;
    RunAppend(cfg, s, steps, step);
  }

  /** Session i is the running one, a stop of it waits or has been heard, and nobody is starting or
      stopping. */
  ghost predicate Ending(s: State, i: nat) {
    && Inv(s) && s.started && i == |s.loops| - 1 && s.stopper.Away?
    && (s.consumeStop != [] || HasHeard(s.loops[i]))
  }

  /** A stop call that finds a session running brings it there. */
  lemma StopBegins(cfg: Config, s: State, immediate: bool)
    requires Inv(s) && s.started && s.stopper.Away? && s.consumeStop == []
    ensures var steps := [StopConsuming(immediate, false), SendStop, StopReturns]; var i := |s.loops| - 1;
      && IsRun(cfg, s, steps)
      && var t := After(cfg, s, steps);
      && t.loops == s.loops && t.consumeStop == [i] && t.started && t.stopper.Away?
      && t.stopImmediate == immediate && t.hasty == s.hasty[i := s.hasty[i] || immediate]
  {
    var s1 := Apply(cfg, s, StopConsuming(immediate, false));
    var s2 := Apply(cfg, s1, SendStop);
    var s3 := Apply(cfg, s2, StopReturns);
    OneMore(cfg, s2, [StopReturns], s3);
    OneMore(cfg, s1, [SendStop, StopReturns], s3);
    OneMore(cfg, s, [StopConsuming(immediate, false), SendStop, StopReturns], s3);
  }

  lemma InnerInv(cfg: Config, s: State, step: Step)
    requires Inv(s) && Enabled(cfg, s, step)
    ensures Inv(Apply(cfg, s, step))
  {
    StepOneLoop(cfg, s, step);
    StepOwnStops(cfg, s, step);
    StepHaste(cfg, s, step);
    StepCounted(cfg, s, step);
    StepWaiting(cfg, s, step);
    StepGraceful(cfg, s, step);
  }

  /** The loop steps once; while it has not heard the stop, it comes nearer to the next check. */
  lemma OneStep(cfg: Config, s0: State, s: State, i: nat, a: Act) returns (t: State)
    requires Leads(cfg, s0, s) && Ending(s, i) && ActEnabled(s, i, a) && !a.Clear?
    ensures Leads(cfg, s0, t) && Ending(t, i) && t == Perform(s, i, a)
  {
    LeadsOn(cfg, s0, s, Loop(i, a));
    InnerInv(cfg, s, Loop(i, a));
    t := Perform(s, i, a);
  }

  /** It hears the stop. */
  lemma {:induction false} Hears(cfg: Config, s0: State, s: State, i: nat) returns (t: State)
    requires Leads(cfg, s0, s) && Ending(s, i) && !HasHeard(s.loops[i])
    ensures Leads(cfg, s0, t) && Ending(t, i) && t.loops[i].Asking? && t.stopImmediate == s.stopImmediate
    ensures t.hasty == s.hasty
    decreases Distance(s.loops[i])
  {
    var a := match s.loops[i]
      case Getting => Get(true)
      case CheckingErrors => CheckClose(false)
      case Delivering => Deliver(false)
      case _ => CheckStop;
    t := OneStep(cfg, s0, s, i, a);
    if !t.loops[i].Asking? { t := Hears(cfg, s0, t, i); }
  }

  /** What the goroutines still have to do. */
  function Pending(s: State): nat {
    4 * |s.placing| + 2 * s.finishing + |s.messages|
  }

  /** One more of them is through: its message is placed, once there is room, or it leaves. */
  lemma Helps(cfg: Config, s0: State, s: State, i: nat) returns (t: State)
    requires Leads(cfg, s0, s) && Ending(s, i) && s.group > 0 && cfg.messageBuffer > 0
    ensures Leads(cfg, s0, t) && Ending(t, i) && Pending(t) < Pending(s)
    ensures t.loops == s.loops && t.hasty == s.hasty
  {
    var step := if s.finishing > 0 then Done else if |s.messages| < cfg.messageBuffer
      then var d :| d in s.placing; Place(d) else Receive;
    LeadsOn(cfg, s0, s, step);
    InnerInv(cfg, s, step);
    t := Apply(cfg, s, step);
  }

  /** Until nobody is left. */
  lemma {:induction false} Empties(cfg: Config, s0: State, s: State, i: nat) returns (t: State)
    requires Leads(cfg, s0, s) && Ending(s, i) && cfg.messageBuffer > 0
    ensures Leads(cfg, s0, t) && Ending(t, i) && t.group == 0 && t.loops == s.loops && t.hasty == s.hasty
    decreases Pending(s)
  {
    if s.group == 0 {
      t := s;
    } else {
      t := Helps(cfg, s0, s, i);
      t := Empties(cfg, s0, t, i);
    }
  }

  /** The loop clears `started` and ends. */
  lemma Ends(cfg: Config, s0: State, s: State, i: nat) returns (t: State)
    requires Leads(cfg, s0, s) && Ending(s, i) && s.loops[i].Clearing?
    ensures Leads(cfg, s0, t) && Inv(t) && !t.started && |t.loops| == i + 1 && t.loops[i].Ended? && t.hasty == s.hasty
  {
    LeadsOn(cfg, s0, s, Loop(i, Clear));
    InnerInv(cfg, s, Loop(i, Clear));
    t := Perform(s, i, Clear);
  }

  /** From the moment it has heard the stop. */
  lemma HeardEnds(cfg: Config, s0: State, s: State, i: nat) returns (t: State)
    requires Leads(cfg, s0, s) && Ending(s, i) && HasHeard(s.loops[i]) && cfg.messageBuffer > 0
    ensures Leads(cfg, s0, t) && Inv(t) && !t.started && |t.loops| == i + 1 && t.loops[i].Ended? && t.hasty == s.hasty
  {
    t := s;
    if t.loops[i].Asking? { t := OneStep(cfg, s0, t, i, Ask); }
    if t.loops[i].Awaiting? {
      t := Empties(cfg, s0, t, i);
      t := OneStep(cfg, s0, t, i, Waited);
    }
    t := Ends(cfg, s0, t, i);
  }

  /** A stop ends its session: with room for one message and an application that receives, the loop
      and the goroutines can always go on by themselves until `started` is cleared, and if no stop
      of the session was immediate every delivery it pulled has been placed by then. */
  lemma StopEnds(cfg: Config, s: State, i: nat) returns (t: State)
    requires Ending(s, i) && cfg.messageBuffer > 0
    ensures Leads(cfg, s, t) && !t.started && |t.loops| == i + 1 && t.loops[i].Ended? && t.hasty == s.hasty
    ensures !s.hasty[i] ==> forall d :: 0 <= d < |t.pulled| && t.pulled[d] == i ==> d in t.gone + t.messages
  {
    assert IsRun(cfg, s, []) && After(cfg, s, []) == s;
    t := s;
    if !HasHeard(t.loops[i]) { t := Hears(cfg, s, t, i); }
    t := HeardEnds(cfg, s, t, i);
  }

  /** When the loop asks, it can end by its own steps alone exactly if the stop is immediate or
      nothing is left to place: an immediate stop does not wait. */
  lemma EndsAloneExactly(cfg: Config, s: State, i: nat)
    requires Ending(s, i) && s.loops[i].Asking?
    ensures s.stopImmediate || s.group == 0 <==> exists steps: seq<Step> :: EndsAlone(cfg, s, steps, i)
  {
    if s.stopImmediate {
      TwoSteps(cfg, s, i);
    } else if s.group == 0 {
      ThreeSteps(cfg, s, i);
    } else {
      forall steps: seq<Step> | EndsAlone(cfg, s, steps, i) ensures false {
        WaitsAlone(cfg, s, steps, i);
      }
    }
  }

  ghost predicate EndsAlone(cfg: Config, s: State, steps: seq<Step>, i: nat) {
    && IsRun(cfg, s, steps) && (forall k :: 0 <= k < |steps| ==> steps[k].Loop? && steps[k].session == i)
    && i < |After(cfg, s, steps).loops| && After(cfg, s, steps).loops[i].Ended?
  }

  lemma TwoSteps(cfg: Config, s: State, i: nat)
    requires Ending(s, i) && s.loops[i].Asking? && s.stopImmediate
    ensures EndsAlone(cfg, s, [Loop(i, Ask), Loop(i, Clear)], i)
  {
    var s1 := Apply(cfg, s, Loop(i, Ask));
    OneMore(cfg, s1, [Loop(i, Clear)], Apply(cfg, s1, Loop(i, Clear)));
    OneMore(cfg, s, [Loop(i, Ask), Loop(i, Clear)], Apply(cfg, s1, Loop(i, Clear)));
  }

  lemma ThreeSteps(cfg: Config, s: State, i: nat)
    requires Ending(s, i) && s.loops[i].Asking? && !s.stopImmediate && s.group == 0
    ensures EndsAlone(cfg, s, [Loop(i, Ask), Loop(i, Waited), Loop(i, Clear)], i)
  {
    var s1 := Apply(cfg, s, Loop(i, Ask));
    var s2 := Apply(cfg, s1, Loop(i, Waited));
    var s3 := Apply(cfg, s2, Loop(i, Clear));
    OneMore(cfg, s2, [Loop(i, Clear)], s3);
    OneMore(cfg, s1, [Loop(i, Waited), Loop(i, Clear)], s3);
    OneMore(cfg, s, [Loop(i, Ask), Loop(i, Waited), Loop(i, Clear)], s3);
  }

  /** While something is left to place it stays in the wait. */
  lemma {:induction false} WaitsAlone(cfg: Config, s: State, steps: seq<Step>, i: nat)
    requires IsRun(cfg, s, steps) && (forall k :: 0 <= k < |steps| ==> steps[k].Loop? && steps[k].session == i)
    requires i < |s.loops| && s.group > 0 && (s.loops[i].Awaiting? || (s.loops[i].Asking? && !s.stopImmediate))
    ensures i < |After(cfg, s, steps).loops| && !After(cfg, s, steps).loops[i].Ended?
    decreases |steps|
  {
    if steps != [] { WaitsAlone(cfg, Apply(cfg, s, steps[0]), steps[1..], i); }
  }

  // ---------------------------------------------------------------- the loop between two stop checks

  /** The loop has a delivery channel. */
  predicate HasChannel(p: Phase) {
    p.CheckingErrors? || p.Delivering? || p.Bottom?
  }

  /** It gets one, and keeps it until it hears that the channel was closed, or a stop. */
  lemma ChannelExactly(s: State, i: nat, a: Act)
    requires ActEnabled(s, i, a)
    ensures HasChannel(Perform(s, i, a).loops[i]) <==>
              || a == Get(true)
              || (HasChannel(s.loops[i]) && a != CheckClose(true) && !(a.CheckStop? && s.consumeStop != []))
  {
  }

  ghost predicate GetsChannel(steps: seq<Step>, i: nat) {
    exists k :: 0 <= k < |steps| && steps[k] == Loop(i, Get(true))
  }

  /** So a loop without a delivery channel delivers nothing before it has got one. */
  lemma {:induction false} DeliversFromChannel(cfg: Config, s: State, steps: seq<Step>, i: nat, some: bool)
    requires IsRun(cfg, s, steps) && i < |s.loops| && !HasChannel(s.loops[i])
    requires Enabled(cfg, After(cfg, s, steps), Loop(i, Deliver(some)))
    ensures GetsChannel(steps, i)
    decreases |steps|
  {
    var t := Apply(cfg, s, steps[0]);
    if steps[0] == Loop(i, Get(true)) {
    } else {
      if steps[0].Loop? && steps[0].session == i { ChannelExactly(s, i, steps[0].act); }
      DeliversFromChannel(cfg, t, steps[1..], i, some);
      var k :| 0 <= k < |steps[1..]| && steps[1..][k] == Loop(i, Get(true));
      assert steps[k + 1] == Loop(i, Get(true));
    }
  }

  // ---------------------------------------------------------------- the stop call

  /** While a stop call holds the lock, nobody starts or stops, and the loop neither reads
      stopImmediate nor clears `started`. */
  lemma LockExcludes(cfg: Config, s: State, step: Step)
    requires !s.stopper.Away? && Enabled(cfg, s, step)
    ensures !step.StartConsuming? && !step.StopConsuming? && Apply(cfg, s, step).started == s.started
    ensures step.Loop? ==> !step.act.Ask? && !step.act.Clear?
    ensures Apply(cfg, s, step).stopImmediate == s.stopImmediate
  {
  }

  /** A stop call that flushes removes every message before it returns, and can always go on. */
  lemma {:induction false} FlushReturns(cfg: Config, s: State) returns (steps: seq<Step>)
    requires s.stopper == Flushing(true)
    ensures IsRun(cfg, s, steps) && |steps| == |s.messages| + 1
    ensures After(cfg, s, steps) == s.(messages := [], gone := s.gone + s.messages, stopper := Away)
    decreases |s.messages|
  {
    if s.messages == [] {
      steps := [StopReturns];
      OneMore(cfg, s, steps, Apply(cfg, s, StopReturns));
      assert s.gone + s.messages == s.gone;
    } else {
      var t := Apply(cfg, s, FlushMessage);
      var rest := FlushReturns(cfg, t);
      steps := [FlushMessage] + rest;
      assert t.gone + t.messages == s.gone + s.messages;
      OneMore(cfg, s, steps, After(cfg, t, rest));
    }
  }

  lemma FlushedExactly(cfg: Config, s: State)
    requires s.stopper.Flushing?
    ensures Enabled(cfg, s, StopReturns) <==> s.stopper.flush ==> s.messages == []
  {
  }

  /** FlushStop frees a wedged stop call. */
  lemma FlushStopFrees(cfg: Config, s: State)
    requires Wedged(s)
    ensures Enabled(cfg, s, FlushStop) && Enabled(cfg, Apply(cfg, s, FlushStop), SendStop)
  {
  }

  /** The buffer of messages never holds more than it has room for. */
  lemma {:induction false} MessagesBounded(cfg: Config, s: State, steps: seq<Step>)
    requires IsRun(cfg, s, steps) && |s.messages| <= cfg.messageBuffer
    ensures |After(cfg, s, steps).messages| <= cfg.messageBuffer
    decreases |steps|
  {
    if steps != [] { MessagesBounded(cfg, Apply(cfg, s, steps[0]), steps[1..]); }
  }
}
