/** Channel creation in the v1 pools by any number of goroutines at once, with channels that
  fail to open and connections that are replaced. The check for room and the increment take the
  lock of a connection separately. */
module V1Creation {
  import opened Common
  import PoolCustody
  import V1Quota

  /** One ConnectionHost object and how many channels it counts. */
  datatype Load = Load(channels: nat, acks: nat)

  datatype Phase =
    | Idle
    | Seeking(ackable: bool, looks: nat)              // GetNewConnection
    | Holding(ackable: bool, looks: nat, slot: nat)   // dequeued a connection, before the check
    | Opening(ackable: bool, slot: nat)               // saw room, before NewChannelHost
    | Counting(ackable: bool, slot: nat)              // opened, before the increment
    | Returning(slot: nat, next: Next)                // about to put the connection back

  /** What follows ReturnConnection: another look, or the end of the call. */
  datatype Next = LookAgain(ackable: bool, looks: nat) | Done

  /** `current[i]` is the ConnectionHost object in slot i of the pool; `loads` are all of them,
      `created` how many channels were ever counted. */
  datatype State = State(loads: seq<Load>, current: seq<nat>, queue: seq<nat>, keeper: seq<Option<nat>>,
                         creators: seq<Phase>, created: nat)

  datatype Act =
    | Begin(ackable: bool)
    | Get(replace: bool)          // GetConnection, replacing the object if it is unhealthy
    | Check
    | Open(ok: bool)
    | Add
    | Return

  datatype Limits = Limits(channels: nat, acks: nat)

  function Room(limits: Limits, load: Load, ackable: bool): bool {
    if ackable then load.acks < limits.acks else load.channels < limits.channels
  }

  function One(load: Load, ackable: bool): Load {
    if ackable then load.(acks := load.acks + 1) else load.(channels := load.channels + 1)
  }

  function SlotOf(p: Phase): Option<nat> {
    match p
    case Idle => None
    case Seeking(_, _) => None
    case _ => Some(p.slot)
  }

  predicate Enabled(s: State, g: nat, a: Act) {
    g < |s.creators| &&
    var p := s.creators[g];
    && (SlotOf(p).Some? ==> SlotOf(p).value < |s.current| && s.current[SlotOf(p).value] < |s.loads|)
    && (SlotOf(p).Some? ==> |s.keeper| == |s.current|)
    && match a
       case Begin(_) => p.Idle?
       case Get(_) => p.Seeking? && s.queue != [] && s.queue[0] < |s.current| == |s.keeper|
       case Check => p.Holding?
       case Open(_) => p.Opening?
       case Add => p.Counting?
       case Return => p.Returning?
  }

  function NextPhase(limits: Limits, s: State, g: nat, a: Act): Phase
    requires Enabled(s, g, a)
  {
    var p := s.creators[g];
    match a
    case Begin(ackable) => Seeking(ackable, 0)
    case Get(_) => Holding(p.ackable, p.looks, s.queue[0])
    case Check =>
      if Room(limits, s.loads[s.current[p.slot]], p.ackable) then Opening(p.ackable, p.slot)
      else Returning(p.slot, if p.looks + 1 < V1Quota.MAX_LOOKS then LookAgain(p.ackable, p.looks + 1) else Done)
    case Open(ok) => if ok then Counting(p.ackable, p.slot) else Returning(p.slot, Done)
    case Add => Returning(p.slot, Done)
    case Return => if p.next.Done? then Idle else Seeking(p.next.ackable, p.next.looks)
  }

  function Apply(limits: Limits, s: State, g: nat, a: Act): State
    requires Enabled(s, g, a)
  {
    var p := s.creators[g];
    var t := s.(creators := s.creators[g := NextPhase(limits, s, g, a)]);
    match a
    case Get(replace) =>
      var u := t.(queue := s.queue[1..], keeper := s.keeper[s.queue[0] := Some(g)]);
      if replace then u.(loads := s.loads + [Load(0, 0)], current := s.current[s.queue[0] := |s.loads|]) else u
    case Add =>
      var k := s.current[p.slot];
      t.(loads := s.loads[k := One(s.loads[k], p.ackable)], created := s.created + 1)
    case Return => t.(queue := s.queue + [p.slot], keeper := s.keeper[p.slot := None])
    case _ => t
  }

  function Init(connections: nat, goroutines: nat): State {
    State(seq(connections, i => Load(0, 0)), Numbers(connections), Numbers(connections), seq(connections, i => None),
          seq(goroutines, i => Idle), 0)
  }

  // ---------------------------------------------------------------- the invariant

  predicate Within(limits: Limits, load: Load) {
    load.channels <= limits.channels && load.acks <= limits.acks
  }

  /** A creator owns its slot, and past the check the connection there has room. */
  ghost predicate CreatorOk(limits: Limits, s: State, g: nat, p: Phase) {
    SlotOf(p).Some? ==>
      && SlotOf(p).value < |s.current| == |s.keeper|
      && s.keeper[SlotOf(p).value] == Some(g)
      && s.current[SlotOf(p).value] < |s.loads|
      && (p.Opening? || p.Counting? ==> Room(limits, s.loads[s.current[p.slot]], p.ackable))
  }

  ghost predicate Inv(limits: Limits, s: State) {
    && PoolCustody.PoolOk(|s.current|, s.queue, s.keeper)
    && (forall i :: 0 <= i < |s.current| ==> s.current[i] < |s.loads|)
    && NoDuplicates(s.current)
    && (forall k :: 0 <= k < |s.loads| ==> Within(limits, s.loads[k]))
    && (forall g :: 0 <= g < |s.creators| ==> CreatorOk(limits, s, g, s.creators[g]))
    && Total(s.loads) == s.created
  }

  function Total(loads: seq<Load>): nat {
    if loads == [] then 0 else Total(loads[..|loads| - 1]) + loads[|loads| - 1].channels + loads[|loads| - 1].acks
  }

  lemma {:induction false} TotalUpdate(loads: seq<Load>, k: nat, load: Load)
    requires k < |loads|
    ensures Total(loads[k := load]) + loads[k].channels + loads[k].acks == Total(loads) + load.channels + load.acks
  {
    var last := |loads| - 1;
    if k == last {
      assert loads[k := load][..last] == loads[..last];
    } else {
      TotalUpdate(loads[..last], k, load);
      assert loads[k := load][..last] == loads[..last][k := load];
    }
  }

  lemma {:induction false} TotalBound(limits: Limits, loads: seq<Load>)
    requires forall k :: 0 <= k < |loads| ==> Within(limits, loads[k])
    ensures Total(loads) <= |loads| * (limits.channels + limits.acks)
  {
    if loads != [] {
      var quota := limits.channels + limits.acks;
      TotalBound(limits, loads[..|loads| - 1]);
      assert |loads| * quota == (|loads| - 1) * quota + quota;
      assert Within(limits, loads[|loads| - 1]);
    }
  }

  lemma StepQueue(limits: Limits, s: State, g: nat, a: Act)
    requires Inv(limits, s) && Enabled(s, g, a)
    ensures var t := Apply(limits, s, g, a); PoolCustody.PoolOk(|t.current|, t.queue, t.keeper)
  {
    assert CreatorOk(limits, s, g, s.creators[g]);
    if a.Get? { PoolCustody.PoolTake(|s.current|, s.queue, s.keeper, g); }
    if a.Return? { PoolCustody.PoolPut(|s.current|, s.queue, s.keeper, s.creators[g].slot); }
  }

  lemma StepCreators(limits: Limits, s: State, g: nat, a: Act, d: nat)
    requires Inv(limits, s) && Enabled(s, g, a) && d < |s.creators|
    ensures var t := Apply(limits, s, g, a); CreatorOk(limits, t, d, t.creators[d])
  {
    assert CreatorOk(limits, s, g, s.creators[g]) && CreatorOk(limits, s, d, s.creators[d]);
  }

  lemma StepLoads(limits: Limits, s: State, g: nat, a: Act)
    requires Inv(limits, s) && Enabled(s, g, a)
    ensures var t := Apply(limits, s, g, a);
      && (forall k :: 0 <= k < |t.loads| ==> Within(limits, t.loads[k]))
      && Total(t.loads) == t.created
  {
    assert CreatorOk(limits, s, g, s.creators[g]);
    if a.Add? {
      var p := s.creators[g];
      var k := s.current[p.slot];
      TotalUpdate(s.loads, k, One(s.loads[k], p.ackable));
    }
    if a.Get? && a.replace {
      assert (s.loads + [Load(0, 0)])[..|s.loads|] == s.loads;
    }
  }

  lemma StepInv(limits: Limits, s: State, g: nat, a: Act)
    requires Inv(limits, s) && Enabled(s, g, a)
    ensures Inv(limits, Apply(limits, s, g, a))
  {
    var t := Apply(limits, s, g, a);
    StepQueue(limits, s, g, a);
    StepLoads(limits, s, g, a);
    forall d | 0 <= d < |t.creators| ensures CreatorOk(limits, t, d, t.creators[d]) {
      StepCreators(limits, s, g, a, d);
    }
  }

  // ---------------------------------------------------------------- every run

  datatype Step = Step(goroutine: nat, act: Act)

  ghost predicate IsRun(limits: Limits, s: State, steps: seq<Step>)
    decreases |steps|
  {
    steps == [] || (Enabled(s, steps[0].goroutine, steps[0].act)
      && IsRun(limits, Apply(limits, s, steps[0].goroutine, steps[0].act), steps[1..]))
  }

  ghost function After(limits: Limits, s: State, steps: seq<Step>): State
    requires IsRun(limits, s, steps)
    decreases |steps|
  {
    if steps == [] then s else After(limits, Apply(limits, s, steps[0].goroutine, steps[0].act), steps[1..])
  }

  lemma {:induction false} RunInv(limits: Limits, s: State, steps: seq<Step>)
    requires Inv(limits, s) && IsRun(limits, s, steps)
    ensures Inv(limits, After(limits, s, steps))
    decreases |steps|
  {
    if steps != [] {
      StepInv(limits, s, steps[0].goroutine, steps[0].act);
      RunInv(limits, Apply(limits, s, steps[0].goroutine, steps[0].act), steps[1..]);
    }
  }

  lemma {:induction false} InitTotal(n: nat)
    ensures Total(seq(n, i => Load(0, 0))) == 0
  {
    if n > 0 {
      InitTotal(n - 1);
      assert seq(n, i => Load(0, 0))[..n - 1] == seq(n - 1, i => Load(0, 0));
    }
  }

  lemma InitInv(limits: Limits, connections: nat, goroutines: nat)
    ensures Inv(limits, Init(connections, goroutines))
  {
    InitTotal(connections);
    var s := Init(connections, goroutines);
    forall i | 0 <= i < connections ensures i in s.queue { assert s.queue[i] == i; }
  }

  /** In every concurrent run, with failures and replaced connections, no connection ever counts
      more channels than its quota, although check and increment are separate. */
  lemma QuotaKept(limits: Limits, connections: nat, goroutines: nat, steps: seq<Step>)
    requires IsRun(limits, Init(connections, goroutines), steps)
    ensures var s := After(limits, Init(connections, goroutines), steps);
      forall k :: 0 <= k < |s.loads| ==> s.loads[k].channels <= limits.channels && s.loads[k].acks <= limits.acks
  {
    InitInv(limits, connections, goroutines);
    RunInv(limits, Init(connections, goroutines), steps);
  }

  /** Counted channels are never given back, so a run opens at most quota times as many channels
      as it has had connections: once the slots are used up, a failed channel can be replaced
      only after its connection has been. */
  lemma CreationsBounded(limits: Limits, connections: nat, goroutines: nat, steps: seq<Step>)
    requires IsRun(limits, Init(connections, goroutines), steps)
    ensures var s := After(limits, Init(connections, goroutines), steps);
      s.created <= |s.loads| * (limits.channels + limits.acks)
  {
    InitInv(limits, connections, goroutines);
    RunInv(limits, Init(connections, goroutines), steps);
    TotalBound(limits, After(limits, Init(connections, goroutines), steps).loads);
  }

  /** Every connection of the pool is full for a kind, and nobody is about to add to it. */
  ghost predicate Full(limits: Limits, s: State, ackable: bool) {
    && (forall i :: 0 <= i < |s.current| ==> s.current[i] < |s.loads| && !Room(limits, s.loads[s.current[i]], ackable))
    && (forall g :: 0 <= g < |s.creators| && (s.creators[g].Opening? || s.creators[g].Counting?) ==>
        s.creators[g].ackable != ackable)
  }

  /** So once the pools have been filled to the quota, no channel of that kind is ever opened
      again until some connection is replaced: GetChannel passes bad channels over instead of
      replacing them. */
  lemma {:induction false} FullStays(limits: Limits, s: State, steps: seq<Step>, ackable: bool)
    requires Full(limits, s, ackable) && IsRun(limits, s, steps)
    requires forall i :: 0 <= i < |steps| ==> steps[i].act != Get(true)
    ensures Full(limits, After(limits, s, steps), ackable)
    decreases |steps|
  {
    if steps != [] {
      FullNext(limits, s, steps[0].goroutine, steps[0].act, ackable);
      FullStays(limits, Apply(limits, s, steps[0].goroutine, steps[0].act), steps[1..], ackable);
    }
  }

  lemma FullNext(limits: Limits, s: State, g: nat, a: Act, ackable: bool)
    requires Full(limits, s, ackable) && Enabled(s, g, a) && a != Get(true)
    ensures Full(limits, Apply(limits, s, g, a), ackable)
  {
  }

  // ---------------------------------------------------------------- the quota is reached

  /** A connection that is looked at takes the channel exactly if it has room; otherwise it goes back
      to the tail of the queue, and the call looks on until it has met four without room. */
  lemma CheckedExactly(limits: Limits, s: State, g: nat)
    requires Inv(limits, s) && Enabled(s, g, Check)
    ensures var p, t := s.creators[g], Apply(limits, s, g, Check);
      var load := s.loads[s.current[p.slot]];
      if (if p.ackable then load.acks < limits.acks else load.channels < limits.channels)
      then t.creators[g] == Opening(p.ackable, p.slot)
      else Enabled(t, g, Return) && var u := Apply(limits, t, g, Return);
        && u.creators[g] == (if p.looks < 3 then Seeking(p.ackable, p.looks + 1) else Idle)
        && u.queue == s.queue + [p.slot] && u.loads == s.loads
  {
    assert CreatorOk(limits, s, g, s.creators[g]);
  }

  ghost predicate Reachable(limits: Limits, connections: nat, goroutines: nat, s: State) {
    exists steps: seq<Step> :: IsRun(limits, Init(connections, goroutines), steps)
      && After(limits, Init(connections, goroutines), steps) == s
  }

  lemma {:induction false} RunAppend(limits: Limits, s: State, steps: seq<Step>, g: nat, a: Act)
    requires IsRun(limits, s, steps) && Enabled(After(limits, s, steps), g, a)
    ensures IsRun(limits, s, steps + [Step(g, a)])
    ensures After(limits, s, steps + [Step(g, a)]) == Apply(limits, After(limits, s, steps), g, a)
    decreases |steps|
  {
    if steps == [] {
      assert [Step(g, a)][1..] == [];
    } else {
      assert (steps + [Step(g, a)])[1..] == steps[1..] + [Step(g, a)];
      RunAppend(limits, Apply(limits, s, steps[0].goroutine, steps[0].act), steps[1..], g, a);
    }
  }

  lemma Reach(limits: Limits, connections: nat, goroutines: nat, s: State, g: nat, a: Act)
    requires Reachable(limits, connections, goroutines, s) && Enabled(s, g, a)
    ensures Reachable(limits, connections, goroutines, Apply(limits, s, g, a))
  {
    var init := Init(connections, goroutines);
    var steps: seq<Step> :| IsRun(limits, init, steps) && After(limits, init, steps) == s;
    RunAppend(limits, init, steps, g, a);
  }

  /** Goroutine 0 alone is at work, on the connections that were made at the start. */
  ghost predicate Alone(limits: Limits, connections: nat, goroutines: nat, s: State, p: Phase) {
    && Reachable(limits, connections, goroutines, s) && |s.creators| > 0 && s.creators[0] == p
    && s.current == Numbers(connections) && |s.loads| == connections && |s.keeper| == connections
    && |s.queue| + (if SlotOf(p).Some? then 1 else 0) == connections
    && (forall i :: 0 <= i < |s.queue| ==> s.queue[i] < connections)
    && (SlotOf(p).Some? ==> SlotOf(p).value < connections)
  }

  /** It opens a channel on the connection it holds. */
  lemma Opens(limits: Limits, n: nat, k: nat, s: State, ackable: bool, slot: nat) returns (t: State)
    requires Alone(limits, n, k, s, Opening(ackable, slot))
    ensures Alone(limits, n, k, t, Idle) && t.loads == s.loads[slot := One(s.loads[slot], ackable)]
  {
    Reach(limits, n, k, s, 0, Open(true));
    t := Apply(limits, s, 0, Open(true));
    Reach(limits, n, k, t, 0, Add);
    t := Apply(limits, t, 0, Add);
    Reach(limits, n, k, t, 0, Return);
    t := Apply(limits, t, 0, Return);
  }

  /** A call of goroutine 0, which seeks or is to begin. */
  ghost predicate Seeks(limits: Limits, n: nat, k: nat, s: State, ackable: bool) {
    |s.creators| > 0 && Alone(limits, n, k, s, s.creators[0])
    && (s.creators[0].Idle? || (s.creators[0].Seeking? && s.creators[0].ackable == ackable))
  }

  /** It takes the head of the queue. */
  lemma TakesHead(limits: Limits, n: nat, k: nat, s: State, ackable: bool) returns (t: State, looks: nat)
    requires Seeks(limits, n, k, s, ackable) && s.queue != []
    ensures Alone(limits, n, k, t, Holding(ackable, looks, s.queue[0])) && t.loads == s.loads && t.queue == s.queue[1..]
  {
    t := s;
    if t.creators[0].Idle? {
      Reach(limits, n, k, t, 0, Begin(ackable));
      t := Apply(limits, t, 0, Begin(ackable));
    }
    looks := t.creators[0].looks;
    Reach(limits, n, k, t, 0, Get(false));
    t := Apply(limits, t, 0, Get(false));
  }

  /** It finds no room there and puts the connection back. */
  lemma PassesOn(limits: Limits, n: nat, k: nat, s: State, ackable: bool, looks: nat, slot: nat) returns (t: State)
    requires Alone(limits, n, k, s, Holding(ackable, looks, slot)) && !Room(limits, s.loads[slot], ackable)
    ensures Seeks(limits, n, k, t, ackable) && t.loads == s.loads && t.queue == s.queue + [slot]
  {
    Reach(limits, n, k, s, 0, Check);
    t := Apply(limits, s, 0, Check);
    Reach(limits, n, k, t, 0, Return);
    t := Apply(limits, t, 0, Return);
  }

  /** It finds room. */
  lemma Fills(limits: Limits, n: nat, k: nat, s: State, ackable: bool, looks: nat, slot: nat) returns (t: State)
    requires Alone(limits, n, k, s, Holding(ackable, looks, slot)) && Room(limits, s.loads[slot], ackable)
    ensures Alone(limits, n, k, t, Idle) && t.loads == s.loads[slot := One(s.loads[slot], ackable)]
  {
    Reach(limits, n, k, s, 0, Check);
    t := Apply(limits, s, 0, Check);
    t := Opens(limits, n, k, t, ackable, slot);
  }

  /** The connection p places down the queue has room, so it is found, or another one before it, if
      need be by another call. */
  lemma {:induction false} Finds(limits: Limits, n: nat, k: nat, s: State, ackable: bool, p: nat)
    returns (t: State, slot: nat)
    requires Seeks(limits, n, k, s, ackable) && p < |s.queue| && Room(limits, s.loads[s.queue[p]], ackable)
    ensures Alone(limits, n, k, t, Idle) && slot < n && Room(limits, s.loads[slot], ackable)
    ensures t.loads == s.loads[slot := One(s.loads[slot], ackable)]
    decreases p
  {
    var u, looks := TakesHead(limits, n, k, s, ackable);
    slot := s.queue[0];
    if Room(limits, s.loads[slot], ackable) {
      t := Fills(limits, n, k, u, ackable, looks, slot);
    } else {
      u := PassesOn(limits, n, k, u, ackable, looks, slot);
      assert u.queue[p - 1] == s.queue[p];
      t, slot := Finds(limits, n, k, u, ackable, p - 1);
    }
  }

  lemma InitReachable(limits: Limits, n: nat, k: nat)
    requires k > 0
    ensures Alone(limits, n, k, Init(n, k), Idle)
  {
    assert IsRun(limits, Init(n, k), []) && After(limits, Init(n, k), []) == Init(n, k);
  }

  lemma ReachableInv(limits: Limits, n: nat, k: nat, s: State)
    requires Reachable(limits, n, k, s)
    ensures Inv(limits, s)
  {
    var steps: seq<Step> :| IsRun(limits, Init(n, k), steps) && After(limits, Init(n, k), steps) == s;
    InitInv(limits, n, k);
    RunInv(limits, Init(n, k), steps);
  }

  /** With all connections in the queue, every one of them has a place there. */
  lemma PlaceOf(limits: Limits, n: nat, k: nat, s: State, slot: nat) returns (p: nat)
    requires Alone(limits, n, k, s, Idle) && slot < n
    ensures p < |s.queue| && s.queue[p] == slot
  {
    ReachableInv(limits, n, k, s);
    if slot !in s.queue {
      ShorterThan(n, s.queue, slot);
      assert false;
    }
    p :| 0 <= p < |s.queue| && s.queue[p] == slot;
  }

  /** Until no connection has room for either kind. */
  lemma {:induction false} FillsAll(limits: Limits, n: nat, k: nat, s: State) returns (t: State)
    requires Alone(limits, n, k, s, Idle)
    ensures Alone(limits, n, k, t, Idle) && forall i :: 0 <= i < n ==> t.loads[i] == Load(limits.channels, limits.acks)
    decreases n * (limits.channels + limits.acks) - Total(s.loads)
  {
    ReachableInv(limits, n, k, s);
    TotalBound(limits, s.loads);
    if slot, ackable :| 0 <= slot < n && Room(limits, s.loads[slot], ackable) {
      var p := PlaceOf(limits, n, k, s, slot);
      var u, at := Finds(limits, n, k, s, ackable, p);
      TotalUpdate(s.loads, at, One(s.loads[at], ackable));
      ReachableInv(limits, n, k, u);
      TotalBound(limits, u.loads);
      t := FillsAll(limits, n, k, u);
    } else {
      t := s;
      forall i | 0 <= i < n ensures t.loads[i] == Load(limits.channels, limits.acks) {
        assert Within(limits, s.loads[i]) && !Room(limits, s.loads[i], true) && !Room(limits, s.loads[i], false);
      }
    }
  }

  /** The quota is not only kept but reached: some run fills every connection up to it, for both
      kinds, so the bound on creations is exact. */
  lemma QuotaReached(limits: Limits, connections: nat, goroutines: nat) returns (s: State)
    requires goroutines > 0
    ensures Reachable(limits, connections, goroutines, s) && |s.loads| == connections
    ensures forall i :: 0 <= i < connections ==> s.loads[i] == Load(limits.channels, limits.acks)
  {
    InitReachable(limits, connections, goroutines);
    s := FillsAll(limits, connections, goroutines, Init(connections, goroutines));
  }

  /** A channel that fails to open ends its call uncounted; one that opens is counted once, on the
      connection it was opened on, and ends it. */
  lemma OpenedExactly(limits: Limits, s: State, g: nat, ok: bool)
    requires Inv(limits, s) && Enabled(s, g, Open(ok))
    ensures var p, t := s.creators[g], Apply(limits, s, g, Open(ok)); var slot := p.slot;
      && t.loads == s.loads
      && t.creators[g] == (if ok then Counting(p.ackable, slot) else Returning(slot, Done))
      && (ok ==> Enabled(t, g, Add) && var u := Apply(limits, t, g, Add);
            && u.creators[g] == Returning(slot, Done) && u.created == s.created + 1
            && u.loads[s.current[slot]].acks == s.loads[s.current[slot]].acks + (if p.ackable then 1 else 0)
            && u.loads[s.current[slot]].channels == s.loads[s.current[slot]].channels + (if p.ackable then 0 else 1))
  {
    assert CreatorOk(limits, s, g, s.creators[g]);
  }
}
