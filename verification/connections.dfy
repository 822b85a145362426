/** The v2 connection hosts and their queue, with any number of goroutines that take, return,
  borrow and recover connections at the same time, while the network closes them at will. */
module Connections {
  import opened Common
  import PoolCustody

  /** A goroutine that needs a connection host. */
  datatype Phase =
    | Away
    | Checking(host: nat)                  // verifyHealthyConnection: before it reads Errors and the flag
    | Judging(host: nat, bad: bool)        // before it asks IsClosed
    | Connecting(host: nat)                // ConnectWithErrorHandler: before the first look
    | Locking(host: nat)
    | Rechecking(host: nat)                // holds connLock
    | Dialing(host: nat)                   // holds connLock and saw a closed connection
    | Dialed(host: nat, conn: nat)         // holds connLock and a new connection, not installed yet
    | Notifying(host: nat, conn: nat)      // holds connLock and has installed it, but not its Errors channel
    | Unlocking(host: nat, ok: bool)       // about to release connLock
    | Draining(host: nat)                  // Connect has succeeded; flushing Errors
    | Unflagging(host: nat)
    | Using(host: nat)
    | Putting(host: nat)                   // ReturnConnection: flagged, not yet back in the queue

  /** `owns`: taken from the queue, as opposed to borrowed through a channel host. */
  datatype Getter = Getter(phase: Phase, owns: bool)

  /** Every connection object a host ever dialled, open or not, which one is installed, and
      whose Errors channel is: the library closes that channel together with its connection. */
  datatype Host = Host(conns: seq<bool>, installed: nat, errors: nat, lock: Option<nat>)

  datatype State = State(
    hosts: seq<Host>, queue: seq<nat>, flagged: seq<bool>, getters: seq<Getter>,
    keeper: seq<Option<nat>>,    // history: who owns each host
    proved: seq<bool>,           // history: Connect has succeeded since the last flagged return
    raced: seq<bool>)            // history: at that return somebody could still take the flag away unproved

  datatype Act =
    | Take
    | Borrow(host: nat)
    | ReadFlag(unhealthy: bool)
    | Judge
    | Look
    | Lock
    | LookAgain
    | Dial(ok: bool)
    | Install
    | Notify
    | Unlock
    | Drain
    | Unflag
    | Give(flag: bool)
    | Put
    | Drop

  datatype Step =
    | Do(getter: nat, act: Act)
    | Sever(host: nat, conn: nat)

  // ---------------------------------------------------------------- one getter

  function At(p: Phase): Option<nat> {
    if p.Away? then None else Some(p.host)
  }

  predicate HasLock(p: Phase) {
    p.Rechecking? || p.Dialing? || p.Dialed? || p.Notifying? || p.Unlocking?
  }

  predicate InstalledOpen(h: Host) {
    h.installed < |h.conns| && h.conns[h.installed]
  }

  /** While this does not hold, a receive from the Errors channel always yields something. */
  predicate ErrorsOpen(h: Host) {
    h.errors < |h.conns| && h.conns[h.errors]
  }

  predicate ActEnabled(s: State, g: nat, a: Act) {
    g < |s.getters| &&
    var p := s.getters[g].phase;
    && (At(p).Some? ==> At(p).value < |s.hosts|)
    && match a
       case Take => p.Away? && s.queue != [] && s.queue[0] < |s.hosts|
       case Borrow(h) => p.Away? && h < |s.hosts|
       case ReadFlag(_) => p.Checking?
       case Judge => p.Judging?
       case Look => p.Connecting?
       case Lock => p.Locking? && s.hosts[p.host].lock == None
       case LookAgain => p.Rechecking?
       case Dial(_) => p.Dialing?
       case Install => p.Dialed?
       case Notify => p.Notifying?
       case Unlock => p.Unlocking?
       case Drain => p.Draining?
       case Unflag => p.Unflagging?
       case Give(_) => p.Using? && s.getters[g].owns
       case Put => p.Putting? && s.getters[g].owns
       case Drop => p.Using? && !s.getters[g].owns
  }

  /** The host the act works on. */
  function Target(s: State, g: nat, a: Act): nat
    requires ActEnabled(s, g, a)
  {
    match a
    case Take => s.queue[0]
    case Borrow(h) => h
    case _ => s.getters[g].phase.host
  }

  function NextPhase(p: Phase, h: nat, host: Host, flagged: bool, a: Act): Phase {
    match a
    case Take => Checking(h)
    case Borrow(_) => Checking(h)
    case ReadFlag(unhealthy) => Judging(h, unhealthy || flagged)
    case Judge => if (p.Judging? && p.bad) || !InstalledOpen(host) then Connecting(h) else Using(h)
    case Look => if InstalledOpen(host) then Draining(h) else Locking(h)
    case Lock => Rechecking(h)
    case LookAgain => if InstalledOpen(host) then Unlocking(h, true) else Dialing(h)
    case Dial(ok) => if ok then Dialed(h, |host.conns|) else Unlocking(h, false)
    case Install => if p.Dialed? then Notifying(h, p.conn) else p
    case Notify => Unlocking(h, true)
    case Unlock => if p.Unlocking? && p.ok then Draining(h) else Connecting(h)
    case Drain => if ErrorsOpen(host) then Unflagging(h) else p
    case Unflag => Using(h)
    case Give(_) => Putting(h)
    case Put => Away
    case Drop => Away
  }

  function NextHost(p: Phase, host: Host, g: nat, a: Act): Host {
    match a
    case Lock => host.(lock := Some(g))
    case Dial(ok) => if ok then host.(conns := host.conns + [true]) else host
    case Install => if p.Dialed? then host.(installed := p.conn) else host
    case Notify => if p.Notifying? then host.(errors := p.conn) else host
    case Unlock => host.(lock := None)
    case _ => host
  }

  /** Whoever holds connLock of host h has succeeded, or will, with a connection that is closed again. */
  predicate Spent(s: State, h: nat) {
    h < |s.hosts| && s.hosts[h].lock.Some? && s.hosts[h].lock.value < |s.getters| &&
    var p, conns := s.getters[s.hosts[h].lock.value].phase, s.hosts[h].conns;
    || p == Unlocking(h, true)
    || ((p.Dialed? || p.Notifying?) && p.host == h && !(p.conn < |conns| && conns[p.conn]))
  }

  /** A getter past its own Connect can go on to the unflag before any other Connect on host h
      succeeds: it is through the flush, or finds Errors open, or somebody will renew Errors with
      an open connection. */
  predicate CanUnflag(s: State, p: Phase, h: nat) {
    || p == Unflagging(h)
    || (p == Draining(h) && h < |s.hosts| && (ErrorsOpen(s.hosts[h]) || !Spent(s, h)))
  }

  predicate Losable(s: State, h: nat) {
    exists d :: 0 <= d < |s.getters| && CanUnflag(s, s.getters[d].phase, h)
  }

  predicate Enabled(s: State, step: Step) {
    && |s.flagged| == |s.keeper| == |s.proved| == |s.raced| == |s.hosts|
    && match step
       case Do(g, a) => ActEnabled(s, g, a)
       case Sever(h, c) => h < |s.hosts| && c < |s.hosts[h].conns|
  }

  function Apply(s: State, step: Step): State
    requires Enabled(s, step)
  {
    match step
    case Do(g, a) =>
      var h := Target(s, g, a);
      var p := s.getters[g].phase;
      s.(getters := s.getters[g := Getter(NextPhase(p, h, s.hosts[h], s.flagged[h], a), if a.Take? then true
          else if a.Put? then false else s.getters[g].owns)],
         hosts := s.hosts[h := NextHost(p, s.hosts[h], g, a)],
         queue := if a.Take? then s.queue[1..] else if a.Put? then s.queue + [h] else s.queue,
         keeper := if a.Take? then s.keeper[h := Some(g)] else if a.Put? then s.keeper[h := None] else s.keeper,
         flagged := if a.Unflag? then s.flagged[h := false] else if a.Give? && a.flag then s.flagged[h := true]
             else s.flagged,
         proved := if a.Give? && a.flag then s.proved[h := false]
                   else if NextPhase(p, h, s.hosts[h], s.flagged[h], a).Draining? then s.proved[h := true]
                       else s.proved,
         raced := if a.Give? && a.flag then s.raced[h := Losable(s, h)] else s.raced)
    case Sever(h, c) => s.(hosts := s.hosts[h := s.hosts[h].(conns := s.hosts[h].conns[c := false])])
  }

  /** initializeConnections has dialled every host once; `getters` goroutines are about. */
  function Init(count: nat, getters: nat): State {
    State(seq(count, i => Host([true], 0, 0, None)), Numbers(count), seq(count, i => false),
          seq(getters, i => Getter(Away, false)), seq(count, i => None), seq(count, i => true), seq(count, i => false))
  }

  // ---------------------------------------------------------------- reconnecting

  /** The connection that the holder of connLock has dialled and not yet installed. */
  ghost predicate Pending(getters: seq<Getter>, lock: Option<nat>, h: nat, conn: nat) {
    lock.Some? && lock.value < |getters| && getters[lock.value].phase == Dialed(h, conn)
  }

  ghost predicate LockedBy(getters: seq<Getter>, x: nat, h: nat) {
    x < |getters| && HasLock(getters[x].phase) && getters[x].phase.host == h
  }

  /** Only the installed connection of a host can be open, or the one about to be installed. */
  ghost predicate OpenOk(host: Host, getters: seq<Getter>, h: nat) {
    && host.installed < |host.conns| && host.errors < |host.conns|
    && (host.lock == None ==> host.errors == host.installed)
    && (host.lock.Some? ==> LockedBy(getters, host.lock.value, h))
    && forall i :: 0 <= i < |host.conns| && host.conns[i] ==> i == host.installed || Pending(getters, host.lock, h, i)
  }

  /** What a getter that holds connLock relies on. */
  ghost predicate LockOk(hosts: seq<Host>, p: Phase, g: nat) {
    HasLock(p) ==> p.host < |hosts| && HolderOk(hosts[p.host], p, g)
  }

  ghost predicate HolderOk(host: Host, p: Phase, g: nat) {
    && host.lock == Some(g)
    && (p.Dialing? ==> forall i :: 0 <= i < |host.conns| ==> !host.conns[i])
    && (p.Notifying? ==> p.conn == host.installed && p.conn < |host.conns|)
    && (!p.Notifying? ==> host.errors == host.installed)
    && (p.Dialed? ==> p.conn < |host.conns| && p.conn != host.installed)
    && (p.Dialed? ==> forall i :: 0 <= i < |host.conns| && i != p.conn ==> !host.conns[i])
  }

  ghost predicate Locked(s: State) {
    && (forall h :: 0 <= h < |s.hosts| ==> OpenOk(s.hosts[h], s.getters, h))
    && (forall g :: 0 <= g < |s.getters| ==> LockOk(s.hosts, s.getters[g].phase, g))
  }

  /** The host and the getter right after the act. */
  lemma HolderNext(p: Phase, host: Host, getters: seq<Getter>, g: nat, a: Act, h: nat, flagged: bool, owns: bool)
    requires g < |getters| && getters[g].phase == p && OpenOk(host, getters, h)
    requires HasLock(p) ==> p.host == h && HolderOk(host, p, g)
    requires a.Lock? ==> p == Locking(h) && host.lock == None
    requires a.LookAgain? ==> p == Rechecking(h)
    requires a.Dial? ==> p == Dialing(h)
    requires a.Install? ==> p.Dialed?
    requires a.Notify? ==> p.Notifying?
    requires a.Unlock? ==> p.Unlocking?
    requires !(a.LookAgain? || a.Dial? || a.Install? || a.Notify? || a.Unlock?) ==> !HasLock(p)
    ensures var next := NextPhase(p, h, host, flagged, a); var later := NextHost(p, host, g, a);
      && (HasLock(next) ==> next.host == h && HolderOk(later, next, g))
      && OpenOk(later, getters[g := Getter(next, owns)], h)
  {
    var next := NextPhase(p, h, host, flagged, a);
    var later := NextHost(p, host, g, a);
    forall i | 0 <= i < |later.conns| && later.conns[i]
      ensures i == later.installed || Pending(getters[g := Getter(next, owns)], later.lock, h, i)
    {
      if i < |host.conns| { assert i == host.installed || Pending(getters, host.lock, h, i); }
    }
  }

  lemma DoLocked(s: State, g: nat, a: Act)
    requires Locked(s) && Enabled(s, Do(g, a))
    ensures Locked(Apply(s, Do(g, a)))
  {
    var t := Apply(s, Do(g, a));
    var h := Target(s, g, a);
    var p := s.getters[g].phase;
    assert LockOk(s.hosts, p, g) && OpenOk(s.hosts[h], s.getters, h);
    HolderNext(p, s.hosts[h], s.getters, g, a, h, s.flagged[h], t.getters[g].owns);
    forall d | 0 <= d < |t.getters| ensures LockOk(t.hosts, t.getters[d].phase, d) {
      assert LockOk(s.hosts, s.getters[d].phase, d);
    }
    forall k | 0 <= k < |t.hosts| ensures OpenOk(t.hosts[k], t.getters, k) {
      if k != h { OtherHostOpen(s, t, g, a, k); }
    }
  }

  lemma OtherHostOpen(s: State, t: State, g: nat, a: Act, k: nat)
    requires Locked(s) && Enabled(s, Do(g, a)) && t == Apply(s, Do(g, a)) && k < |s.hosts| && k != Target(s, g, a)
    ensures OpenOk(t.hosts[k], t.getters, k)
  {
    assert OpenOk(s.hosts[k], s.getters, k) && t.hosts[k] == s.hosts[k];
    forall i | 0 <= i < |t.hosts[k].conns| && t.hosts[k].conns[i]
      ensures i == t.hosts[k].installed || Pending(t.getters, t.hosts[k].lock, k, i)
    {
      assert i == s.hosts[k].installed || Pending(s.getters, s.hosts[k].lock, k, i);
    }
  }

  lemma SeverLocked(s: State, h: nat, c: nat)
    requires Locked(s) && Enabled(s, Sever(h, c))
    ensures Locked(Apply(s, Sever(h, c)))
  {
    var t := Apply(s, Sever(h, c));
    forall d | 0 <= d < |t.getters| ensures LockOk(t.hosts, t.getters[d].phase, d) {
      assert LockOk(s.hosts, s.getters[d].phase, d);
    }
    forall k | 0 <= k < |t.hosts| ensures OpenOk(t.hosts[k], t.getters, k) {
      assert OpenOk(s.hosts[k], s.getters, k);
    }
  }

  // ---------------------------------------------------------------- custody and flags

  /** The connection has been through a successful Connect since it was last returned with the
      flag set, or its return overlapped with the end of another recovery. */
  predicate Cleared(proved: seq<bool>, raced: seq<bool>, h: nat) {
    h < |proved| == |raced| && (proved[h] || raced[h])
  }

  /** Who owns what, and what an owner knows about the flag. */
  ghost predicate OwnerOk(g: nat, getter: Getter, keeper: seq<Option<nat>>, proved: seq<bool>, raced: seq<bool>) {
    && (getter.phase.Away? ==> !getter.owns)
    && (getter.phase.Putting? ==> getter.owns)
    && (getter.owns ==>
      && At(getter.phase).value < |keeper|
      && keeper[At(getter.phase).value] == Some(g)
      && (getter.phase.Using? ==> Cleared(proved, raced, getter.phase.host))
      && (getter.phase.Judging? && !getter.phase.bad ==> Cleared(proved, raced, getter.phase.host)))
  }

  /** What has not been cleared is flagged, and nobody can take the flag away. */
  ghost predicate FlagOk(s: State, h: nat) {
    h < |s.proved| == |s.raced| == |s.flagged| && !Cleared(s.proved, s.raced, h)
    ==> s.flagged[h] && !Losable(s, h)
  }

  ghost predicate Kept(s: State) {
    && |s.flagged| == |s.keeper| == |s.proved| == |s.raced| == |s.hosts|
    && PoolCustody.PoolOk(|s.hosts|, s.queue, s.keeper)
    && (forall g :: 0 <= g < |s.getters| ==> OwnerOk(g, s.getters[g], s.keeper, s.proved, s.raced))
    && (forall h :: 0 <= h < |s.hosts| && s.keeper[h].Some? ==> OwnedBy(s.getters, s.keeper[h].value, h))
    && (forall h: nat :: FlagOk(s, h))
  }

  ghost predicate OwnedBy(getters: seq<Getter>, g: nat, h: nat) {
    g < |getters| && getters[g].owns && At(getters[g].phase) == Some(h)
  }

  lemma DoQueue(s: State, g: nat, a: Act)
    requires Kept(s) && Enabled(s, Do(g, a))
    ensures var t := Apply(s, Do(g, a)); PoolCustody.PoolOk(|t.hosts|, t.queue, t.keeper)
  {
    var h := Target(s, g, a);
    assert OwnerOk(g, s.getters[g], s.keeper, s.proved, s.raced);
    if a.Take? { PoolCustody.PoolTake(|s.hosts|, s.queue, s.keeper, g); }
    if a.Put? { PoolCustody.PoolPut(|s.hosts|, s.queue, s.keeper, h); }
  }

  /** An act on host h, other than a successful Connect, lets no getter become able to unflag it. */
  lemma NoneCan(s: State, g: nat, a: Act, d: nat)
    requires Locked(s) && Enabled(s, Do(g, a)) && d < |s.getters|
    requires var h := Target(s, g, a); !Losable(s, h) && !Apply(s, Do(g, a)).getters[g].phase.Draining?
    ensures var h := Target(s, g, a); var t := Apply(s, Do(g, a)); !CanUnflag(t, t.getters[d].phase, h)
  {
    var h := Target(s, g, a);
    assert !CanUnflag(s, s.getters[d].phase, h) && !CanUnflag(s, s.getters[g].phase, h);
    assert LockOk(s.hosts, s.getters[g].phase, g) && OpenOk(s.hosts[h], s.getters, h);
  }

  lemma DoFlags(s: State, g: nat, a: Act, h: nat)
    requires Locked(s) && Kept(s) && Enabled(s, Do(g, a))
    ensures FlagOk(Apply(s, Do(g, a)), h)
  {
    var t := Apply(s, Do(g, a));
    assert FlagOk(s, h);
    if h < |s.hosts| && h == Target(s, g, a) && !Cleared(t.proved, t.raced, h) {
      forall d | 0 <= d < |t.getters| ensures !CanUnflag(t, t.getters[d].phase, h) { NoneCan(s, g, a, d); }
    } else if h < |s.hosts| && h != Target(s, g, a) && !Cleared(t.proved, t.raced, h) {
      forall d | 0 <= d < |t.getters| ensures !CanUnflag(t, t.getters[d].phase, h) { NoneCanElsewhere(s, g, a, d, h); }
    }
  }

  lemma NoneCanElsewhere(s: State, g: nat, a: Act, d: nat, h: nat)
    requires Locked(s) && Enabled(s, Do(g, a)) && d < |s.getters|
    requires h < |s.hosts| && h != Target(s, g, a) && !Losable(s, h)
    ensures var t := Apply(s, Do(g, a)); !CanUnflag(t, t.getters[d].phase, h)
  {
    assert !CanUnflag(s, s.getters[d].phase, h);
    assert OpenOk(s.hosts[h], s.getters, h);
  }

  /** Only its owner gives a connection back, so an owner's knowledge lasts. */
  lemma DoCleared(s: State, g: nat, a: Act, d: nat, h: nat)
    requires Kept(s) && Enabled(s, Do(g, a)) && d < |s.getters| && d != g
    requires s.getters[d].owns && At(s.getters[d].phase) == Some(h) && Cleared(s.proved, s.raced, h)
    ensures Cleared(Apply(s, Do(g, a)).proved, Apply(s, Do(g, a)).raced, h)
  {
    assert OwnerOk(g, s.getters[g], s.keeper, s.proved, s.raced) &&
        OwnerOk(d, s.getters[d], s.keeper, s.proved, s.raced);
  }

  lemma OtherOwner(s: State, g: nat, a: Act, d: nat)
    requires Kept(s) && Enabled(s, Do(g, a)) && d < |s.getters| && d != g
    ensures var t := Apply(s, Do(g, a)); OwnerOk(d, t.getters[d], t.keeper, t.proved, t.raced)
  {
    assert OwnerOk(d, s.getters[d], s.keeper, s.proved, s.raced) &&
        OwnerOk(g, s.getters[g], s.keeper, s.proved, s.raced);
    var p := s.getters[d].phase;
    if s.getters[d].owns && Cleared(s.proved, s.raced, At(p).value) { DoCleared(s, g, a, d, At(p).value); }
  }

  lemma ThisOwner(s: State, g: nat, a: Act)
    requires Kept(s) && Enabled(s, Do(g, a))
    ensures var t := Apply(s, Do(g, a)); OwnerOk(g, t.getters[g], t.keeper, t.proved, t.raced)
  {
    assert OwnerOk(g, s.getters[g], s.keeper, s.proved, s.raced) && FlagOk(s, Target(s, g, a));
    if a.Unflag? { assert CanUnflag(s, s.getters[g].phase, Target(s, g, a)); }
  }

  lemma DoKept(s: State, g: nat, a: Act)
    requires Locked(s) && Kept(s) && Enabled(s, Do(g, a))
    ensures Kept(Apply(s, Do(g, a)))
  {
    var t := Apply(s, Do(g, a));
    DoQueue(s, g, a);
    forall d | 0 <= d < |t.getters| ensures OwnerOk(d, t.getters[d], t.keeper, t.proved, t.raced) {
      if d == g { ThisOwner(s, g, a); } else { OtherOwner(s, g, a, d); }
    }
    forall h: nat ensures FlagOk(t, h) { DoFlags(s, g, a, h); }
    forall h | 0 <= h < |t.hosts| &&
        t.keeper[h].Some? ensures OwnedBy(t.getters, t.keeper[h].value, h) { DoOwned(s, g, a, h); }
  }

  lemma DoOwned(s: State, g: nat, a: Act, h: nat)
    requires Kept(s) && Enabled(s, Do(g, a)) && h < |s.hosts|
    ensures var t := Apply(s, Do(g, a)); t.keeper[h].Some? ==> OwnedBy(t.getters, t.keeper[h].value, h)
  {
    assert OwnerOk(g, s.getters[g], s.keeper, s.proved, s.raced);
    if s.keeper[h].Some? { assert OwnedBy(s.getters, s.keeper[h].value, h); }
  }

  lemma SeverKept(s: State, h: nat, c: nat)
    requires Kept(s) && Enabled(s, Sever(h, c))
    ensures Kept(Apply(s, Sever(h, c)))
  {
    var t := Apply(s, Sever(h, c));
    forall k: nat ensures FlagOk(t, k) {
      assert FlagOk(s, k);
      forall d | 0 <= d < |t.getters| && !Losable(s, k) ensures !CanUnflag(t, t.getters[d].phase, k) {
        assert !CanUnflag(s, s.getters[d].phase, k);
      }
    }
    forall k | 0 <= k < |t.hosts| && t.keeper[k].Some? ensures OwnedBy(t.getters, t.keeper[k].value, k) {
      assert OwnedBy(s.getters, s.keeper[k].value, k);
    }
  }

  // ---------------------------------------------------------------- every run

  ghost predicate Inv(s: State) {
    Locked(s) && Kept(s)
  }

  ghost predicate IsRun(s: State, steps: seq<Step>)
    decreases |steps|
  {
    steps == [] || (Enabled(s, steps[0]) && IsRun(Apply(s, steps[0]), steps[1..]))
  }

  ghost function After(s: State, steps: seq<Step>): State
    requires IsRun(s, steps)
    decreases |steps|
  {
    if steps == [] then s else After(Apply(s, steps[0]), steps[1..])
  }

  ghost predicate Reachable(count: nat, getters: nat, s: State) {
    exists steps: seq<Step> :: IsRun(Init(count, getters), steps) && After(Init(count, getters), steps) == s
  }

  lemma StepInv(s: State, step: Step)
    requires Inv(s) && Enabled(s, step)
    ensures Inv(Apply(s, step))
  {
    match step
    case Do(g, a) => DoLocked(s, g, a); DoKept(s, g, a);
    case Sever(h, c) => SeverLocked(s, h, c); SeverKept(s, h, c);
  }

  lemma {:induction false} RunInv(s: State, steps: seq<Step>)
    requires Inv(s) && IsRun(s, steps)
    ensures Inv(After(s, steps))
    decreases |steps|
  {
    if steps != [] {
      StepInv(s, steps[0]);
      RunInv(Apply(s, steps[0]), steps[1..]);
    }
  }

  lemma ReachableInv(count: nat, getters: nat, s: State)
    requires Reachable(count, getters, s)
    ensures Inv(s)
  {
    var init := Init(count, getters);
    var steps: seq<Step> :| IsRun(init, steps) && After(init, steps) == s;
    forall h | 0 <= h < count ensures h in init.queue { assert init.queue[h] == h; }
    RunInv(init, steps);
  }

  function ClosedCount(conns: seq<bool>): nat {
    if conns == [] then 0 else ClosedCount(conns[..|conns| - 1]) + if conns[|conns| - 1] then 0 else 1
  }

  lemma {:induction false} AllButOneClosed(conns: seq<bool>)
    requires forall i, j :: 0 <= i < j < |conns| ==> !(conns[i] && conns[j])
    ensures |conns| <= ClosedCount(conns) + 1
    ensures (forall i :: 0 <= i < |conns| ==> !conns[i]) ==> |conns| == ClosedCount(conns)
  {
    if conns != [] { AllButOneClosed(conns[..|conns| - 1]); }
  }

  /** However many goroutines reconnect a host at once, it never has two open connections, and
      it has dialled at most one more than it has seen closed. */
  lemma OneOpenConnection(count: nat, getters: nat, s: State, h: nat)
    requires Reachable(count, getters, s) && h < |s.hosts|
    ensures var conns := s.hosts[h].conns;
      && (forall i, j :: 0 <= i < j < |conns| ==> !(conns[i] && conns[j]))
      && |conns| <= ClosedCount(conns) + 1
  {
    ReachableInv(count, getters, s);
    var host := s.hosts[h];
    assert OpenOk(host, s.getters, h);
    if host.lock.Some? && host.lock.value < |s.getters| {
      assert LockOk(s.hosts, s.getters[host.lock.value].phase, host.lock.value);
    }
    AllButOneClosed(host.conns);
  }

  /** The connection that ConnectWithErrorHandler overwrites is closed, and so is every other
      one of that host, whatever closed or reconnected since the two looks. */
  lemma OverwritesClosed(count: nat, getters: nat, s: State, g: nat)
    requires Reachable(count, getters, s) && Enabled(s, Do(g, Install))
    ensures var p := s.getters[g].phase; var conns := s.hosts[p.host].conns;
      && s.hosts[p.host].installed != p.conn
      && forall i :: 0 <= i < |conns| && i != p.conn ==> !conns[i]
  {
    ReachableInv(count, getters, s);
    assert LockOk(s.hosts, s.getters[g].phase, g);
  }

  /** Every connection is in the queue or owned by exactly one getter. */
  lemma ConnectionsPartitioned(count: nat, getters: nat, s: State, h: nat)
    requires Reachable(count, getters, s) && h < |s.hosts|
    ensures multiset(s.queue)[h] + |set g: nat | g < |s.getters| && OwnedBy(s.getters, g, h)| == 1
  {
    ReachableInv(count, getters, s);
    CountOnce(s.queue, h);
    var owners := set g: nat | g < |s.getters| && OwnedBy(s.getters, g, h);
    forall g: nat | g in owners ensures s.keeper[h] == Some(g) {
      assert OwnerOk(g, s.getters[g], s.keeper, s.proved, s.raced);
    }
    if s.keeper[h].Some? {
      assert owners == {s.keeper[h].value};
    } else {
      assert owners == {};
    }
  }

  /** A connection that was returned with the flag set is not handed out again before some
      Connect on it has succeeded, unless a goroutine that was past its own Connect when the flag
      was set could still take it away. FlagRace.FlagLostExactly tells when that is. */
  lemma HandedOutCleared(count: nat, getters: nat, s: State, g: nat)
    requires Reachable(count, getters, s) && g < |s.getters|
    requires s.getters[g].phase.Using? && s.getters[g].owns
    ensures Cleared(s.proved, s.raced, s.getters[g].phase.host)
  {
    ReachableInv(count, getters, s);
    assert OwnerOk(g, s.getters[g], s.keeper, s.proved, s.raced);
  }

  // ---------------------------------------------------------------- what is seen before

  /** The step brings getter g into a phase p. */
  predicate Brings(s: State, step: Step, g: nat, p: Phase) {
    Enabled(s, step) && g < |s.getters| && s.getters[g].phase != p && Apply(s, step).getters[g].phase == p
  }

  /** A look that finds the installed connection open, with nothing wrong seen before, or the
      unflag that ends this getter's own recovery. */
  predicate FoundWell(s: State, step: Step, g: nat, h: nat) {
    g < |s.getters| && h < |s.hosts| &&
    var host := s.hosts[h];
    || (step == Do(g, Judge) && s.getters[g].phase == Judging(h, false) && host.installed < |host.conns| &&
        host.conns[host.installed])
    || (step == Do(g, Unflag) && s.getters[g].phase == Unflagging(h))
  }

  /** Exactly these hand a connection out. */
  lemma HandedOutOpen(s: State, step: Step, g: nat, h: nat)
    requires Enabled(s, step) && g < |s.getters| && h < |s.hosts|
    ensures Brings(s, step, g, Using(h)) <==> FoundWell(s, step, g, h)
  {
  }

  ghost predicate SomeFoundWell(s: State, steps: seq<Step>, g: nat, h: nat)
    requires IsRun(s, steps)
    decreases |steps|
  {
    steps != [] && (FoundWell(s, steps[0], g, h) || SomeFoundWell(Apply(s, steps[0]), steps[1..], g, h))
  }

  /** So in every run whoever uses a connection found it that way on the way there. */
  lemma {:induction false} HandedOutInRun(s: State, steps: seq<Step>, g: nat, h: nat)
    requires IsRun(s, steps) && h < |s.hosts| && g < |s.getters| && s.getters[g].phase != Using(h)
    requires g < |After(s, steps).getters| && After(s, steps).getters[g].phase == Using(h)
    ensures SomeFoundWell(s, steps, g, h)
    decreases |steps|
  {
    HandedOutOpen(s, steps[0], g, h);
    if !FoundWell(s, steps[0], g, h) { HandedOutInRun(Apply(s, steps[0]), steps[1..], g, h); }
  }

  /** Nothing wrong has been seen exactly if there was no error to receive and no flag. */
  lemma JudgedExactly(s: State, step: Step, g: nat, h: nat, bad: bool)
    requires Enabled(s, step) && g < |s.getters| && h < |s.hosts|
    ensures Brings(s, step, g, Judging(h, bad)) <==>
              s.getters[g].phase == Checking(h) && exists u :: step == Do(g, ReadFlag(u)) && bad == (u || s.flagged[h])
  {
    if Brings(s, step, g, Judging(h, bad)) { assert step == Do(g, ReadFlag(step.act.unhealthy)); }
  }

  /** A look at Errors and the flag that finds neither an error nor a flag. */
  predicate SawNothing(s: State, step: Step, g: nat, h: nat) {
    && g < |s.getters| && h < |s.flagged|
    && step == Do(g, ReadFlag(false)) && s.getters[g].phase == Checking(h) && !s.flagged[h]
  }

  ghost predicate SomeSawNothing(s: State, steps: seq<Step>, g: nat, h: nat)
    requires IsRun(s, steps)
    decreases |steps|
  {
    steps != [] && (SawNothing(s, steps[0], g, h) || SomeSawNothing(Apply(s, steps[0]), steps[1..], g, h))
  }

  /** And whoever has seen nothing wrong has looked and found neither. */
  lemma {:induction false} JudgedInRun(s: State, steps: seq<Step>, g: nat, h: nat)
    requires IsRun(s, steps) && h < |s.hosts| && g < |s.getters| && s.getters[g].phase != Judging(h, false)
    requires g < |After(s, steps).getters| && After(s, steps).getters[g].phase == Judging(h, false)
    ensures SomeSawNothing(s, steps, g, h)
    decreases |steps|
  {
    JudgedExactly(s, steps[0], g, h, false);
    if !SawNothing(s, steps[0], g, h) { JudgedInRun(Apply(s, steps[0]), steps[1..], g, h); }
  }

  /** A closed, flagged or failed connection is recovered first: every other look leads there. */
  lemma RecoveredExactly(s: State, g: nat)
    requires Enabled(s, Do(g, Judge))
    ensures var p, h := s.getters[g].phase, s.getters[g].phase.host;
      Apply(s, Do(g, Judge)).getters[g].phase == Connecting(h) <==>
        p == Judging(h, true) || !(s.hosts[h].installed < |s.hosts[h].conns| && s.hosts[h].conns[s.hosts[h].installed])
  {
  }

  /** A recovery goes on to the flush exactly when it finds the installed connection open, at the
      first look, or gives connLock up after a success. */
  lemma ConnectedExactly(s: State, step: Step, g: nat, h: nat)
    requires Enabled(s, step) && g < |s.getters| && h < |s.hosts|
    ensures Brings(s, step, g, Draining(h)) <==>
              || (step == Do(g, Look) && s.getters[g].phase == Connecting(h) &&
                  s.hosts[h].installed < |s.hosts[h].conns| && s.hosts[h].conns[s.hosts[h].installed])
              || (step == Do(g, Unlock) && s.getters[g].phase == Unlocking(h, true))
  {
  }

  /** Under connLock a success is the installed connection found open at the second look, or a new
      one that has been installed with its Errors channel. */
  lemma SucceededExactly(s: State, step: Step, g: nat, h: nat)
    requires Enabled(s, step) && g < |s.getters| && h < |s.hosts|
    ensures Brings(s, step, g, Unlocking(h, true)) <==>
              || (step == Do(g, LookAgain) && s.getters[g].phase == Rechecking(h) &&
                  s.hosts[h].installed < |s.hosts[h].conns| && s.hosts[h].conns[s.hosts[h].installed])
              || (step == Do(g, Notify) && s.getters[g].phase.Notifying? && s.getters[g].phase.host == h &&
                  Apply(s, step).hosts[h].errors == s.getters[g].phase.conn)
  {
  }

  /** The flag of host h changes only by a flagged return and by an unflag. */
  lemma FlagMoves(s: State, step: Step, h: nat)
    requires Enabled(s, step) && h < |s.hosts|
    ensures Apply(s, step).flagged[h] <==>
              || (step.Do? && step.act == Give(true) && s.getters[step.getter].phase == Using(h))
              || (s.flagged[h] && !(step.Do? && step.act == Unflag && s.getters[step.getter].phase == Unflagging(h)))
  {
  }

  /** The connections that getters put back, and those that they take. */
  ghost function PutBack(s: State, steps: seq<Step>): seq<nat>
    requires IsRun(s, steps)
    decreases |steps|
  {
    if steps == [] then []
    else (if steps[0].Do? && steps[0].act.Put? then [s.getters[steps[0].getter].phase.host] else [])
         + PutBack(Apply(s, steps[0]), steps[1..])
  }

  ghost function TakenOut(s: State, steps: seq<Step>): seq<nat>
    requires IsRun(s, steps)
    decreases |steps|
  {
    if steps == [] then []
    else var t := Apply(s, steps[0]);
      (if steps[0].Do? && steps[0].act.Take? then [t.getters[steps[0].getter].phase.host] else [])
      + TakenOut(t, steps[1..])
  }

  lemma Regroup(a: seq<nat>, put: seq<nat>, more: seq<nat>, taken: seq<nat>, b: seq<nat>, later: seq<nat>, c: seq<nat>)
    requires a + put == taken + b && b + more == later + c
    ensures a + (put + more) == (taken + later) + c
  {
    assert a + (put + more) == (a + put) + more == taken + (b + more);
  }

  /** The queue is first in, first out. */
  lemma {:induction false} QueueFifo(s: State, steps: seq<Step>)
    requires IsRun(s, steps)
    ensures s.queue + PutBack(s, steps) == TakenOut(s, steps) + After(s, steps).queue
    decreases |steps|
  {
    if steps != [] {
      var t, step := Apply(s, steps[0]), steps[0];
      var put := if step.Do? && step.act.Put? then [s.getters[step.getter].phase.host] else [];
      var taken := if step.Do? && step.act.Take? then [t.getters[step.getter].phase.host] else [];
      QueueFifo(t, steps[1..]);
      Regroup(s.queue, put, PutBack(t, steps[1..]), taken, t.queue, TakenOut(t, steps[1..]),
              After(t, steps[1..]).queue);
    }
  }

  /** A connection that the network closes, and no other one, is closed, and stays closed. */
  lemma SeveredOnly(s: State, h: nat, c: nat)
    requires Enabled(s, Sever(h, c))
    ensures var conns := Apply(s, Sever(h, c)).hosts[h].conns;
      && |conns| == |s.hosts[h].conns| && !conns[c]
      && forall i :: 0 <= i < |conns| && i != c ==> conns[i] == s.hosts[h].conns[i]
  {
  }

  lemma {:induction false} ClosedStays(s: State, steps: seq<Step>, h: nat, c: nat)
    requires IsRun(s, steps) && h < |s.hosts| && c < |s.hosts[h].conns| && !s.hosts[h].conns[c]
    ensures h < |After(s, steps).hosts| && c < |After(s, steps).hosts[h].conns| && !After(s, steps).hosts[h].conns[c]
    decreases |steps|
  {
    if steps != [] { ClosedStays(Apply(s, steps[0]), steps[1..], h, c); }
  }

  // ---------------------------------------------------------------- the flush of Errors

  /** A goroutine leaves the flush exactly by finding the Errors channel open. */
  lemma DrainLeaves(s: State, step: Step, g: nat)
    requires Enabled(s, step) && g < |s.getters| && s.getters[g].phase.Draining? && s.getters[g].phase.host < |s.hosts|
    ensures g < |Apply(s, step).getters|
    ensures !Apply(s, step).getters[g].phase.Draining? <==>
            step == Do(g, Drain) && ErrorsOpen(s.hosts[s.getters[g].phase.host])
    ensures Apply(s, step).getters[g].phase.Draining? ==> Apply(s, step).getters[g] == s.getters[g]
  {
  }

  /** A goroutine installs the Errors channel of a new connection of host h. */
  predicate Renews(s: State, step: Step, h: nat) {
    step.Do? && step.act.Notify? && step.getter < |s.getters| && At(s.getters[step.getter].phase) == Some(h)
  }

  ghost predicate NobodyRenews(s: State, steps: seq<Step>, h: nat)
    requires IsRun(s, steps)
    decreases |steps|
  {
    steps == [] || (!Renews(s, steps[0], h) && NobodyRenews(Apply(s, steps[0]), steps[1..], h))
  }

  lemma ErrorsStayClosed(s: State, step: Step, h: nat)
    requires Locked(s) && Enabled(s, step) && h < |s.hosts| && !ErrorsOpen(s.hosts[h]) && !Renews(s, step, h)
    ensures h < |Apply(s, step).hosts| && !ErrorsOpen(Apply(s, step).hosts[h])
  {
    assert OpenOk(s.hosts[h], s.getters, h);
  }

  /** If the connection is closed again before the flush, the goroutine stays in it until another
      one has reconnected the host. */
  lemma {:induction false} DrainStays(s: State, steps: seq<Step>, g: nat)
    requires Inv(s) && IsRun(s, steps) && g < |s.getters| && s.getters[g].phase.Draining?
    requires s.getters[g].phase.host < |s.hosts|
    requires var h := s.getters[g].phase.host; !ErrorsOpen(s.hosts[h]) && NobodyRenews(s, steps, h)
    ensures g < |After(s, steps).getters| && After(s, steps).getters[g] == s.getters[g]
    decreases |steps|
  {
    if steps != [] {
      DrainLeaves(s, steps[0], g);
      ErrorsStayClosed(s, steps[0], s.getters[g].phase.host);
      StepInv(s, steps[0]);
      DrainStays(Apply(s, steps[0]), steps[1..], g);
    }
  }
}
