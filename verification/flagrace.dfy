/** When the unhealthy flag of a returned connection is lost: the exact condition, for every reachable
  state, and a concrete run in which the connection is then handed out again although no Connect on
  it has succeeded since, so that the exception of Connections.HandedOutCleared cannot be dropped. */
module FlagRace {
  import opened Connections
  import opened Common

  lemma {:induction false} RunAppend(s: State, steps: seq<Step>, step: Step)
    requires IsRun(s, steps) && Enabled(After(s, steps), step)
    ensures IsRun(s, steps + [step]) && After(s, steps + [step]) == Apply(After(s, steps), step)
    decreases |steps|
  {
    if steps == [] {
      assert [step][1..] == [];
    } else {
      assert (steps + [step])[1..] == steps[1..] + [step];
      RunAppend(Apply(s, steps[0]), steps[1..], step);
    }
  }

  // ---------------------------------------------------------------- how the flag is lost

  /** Somebody returns host h with the flag set. */
  predicate Flags(s: State, step: Step, h: nat) {
    step.Do? && step.act == Give(true) && step.getter < |s.getters| && At(s.getters[step.getter].phase) == Some(h)
  }

  ghost predicate NobodyFlags(s: State, steps: seq<Step>, h: nat)
    requires IsRun(s, steps)
    decreases |steps|
  {
    steps == [] || (!Flags(s, steps[0], h) && NobodyFlags(Apply(s, steps[0]), steps[1..], h))
  }

  /** t is reached from s without another flagged return of host h. */
  ghost predicate Leads(s: State, h: nat, t: State) {
    exists steps: seq<Step> :: IsRun(s, steps) && NobodyFlags(s, steps, h) && After(s, steps) == t
  }

  /** Host h carries no flag although no Connect on it has succeeded since it was set. */
  predicate FlagLost(t: State, h: nat) {
    h < |t.flagged| == |t.proved| && !t.flagged[h] && !t.proved[h]
  }

  lemma {:induction false} NobodyFlagsOn(s: State, steps: seq<Step>, step: Step, h: nat)
    requires IsRun(s, steps) && NobodyFlags(s, steps, h)
    requires Enabled(After(s, steps), step) && !Flags(After(s, steps), step, h)
    ensures IsRun(s, steps + [step]) && NobodyFlags(s, steps + [step], h)
    decreases |steps|
  {
    RunAppend(s, steps, step);
    if steps == [] {
      assert [step][1..] == [];
    } else {
      assert (steps + [step])[1..] == steps[1..] + [step];
      NobodyFlagsOn(Apply(s, steps[0]), steps[1..], step, h);
    }
  }

  lemma OneMore(u: State, h: nat, s: State, step: Step)
    requires Leads(u, h, s) && Enabled(s, step) && !Flags(s, step, h)
    ensures Leads(u, h, Apply(s, step))
  {
    var steps: seq<Step> :| IsRun(u, steps) && NobodyFlags(u, steps, h) && After(u, steps) == s;
    NobodyFlagsOn(u, steps, step, h);
    RunAppend(u, steps, step);
  }

  /** Getter x is in phase p at host h; getter d, another one, waits in the flush; no Connect has
      succeeded. */
  predicate Scene(s: State, h: nat, host: Host, x: nat, p: Phase, d: nat) {
    && |s.flagged| == |s.keeper| == |s.proved| == |s.raced| == |s.hosts|
    && h < |s.hosts| && s.hosts[h] == host && !s.proved[h]
    && x < |s.getters| && s.getters[x].phase == p
    && d < |s.getters| && d != x && s.getters[d].phase == Draining(h)
  }

  /** One act of x that is no return and leads to no success. */
  lemma Goes(u: State, s: State, h: nat, host: Host, x: nat, p: Phase, d: nat, a: Act) returns (t: State)
    requires Leads(u, h, s) && Scene(s, h, host, x, p, d) && ActEnabled(s, x, a) && Target(s, x, a) == h
    requires a != Give(true) && !NextPhase(p, h, host, s.flagged[h], a).Draining?
    ensures Leads(u, h, t) && Scene(t, h, NextHost(p, host, x, a), x, NextPhase(p, h, host, s.flagged[h], a), d)
  {
    OneMore(u, h, s, Do(x, a));
    t := Apply(s, Do(x, a));
  }

  /** d is past the flush. */
  lemma LastUnflag(u: State, s: State, h: nat, d: nat) returns (t: State)
    requires Leads(u, h, s) && |s.flagged| == |s.keeper| == |s.proved| == |s.raced| == |s.hosts| && h < |s.hosts|
    requires d < |s.getters| && s.getters[d].phase == Unflagging(h) && !s.proved[h]
    ensures Leads(u, h, t) && FlagLost(t, h)
  {
    OneMore(u, h, s, Do(d, Unflag));
    t := Apply(s, Do(d, Unflag));
  }

  /** d finds Errors open. */
  lemma LastDrain(u: State, s: State, h: nat, d: nat) returns (t: State)
    requires Leads(u, h, s) && |s.flagged| == |s.keeper| == |s.proved| == |s.raced| == |s.hosts| && h < |s.hosts|
    requires d < |s.getters| && s.getters[d].phase == Draining(h) && !s.proved[h] && ErrorsOpen(s.hosts[h])
    ensures Leads(u, h, t) && FlagLost(t, h)
  {
    OneMore(u, h, s, Do(d, Drain));
    t := LastUnflag(u, Apply(s, Do(d, Drain)), h, d);
  }

  /** x renews Errors with an open connection, and d leaves the flush before x is done. */
  lemma AfterInstalled(u: State, s: State, h: nat, host: Host, x: nat, conn: nat, d: nat) returns (t: State)
    requires Leads(u, h, s) && Scene(s, h, host, x, Notifying(h, conn), d) && conn < |host.conns| && host.conns[conn]
    ensures Leads(u, h, t) && FlagLost(t, h)
  {
    t := Goes(u, s, h, host, x, Notifying(h, conn), d, Notify);
    t := LastDrain(u, t, h, d);
  }

  lemma AfterDialed(u: State, s: State, h: nat, host: Host, x: nat, conn: nat, d: nat) returns (t: State)
    requires Leads(u, h, s) && Scene(s, h, host, x, Dialed(h, conn), d) && conn < |host.conns| && host.conns[conn]
    ensures Leads(u, h, t) && FlagLost(t, h)
  {
    t := Goes(u, s, h, host, x, Dialed(h, conn), d, Install);
    t := AfterInstalled(u, t, h, host.(installed := conn), x, conn, d);
  }

  lemma FromDialing(u: State, s: State, h: nat, host: Host, x: nat, d: nat) returns (t: State)
    requires Leads(u, h, s) && Scene(s, h, host, x, Dialing(h), d)
    ensures Leads(u, h, t) && FlagLost(t, h)
  {
    t := Goes(u, s, h, host, x, Dialing(h), d, Dial(true));
    t := AfterDialed(u, t, h, host.(conns := host.conns + [true]), x, |host.conns|, d);
  }

  lemma FromLock(u: State, s: State, h: nat, host: Host, x: nat, d: nat) returns (t: State)
    requires Leads(u, h, s) && Scene(s, h, host, x, Rechecking(h), d) && !InstalledOpen(host)
    ensures Leads(u, h, t) && FlagLost(t, h)
  {
    t := Goes(u, s, h, host, x, Rechecking(h), d, LookAgain);
    t := FromDialing(u, t, h, host, x, d);
  }

  /** connLock is free. */
  lemma FromConnect(u: State, s: State, h: nat, host: Host, x: nat, d: nat) returns (t: State)
    requires Leads(u, h, s) && Scene(s, h, host, x, Connecting(h), d) && !InstalledOpen(host) && host.lock == None
    ensures Leads(u, h, t) && FlagLost(t, h)
  {
    t := Goes(u, s, h, host, x, Connecting(h), d, Look);
    t := Goes(u, t, h, host, x, Locking(h), d, Lock);
    t := FromLock(u, t, h, host.(lock := Some(x)), x, d);
  }

  /** The getter that returned it borrows it through a channel host and has an error to report. */
  lemma FromReturn(u: State, s: State, h: nat, host: Host, x: nat, d: nat) returns (t: State)
    requires Leads(u, h, s) && Scene(s, h, host, x, Putting(h), d) && s.getters[x].owns
    requires !InstalledOpen(host) && host.lock == None
    ensures Leads(u, h, t) && FlagLost(t, h)
  {
    t := Goes(u, s, h, host, x, Putting(h), d, Put);
    t := Goes(u, t, h, host, x, Away, d, Borrow(h));
    t := Goes(u, t, h, host, x, Checking(h), d, ReadFlag(true));
    t := Goes(u, t, h, host, x, Judging(h, true), d, Judge);
    t := FromConnect(u, t, h, host, x, d);
  }

  /** Errors is closed, and the holder of connLock, if any, can still renew it. */
  lemma Renewed(u: State, s: State, h: nat, g: nat, d: nat) returns (t: State)
    requires Leads(u, h, s) && Locked(s) && h < |s.hosts| && Scene(s, h, s.hosts[h], g, Putting(h), d)
    requires s.getters[g].owns
    requires !ErrorsOpen(s.hosts[h]) && !Spent(s, h)
    ensures Leads(u, h, t) && FlagLost(t, h)
  {
    var host := s.hosts[h];
    assert OpenOk(host, s.getters, h);
    if host.lock == None {
      t := FromReturn(u, s, h, host, g, d);
    } else {
      var x := host.lock.value;
      var p := s.getters[x].phase;
      assert LockedBy(s.getters, x, h) && LockOk(s.hosts, p, x);
      match p {
        case Rechecking(_) => t := FromLock(u, s, h, host, x, d);
        case Dialing(_) => t := FromDialing(u, s, h, host, x, d);
        case Dialed(_, conn) => t := AfterDialed(u, s, h, host, x, conn, d);
        case Notifying(_, conn) => t := AfterInstalled(u, s, h, host, x, conn, d);
        case Unlocking(_, _) =>
          t := Goes(u, s, h, host, x, p, d, Unlock);
          t := FromConnect(u, t, h, host.(lock := None), x, d);
      }
    }
  }

  /** Right after the flagged return. */
  lemma Loses(s: State, h: nat, g: nat) returns (t: State)
    requires Inv(s) && |s.flagged| == |s.hosts| && h < |s.hosts| && !s.proved[h] && Losable(s, h)
    requires g < |s.getters| && s.getters[g] == Getter(Putting(h), true)
    ensures Leads(s, h, t) && FlagLost(t, h)
  {
    assert IsRun(s, []) && NobodyFlags(s, [], h) && After(s, []) == s;
    var d :| 0 <= d < |s.getters| && CanUnflag(s, s.getters[d].phase, h);
    if s.getters[d].phase.Unflagging? {
      t := LastUnflag(s, s, h, d);
    } else if ErrorsOpen(s.hosts[h]) {
      t := LastDrain(s, s, h, d);
    } else {
      t := Renewed(s, s, h, g, d);
    }
  }

  // ---------------------------------------------------------------- when it cannot be lost

  lemma {:induction false} RacedStays(s: State, steps: seq<Step>, h: nat)
    requires IsRun(s, steps) && NobodyFlags(s, steps, h) && h < |s.raced|
    ensures h < |After(s, steps).raced| && After(s, steps).raced[h] == s.raced[h]
    decreases |steps|
  {
    if steps != [] { RacedStays(Apply(s, steps[0]), steps[1..], h); }
  }

  /** When its owner returns a connection with the flag set, the flag can be lost, that is removed
      before the next success of a Connect on it, if and only if some goroutine is then past its
      own Connect and not past the unflag, and is not held up in the flush for good: it is through
      the flush, or finds Errors open, or somebody can still renew Errors with an open connection. */
  lemma FlagLostExactly(count: nat, getters: nat, s: State, g: nat)
    requires Reachable(count, getters, s) && Enabled(s, Do(g, Give(true)))
    ensures var h := s.getters[g].phase.host;
      Losable(s, h) <==> exists t :: Leads(Apply(s, Do(g, Give(true))), h, t) && FlagLost(t, h)
  {
    ReachableInv(count, getters, s);
    var u := Apply(s, Do(g, Give(true)));
    var h := s.getters[g].phase.host;
    StepInv(s, Do(g, Give(true)));
    if Losable(s, h) {
      var d :| 0 <= d < |s.getters| && CanUnflag(s, s.getters[d].phase, h);
      assert CanUnflag(u, u.getters[d].phase, h);
      var t := Loses(u, h, g);
    } else {
      forall t | Leads(u, h, t) ensures !FlagLost(t, h) {
        var steps: seq<Step> :| IsRun(u, steps) && NobodyFlags(u, steps, h) && After(u, steps) == t;
        RacedStays(u, steps, h);
        RunInv(u, steps);
        assert FlagOk(t, h);
      }
    }
  }

  // ---------------------------------------------------------------- and then handed out

  lemma Reach(s: State, step: Step, t: State)
    requires Reachable(1, 2, s) && Enabled(s, step) && Apply(s, step) == t
    ensures Reachable(1, 2, t)
  {
    var steps: seq<Step> :| IsRun(Init(1, 2), steps) && After(Init(1, 2), steps) == s;
    RunAppend(Init(1, 2), steps, step);
  }

  /** One connection, open all the time; getter 0 owns it while `kept`, getter 1 borrows it. */
  function Two(kept: bool, flagged: bool, p0: Phase, p1: Phase, proved: bool, raced: bool): State {
    State([Host([true], 0, 0, None)], if kept then [] else [0], [flagged], [Getter(p0, kept), Getter(p1, false)],
          [if kept then Some(0) else None], [proved], [raced])
  }

  /** Getter 0 takes the connection and finds it in order. */
  lemma Takes(p1: Phase, proved: bool, raced: bool)
    requires Reachable(1, 2, Two(false, false, Away, p1, proved, raced))
    ensures Reachable(1, 2, Two(true, false, Using(0), p1, proved, raced))
  {
    Reach(Two(false, false, Away, p1, proved, raced), Do(0, Take), Two(true, false, Checking(0), p1, proved, raced));
    Reach(Two(true, false, Checking(0), p1, proved, raced), Do(0, ReadFlag(false)),
        Two(true, false, Judging(0, false), p1, proved, raced));
    Reach(Two(true, false, Judging(0, false), p1, proved, raced), Do(0, Judge),
        Two(true, false, Using(0), p1, proved, raced));
  }

  /** Getter 1, which borrows it, reads an error, so it goes to reconnect. */
  lemma Doubts()
    requires Reachable(1, 2, Two(true, false, Using(0), Away, true, false))
    ensures Reachable(1, 2, Two(true, false, Using(0), Connecting(0), true, false))
  {
    Reach(Two(true, false, Using(0), Away, true, false), Do(1, Borrow(0)),
        Two(true, false, Using(0), Checking(0), true, false));
    Reach(Two(true, false, Using(0), Checking(0), true, false), Do(1, ReadFlag(true)),
        Two(true, false, Using(0), Judging(0, true), true, false));
    Reach(Two(true, false, Using(0), Judging(0, true), true, false), Do(1, Judge),
        Two(true, false, Using(0), Connecting(0), true, false));
  }

  /** It finds the connection open. */
  lemma Recovers()
    requires Reachable(1, 2, Two(true, false, Using(0), Connecting(0), true, false))
    ensures Reachable(1, 2, Two(true, false, Using(0), Unflagging(0), true, false))
  {
    Reach(Two(true, false, Using(0), Connecting(0), true, false), Do(1, Look),
        Two(true, false, Using(0), Draining(0), true, false));
    Reach(Two(true, false, Using(0), Draining(0), true, false), Do(1, Drain),
        Two(true, false, Using(0), Unflagging(0), true, false));
  }

  /** Getter 0 sets the flag meanwhile. */
  lemma SetsFlag()
    requires Reachable(1, 2, Two(true, false, Using(0), Unflagging(0), true, false))
    ensures Reachable(1, 2, Two(true, true, Putting(0), Unflagging(0), false, true))
  {
    var s := Two(true, false, Using(0), Unflagging(0), true, false);
    assert Losable(s, 0) by { assert CanUnflag(s, s.getters[1].phase, 0); }
    Reach(Two(true, false, Using(0), Unflagging(0), true, false), Do(0, Give(true)),
        Two(true, true, Putting(0), Unflagging(0), false, true));
  }

  lemma Puts()
    requires Reachable(1, 2, Two(true, true, Putting(0), Unflagging(0), false, true))
    ensures Reachable(1, 2, Two(false, true, Away, Unflagging(0), false, true))
  {
    var none: seq<nat> := [];
    assert none + [0] == [0];
    Reach(Two(true, true, Putting(0), Unflagging(0), false, true), Do(0, Put),
        Two(false, true, Away, Unflagging(0), false, true));
  }

  /** Getter 1 removes it. */
  lemma Unflags()
    requires Reachable(1, 2, Two(false, true, Away, Unflagging(0), false, true))
    ensures Reachable(1, 2, Two(false, false, Away, Using(0), false, true))
  {
    Reach(Two(false, true, Away, Unflagging(0), false, true), Do(1, Unflag),
        Two(false, false, Away, Using(0), false, true));
  }

  /** So the flag is lost: the connection is handed out, and nobody has connected it since. */
  lemma HandedOutUncleared() returns (s: State)
    ensures Reachable(1, 2, s) && s == Two(true, false, Using(0), Using(0), false, true)
  {
    assert IsRun(Init(1, 2), []) && After(Init(1, 2), []) == Init(1, 2);
    assert Init(1, 2) == Two(false, false, Away, Away, true, false);
    Takes(Away, true, false);
    Doubts();
    Recovers();
    SetsFlag();
    Puts();
    Unflags();
    Takes(Using(0), false, true);
    s := Two(true, false, Using(0), Using(0), false, true);
  }
}
