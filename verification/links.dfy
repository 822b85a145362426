/** The connections of the pool: every one is in the queue or with a transient call that is
  opening its channel. */
module LinkCustody {
  import opened Machine
  import opened PoolCustody
  import opened LetterConservation

  /** There is a connection, and every cached channel is on one. */
  predicate WellWired(cfg: Config) {
    cfg.linkCount > 0 && forall h :: 0 <= h < |cfg.wires| ==> cfg.wires[h] < cfg.linkCount
  }

  function KeepsLink(call: Call): nat {
    One(call.job.Transient? && HoldsLink(call.phase))
  }

  function LinkHolders(calls: seq<Call>): nat {
    if calls == [] then 0 else LinkHolders(calls[..|calls| - 1]) + KeepsLink(calls[|calls| - 1])
  }

  lemma {:induction false} HoldersUpdate(calls: seq<Call>, c: nat, call: Call)
    requires c < |calls|
    ensures LinkHolders(calls[c := call]) + KeepsLink(calls[c]) == LinkHolders(calls) + KeepsLink(call)
  {
    var last := |calls| - 1;
    if c == last {
      assert calls[c := call][..last] == calls[..last];
    } else {
      HoldersUpdate(calls[..last], c, call);
      assert calls[c := call][..last] == calls[..last][c := call];
    }
  }

  lemma HoldersAppend(calls: seq<Call>, call: Call)
    ensures LinkHolders(calls + [call]) == LinkHolders(calls) + KeepsLink(call)
  {
    assert (calls + [call])[..|calls|] == calls;
  }

  ghost function HolderSet(calls: seq<Call>): set<nat> {
    set c: nat | c < |calls| && KeepsLink(calls[c]) == 1
  }

  lemma {:induction false} HolderSize(calls: seq<Call>)
    ensures |HolderSet(calls)| == LinkHolders(calls)
  {
    if calls != [] {
      var last := |calls| - 1;
      HolderSize(calls[..last]);
      assert HolderSet(calls) == HolderSet(calls[..last]) + if KeepsLink(calls[last]) == 1 then {last} else {};
    }
  }

  ghost predicate LinksOk(cfg: Config, s: State) {
    && |s.links| == cfg.linkCount && |s.wires| == |s.hosts|
    && (forall h :: 0 <= h < |s.wires| ==> s.wires[h] < cfg.linkCount)
    && (forall i :: 0 <= i < |s.free| ==> s.free[i] < cfg.linkCount)
    && |s.free| + LinkHolders(s.calls) == cfg.linkCount
  }

  lemma InitLinks(cfg: Config, retry: seq<nat>)
    requires WellWired(cfg)
    ensures LinksOk(cfg, Init(cfg, retry))
  {
  }

  /** What an act does to the queue of connections. */
  lemma NextKeeps(call: Call, v: View, a: Act)
    requires Fits(call) && CanDo(call, v, a)
    ensures KeepsLink(NextCall(call, v, a)) + One(a.Remake? &&
              call.job.Transient?) == KeepsLink(call) + One(a.TakeLink?)
  {
  }

  lemma DoWires(cfg: Config, s: State, c: nat, a: Act)
    requires LinksOk(cfg, s) && ActEnabled(cfg, s, c, a)
    ensures var t := Perform(cfg, s, c, a);
      && |t.links| == cfg.linkCount && |t.wires| == |t.hosts|
      && forall h :: 0 <= h < |t.wires| ==> t.wires[h] < cfg.linkCount
  {
  }

  lemma DoFree(cfg: Config, s: State, c: nat, a: Act)
    requires Custody(cfg, s) && LinksOk(cfg, s) && ActEnabled(cfg, s, c, a)
    ensures var free := NextFree(s, c, a);
      && |free| + One(a.TakeLink?) == |s.free| + One(a.Remake? && s.calls[c].job.Transient?)
      && forall i :: 0 <= i < |free| ==> free[i] < cfg.linkCount
  {
    var p := s.calls[c].phase;
    if HostOf(p).Some? { assert Holds(s.calls, c, HostOf(p).value); }
  }

  lemma DoLinks(cfg: Config, s: State, c: nat, a: Act)
    requires Custody(cfg, s) && LinksOk(cfg, s) && ActEnabled(cfg, s, c, a)
    ensures LinksOk(cfg, Perform(cfg, s, c, a))
  {
    var call, v := s.calls[c], ViewOf(s, s.calls[c].phase);
    DoWires(cfg, s, c, a);
    DoFree(cfg, s, c, a);
    NextKeeps(call, v, a);
    HoldersUpdate(s.calls, c, NextCall(call, v, a));
  }

  lemma OtherLinks(cfg: Config, s: State, step: Step)
    requires Enabled(cfg, s, step) && !step.Do?
    ensures |Apply(cfg, s, step).links| == |s.links|
  {
  }

  lemma StepLinks(cfg: Config, s: State, step: Step)
    requires Custody(cfg, s) && LinksOk(cfg, s) && Enabled(cfg, s, step)
    ensures LinksOk(cfg, Apply(cfg, s, step))
  {
    if step.Do? {
      DoLinks(cfg, s, step.call, step.act);
    } else {
      OtherLinks(cfg, s, step);
      OtherHosts(cfg, s, step);
      OtherWires(cfg, s, step);
      OtherFree(cfg, s, step);
      OtherCalls(cfg, s, step);
      if NewCalls(s, step) == [] {
        assert s.calls + NewCalls(s, step) == s.calls;
      } else {
        HoldersAppend(s.calls, NewCalls(s, step)[0]);
      }
    }
  }
}
