/** A concrete run in which a success receipt is false, so that the condition of
  Guarantees.SuccessAttribution cannot be dropped. */
module StaleConfirm {
  import opened Streams
  import opened Machine
  import opened Common

  lemma {:induction false} RunAppend(cfg: Config, s: State, steps: seq<Step>, step: Step)
    requires IsRun(cfg, s, steps) && Enabled(cfg, After(cfg, s, steps), step)
    ensures IsRun(cfg, s, steps + [step])
    ensures After(cfg, s, steps + [step]) == Apply(cfg, After(cfg, s, steps), step)
    decreases |steps|
  {
    if steps == [] {
      assert [step][1..] == [];
    } else {
      assert (steps + [step])[1..] == steps[1..] + [step];
      RunAppend(cfg, Apply(cfg, s, steps[0]), steps[1..], step);
    }
  }

  lemma Reach(cfg: Config, retry: seq<nat>, s: State, step: Step)
    requires Reachable(cfg, retry, s) && Enabled(cfg, s, step)
    ensures Reachable(cfg, retry, Apply(cfg, s, step))
  {
    var steps: seq<Step> :| IsRun(cfg, Init(cfg, retry), steps) && After(cfg, Init(cfg, retry), steps) == s;
    RunAppend(cfg, Init(cfg, retry), steps, step);
  }

  /** A set of states that no step leaves. */
  ghost predicate Inductive(cfg: Config, inv: State -> bool) {
    forall s, step :: inv(s) && Enabled(cfg, s, step) ==> inv(Apply(cfg, s, step))
  }

  /** One cached channel, on stream 0, and two letters. */
  ghost predicate At(s: State, pool: seq<nat>, st: Stream, calls: seq<Call>) {
    && s.pool == pool && s.hosts == [0] && s.streams == [st] && s.calls == calls
    && |s.log.keeper| == 1 && |s.retry| == 2 && s.links == [true] && s.wires == [0] && s.free == [0]
  }

  function ViewAt(pool: seq<nat>, st: Stream, p: Phase): View {
    View(if HostOf(p).Some? then st else Fresh(), 0, HostOf(p).Some?, if pool == [] then None
        else Some(pool[0]), Some(1))
  }

  lemma StartAt(cfg: Config, s: State, pool: seq<nat>, st: Stream, calls: seq<Call>, job: Job)
    requires At(s, pool, st, calls) && job.Confirm? && job.letter < 2 && !job.auto
    ensures Enabled(cfg, s, Start(job))
    ensures At(Apply(cfg, s, Start(job)), pool, st, calls + [Call(job, Seeking, Undecided)])
  {
  }

  lemma DoAt(cfg: Config, s: State, pool: seq<nat>, st: Stream, calls: seq<Call>, c: nat, a: Act)
    requires At(s, pool, st, calls) && c < |calls| && cfg.channelCount == 1
    requires var h := HostOf(calls[c].phase); h == None || h == Some(0)
    requires CanDo(calls[c], ViewAt(pool, st, calls[c].phase), a) && !a.Remake? && !a.Release? && !a.TakeLink?
    requires if calls[c].phase.Seeking? then pool == [0] else pool == []
    ensures Enabled(cfg, s, Do(c, a))
    ensures At(Perform(cfg, s, c, a),
               if a.Acquire? then [] else if a.PutBack? then [0] else pool,
               if HostOf(calls[c].phase).Some? then NextStream(st, c, a) else st,
               calls[c := NextCall(calls[c], ViewAt(pool, st, calls[c].phase), a)])
  {
    assert ViewOf(s, calls[c].phase) == ViewAt(pool, st, calls[c].phase);
  }

  lemma GoTo(cfg: Config, s: State, pool: seq<nat>, st: Stream, calls: seq<Call>, c: nat, a: Act, inv: State -> bool,
             pool': seq<nat>, st': Stream, calls': seq<Call>) returns (t: State)
    requires Inductive(cfg, inv) && inv(s) && At(s, pool, st, calls) && c < |calls| && cfg.channelCount == 1
    requires var h := HostOf(calls[c].phase); h == None || h == Some(0)
    requires CanDo(calls[c], ViewAt(pool, st, calls[c].phase), a) && !a.Remake? && !a.Release? && !a.TakeLink?
    requires if calls[c].phase.Seeking? then pool == [0] else pool == []
    requires pool' == if a.Acquire? then [] else if a.PutBack? then [0] else pool
    requires st' == if HostOf(calls[c].phase).Some? then NextStream(st, c, a) else st
    requires calls' == calls[c := NextCall(calls[c], ViewAt(pool, st, calls[c].phase), a)]
    ensures inv(t) && At(t, pool', st', calls')
  {
    DoAt(cfg, s, pool, st, calls, c, a);
    t := Apply(cfg, s, Do(c, a));
  }

  /** The first call publishes. */
  lemma FirstPublishes(cfg: Config, s: State, inv: State -> bool) returns (t: State)
    requires cfg.channelCount == 1 && Inductive(cfg, inv) && inv(s) && At(s, [0], Fresh(), [])
    ensures inv(t)
    ensures At(t, [], Stream([0], [], 0, true, false), [Call(Confirm(0, false), Waiting(0, 1, 0), Undecided)])
  {
    var job := Confirm(0, false);
    var sent := Stream([0], [], 0, true, false);
    StartAt(cfg, s, [0], Fresh(), [], job);
    t := Apply(cfg, s, Start(job));
    assert [] + [Call(job, Seeking, Undecided)] == [Call(job, Seeking, Undecided)];
    t := GoTo(cfg, t, [0], Fresh(), [Call(job, Seeking, Undecided)], 0, Acquire, inv, [], Fresh(),
        [Call(job, Flushing(0), Undecided)]);
    t := GoTo(cfg, t, [], Fresh(), [Call(job, Flushing(0), Undecided)], 0, Flush(false), inv, [], Fresh(),
        [Call(job, Publishing(0, 0, 0), Undecided)]);
    t := GoTo(cfg, t, [], Fresh(), [Call(job, Publishing(0, 0, 0), Undecided)], 0, Publish(true), inv, [], sent,
        [Call(job, Waiting(0, 1, 0), Undecided)]);
  }

  /** It waits in vain and gives the channel back. */
  lemma FirstTimesOut(cfg: Config, s: State, inv: State -> bool) returns (t: State)
    requires cfg.channelCount == 1 && Inductive(cfg, inv) && inv(s)
    requires At(s, [], Stream([0], [], 0, true, false), [Call(Confirm(0, false), Waiting(0, 1, 0), Undecided)])
    ensures inv(t)
    ensures At(t, [0], Stream([0], [], 0, true, true), [Call(Confirm(0, false), Finished, Failed)])
  {
    var job := Confirm(0, false);
    var sent, late := Stream([0], [], 0, true, false), Stream([0], [], 0, true, true);
    t := GoTo(cfg, s, [], sent, [Call(job, Waiting(0, 1, 0), Undecided)], 0, Timeout, inv, [], late,
        [Call(job, Returning(0), Failed)]);
    t := GoTo(cfg, t, [], late, [Call(job, Returning(0), Failed)], 0, FlushBack(false), inv, [], late,
        [Call(job, Putting(0, false), Failed)]);
    t := GoTo(cfg, t, [], late, [Call(job, Putting(0, false), Failed)], 0, PutBack, inv, [0], late,
        [Call(job, Finished, Failed)]);
  }

  /** The second call publishes on the same channel. */
  lemma SecondPublishes(cfg: Config, s: State, done: Call, inv: State -> bool) returns (t: State)
    requires cfg.channelCount == 1 && Inductive(cfg, inv) && inv(s)
    requires At(s, [0], Stream([0], [], 0, true, true), [done])
    ensures inv(t)
    ensures At(t, [], Stream([0, 1], [], 0, true, true), [done, Call(Confirm(1, false), Waiting(0, 1, 1), Undecided)])
  {
    var job := Confirm(1, false);
    var late := Stream([0], [], 0, true, true);
    StartAt(cfg, s, [0], late, [done], job);
    t := Apply(cfg, s, Start(job));
    assert [done] + [Call(job, Seeking, Undecided)] == [done, Call(job, Seeking, Undecided)];
    t := GoTo(cfg, t, [0], late, [done, Call(job, Seeking, Undecided)], 1, Acquire, inv, [], late,
        [done, Call(job, Flushing(0), Undecided)]);
    t := GoTo(cfg, t, [], late, [done, Call(job, Flushing(0), Undecided)], 1, Flush(false), inv, [], late,
        [done, Call(job, Publishing(0, 0, 1), Undecided)]);
    t := GoTo(cfg, t, [], late, [done, Call(job, Publishing(0, 0, 1), Undecided)], 1, Publish(true), inv,
              [], Stream([0, 1], [], 0, true, true), [done, Call(job, Waiting(0, 1, 1), Undecided)]);
  }

  /** The late answer to the first publish arrives, and the second call reads it. */
  lemma Stale(cfg: Config, s: State, inv: State -> bool) returns (t: State)
    requires cfg.channelCount == 1 && Inductive(cfg, inv) && inv(s) && At(s, [0], Fresh(), [])
    ensures inv(t)
    ensures At(t, [], Stream([0, 1], [true], 1, true, true),
               [Call(Confirm(0, false), Finished, Failed), Call(Confirm(1, false), Returning(0), Acked(0, 0, 1, 1, 1))])
  {
    var done := Call(Confirm(0, false), Finished, Failed);
    var waiting := [done, Call(Confirm(1, false), Waiting(0, 1, 1), Undecided)];
    t := FirstPublishes(cfg, s, inv);
    t := FirstTimesOut(cfg, t, inv);
    t := SecondPublishes(cfg, t, done, inv);
    AnswerAt(cfg, t, [], Stream([0, 1], [], 0, true, true), waiting);
    t := Apply(cfg, t, BrokerAnswer(0, true));
    t := GoTo(cfg, t, [], Stream([0, 1], [true], 0, true, true), waiting, 1, Confirmation, inv,
              [], Stream([0, 1], [true], 1, true, true),
                  [done, Call(Confirm(1, false), Returning(0), Acked(0, 0, 1, 1, 1))]);
  }

  lemma AnswerAt(cfg: Config, s: State, pool: seq<nat>, st: Stream, calls: seq<Call>)
    requires At(s, pool, st, calls) && CanAnswer(st) && st.verdicts == []
    ensures Enabled(cfg, s, BrokerAnswer(0, true))
    ensures At(Apply(cfg, s, BrokerAnswer(0, true)), pool, st.(verdicts := [true]), calls)
  {
    assert [] + [true] == [true];
  }

  /** A success receipt can be false: the confirm of call 0 comes after its wait timed out, and
      call 1, next on that channel, takes it for its own although the broker has not acked it.
      Its lag is 1 and it published once, so lag < rounds fails. */
  lemma StaleSuccess() returns (s: State)
    ensures Reachable(Config([0], 1, 1, 1, 1, 5), [0, 0], s)
    ensures |s.calls| == 2 && s.calls[1].job == Confirm(1, false) && s.calls[1].outcome == Acked(0, 0, 1, 1, 1)
    ensures s.streams == [Stream([0, 1], [true], 1, true, true)]
  {
    var cfg := Config([0], 1, 1, 1, 1, 5);
    var inv := x => Reachable(cfg, [0, 0], x);
    forall x, step | inv(x) && Enabled(cfg, x, step) ensures inv(Apply(cfg, x, step)) {
      Reach(cfg, [0, 0], x, step);
    }
    s := Init(cfg, [0, 0]);
    assert inv(s) by { assert IsRun(cfg, s, []) && After(cfg, s, []) == s; }
    s := Stale(cfg, s, inv);
  }
}
