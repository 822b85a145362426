/** Taking and returning the normal channels of the v1 pool, the way its publisher does. Every
  look at a channel's health and every attempt to open one takes the next event of a script. */
module V1Channels {
  import opened Common

  datatype Event = Fine | Closed | NoRoom | Fault

  /** `serial` tells apart the channels opened under one id. */
  datatype ChannelHost = ChannelHost(id: nat, serial: nat)

  /** How GetChannel ends: it hands out a channel, refuses, or is still trying. */
  datatype Outcome = Got(host: ChannelHost) | Refused | Trying

  function Ids(hosts: seq<ChannelHost>): (r: seq<nat>)
    ensures |r| == |hosts| && forall i :: 0 <= i < |hosts| ==> r[i] == hosts[i].id
  {
    seq(|hosts|, i requires 0 <= i < |hosts| => hosts[i].id)
  }

  /** The channel is healthy and not flagged. */
  predicate InOrder(h: ChannelHost, flagged: set<nat>, e: Event) {
    !e.Closed? && h.id !in flagged
  }

  /** An attempt to open a channel that decides: it opens, or there is no room. A closed connection
      or a failure is tried again. */
  predicate Decides(e: Event) {
    e.Fine? || e.NoRoom?
  }

  /** Event n is the first that decides. */
  predicate DecidesFirst(script: seq<Event>, n: nat) {
    n < |script| && Decides(script[n]) && forall i :: 0 <= i < n ==> !Decides(script[i])
  }

  /** How often there was no room. */
  function NoRooms(script: seq<Event>): nat {
    if script == [] then 0 else (if script[0].NoRoom? then 1 else 0) + NoRooms(script[1..])
  }

  lemma {:induction false} NoRoomsBetween(script: seq<Event>, n: nat)
    requires n <= |script|
    ensures NoRooms(script[n..]) <= NoRooms(script)
    ensures n > 0 && script[n - 1].NoRoom? ==> NoRooms(script[n..]) < NoRooms(script)
  {
    if n > 0 {
      NoRoomsBetween(script[1..], n - 1);
      assert script[1..][n - 1..] == script[n..];
    }
  }

  /** The queue after k channels have gone from its head to its tail. */
  ghost function Turned(hosts: seq<ChannelHost>, k: nat): (r: seq<ChannelHost>)
    requires hosts != []
    ensures |r| == |hosts|
  {
    if k == 0 then hosts else var before := Turned(hosts, k - 1); before[1..] + [before[0]]
  }

  /** The ids of those k channels. */
  ghost function Passed(hosts: seq<ChannelHost>, k: nat): set<nat>
    requires hosts != []
  {
    if k == 0 then {} else Passed(hosts, k - 1) + {Turned(hosts, k - 1)[0].id}
  }

  lemma {:induction false} TurnedKeepsIds(hosts: seq<ChannelHost>, k: nat)
    requires hosts != []
    ensures multiset(Ids(Turned(hosts, k))) == multiset(Ids(hosts))
  {
    if k > 0 {
      TurnedKeepsIds(hosts, k - 1);
      var before := Turned(hosts, k - 1);
      HeadToTail(before, before[0]);
    }
  }

  /** Taking the head off and putting a channel of the same id at the tail keeps the ids. */
  lemma HeadToTail(hosts: seq<ChannelHost>, h: ChannelHost)
    requires hosts != [] && h.id == hosts[0].id
    ensures multiset(Ids(hosts[1..] + [h])) == multiset(Ids(hosts))
  {
    var rest := Ids(hosts[1..]);
    assert Ids(hosts) == [h.id] + rest;
    assert Ids(hosts[1..] + [h]) == rest + [h.id];
  }

  class ChannelPool {
    var channels: seq<ChannelHost>
    var flaggedChannels: set<nat>
    var made: nat                 // serial of the next channel to be opened
    var initialized: bool
    var locked: bool

    constructor (hosts: seq<ChannelHost>, made: nat)
      requires forall h :: h in hosts ==> h.serial < made
      ensures Valid() && channels == hosts && flaggedChannels == {} && this.made == made && initialized && !locked
    {
      channels, flaggedChannels, this.made, initialized, locked := hosts, {}, made, true, false;
    }

    ghost predicate Valid()
      reads this
    {
      forall h :: h in channels ==> h.serial < made
    }

    /** ReturnChannel puts the channel at the tail and may flag its id. */
    method ReturnChannel(h: ChannelHost, flag: bool)
      requires Valid() && h.serial < made
      modifies this`channels, this`flaggedChannels
      ensures Valid() && channels == old(channels) + [h]
      ensures flaggedChannels == old(flaggedChannels) + if flag then {h.id} else {}
    {
      channels := channels + [h];
      if flag {
        flaggedChannels := flaggedChannels + {h.id};
      }
    }

    /** The replacement loop: the first attempt that decides opens a channel under the old id, or
        tells that there is no room; failures before it are tried again. */
    method Replace(id: nat, script: seq<Event>)
      returns (rest: seq<Event>, r: Option<ChannelHost>, noRoom: bool, ghost n: nat)
      requires Valid()
      modifies this`made
      ensures Valid() && n <= |script| && (n < |script| ==> DecidesFirst(script, n))
      ensures n == |script| ==> forall i :: 0 <= i < |script| ==> !Decides(script[i])
      ensures rest == if n < |script| then script[n + 1..] else []
      ensures r.Some? <==> n < |script| && script[n].Fine?
      ensures noRoom <==> n < |script| && script[n].NoRoom?
      ensures r.Some? ==> r.value == ChannelHost(id, old(made)) && made == old(made) + 1
      ensures r.None? ==> made == old(made)
    {
      rest, r, noRoom, n := script, None, false, 0;
      while |rest| > 0
        invariant Valid() && made == old(made) && r.None? && !noRoom
        invariant n <= |script| && rest == script[n..] && forall i :: 0 <= i < n ==> !Decides(script[i])
        decreases |rest|
      {
        var e := rest[0];
        rest := rest[1..];
        if e.Fine? {
          r, made := Some(ChannelHost(id, made)), made + 1;
          return;
        } else if e.NoRoom? {
          noRoom := true;
          return;
        }
        n := n + 1;
      }
    }

    /** From the label DequeueChannel on: the head of the queue is handed out, itself or replaced
        under its id, or passed over. */
    method Dequeue(script: seq<Event>) returns (rest: seq<Event>, outcome: Outcome, passed: bool, ghost n: nat)
      requires Valid() && channels != [] && script != []
      modifies this`channels, this`flaggedChannels, this`made
      ensures !outcome.Refused? && (passed ==> outcome.Trying?)
      ensures script[0].Closed? || old(channels)[0].id in old(flaggedChannels) ==>
        && n <= |script[1..]| && (n < |script[1..]| ==> DecidesFirst(script[1..], n))
        && (outcome.Got? <==> n < |script[1..]| && script[1..][n].Fine?)
        && (passed <==> n < |script[1..]| && script[1..][n].NoRoom?)
        && rest == if n < |script[1..]| then script[1..][n + 1..] else []
      ensures !script[0].Closed? && old(channels)[0].id !in old(flaggedChannels) ==> rest == script[1..] && !passed
      ensures outcome.Trying? && !passed ==> rest == []
      ensures outcome.Got? ==>
        && Valid() && outcome.host.serial < made && old(channels)[0].serial < old(made) &&
            channels == old(channels)[1..]
        && outcome.host.id == old(channels)[0].id &&
            (outcome.host == old(channels)[0] || outcome.host.serial == old(made))
        && flaggedChannels == old(flaggedChannels) - {outcome.host.id}
      ensures outcome.Got? ==>
                (outcome.host == old(channels)[0] <==>
                  !script[0].Closed? && old(channels)[0].id !in old(flaggedChannels))
      ensures !script[0].Closed? && old(channels)[0].id !in old(flaggedChannels) ==> outcome == Got(old(channels)[0])
      ensures passed ==> script[0].Closed? || old(channels)[0].id in old(flaggedChannels)
      ensures passed ==>
        && Valid() && channels == old(channels)[1..] + [old(channels)[0]] && made == old(made)
        && flaggedChannels == old(flaggedChannels) + {old(channels)[0].id}
    {
      var h := channels[0];
      channels := channels[1..];
      var healthy := !script[0].Closed?;
      rest, passed, n := script[1..], false, 0;
      if h.id !in flaggedChannels && healthy {
        return rest, Got(h), passed, n;
      }
      var r;
      rest, r, passed, n := Replace(h.id, rest);
      if r.Some? {
        flaggedChannels := flaggedChannels - {h.id};
        return rest, Got(r.value), passed, n;
      }
      if passed {
        ReturnChannel(h, true);
      }
      outcome := Trying;
    }

    /** GetChannel: after k channels were bad and could not be replaced, the next one in turn is
        handed out, itself or replaced under its id. Exactly the ids that were passed over are
        newly flagged, and the id handed out is unflagged. */
    method GetChannel(script: seq<Event>) returns (outcome: Outcome, ghost k: nat)
      requires Valid() && channels != []
      modifies this`channels, this`flaggedChannels, this`made
      ensures outcome.Refused? <==> old(locked || !initialized)
      ensures !outcome.Refused? && script != [] && InOrder(old(channels)[0], old(flaggedChannels), script[0]) ==>
                outcome == Got(old(channels)[0]) && k == 0
      ensures k <= NoRooms(script)
      ensures outcome.Refused? ==> channels == old(channels) && flaggedChannels == old(flaggedChannels)
      ensures outcome.Got? ==> Valid() && outcome.host.serial < made
      ensures outcome.Got? ==>
        var queue := Turned(old(channels), k);
        && channels == queue[1..]
        && outcome.host.id == queue[0].id && (outcome.host == queue[0] || outcome.host.serial == old(made))
      ensures outcome.Got? ==>
        var queue := Turned(old(channels), k);
        queue[0].id in old(flaggedChannels) + Passed(old(channels), k) ==>
            outcome.host == ChannelHost(queue[0].id, old(made))
      ensures outcome.Got? ==> flaggedChannels == old(flaggedChannels) + Passed(old(channels), k) - {outcome.host.id}
    {
      k := 0;
      if locked || !initialized {
        return Refused, k;
      }
      var rest := script;
      while |rest| > 0
        invariant Valid() && made == old(made)
        invariant k + NoRooms(rest) <= NoRooms(script) && (k == 0 ==> rest == script)
        invariant k > 0 ==> script != [] && !InOrder(old(channels)[0], old(flaggedChannels), script[0])
        invariant channels == Turned(old(channels), k)
        invariant flaggedChannels == old(flaggedChannels) + Passed(old(channels), k)
        decreases |rest|
      {
        var next;
        ghost var before := rest;
        ghost var n;
        rest, outcome, next, n := Dequeue(rest);
        if !next {
          return;
        }
        NoRoomsBetween(before[1..], n + 1);
        k := k + 1;
      }
      outcome := Trying;
    }
  }

  /** Taking a channel and giving it back, flagged or not, loses no id and duplicates none. */
  method UseChannel(pool: ChannelPool, script: seq<Event>, flag: bool) returns (outcome: Outcome)
    requires pool.Valid() && pool.channels != []
    modifies pool
    ensures outcome.Got? ==> pool.Valid() && multiset(Ids(pool.channels)) == multiset(Ids(old(pool.channels)))
    ensures outcome.Got? ==> (outcome.host.id in pool.flaggedChannels <==> flag)
  {
    ghost var k;
    ghost var before := pool.channels;
    outcome, k := pool.GetChannel(script);
    if outcome.Got? {
      pool.ReturnChannel(outcome.host, flag);
      TurnedKeepsIds(before, k);
      HeadToTail(Turned(before, k), outcome.host);
    }
  }
}
