/** The v1 pools at start-up: per-connection channel quotas and round-robin channel creation. */
module V1Quota {
  import opened Common

  const MAX_LOOKS: nat := 4    // the search gives up after meeting this many full connections

  /** NewConnectionPool: how many of `count` channels one connection may carry. The guard looks
      at the number of normal channels for both kinds. */
  function PerConnection(maxConnections: nat, maxChannels: nat, count: nat): nat
    requires maxConnections > 0
  {
    if maxConnections == 1 then count
    else if maxChannels > 1 then count / maxConnections + 1
    else 1
  }

  /** When the ackable channels fit: the exact condition of NewPools below. */
  predicate AckFits(tls: bool, maxConnections: nat, maxChannels: nat, maxAckChannels: nat) {
    !tls && (maxConnections == 1 || maxChannels > 1 || maxAckChannels <= maxConnections)
  }

  class ConnectionHost {
    const ConnectionID: nat
    const maxChannelCount: nat
    const maxAckChannelCount: nat
    var channelCount: nat
    var ackChannelCount: nat

    /** NewConnectionHostWithTLS leaves maxAckChannelCount at zero. */
    constructor (id: nat, maxChannel: nat, maxAckChannel: nat, tls: bool)
      ensures ConnectionID == id && channelCount == 0 && ackChannelCount == 0
      ensures maxChannelCount == maxChannel && maxAckChannelCount == if tls then 0 else maxAckChannel
    {
      ConnectionID, channelCount, ackChannelCount := id, 0, 0;
      maxChannelCount := maxChannel;
      maxAckChannelCount := if tls then 0 else maxAckChannel;
    }

    function Count(ackable: bool): nat
      reads this
    {
      if ackable then ackChannelCount else channelCount
    }

    function Quota(ackable: bool): nat {
      if ackable then maxAckChannelCount else maxChannelCount
    }

    predicate CanAdd(ackable: bool)
      reads this
    {
      Count(ackable) < Quota(ackable)
    }

    method Add(ackable: bool)
      modifies this
      ensures Count(ackable) == old(Count(ackable)) + 1 && Count(!ackable) == old(Count(!ackable))
    {
      if ackable {
        ackChannelCount := ackChannelCount + 1;
      } else {
        channelCount := channelCount + 1;
      }
    }
  }

  datatype ChannelHost = ChannelHost(id: nat, connectionId: nat, ackable: bool)

  /** The queue after k turns of the round robin. */
  function Rotate(s: seq<ConnectionHost>, k: nat): (r: seq<ConnectionHost>)
    requires s != []
    ensures |r| == |s| && forall x :: x in r ==> x in s
  {
    if k == 0 then s else var r := Rotate(s, k - 1); r[1..] + [r[0]]
  }

  /** The connection that look number i meets. */
  function Looked(s: seq<ConnectionHost>, i: nat): (c: ConnectionHost)
    requires s != []
    ensures c in s
  {
    Rotate(s, i)[0]
  }

  /** The first n looks meet connections without room. */
  ghost predicate AllFull(s: seq<ConnectionHost>, n: nat, ackable: bool)
    requires s != []
    reads s
  {
    forall i :: 0 <= i < n ==> !Looked(s, i).CanAdd(ackable)
  }

  /** The i-th and the (i + n)-th number differ by one when divided by n. */
  lemma DivStep(i: nat, n: nat)
    requires 0 < n
    ensures (i + n) / n == i / n + 1
  {
    assert i == (i / n) * n + i % n;
    assert i + n == (i / n + 1) * n + i % n;
    DivUnique(i + n, n, i / n + 1, i % n);
  }

  lemma DivMonotone(a: nat, b: nat, n: nat)
    requires 0 < n && a <= b
    ensures a / n <= b / n
  {
    var d := a / n - b / n;
    assert a == (a / n) * n + a % n && b == (b / n) * n + b % n;
    assert d * n == a - b + b % n - a % n;
    if d >= 1 {
    }
  }

  /** The quota admits channel number i of `count` exactly when the guard of NewConnectionPool
      gives the connections room for all of them, or i is among the first on each. */
  lemma QuotaAdmits(n: nat, maxChannels: nat, count: nat, i: nat)
    requires n > 0 && i < count
    ensures i / n < PerConnection(n, maxChannels, count) <==> n == 1 || maxChannels > 1 || i < n
  {
    DivMonotone(i, count, n);
    if i < n { DivUnique(i, n, 0, i); } else { DivMonotone(n, i, n); DivUnique(n, n, 1, 0); }
  }

  /** The quota is tight: with a single connection it is what is asked for; otherwise, unless the
      guard cuts it to one, it is the one number of channels that all connections together can
      carry only with room for at least one and at most one more on each. */
  lemma QuotaTight(n: nat, maxChannels: nat, count: nat)
    requires n > 0
    ensures var quota := PerConnection(n, maxChannels, count);
      if n == 1 then quota == count
      else if maxChannels > 1 then n * (quota - 1) <= count < n * quota
      else quota == 1
  {
    if n > 1 && maxChannels > 1 {
      var q := count / n;
      assert count == q * n + count % n;
      assert n * (q + 1) == q * n + n && n * ((q + 1) - 1) == q * n;
    }
  }

  class ConnectionPool {
    var connections: seq<ConnectionHost>     // the round-robin queue, next one first
    var flagged: set<nat>

    constructor (hosts: seq<ConnectionHost>)
      ensures connections == hosts && flagged == {}
    {
      connections, flagged := hosts, {};
    }

    ghost predicate Valid()
      reads this
    {
      connections != [] && NoDuplicates(connections)
    }

    /** The connection at the head of the queue goes to its tail once it has been looked at. */
    method NextConnection() returns (c: ConnectionHost)
      requires Valid()
      modifies this`connections
      ensures c == old(connections)[0] && connections == old(connections)[1..] + [c] && Valid()
    {
      c := connections[0];
      connections := connections[1..] + [c];
    }
  }

  class ChannelPool {
    const connectionPool: ConnectionPool
    const maxChannels: nat
    const maxAckChannels: nat
    var channels: seq<ChannelHost>
    var ackChannels: seq<ChannelHost>
    var channelID: nat

    constructor (pool: ConnectionPool, maxChannels: nat, maxAckChannels: nat)
      ensures connectionPool == pool && this.maxChannels == maxChannels && this.maxAckChannels == maxAckChannels
      ensures channels == [] && ackChannels == [] && channelID == 0
    {
      connectionPool, this.maxChannels, this.maxAckChannels := pool, maxChannels, maxAckChannels;
      channels, ackChannels, channelID := [], [], 0;
    }

    method OpenChannel(c: ConnectionHost, id: nat, ackable: bool, fault: bool) returns (r: Option<ChannelHost>)
      modifies connectionPool`flagged, c
      ensures r == if fault then None else Some(ChannelHost(id, c.ConnectionID, ackable))
      ensures connectionPool.flagged == old(connectionPool.flagged) + if fault then {c.ConnectionID} else {}
      ensures forall kind :: c.Count(kind) == old(c.Count(kind)) + if !fault && kind == ackable then 1 else 0
    {
      if fault {
        connectionPool.flagged := connectionPool.flagged + {c.ConnectionID};
        r := None;
      } else {
        c.Add(ackable);
        r := Some(ChannelHost(id, c.ConnectionID, ackable));
      }
    }

    /** createChannelHost: the first connection in the queue with room, out of at most four
        looks. `fault` is a failure to open the channel there. */
    method CreateChannelHost(id: nat, ackable: bool, fault: bool)
      returns (r: Option<ChannelHost>, ghost looks: nat, ghost chosen: ConnectionHost?)
      requires connectionPool.Valid()
      modifies connectionPool, set c | c in connectionPool.connections
      ensures connectionPool.Valid() && looks <= 4 && (chosen == null <==> looks == 4)
      ensures old(AllFull(connectionPool.connections, looks, ackable))
      ensures chosen != null ==>
                && chosen in old(connectionPool.connections) && old(chosen.CanAdd(ackable))
                && chosen == Looked(old(connectionPool.connections), looks)
      ensures connectionPool.connections == Rotate(old(connectionPool.connections), if chosen == null then looks
                else looks + 1)
      ensures r == if chosen == null || fault then None else Some(ChannelHost(id, chosen.ConnectionID, ackable))
      ensures connectionPool.flagged == old(connectionPool.flagged)
                                       + if chosen != null && fault then {chosen.ConnectionID} else {}
      ensures forall c, kind :: c in old(connectionPool.connections) ==>
                c.Count(kind) == old(c.Count(kind)) + if r.Some? && kind == ackable && c == chosen then 1 else 0
    {
      looks, chosen := 0, null;
      ghost var queue := connectionPool.connections;
      var getConnectionCounter := 0;
      while getConnectionCounter < MAX_LOOKS
        invariant getConnectionCounter == looks <= MAX_LOOKS && connectionPool.Valid()
        invariant connectionPool.connections == Rotate(queue, looks)
        invariant connectionPool.flagged == old(connectionPool.flagged)
        invariant old(AllFull(queue, looks, ackable))
        invariant forall c, kind :: c in queue ==> c.Count(kind) == old(c.Count(kind))
        decreases MAX_LOOKS - getConnectionCounter
      {
        var c := connectionPool.NextConnection();
        assert connectionPool.connections == Rotate(queue, looks + 1);
        assert c == Looked(queue, looks);
        if c.CanAdd(ackable) {
          chosen := c;
          r := OpenChannel(c, id, ackable, fault);
          return;
        }
        getConnectionCounter := getConnectionCounter + 1;
        looks := looks + 1;
      }
      r := None;
    }

    /** After i channels of a kind, the connection p places down the queue carries (i + p) / n. */
    ghost predicate RoundRobin(ackable: bool, i: nat)
      requires connectionPool.connections != []
      reads connectionPool, connectionPool.connections
    {
      var cs := connectionPool.connections;
      forall p :: 0 <= p < |cs| ==> cs[p].Count(ackable) == (i + p) / |cs|
    }

    lemma NothingYet(ackable: bool)
      requires connectionPool.connections != []
      requires forall c :: c in connectionPool.connections ==> c.Count(ackable) == 0
      ensures RoundRobin(ackable, 0)
    {
      var cs := connectionPool.connections;
      forall p | 0 <= p < |cs| ensures cs[p].Count(ackable) == (0 + p) / |cs| {
        DivUnique(p, |cs|, 0, p);
      }
    }

    ghost predicate Uniform(ackable: bool, quota: nat)
      reads connectionPool
    {
      forall c :: c in connectionPool.connections ==> c.Quota(ackable) == quota
    }

    /** The next channel in turn goes to the head of the queue while the quota allows it; once
        it does not, every connection is full and the search gives up. */
    method CreateInTurn(id: nat, ackable: bool, fault: bool, ghost i: nat, ghost quota: nat)
      returns (r: Option<ChannelHost>)
      requires connectionPool.Valid() && RoundRobin(ackable, i) && Uniform(ackable, quota)
      modifies connectionPool, set c | c in connectionPool.connections
      ensures connectionPool.Valid() && |connectionPool.connections| == |old(connectionPool.connections)|
      ensures forall c :: c in connectionPool.connections ==> c in old(connectionPool.connections)
      ensures forall c :: c in connectionPool.connections ==> c.Count(!ackable) == old(c.Count(!ackable))
      ensures r.Some? <==> !fault && i / |connectionPool.connections| < quota
      ensures r.Some? ==> r.value.id == id && r.value.ackable == ackable && RoundRobin(ackable, i + 1)
    {
      ghost var looks, chosen;
      ghost var queue := connectionPool.connections;
      ghost var n := |queue|;
      forall c | c in queue ensures c.Count(ackable) >= i / n {
        var p :| 0 <= p < n && queue[p] == c;
        DivMonotone(i, i + p, n);
      }
      assert queue[0].Count(ackable) == (i + 0) / n && Looked(queue, 0) == queue[0];
      ghost var room := queue[0].CanAdd(ackable);
      assert room <==> i / n < quota;
      assert !room ==> forall c :: c in queue ==> !c.CanAdd(ackable);
      r, looks, chosen := CreateChannelHost(id, ackable, fault);
      if room {
        assert looks == 0 && chosen == queue[0] && connectionPool.connections == queue[1..] + [queue[0]];
        DivStep(i, n);
      } else {
        assert chosen == null;
      }
    }

    /** Every connection carries the same number of channels of a kind, give or take one. */
    ghost predicate Balanced(ackable: bool, total: nat)
      requires connectionPool.connections != []
      reads connectionPool, connectionPool.connections
    {
      var cs := connectionPool.connections;
      forall c :: c in cs ==> total / |cs| <= c.Count(ackable) <= total / |cs| + 1
    }

    lemma RoundRobinBalances(ackable: bool, total: nat)
      requires connectionPool.connections != [] && RoundRobin(ackable, total)
      ensures Balanced(ackable, total)
    {
      var cs := connectionPool.connections;
      forall c | c in cs ensures total / |cs| <= c.Count(ackable) <= total / |cs| + 1 {
        var p :| 0 <= p < |cs| && cs[p] == c;
        DivMonotone(total, total + p, |cs|);
        DivMonotone(total + p, total + |cs|, |cs|);
        DivStep(total, |cs|);
      }
    }

    /** initialize, over connections that have just been made with the quotas of
        NewConnectionPool: it succeeds exactly when no channel fails to open and the ackable
        channels fit, and then both kinds are spread evenly. `faulty` are the channels that fail
        to open. */
    method Initialize(faulty: set<nat>, ghost tls: bool) returns (ok: bool)
      requires connectionPool.Valid() && maxChannels > 0 && maxAckChannels > 0
      requires channels == [] && ackChannels == [] && channelID == 0
      requires var n := |connectionPool.connections|;
        && Uniform(false, PerConnection(n, maxChannels, maxChannels))
        && Uniform(true, if tls then 0 else PerConnection(n, maxChannels, maxAckChannels))
        && forall c :: c in connectionPool.connections ==> c.channelCount == 0 && c.ackChannelCount == 0
      modifies this, connectionPool, set c | c in connectionPool.connections
      ensures connectionPool.Valid() && |connectionPool.connections| == |old(connectionPool.connections)|
      ensures ok <==> (forall id :: 0 <= id < maxChannels + maxAckChannels ==> id !in faulty)
                      && AckFits(tls, |connectionPool.connections|, maxChannels, maxAckChannels)
      ensures ok ==> Balanced(false, maxChannels) && Balanced(true, maxAckChannels)
      ensures ok ==> |channels| == maxChannels && |ackChannels| == maxAckChannels
      ensures ok ==> forall i :: 0 <= i < |channels| ==> channels[i].id == i && !channels[i].ackable
      ensures forall j :: 0 <= j < |ackChannels| ==> ackChannels[j].id == maxChannels + j && ackChannels[j].ackable
      ensures !ok ==> channels == [] && channelID == 0
    {
      ok := InitializeChannels(faulty);
      if ok {
        ok := InitializeAckChannels(faulty, tls);
      }
    }

    method InitializeChannels(faulty: set<nat>) returns (ok: bool)
      requires connectionPool.Valid() && maxChannels > 0 && channels == [] && channelID == 0
      requires Uniform(false, PerConnection(|connectionPool.connections|, maxChannels, maxChannels))
      requires forall c :: c in connectionPool.connections ==> c.channelCount == 0
      modifies this`channels, this`channelID, connectionPool, set c | c in connectionPool.connections
      ensures connectionPool.Valid() && |connectionPool.connections| == |old(connectionPool.connections)|
      ensures forall c :: c in connectionPool.connections ==>
                c in old(connectionPool.connections) && c.ackChannelCount == old(c.ackChannelCount)
      ensures ok <==> forall id :: 0 <= id < maxChannels ==> id !in faulty
      ensures ok ==> Balanced(false, maxChannels) && channelID == |channels| == maxChannels
      ensures ok ==> forall i :: 0 <= i < |channels| ==> channels[i].id == i && !channels[i].ackable
      ensures !ok ==> channels == [] && channelID == 0
    {
      ghost var n := |connectionPool.connections|;
      NothingYet(false);
      for i := 0 to maxChannels
        invariant connectionPool.Valid() && n == |connectionPool.connections|
        invariant forall c :: c in connectionPool.connections ==>
                  c in old(connectionPool.connections) && c.ackChannelCount == old(c.ackChannelCount)
        invariant RoundRobin(false, i) && channelID == |channels| == i
        invariant forall k :: 0 <= k < i ==> channels[k].id == k && !channels[k].ackable && k !in faulty
      {
        QuotaAdmits(n, maxChannels, maxChannels, i);
        var channelHost := CreateInTurn(channelID, false, channelID in faulty, i,
            PerConnection(n, maxChannels, maxChannels));
        if channelHost.None? {
          channelID := 0;
          channels := [];
          return false;
        }
        channelID := channelID + 1;
        channels := channels + [channelHost.value];
      }
      RoundRobinBalances(false, maxChannels);
      ok := true;
    }

    method InitializeAckChannels(faulty: set<nat>, ghost tls: bool) returns (ok: bool)
      requires connectionPool.Valid() && maxChannels > 0 && maxAckChannels > 0
      requires ackChannels == [] && channelID == |channels| == maxChannels
      requires Uniform(true, if tls then 0
                else PerConnection(|connectionPool.connections|, maxChannels, maxAckChannels))
      requires forall c :: c in connectionPool.connections ==> c.ackChannelCount == 0
      modifies this, connectionPool, set c | c in connectionPool.connections
      ensures connectionPool.Valid() && |connectionPool.connections| == |old(connectionPool.connections)|
      ensures forall c :: c in connectionPool.connections ==>
                c in old(connectionPool.connections) && c.channelCount == old(c.channelCount)
      ensures ok <==> (forall id :: maxChannels <= id < maxChannels + maxAckChannels ==> id !in faulty)
                      && AckFits(tls, |connectionPool.connections|, maxChannels, maxAckChannels)
      ensures ok ==> Balanced(true, maxAckChannels) && channels == old(channels) && |ackChannels| == maxAckChannels
      ensures forall j :: 0 <= j < |ackChannels| ==> ackChannels[j].id == maxChannels + j && ackChannels[j].ackable
      ensures !ok ==> channels == [] && channelID == 0
    {
      ghost var n := |connectionPool.connections|;
      ghost var quota := if tls then 0 else PerConnection(n, maxChannels, maxAckChannels);
      NothingYet(true);
      for j := 0 to maxAckChannels
        invariant connectionPool.Valid() && n == |connectionPool.connections| && Uniform(true, quota)
        invariant forall c :: c in connectionPool.connections ==>
                  c in old(connectionPool.connections) && c.channelCount == old(c.channelCount)
        invariant RoundRobin(true, j) && channelID == maxChannels + j && |ackChannels| == j && channels == old(channels)
        invariant forall k :: 0 <= k < j ==> ackChannels[k].id == maxChannels + k && ackChannels[k].ackable
        invariant forall id :: maxChannels <= id < maxChannels + j ==> id !in faulty
        invariant j > 0 ==> !tls && (n == 1 || maxChannels > 1 || j <= n)
      {
        QuotaAdmits(n, maxChannels, maxAckChannels, j);
        assert j / n < quota <==> !tls && (n == 1 || maxChannels > 1 || j < n);
        var channelHost := CreateInTurn(channelID, true, channelID in faulty, j, quota);
        if channelHost.None? {
          assert maxChannels + j in faulty || !AckFits(tls, n, maxChannels, maxAckChannels);
          channelID := 0;
          channels := [];     // the queue of normal channels, although the ackable ones failed
          return false;
        }
        channelID := channelID + 1;
        ackChannels := ackChannels + [channelHost.value];
      }
      RoundRobinBalances(true, maxAckChannels);
      ok := true;
    }
  }

  /** NewChannelPool with initializeNow, over connections that open: it succeeds exactly when no
      channel fails to open and the ackable channels fit. */
  method NewPools(maxConnections: nat, maxChannels: nat, maxAckChannels: nat, tls: bool, faulty: set<nat>)
    returns (pool: ChannelPool?, ok: bool)
    requires maxConnections > 0
    ensures ok <==> maxChannels > 0 && maxAckChannels > 0
                    && (forall id :: 0 <= id < maxChannels + maxAckChannels ==> id !in faulty)
                    && AckFits(tls, maxConnections, maxChannels, maxAckChannels)
    ensures ok ==> pool != null && |pool.connectionPool.connections| == maxConnections
                   && pool.Balanced(false, maxChannels) && pool.Balanced(true, maxAckChannels)
                   && |pool.channels| == maxChannels && |pool.ackChannels| == maxAckChannels
  {
    if maxChannels == 0 || maxAckChannels == 0 {
      return null, false;
    }
    var quota := PerConnection(maxConnections, maxChannels, maxChannels);
    var ackQuota := PerConnection(maxConnections, maxChannels, maxAckChannels);
    var hosts: seq<ConnectionHost> := [];
    for i := 0 to maxConnections
      invariant |hosts| == i && NoDuplicates(hosts)
      invariant forall c :: c in hosts ==> fresh(c) && c.channelCount == 0 && c.ackChannelCount == 0
      invariant forall c :: c in hosts ==> c.Quota(false) == quota && c.Quota(true) == if tls then 0 else ackQuota
    {
      var host := new ConnectionHost(i, quota, ackQuota, tls);
      hosts := hosts + [host];
    }
    var connectionPool := new ConnectionPool(hosts);
    pool := new ChannelPool(connectionPool, maxChannels, maxAckChannels);
    ok := pool.Initialize(faulty, tls);
  }
}
