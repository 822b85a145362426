/** The v2 connection pool as the loops it is: taking a connection, recovering it, flagging it on
  return, and filling the cache of channels. Each operation that can fail, and each look at a
  connection's health, takes the next event of a script. */
module ConnectionRecovery {
  import opened Common

  datatype Event = Fine | Fault | Severed

  predicate Flagged(flags: map<nat, bool>, id: nat) {
    id in flags && flags[id]
  }

  /** Only the flag of one connection may have changed. */
  ghost predicate OthersKept(id: nat, was: map<nat, bool>, flags: map<nat, bool>) {
    forall c :: c != id ==> Flagged(flags, c) == Flagged(was, c)
  }

  datatype ChannelHost = ChannelHost(id: nat, connectionId: nat, connection: nat)

  /** How triggerConnectionRecovery ends: it has made the connection healthy, it flushes an Errors
      channel that never runs dry, or it is still dialling when the script ends. */
  datatype Recovery = Recovered | Spinning | Dialing

  /** What a recovery comes to that starts with the connection open or not; RecoverExactly says what
      that means. */
  function Recover(script: seq<Event>, up: bool): (r: (Recovery, seq<Event>))
    ensures |r.1| <= |script| && (!r.0.Recovered? ==> r.1 == [])
    decreases |script|
  {
    if script == [] then (Dialing, [])
    else if !up then Recover(script[1..], script[0].Fine?)
    else if script[0].Severed? then (Spinning, [])
    else (Recovered, script[1..])
  }

  /** It dials until the first success, unless the connection is up; then what happens next decides:
      a closure keeps it in the flush, and anything else ends it. */
  lemma {:induction false} RecoverExactly(script: seq<Event>, up: bool) returns (at: nat)
    ensures var (outcome, rest) := Recover(script, up);
      if outcome.Dialing? then (!up && NoneFine(script)) || Connected(script, up, |script|)
      else Connected(script, up, at) && at < |script| && (outcome.Spinning? <==> script[at].Severed?)
           && (outcome.Recovered? ==> rest == script[at + 1..])
    decreases |script|
  {
    at := 0;
    if script != [] && !up {
      var later := RecoverExactly(script[1..], script[0].Fine?);
      at := later + 1;
      if Connected(script[1..], script[0].Fine?, later) { ConnectedOneMore(script, at); }
      if Connected(script[1..], script[0].Fine?, |script| - 1) { ConnectedOneMore(script, |script|); }
    }
  }

  lemma ConnectedOneMore(script: seq<Event>, at: nat)
    requires script != [] && at > 0 && Connected(script[1..], script[0].Fine?, at - 1)
    ensures Connected(script, false, at)
  {
    if !script[0].Fine? {
      assert script[..at - 1] == [script[0]] + script[1..][..at - 2];
    }
  }

  /** What the health check comes to: a connection that stays open, without an error and without a
      flag, is in order; every other one is recovered. */
  function Verified(script: seq<Event>, open: bool, pending: nat, flagged: bool): (r: (Recovery, seq<Event>))
    ensures |r.1| <= |script| && (r.0.Recovered? ==> |r.1| < |script|) && (!r.0.Recovered? ==> r.1 == [])
  {
    if script == [] then (Dialing, [])
    else if open && !script[0].Severed? && pending == 0 && !flagged then (Recovered, script[1..])
    else Recover(script[1..], open && !script[0].Severed?)
  }

  /** `connection` numbers the connections this host has dialled; `pending` is the fill of its
      Errors channel, which the library closes together with the connection. */
  class ConnectionHost {
    const ConnectionID: nat
    var connection: nat
    var open: bool
    var pending: nat

    constructor (id: nat)
      ensures ConnectionID == id && open && pending == 0 && connection == 0
    {
      ConnectionID, connection, open, pending := id, 0, true, 0;
    }

    /** What the network does between two operations. */
    method Happen(e: Event)
      modifies this
      ensures connection == old(connection)
      ensures if e.Severed? then !open && pending == old(pending) + 1 else open == old(open) && pending == old(pending)
    {
      if e.Severed? {
        open, pending := false, pending + 1;
      }
    }

    /** ConnectWithErrorHandler: an open connection is never replaced. */
    method ConnectWithErrorHandler(dial: Event) returns (ok: bool)
      modifies this
      ensures ok == open == (old(open) || dial.Fine?)
      ensures if old(open) || !dial.Fine? then connection == old(connection) && pending == old(pending)
              else connection == old(connection) + 1 && pending == 0
    {
      if open {
        return true;
      }
      if !dial.Fine? {
        return false;
      }
      connection, open, pending := connection + 1, true, 0;
      ok := true;
    }
  }

  class ConnectionPool {
    var connections: seq<ConnectionHost>
    var flaggedConnections: map<nat, bool>
    var channels: seq<ChannelHost>

    constructor ()
      ensures connections == [] && flaggedConnections == map[] && channels == []
    {
      connections, flaggedConnections, channels := [], map[], [];
    }

    predicate IsFlagged(id: nat)
      reads this`flaggedConnections
    {
      Flagged(flaggedConnections, id)
    }

    /** triggerConnectionRecovery: dials until one dial succeeds, flushes Errors, unflags. A
        connection that is still open is kept as it is. Event number `at` is what happens between
        Connect and the flush: if it closes the connection, the flush does not end, since a
        closed Errors channel yields zero values for ever; and otherwise it does. */
    method TriggerConnectionRecovery(h: ConnectionHost, script: seq<Event>)
      returns (rest: seq<Event>, outcome: Recovery, ghost at: nat)
      modifies h, this`flaggedConnections
      ensures (outcome, rest) == Recover(script, old(h.open))
      ensures !outcome.Dialing? ==>
                Connected(script, old(h.open), at) && at < |script| && (outcome.Spinning? <==> script[at].Severed?)
      ensures outcome.Dialing? ==> (!old(h.open) && NoneFine(script)) || Connected(script, old(h.open), |script|)
      ensures outcome.Recovered? ==> h.open && h.pending == 0 && rest == script[at + 1..]
      ensures outcome.Recovered? ==> h.connection == old(h.connection) + if old(h.open) then 0 else 1
      ensures outcome.Spinning? ==> !h.open
      ensures flaggedConnections == if outcome.Recovered? then old(flaggedConnections)[h.ConnectionID := false]
                else old(flaggedConnections)
    {
      rest, at := script, 0;
      ghost var was := h.open;
      while !h.open
        invariant was == old(h.open) && flaggedConnections == old(flaggedConnections)
        invariant at <= |script| && rest == script[at..] && Recover(rest, h.open) == Recover(script, was)
        invariant h.connection == old(h.connection) + if h.open && !was then 1 else 0
        invariant if h.open then Connected(script, was, at) else !was && NoneFine(script[..at])
        decreases |rest|, !h.open
      {
        if |rest| == 0 {
          assert script[..at] == script;
          return rest, Dialing, at;
        }
        var e := rest[0];
        rest, at := rest[1..], at + 1;
        var ok := h.ConnectWithErrorHandler(e);
        assert script[..at] == script[..at - 1] + [script[at - 1]];
      }
      if |rest| == 0 {
        return rest, Dialing, at;
      }
      h.Happen(rest[0]);
      rest := rest[1..];
      while h.pending > 0 || !h.open
        invariant h.connection == old(h.connection) + if was then 0 else 1
        invariant flaggedConnections == old(flaggedConnections)
        invariant h.open == !script[at].Severed? && (h.open ==> rest == script[at + 1..]) && |rest| <= |script|
        decreases |rest|, h.pending
      {
        if h.pending > 0 {
          h.pending := h.pending - 1;
        } else if |rest| > 0 {
          rest := rest[1..];           // one more zero value
        } else {
          return rest, Spinning, at;
        }
      }
      flaggedConnections := flaggedConnections[h.ConnectionID := false];
      outcome := Recovered;
    }

    /** verifyHealthyConnection: when it returns, the connection is open and unflagged. It was
        replaced exactly when it was closed; a flag or a pending error alone replaces nothing.
        A connection in order needs no recovery, and so nothing can hold it up. */
    method VerifyHealthyConnection(h: ConnectionHost, script: seq<Event>) returns (rest: seq<Event>, outcome: Recovery)
      modifies h, this`flaggedConnections
      ensures (outcome, rest) == old(Verified(script, h.open, h.pending, IsFlagged(h.ConnectionID)))
      ensures outcome.Recovered? ==> h.open && h.pending == 0 && !IsFlagged(h.ConnectionID)
      ensures outcome.Recovered? ==>
                h.connection == old(h.connection) + if old(h.open) && !script[0].Severed? then 0 else 1
      ensures outcome.Spinning? ==> !h.open && exists i :: 0 < i < |script| && script[i].Severed?
      ensures |script| > 0 && !script[0].Severed? && old(h.open && h.pending == 0 && !IsFlagged(h.ConnectionID)) ==>
                outcome.Recovered? && rest == script[1..] && flaggedConnections == old(flaggedConnections)
      ensures OthersKept(h.ConnectionID, old(flaggedConnections), flaggedConnections)
    {
      if |script| == 0 {
        return [], Dialing;
      }
      h.Happen(script[0]);
      rest, outcome := script[1..], Recovered;
      var healthy := h.pending == 0 && h.open;      // a closed Errors channel yields a value too
      if h.pending > 0 {
        h.pending := h.pending - 1;
      }
      if IsFlagged(h.ConnectionID) || !healthy || !h.open {
        ghost var at;
        rest, outcome, at := TriggerConnectionRecovery(h, rest);
        assert outcome.Spinning? ==> script[at + 1].Severed?;
      }
    }

    ghost predicate Valid()
      reads this`connections
    {
      && connections != []
      && forall i, j :: 0 <= i < j < |connections| ==> connections[i].ConnectionID != connections[j].ConnectionID
    }

    /** What the check of the head of the queue comes to. */
    function Checked(script: seq<Event>): (r: (Recovery, seq<Event>))
      requires connections != []
      reads this`connections, this`flaggedConnections, connections[0]
      ensures |r.1| <= |script| && (r.0.Recovered? ==> |r.1| < |script|) && (!r.0.Recovered? ==> r.1 == [])
    {
      Verified(script, connections[0].open, connections[0].pending, IsFlagged(connections[0].ConnectionID))
    }

    /** In order: open, nothing pending, no flag. */
    predicate WellAt(h: ConnectionHost)
      reads this`flaggedConnections, h
    {
      h.open && h.pending == 0 && !IsFlagged(h.ConnectionID)
    }

    predicate AllWell()
      reads this`connections, this`flaggedConnections, connections
    {
      forall h :: h in connections ==> WellAt(h)
    }

    /** The head of the queue, healthy and unflagged. */
    method GetConnection(script: seq<Event>) returns (h: ConnectionHost, rest: seq<Event>, done: bool)
      requires Valid()
      modifies this`connections, this`flaggedConnections, connections[0]
      ensures [h] + connections == old(connections)
      ensures done == old(Checked(script)).0.Recovered? && rest == old(Checked(script)).1
      ensures done ==> h.open && h.pending == 0 && !IsFlagged(h.ConnectionID)
      ensures old(WellAt(connections[0])) && script != [] && !script[0].Severed? ==>
                flaggedConnections == old(flaggedConnections)
      ensures done ==> h.connection == old(connections[0].connection)
                                       + if old(connections[0].open) && !script[0].Severed? then 0 else 1
      ensures OthersKept(h.ConnectionID, old(flaggedConnections), flaggedConnections)
    {
      h := connections[0];
      connections := connections[1..];
      var outcome;
      rest, outcome := VerifyHealthyConnection(h, script);
      done := outcome.Recovered?;
    }

    method ReturnConnection(h: ConnectionHost, flag: bool)
      modifies this`connections, this`flaggedConnections
      ensures connections == old(connections) + [h]
      ensures flaggedConnections == if flag then old(flaggedConnections)[h.ConnectionID := true]
                else old(flaggedConnections)
    {
      if flag {
        flaggedConnections := flaggedConnections[h.ConnectionID := true];
      }
      connections := connections + [h];
    }

    /** One try of createCacheChannel: the head of the queue opens a channel or is flagged, and
        goes to the tail. */
    method TryChannel(id: nat, script: seq<Event>) returns (r: Option<ChannelHost>, rest: seq<Event>, tried: bool)
      requires Valid()
      modifies this`connections, this`flaggedConnections, connections[0]
      ensures tried == (old(Checked(script)).0.Recovered? && old(Checked(script)).1 != [])
      ensures rest == if tried then old(Checked(script)).1[1..] else []
      ensures r.Some? == (tried && old(Checked(script)).1[0].Fine?)
      ensures r.Some? ==> WellAt(old(connections[0]))
      ensures r.Some? && old(AllWell()) ==> AllWell()
      ensures tried ==> Valid() && connections == old(connections[1..]) + [old(connections[0])]
      ensures tried ==> var h := connections[|connections| - 1];
                IsFlagged(h.ConnectionID) == r.None? &&
                    (r.Some? ==> h.open && r.value == ChannelHost(id, h.ConnectionID, h.connection))
      ensures OthersKept(old(connections)[0].ConnectionID, old(flaggedConnections), flaggedConnections)
    {
      r, tried := None, false;
      ghost var queue, all := connections, AllWell();
      var h;
      h, rest, tried := GetConnection(script);
      assert h == queue[0];
      if !tried || |rest| == 0 {
        return None, [], false;
      }
      var e := rest[0];
      rest := rest[1..];
      h.Happen(e);
      if e.Fine? {
        r := Some(ChannelHost(id, h.ConnectionID, h.connection));
      }
      ReturnConnection(h, !e.Fine?);
      assert connections == queue[1..] + [queue[0]];
      if r.Some? && all {
        forall i | 0 <= i < |connections| ensures WellAt(connections[i]) {
          if i < |connections| - 1 { assert connections[i] == queue[i + 1] && queue[i + 1] in queue; }
        }
      }
    }

    /** createCacheChannel: tries the connections in turn until one opens a channel. Those that
        failed since their last success stay flagged; the others keep their flag. */
    method CreateCacheChannel(id: nat, script: seq<Event>)
      returns (r: Option<ChannelHost>, rest: seq<Event>, ghost tries: nat)
      requires Valid()
      modifies this`connections, this`flaggedConnections, set h | h in connections
      ensures |rest| <= |script| && (r.None? ==> rest == [])
      ensures old(WellAt(connections[0])) && FineTwice(script) ==>
                r.Some? && tries == 1 && rest == script[2..] && WellAt(old(connections[0]))
      ensures old(AllWell()) && FineTwice(script) ==> AllWell()
      ensures r.Some? ==> Valid() && tries >= 1 && connections == Turned(old(connections), tries)
      ensures r.Some? ==> r.value.id == id && r.value.connectionId == connections[|connections| - 1].ConnectionID
      ensures r.Some? ==> Marked(connections, tries, true, old(flaggedConnections), flaggedConnections)
    {
      r, rest, tries := None, script, 0;
      var tried := true;
      ghost var head, well, all := connections[0], WellAt(connections[0]) && FineTwice(script), AllWell();
      while |rest| > 0 && tried && r.None?
        invariant |rest| <= |script| && (!tried ==> rest == [])
        invariant well ==> tried && (if tries == 0 then r.None? && rest == script && WellAt(head)
                                     else tries == 1 && r.Some? && rest == script[2..] && WellAt(head))
        invariant well && all ==> AllWell()
        invariant tried ==> Valid() && connections == Turned(old(connections), tries)
        invariant r.Some? ==> tried && tries >= 1 && r.value.id == id
        invariant r.Some? ==> r.value.connectionId == connections[|connections| - 1].ConnectionID
        invariant tried ==> Marked(connections, tries, r.Some?, old(flaggedConnections), flaggedConnections)
        decreases |rest|, tried
      {
        ghost var before, flags := connections, flaggedConnections;
        assert before[0] in before;
        r, rest, tried := TryChannel(id, rest);
        if tried {
          MarkedNext(before, connections, tries, r.Some?, old(flaggedConnections), flags, flaggedConnections);
          tries := tries + 1;
        }
      }
    }

    /** The connections of initializeConnections: the first dial that fails ends it. */
    method DialConnections(maxConnectionCount: nat, script: seq<Event>) returns (rest: seq<Event>, started: Started)
      requires connections == []
      modifies this`connections
      ensures forall h :: h in connections ==> fresh(h) && h.open && h.pending == 0
      ensures |script| >= maxConnectionCount && AllFine(script) ==> started.Ready?
      ensures started.Ready? ==> |connections| == maxConnectionCount <= |script| && rest == script[maxConnectionCount..]
      ensures started.Ready? ==> forall i :: 0 <= i < maxConnectionCount ==>
                connections[i].ConnectionID == i && script[i].Fine?
      ensures started.Failed? <==> DialFails(maxConnectionCount, script)
    {
      rest := script;
      for i := 0 to maxConnectionCount
        invariant |connections| == i <= |script| && rest == script[i..]
        invariant forall h :: h in connections ==> fresh(h) && h.open && h.pending == 0
        invariant forall k :: 0 <= k < i ==> connections[k].ConnectionID == k && script[k].Fine?
      {
        if |rest| == 0 {
          return rest, Unfinished;
        }
        if !rest[0].Fine? {
          assert !script[i].Fine?;
          return rest, Failed;
        }
        rest := rest[1..];
        var h := new ConnectionHost(i);
        connections := connections + [h];
      }
      started := Ready;
    }

    /** NewConnectionPool: a healthy network fills the pool. `turns` are the turns of the round robin
        that opened the channels, so channel i sits on connection turns[i] % maxConnectionCount, and
        on i % maxConnectionCount when no channel failed to open. */
    method InitializeConnections(maxConnectionCount: nat, maxCacheChannelCount: nat, script: seq<Event>)
      returns (started: Started, ghost turns: seq<nat>, ghost total: nat)
      requires connections == [] && channels == [] && flaggedConnections == map[]
      modifies this
      ensures started.Failed? <==> maxConnectionCount == 0 || DialFails(maxConnectionCount, script)
      ensures started.Ready? ==>
        && |connections| == maxConnectionCount && InTurn(connections, total)
        && |turns| == |channels| == maxCacheChannelCount
        && Climbs(turns, total)
        && forall i :: 0 <= i < maxCacheChannelCount ==>
            channels[i].id == i && channels[i].connectionId == turns[i] % maxConnectionCount
      ensures maxConnectionCount > 0 && AllFine(script) && |script| >= maxConnectionCount + 2 * maxCacheChannelCount ==>
                started.Ready? && total == maxCacheChannelCount
      ensures started.Ready? && total == maxCacheChannelCount ==> forall i :: 0 <= i < maxCacheChannelCount ==>
                turns[i] == i
    {
      turns, total := [], 0;
      if maxConnectionCount == 0 {
        return Failed, turns, total;
      }
      var rest;
      rest, started := DialConnections(maxConnectionCount, script);
      if !started.Ready? {
        return;
      }
      FirstTurn(connections);
      ghost var fine := AllFine(script) && |script| >= maxConnectionCount + 2 * maxCacheChannelCount;
      for i := 0 to maxCacheChannelCount
        invariant Valid() && InTurn(connections, total) && |connections| == maxConnectionCount
        invariant forall h :: h in connections ==> fresh(h)
        invariant fine ==> total == i && rest == script[maxConnectionCount + 2 * i..] && AllWell()
        invariant |turns| == |channels| == i && Climbs(turns, total)
        invariant forall k :: 0 <= k < i ==>
                  channels[k].id == k && channels[k].connectionId == turns[k] % maxConnectionCount
      {
        var r;
        ghost var tries;
        ghost var before := connections;
        r, rest, tries := CreateCacheChannel(i, rest);
        if r.None? {
          return Unfinished, turns, total;
        }
        TurnedInTurn(before, total, tries);
        channels := channels + [r.value];
        total := total + tries;
        turns := turns + [total - 1];
      }
      if total == maxCacheChannelCount { ClimbsByOne(turns, total); }
    }
  }

  datatype Started = Ready | Failed | Unfinished

  /** One of the first n dials of the script fails. */
  ghost predicate DialFails(n: nat, script: seq<Event>) {
    exists i :: 0 <= i < n && i < |script| && !script[i].Fine?
  }

  /** Strictly increasing, and below `total`. */
  ghost predicate Climbs(turns: seq<nat>, total: nat) {
    && (forall i, j :: 0 <= i < j < |turns| ==> turns[i] < turns[j])
    && (forall i :: 0 <= i < |turns| ==> i <= turns[i] < total)
    && |turns| <= total
  }

  lemma {:induction false} ClimbsByOne(turns: seq<nat>, total: nat)
    requires Climbs(turns, total) && total == |turns|
    ensures forall i :: 0 <= i < |turns| ==> turns[i] == i
  {
    if turns != [] {
      var last := |turns| - 1;
      assert forall i :: 0 <= i < last ==> turns[i] < turns[last] <= last;
      ClimbsByOne(turns[..last], last);
    }
  }

  lemma FirstTurn(connections: seq<ConnectionHost>)
    requires connections != [] && forall i :: 0 <= i < |connections| ==> connections[i].ConnectionID == i
    ensures InTurn(connections, 0)
  {
    forall p | 0 <= p < |connections| ensures connections[p].ConnectionID == (0 + p) % |connections| {
      DivUnique(p, |connections|, 0, p);
    }
  }

  /** The queue after k connections have gone from its head to its tail. */
  ghost function Turned(connections: seq<ConnectionHost>, k: nat): (r: seq<ConnectionHost>)
    requires connections != []
    ensures |r| == |connections| && forall h :: h in r ==> h in connections
  {
    if k == 0 then connections else var before := Turned(connections, k - 1); before[1..] + [before[0]]
  }

  lemma {:induction false} TurnedInTurn(connections: seq<ConnectionHost>, t: nat, k: nat)
    requires InTurn(connections, t)
    ensures InTurn(Turned(connections, k), t + k)
    ensures k > 0 ==> Turned(connections, k)[|connections| - 1].ConnectionID == (t + k - 1) % |connections|
  {
    if k > 0 {
      TurnedInTurn(connections, t, k - 1);
      NextTurn(Turned(connections, k - 1), Turned(connections, k), t + (k - 1));
    }
  }

  /** The flags after the last `tries` connections at the tail were tried and all failed, but for
      the very last one if `success`. */
  ghost predicate Marked(connections: seq<ConnectionHost>, tries: nat, success: bool, was: map<nat, bool>,
            flags: map<nat, bool>) {
    var n := |connections|;
    forall p :: 0 <= p < n ==>
      Flagged(flags, connections[p].ConnectionID) ==
        if p == n - 1 && success then false else if p >= n - tries then true
            else Flagged(was, connections[p].ConnectionID)
  }

  lemma MarkedNext(connections: seq<ConnectionHost>, later: seq<ConnectionHost>, tries: nat, success: bool,
                   was: map<nat, bool>, flags: map<nat, bool>, next: map<nat, bool>)
    requires connections != [] && later == connections[1..] + [connections[0]]
    requires Marked(connections, tries, false, was, flags)
    requires Flagged(next, connections[0].ConnectionID) == !success
    requires forall p :: 0 < p < |connections| ==> connections[p].ConnectionID != connections[0].ConnectionID
    requires OthersKept(connections[0].ConnectionID, flags, next)
    ensures Marked(later, tries + 1, success, was, next)
  {
    forall p | 0 <= p < |later| - 1
      ensures Flagged(next, later[p].ConnectionID) == if p >= |later| - (tries + 1) then true
                else Flagged(was, later[p].ConnectionID)
    {
      assert later[p] == connections[p + 1];
    }
  }

  /** The queue after t turns of the round robin over connections made in the order of their
      ids. */
  ghost predicate InTurn(connections: seq<ConnectionHost>, t: nat) {
    && connections != []
    && forall p :: 0 <= p < |connections| ==> connections[p].ConnectionID == (t + p) % |connections|
  }

  lemma NextTurn(connections: seq<ConnectionHost>, later: seq<ConnectionHost>, t: nat)
    requires InTurn(connections, t) && later == connections[1..] + [connections[0]]
    ensures InTurn(later, t + 1) && connections[0].ConnectionID == t % |connections|
  {
    var n := |connections|;
    DivUnique(t + n, n, t / n + 1, t % n);
    assert connections[0].ConnectionID == (t + 0) % n;
    forall p | 0 <= p < n ensures later[p].ConnectionID == (t + 1 + p) % n {
      if p < n - 1 {
        assert later[p] == connections[p + 1] && connections[p + 1].ConnectionID == (t + (p + 1)) % n;
      }
    }
  }

  predicate FineTwice(script: seq<Event>) {
    |script| >= 2 && script[0].Fine? && script[1].Fine?
  }

  predicate AllFine(script: seq<Event>) {
    forall i :: 0 <= i < |script| ==> script[i].Fine?
  }

  predicate NoneFine(script: seq<Event>) {
    forall i :: 0 <= i < |script| ==> !script[i].Fine?
  }

  /** The connection is up after `at` events: it was up before, or the last of them was the first
      dial to succeed. */
  predicate Connected(script: seq<Event>, wasOpen: bool, at: nat) {
    at <= |script| && if wasOpen then at == 0 else at > 0 && script[at - 1].Fine? && NoneFine(script[..at - 1])
  }
}
