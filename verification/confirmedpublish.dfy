/** PublishWithConfirmation and PublishWithConfirmationTransient as the loops they are, run
  against a script of what the broker, the network and the scheduler do. */
module ConfirmedPublish {
  import opened Streams
  import opened Common

  /** One thing that happens while the caller runs. `Refuse` makes the operation that meets it
      fail, and `RefuseConfirm` the request for confirm mode; `Read` lets a poll find the
      confirmation, `Timer` lets it find the timer. */
  datatype Event =
    | Refuse
    | RefuseConfirm
    | Answer(ack: bool)
    | CloseChannel
    | CloseConnection
    | Timer
    | Read
    | Nothing

  datatype Outcome = Success | TimedOut | Unfinished

  /** How a polling loop, or a call's work on one channel, ends. */
  datatype Reading = Acked | Nacked | OutOfTime | Erred | ScriptOver

  datatype Receipt = Receipt(letter: nat, success: bool)

  // ---------------------------------------------------------------- what a script brings about

  /** The stream after an event that is no operation of the caller. */
  function Happened(st: Stream, e: Event): Stream {
    match e
    case Answer(ack) => if CanAnswer(st) then Streams.Answer(st, ack) else st
    case CloseChannel => Shut(st)
    case CloseConnection => Shut(st)
    case _ => st
  }

  /** The stream after all these events, in order. */
  function Later(st: Stream, script: seq<Event>): Stream {
    if script == [] then st else Happened(Later(st, script[..|script| - 1]), script[|script| - 1])
  }

  /** A receive finds something: an answer, or that the drained buffer is closed. */
  predicate Ripe(st: Stream) {
    Buffered(st) > 0 || !st.open
  }

  /** The event ends a wait: the timer, or a poll that finds something. */
  predicate Settles(st: Stream, e: Event) {
    e == Timer || (e == Read && Ripe(st))
  }

  /** None of the first n events ends a wait that starts at st. */
  ghost predicate Idle(st: Stream, script: seq<Event>, n: nat) {
    n <= |script| && forall i :: 0 <= i < n ==> !Settles(Later(st, script[..i]), script[i])
  }

  predicate ReadsAck(st: Stream) {
    0 <= st.taken < |st.verdicts| && st.verdicts[st.taken]
  }

  /** How some operations end, what they leave on the stream and of the script. */
  datatype Turn = Turn(reading: Reading, stream: Stream, rest: seq<Event>)

  function Received(st: Stream): Stream {
    if Buffered(st) > 0 then Take(st) else st
  }

  /** The wait for a confirmation. PollExactly says what it comes to. */
  function Poll(st: Stream, script: seq<Event>): (t: Turn)
    ensures |t.rest| <= |script| && !t.reading.Erred?
    decreases |script|
  {
    if script == [] then Turn(ScriptOver, st, [])
    else if script[0] == Timer then Turn(OutOfTime, st, script[1..])
    else if script[0] == Read && Ripe(st) then
      Turn(if ReadsAck(st) then Acked else Nacked, Received(st), script[1..])
    else Poll(Happened(st, script[0]), script[1..])
  }

  /** Later, from the front. */
  lemma {:induction false} LaterFront(st: Stream, script: seq<Event>)
    requires script != []
    ensures Later(st, script) == Later(Happened(st, script[0]), script[1..])
  {
    var last := |script| - 1;
    if last > 0 {
      LaterFront(st, script[..last]);
      assert script[1..][..last - 1] == script[..last][1..];
    }
  }

  lemma LaterFrontUpTo(st: Stream, script: seq<Event>, i: nat)
    requires 0 < i <= |script|
    ensures Later(st, script[..i]) == Later(Happened(st, script[0]), script[1..][..i - 1])
  {
    LaterFront(st, script[..i]);
    assert script[..i][1..] == script[1..][..i - 1];
  }

  /** The wait is decided by the first event that ends one: the timer means out of time; a poll
      that finds an ack means acked; one that finds a nack, or a drained closed buffer, means
      nacked; and without such an event the script is over. One answer is removed if there is one. */
  lemma {:induction false} PollExactly(st: Stream, script: seq<Event>) returns (n: nat)
    ensures Idle(st, script, n) && (n < |script| ==> Settles(Later(st, script[..n]), script[n]))
    ensures var t, at := Poll(st, script), Later(st, script[..n]);
      && (t.reading.ScriptOver? <==> n == |script|)
      && (t.reading.OutOfTime? <==> n < |script| && script[n] == Timer)
      && (t.reading.Acked? <==>
          n < |script| && script[n] == Read && 0 <= at.taken < |at.verdicts| && at.verdicts[at.taken])
      && (t.reading.Nacked? ==> script[n] == Read && (0 <= at.taken < |at.verdicts| ==> !at.verdicts[at.taken]))
      && t.rest == (if n < |script| then script[n + 1..] else [])
      && t.stream == (if n < |script| && script[n] == Read && at.taken < |at.verdicts|
                      then at.(taken := at.taken + 1) else at)
    decreases |script|
  {
    if script == [] || Settles(st, script[0]) {
      n := 0;
      assert script[..0] == [];
    } else {
      var later := Happened(st, script[0]);
      var m := PollExactly(later, script[1..]);
      n := m + 1;
      LaterFrontUpTo(st, script, n);
      forall i | 0 <= i < n ensures !Settles(Later(st, script[..i]), script[i]) {
        if i == 0 { assert script[..0] == []; } else { LaterFrontUpTo(st, script, i); }
      }
    }
  }

  /** Publishing and waiting until no nack follows. */
  function Try(st: Stream, who: nat, script: seq<Event>): (t: Turn)
    ensures |t.rest| <= |script| && !t.reading.Nacked? && (t.reading.Erred? ==> |t.rest| < |script|)
    decreases |script|
  {
    if script == [] then Turn(ScriptOver, st, [])
    else if !st.open || script[0] == Refuse then Turn(Erred, st, script[1..])
    else
      var t := Poll(Send(st, who), script[1..]);
      if t.reading.Nacked? then Try(t.stream, who, t.rest) else t
  }

  /** The answers of st from `from` up to `to` are nacks. */
  ghost predicate AllNacks(st: Stream, from: nat, to: nat) {
    from <= to <= |st.verdicts| && forall i :: from <= i < to ==> !st.verdicts[i]
  }

  /** Grown from `was`: more publishes, answers and reads. */
  predicate Grown(was: Stream, st: Stream) {
    was.sent <= st.sent && was.verdicts <= st.verdicts && was.taken <= st.taken && WellFormed(st)
  }

  lemma {:induction false} PollGrows(st: Stream, script: seq<Event>)
    requires WellFormed(st)
    ensures Grown(st, Poll(st, script).stream) && Poll(st, script).stream.sent == st.sent
    ensures Poll(st, script).reading.Nacked? ==>
              AllNacks(Poll(st, script).stream, st.taken, Poll(st, script).stream.taken)
    ensures Poll(st, script).reading.Acked? ==>
              var later := Poll(st, script).stream; later.taken == st.taken + 1 && later.verdicts[st.taken]
    ensures Poll(st, script).reading.OutOfTime? || Poll(st, script).reading.ScriptOver? ==>
              Poll(st, script).stream.taken == st.taken
    decreases |script|
  {
    if script == [] || Settles(st, script[0]) {
    } else {
      PollGrows(Happened(st, script[0]), script[1..]);
    }
  }

  /** Only nacks make a call publish again: whatever it read before its last answer is a nack, and
      an ack that it reads ends it. */
  lemma {:induction false} TryReadsNacks(st: Stream, who: nat, script: seq<Event>)
    requires WellFormed(st)
    ensures var t := Try(st, who, script);
      && Grown(st, t.stream)
      && (t.reading.Acked? ==> t.stream.taken > st.taken && AllNacks(t.stream, st.taken, t.stream.taken - 1)
                               && t.stream.verdicts[t.stream.taken - 1])
      && (!t.reading.Acked? ==> AllNacks(t.stream, st.taken, t.stream.taken))
    decreases |script|
  {
    if script != [] && st.open && script[0] != Refuse {
      var t := Poll(Send(st, who), script[1..]);
      PollGrows(Send(st, who), script[1..]);
      if t.reading.Nacked? {
        TryReadsNacks(t.stream, who, t.rest);
        var end := Try(t.stream, who, t.rest).stream;
        assert forall i :: st.taken <= i < t.stream.taken ==> end.verdicts[i] == t.stream.verdicts[i];
      }
    }
  }

  predicate Suffix(rest: seq<Event>, script: seq<Event>) {
    |rest| <= |script| && rest == script[|script| - |rest|..]
  }

  /** The last event that was used up. */
  function Last(rest: seq<Event>, script: seq<Event>): Event
    requires |rest| < |script|
  {
    script[|script| - |rest| - 1]
  }

  lemma {:induction false} PollSuffix(st: Stream, script: seq<Event>)
    ensures var t := Poll(st, script);
      && Suffix(t.rest, script)
      && (t.reading.OutOfTime? ==> |t.rest| < |script| && Last(t.rest, script) == Timer)
      && (t.reading.Acked? ==> |t.rest| < |script| && Last(t.rest, script) == Read)
      && (t.reading.ScriptOver? ==> t.rest == [])
    decreases |script|
  {
    if script == [] || Settles(st, script[0]) {
    } else {
      PollSuffix(Happened(st, script[0]), script[1..]);
    }
  }

  /** The last event used up is what the reading says: a publish that the channel refuses, the timer,
      or the poll that reads the ack; otherwise the script is over. */
  predicate EndsBy(t: Turn, script: seq<Event>) {
    && Suffix(t.rest, script)
    && (t.reading.Erred? ==> |t.rest| < |script| && (!t.stream.open || Last(t.rest, script) == Refuse))
    && (t.reading.OutOfTime? ==> |t.rest| < |script| && Last(t.rest, script) == Timer)
    && (t.reading.Acked? ==> |t.rest| < |script| && Last(t.rest, script) == Read)
    && (t.reading.ScriptOver? ==> t.rest == [])
  }

  /** Used up from a later point on, it ends the same way. */
  lemma EndsLater(t: Turn, later: seq<Event>, script: seq<Event>)
    requires script != [] && Suffix(later, script[1..]) && EndsBy(t, later)
    ensures EndsBy(t, script)
  {
    assert |later| < |script| && later == script[|script| - |later|..];
    if |t.rest| < |later| { assert Last(t.rest, later) == Last(t.rest, script); }
    assert t.rest == later[|later| - |t.rest|..] == script[|script| - |t.rest|..];
  }

  lemma TryRefused(st: Stream, who: nat, script: seq<Event>)
    requires script != [] && (!st.open || script[0] == Refuse)
    ensures EndsBy(Try(st, who, script), script)
  {
  }

  lemma TryRound(st: Stream, who: nat, script: seq<Event>)
    requires script != [] && st.open && script[0] != Refuse
    ensures var t := Poll(Send(st, who), script[1..]);
      Try(st, who, script) == if t.reading.Nacked? then Try(t.stream, who, t.rest) else t
  {
  }

  /** A call on one channel ends so. */
  lemma {:induction false} TryEnds(st: Stream, who: nat, script: seq<Event>)
    ensures EndsBy(Try(st, who, script), script)
    decreases |script|
  {
    if script == [] {
    } else if !st.open || script[0] == Refuse {
      TryRefused(st, who, script);
    } else {
      var t := Poll(Send(st, who), script[1..]);
      TryRound(st, who, script);
      PollSuffix(Send(st, who), script[1..]);
      if t.reading.Nacked? {
        TryEnds(t.stream, who, t.rest);
        EndsLater(Try(t.stream, who, t.rest), t.rest, script);
      } else {
        EndsLater(t, script[1..], script);
      }
    }
  }

  /** An attempt to make a channel that goes through. */
  predicate Makes(e: Event) {
    e != Refuse && e != RefuseConfirm
  }

  /** The event is the first attempt that goes through. */
  predicate MakesFirst(script: seq<Event>, n: nat) {
    n < |script| && Makes(script[n]) && forall i :: 0 <= i < n ==> !Makes(script[i])
  }

  /** What is left of the script once a channel is made. */
  function Remade(script: seq<Event>): (r: Option<seq<Event>>)
    ensures r.Some? ==> |r.value| < |script|
    ensures r.None? <==> forall i :: 0 <= i < |script| ==> !Makes(script[i])
  {
    if script == [] then None else if Makes(script[0]) then Some(script[1..]) else Remade(script[1..])
  }

  lemma {:induction false} RemadeFirst(script: seq<Event>, n: nat)
    requires MakesFirst(script, n)
    ensures Remade(script) == Some(script[n + 1..])
  {
    if n > 0 {
      RemadeFirst(script[1..], n - 1);
      assert script[1..][n..] == script[n + 1..];
    }
  }

  // ---------------------------------------------------------------- a whole call

  /** A cached channel: its stream, and whether its connection is closed. */
  datatype Slot = Slot(stream: Stream, cut: bool)

  predicate Quiet(pool: seq<Slot>) {
    forall i :: 0 <= i < |pool| ==> Lag(pool[i].stream) == 0
  }

  /** What a call comes to that finds these channels in the pool, in this order. */
  function Outcomes(pool: seq<Slot>, who: nat, script: seq<Event>): Outcome
    requires pool != []
    decreases |script|
  {
    var (reading, rest) := OneTurn(pool[0], who, script);
    match reading
    case Acked => Success
    case OutOfTime => TimedOut
    case Erred => Outcomes(pool[1..] + [Slot(Fresh(), false)], who, rest)
    case _ => Unfinished
  }

  function Flushed(slot: Slot): Stream {
    FlushOne(slot.stream, slot.cut)
  }

  /** How the work with one channel ends: on an error the channel is made again, if the script
      lasts. */
  function OneTurn(slot: Slot, who: nat, script: seq<Event>): (r: (Reading, seq<Event>))
    ensures |r.1| <= |script| && (r.0.Erred? ==> |r.1| < |script|)
  {
    var t := Try(Flushed(slot), who, script);
    if !t.reading.Erred? then (t.reading, t.rest)
    else if Remade(t.rest).Some? then (Erred, Remade(t.rest).value)
    else (ScriptOver, [])
  }

  /** A call on an open channel whose first publish goes through succeeds if the first poll that
      finds something before the timer finds an ack, and times out if the timer comes first. */
  lemma FirstAnswerDecides(pool: seq<Slot>, who: nat, script: seq<Event>, n: nat)
    requires pool != [] && Flushed(pool[0]).open && script != [] && script[0] != Refuse
    requires var st := Send(Flushed(pool[0]), who);
      Idle(st, script[1..], n) && 1 + n < |script| && Settles(Later(st, script[1..][..n]), script[1 + n])
    ensures var at := Later(Send(Flushed(pool[0]), who), script[1..][..n]);
      && (script[1 + n] == Timer ==> Outcomes(pool, who, script) == TimedOut)
      && (script[1 + n] == Read && 0 <= at.taken < |at.verdicts| && at.verdicts[at.taken] ==>
          Outcomes(pool, who, script) == Success)
  {
    var st := Send(Flushed(pool[0]), who);
    var m := PollExactly(st, script[1..]);
  }

  /** A publish that errs is never the end of a call: once the channel is made again, at the first
      attempt that goes through, the call goes on with the next one in the pool. */
  lemma ErrorGoesOn(pool: seq<Slot>, who: nat, script: seq<Event>, n: nat)
    requires pool != [] && script != [] && (!pool[0].stream.open || script[0] == Refuse)
    requires MakesFirst(script[1..], n)
    ensures Outcomes(pool, who, script) == Outcomes(pool[1..] + [Slot(Fresh(), false)], who, script[n + 2..])
  {
    RemadeFirst(script[1..], n);
    assert script[1..][n + 1..] == script[n + 2..];
  }

  /** A transient call comes to the same on a new channel for each try. */
  function TransientOutcome(who: nat, script: seq<Event>): Outcome
    decreases |script|
  {
    var t := Try(Fresh(), who, script);
    match t.reading
    case Acked => Success
    case OutOfTime => TimedOut
    case Erred => TransientOutcome(who, t.rest)
    case _ => Unfinished
  }

  /** Its channels are new, so after refused publishes, one per try, the first one that goes through
      succeeds if its answer is an ack. */
  lemma {:induction false} TransientSucceeds(who: nat, script: seq<Event>, refused: nat)
    requires |script| == refused + 3 && forall i :: 0 <= i < refused ==> script[i] == Refuse
    requires script[refused] != Refuse && script[refused + 1] == Answer(true) && script[refused + 2] == Read
    ensures TransientOutcome(who, script) == Success
  {
    if refused > 0 {
      TransientSucceeds(who, script[1..], refused - 1);
    } else {
      var st := Send(Fresh(), who);
      assert script[1..][0] == Answer(true) && script[1..][1..] == [Read];
      assert Poll(Happened(st, Answer(true)), [Read]).reading == Acked;
    }
  }

  /** A channel in confirm mode with its Confirmations buffer. `stream` is its history. */
  class ChannelHost {
    var confirmations: seq<bool>
    var open: bool
    var connectionClosed: bool
    var unanswered: nat       // publishes the broker has not answered yet
    ghost var stream: Stream

    ghost predicate Valid()
      reads this
    {
      && WellFormed(stream)
      && stream.open == open
      && confirmations == stream.verdicts[stream.taken..]
      && unanswered == |stream.sent| - |stream.verdicts|
    }

    /** A fresh channel, a fresh buffer. */
    constructor ()
      ensures Valid() && stream == Fresh()
    {
      confirmations, open, connectionClosed, unanswered := [], true, false, 0;
      stream := Fresh();
    }

    /** MakeChannel overwrites the channel and then its buffer. If confirm mode is refused, the
        new channel is left with the old buffer; the caller makes another one. */
    method MakeChannel(e: Event) returns (ok: bool)
      modifies this
      ensures ok == (e != Refuse && e != RefuseConfirm)
      ensures ok ==> Valid() && stream == Fresh()
      ensures !ok ==> confirmations == old(confirmations) && open == (e == RefuseConfirm)
      ensures connectionClosed == old(connectionClosed)
    {
      open := e != Refuse;
      if e == Refuse || e == RefuseConfirm {
        return false;
      }
      confirmations, unanswered := [], 0;
      stream := Fresh();
      ok := true;
    }

    method FlushConfirms()
      requires Valid()
      modifies this
      ensures Valid() && stream == FlushOne(old(stream), connectionClosed)
      ensures confirmations == if !connectionClosed && old(confirmations) != [] then old(confirmations)[1..]
                else old(confirmations)
      ensures stream.sent == old(stream.sent) && stream.verdicts == old(stream.verdicts)
      ensures open == old(open) && connectionClosed == old(connectionClosed)
    {
      if connectionClosed {
        return;
      }
      if |confirmations| > 0 {
        confirmations := confirmations[1..];
        stream := stream.(taken := stream.taken + 1);
      }
    }

    /** Channel.Publish: it errs on a closed channel and may err on an open one. */
    method Publish(who: nat, refused: bool) returns (ok: bool)
      requires Valid()
      modifies this
      ensures Valid() && ok == (old(open) && !refused)
      ensures stream == if ok then Send(old(stream), who) else old(stream)
      ensures connectionClosed == old(connectionClosed)
    {
      ok := open && !refused;
      if ok {
        unanswered := unanswered + 1;
        stream := stream.(sent := stream.sent + [who]);
      }
    }

    predicate Ready()
      reads this
    {
      |confirmations| > 0 || !open
    }

    /** Receive from the buffer; drained and closed it yields the zero value, a nack. */
    method Receive() returns (ack: bool)
      requires Valid() && Ready()
      modifies this
      ensures Valid() && open == old(open) && connectionClosed == old(connectionClosed)
      ensures old(Buffered(stream)) > 0 ==> ack == old(stream.verdicts[stream.taken]) && stream == Take(old(stream))
      ensures old(Buffered(stream)) == 0 ==> !ack && !open && stream == old(stream)
    {
      if |confirmations| > 0 {
        ack := confirmations[0];
        confirmations := confirmations[1..];
        stream := stream.(taken := stream.taken + 1);
      } else {
        ack := false;
      }
    }

    /** What the outside world does to the channel. */
    method Happen(e: Event)
      requires Valid()
      modifies this
      ensures Valid() && stream == Happened(old(stream), e)
      ensures connectionClosed == (old(connectionClosed) || e == CloseConnection)
    {
      match e {
        case Answer(ack) =>
          assert Buffered(stream) == |confirmations|;
          if open && unanswered > 0 && |confirmations| < CONFIRM_BUFFER {
            unanswered := unanswered - 1;
            confirmations := confirmations + [ack];
            stream := stream.(verdicts := stream.verdicts + [ack]);
          }
        case CloseChannel =>
          open := false;
          stream := stream.(open := false);
        case CloseConnection =>
          open, connectionClosed := false, true;
          stream := stream.(open := false);
        case _ =>
      }
    }
  }

  /** The rounds of one call on one channel since its flush: each published once, and each but
      the last read one answer. */
  ghost predicate Rounds(flushed: Stream, st: Stream, who: nat, rounds: nat) {
    && |st.sent| == |flushed.sent| + rounds && flushed.sent <= st.sent && flushed.verdicts <= st.verdicts
    && (forall i :: |flushed.sent| <= i < |st.sent| ==> st.sent[i] == who)
    && who !in flushed.sent
  }

  /** What a success is worth: the ack that was read answers the publish Lag(flushed) places
      before the call's latest one, which is the call's own iff that lag is below `rounds`. */
  ghost predicate Proof(flushed: Stream, st: Stream, who: nat, rounds: nat, pos: nat) {
    && Rounds(flushed, st, who, rounds) && rounds >= 1
    && Lag(flushed) >= 0
    && pos + Lag(flushed) == |st.sent| - 1
    && pos < |st.verdicts| && st.verdicts[pos]
    && (st.sent[pos] == who <==> Lag(flushed) < rounds)
  }

  /** The waiting call: its latest publish is the last on the stream, and Lag(flushed) + 1
      answers are outstanding. */
  ghost predicate Awaits(flushed: Stream, st: Stream, who: nat, rounds: nat) {
    Rounds(flushed, st, who, rounds) && rounds >= 1 && WellFormed(st) && WellFormed(flushed) &&
        Lag(st) == Lag(flushed) + 1
  }

  lemma ReadProves(flushed: Stream, st: Stream, who: nat, rounds: nat)
    requires Awaits(flushed, st, who, rounds) && Buffered(st) > 0 && st.verdicts[st.taken]
    ensures Proof(flushed, Take(st), who, rounds, st.taken)
  {
  }

  class ConnectionPool {
    var channels: seq<ChannelHost>     // the Go channel of cached hosts
    var receipts: seq<Receipt>         // handed to publishReceipt, oldest first

    ghost predicate Valid()
      reads this, channels
    {
      NoDuplicates(channels) && forall h :: h in channels ==> h.Valid()
    }

    static ghost function SlotOf(h: ChannelHost): Slot
      reads h
    {
      Slot(h.stream, h.connectionClosed)
    }

    static ghost function SlotsOf(hosts: seq<ChannelHost>): (r: seq<Slot>)
      reads hosts
      ensures |r| == |hosts| && forall i :: 0 <= i < |r| ==> r[i] == SlotOf(hosts[i])
    {
      if hosts == [] then [] else [SlotOf(hosts[0])] + SlotsOf(hosts[1..])
    }

    /** The first channel goes to the tail, and the others are as they were. */
    static lemma SlotsTurned(hosts: seq<ChannelHost>, slots: seq<Slot>, h: ChannelHost)
      requires hosts != [] && |slots| == |hosts| && forall i :: 0 < i < |hosts| ==> SlotOf(hosts[i]) == slots[i]
      ensures SlotsOf(hosts[1..] + [h]) == slots[1..] + [SlotOf(h)]
    {
    }

    /** What a call finds in the pool. */
    ghost function Slots(): (r: seq<Slot>)
      reads this, channels
    {
      SlotsOf(channels)
    }

    /** No cached channel carries a publish by `who`. */
    ghost predicate Unknown(who: nat)
      reads this, channels
    {
      forall h :: h in channels ==> who !in h.stream.sent
    }

    ghost predicate AllQuiet()
      reads this, channels
    {
      Quiet(Slots())
    }

    constructor (hosts: seq<ChannelHost>)
      requires NoDuplicates(hosts) && forall h :: h in hosts ==> h.Valid()
      ensures Valid() && channels == hosts && receipts == []
    {
      channels, receipts := hosts, [];
    }

    /** Receives a host; on an empty pool the caller blocks. */
    method GetChannelFromPool() returns (h: ChannelHost)
      requires Valid() && channels != []
      modifies this`channels
      ensures [h] + channels == old(channels)
      ensures Valid() && h.Valid() && h !in channels && h in old(channels)
    {
      h := channels[0];
      channels := channels[1..];
    }

    /** reconnectChannel: on a connection that has been made healthy, until one channel is made. */
    method ReconnectChannel(h: ChannelHost, script: seq<Event>) returns (rest: seq<Event>, done: bool)
      modifies h
      ensures done == Remade(script).Some? && rest == if done then Remade(script).value else []
      ensures done ==> h.Valid() && h.stream == Fresh() && !h.connectionClosed
    {
      rest, done := script, false;
      while |rest| > 0
        invariant Remade(rest) == Remade(script)
      {
        h.connectionClosed := false;
        var e := rest[0];
        rest := rest[1..];
        done := h.MakeChannel(e);
        if done {
          return;
        }
      }
    }

    /** ReturnChannel of a cached host: made anew if it erred, otherwise flushed, then put back. */
    method ReturnChannel(h: ChannelHost, erred: bool, script: seq<Event>) returns (rest: seq<Event>, done: bool)
      requires Valid() && h.Valid() && h !in channels
      modifies this`channels, h
      ensures done == (!erred || Remade(script).Some?)
      ensures rest == if !erred then script else if done then Remade(script).value else []
      ensures done ==> Valid() && channels == old(channels) + [h]
      ensures done ==> h.stream == if erred then Fresh() else FlushOne(old(h.stream), old(h.connectionClosed))
      ensures done ==> h.connectionClosed == (!erred && old(h.connectionClosed))
    {
      rest, done := script, true;
      if erred {
        rest, done := ReconnectChannel(h, script);
        if !done {
          return;
        }
      } else {
        h.FlushConfirms();
      }
      channels := channels + [h];
    }

    method PublishReceipt(who: nat, success: bool)
      modifies this`receipts
      ensures receipts == old(receipts) + [Receipt(who, success)]
    {
      receipts := receipts + [Receipt(who, success)];
    }

    /** The inner polling loop: until an ack, a nack, the timer or the end of the script. */
    method Wait(h: ChannelHost, who: nat, script: seq<Event>, ghost flushed: Stream, ghost rounds: nat)
      returns (rest: seq<Event>, reading: Reading, ghost pos: nat)
      requires h.Valid() && Awaits(flushed, h.stream, who, rounds)
      modifies h
      ensures h.Valid() && Turn(reading, h.stream, rest) == Poll(old(h.stream), script)
      ensures Rounds(flushed, h.stream, who, rounds)
      ensures reading.Acked? ==> Proof(flushed, h.stream, who, rounds, pos) && Lag(h.stream) == Lag(flushed)
      ensures reading.Nacked? && h.open ==> Lag(h.stream) == Lag(flushed)
      ensures reading.OutOfTime? ==> Lag(h.stream) == Lag(flushed) + 1
    {
      rest, reading, pos := script, ScriptOver, 0;
      while |rest| > 0
        invariant h.Valid() && Awaits(flushed, h.stream, who, rounds)
        invariant Poll(h.stream, rest) == Poll(old(h.stream), script)
      {
        var e := rest[0];
        rest := rest[1..];
        if e == Timer {
          reading := OutOfTime;
          return;
        } else if e == Read && h.Ready() {
          pos := h.stream.taken;
          if Buffered(h.stream) > 0 && h.stream.verdicts[h.stream.taken] { ReadProves(flushed, h.stream, who, rounds); }
          var ack := h.Receive();
          reading := if ack then Acked else Nacked;
          return;
        } else {
          h.Happen(e);
        }
      }
    }

    /** From the label Publish on: publish, wait, and publish again after each nack. */
    method PublishRounds(h: ChannelHost, who: nat, script: seq<Event>)
      returns (rest: seq<Event>, reading: Reading, ghost rounds: nat, ghost pos: nat)
      requires h.Valid() && who !in h.stream.sent
      modifies h
      ensures h.Valid() && Turn(reading, h.stream, rest) == Try(old(h.stream), who, script)
      ensures Rounds(old(h.stream), h.stream, who, rounds)
      ensures reading.Acked? ==> Proof(old(h.stream), h.stream, who, rounds, pos) && Lag(h.stream) == Lag(old(h.stream))
      ensures reading.OutOfTime? ==> rounds >= 1 && Lag(h.stream) == Lag(old(h.stream)) + 1
    {
      rest, reading, pos, rounds := script, ScriptOver, 0, 0;
      ghost var flushed := h.stream;
      while |rest| > 0
        invariant h.Valid() && WellFormed(flushed) && Try(h.stream, who, rest) == Try(flushed, who, script)
        invariant Rounds(flushed, h.stream, who, rounds)
        invariant h.open ==> Lag(h.stream) == Lag(flushed)
        decreases |rest|
      {
        var e := rest[0];
        rest := rest[1..];
        var ok := h.Publish(who, e == Refuse);
        if !ok {
          reading := Erred;
          return;
        }
        rounds := rounds + 1;
        rest, reading, pos := Wait(h, who, rest, flushed, rounds);
        if !reading.Nacked? {
          return;
        }
      }
      reading := ScriptOver;
    }

    /** The part of a turn that touches only the channel. */
    method FlushAndPublish(h: ChannelHost, who: nat, script: seq<Event>)
      returns (rest: seq<Event>, reading: Reading, ghost flushed: Stream, ghost rounds: nat, ghost pos: nat)
      requires h.Valid() && who !in h.stream.sent
      modifies h
      ensures h.Valid() && Turn(reading, h.stream, rest) == Try(flushed, who, script)
      ensures flushed == old(Flushed(SlotOf(h))) && who !in flushed.sent
      ensures reading.Acked? ==> Proof(flushed, h.stream, who, rounds, pos) && Lag(h.stream) == Lag(flushed)
      ensures reading.OutOfTime? ==> Lag(h.stream) == Lag(flushed) + 1
    {
      h.FlushConfirms();
      flushed := h.stream;
      rest, reading, rounds, pos := PublishRounds(h, who, script);
    }

    /** What a turn of the outer loop does with its channel once the polling is over. */
    method Conclude(h: ChannelHost, who: nat, reading: Reading, script: seq<Event>)
      returns (rest: seq<Event>, done: bool)
      requires Valid() && h.Valid() && h !in channels && !reading.ScriptOver? && !reading.Nacked?
      modifies this, h
      ensures done == (!reading.Erred? || Remade(script).Some?)
      ensures rest == if !reading.Erred? then script else if done then Remade(script).value else []
      ensures done && reading.Erred? ==> !h.connectionClosed
      ensures done ==> Valid() && channels == old(channels) + [h]
      ensures receipts == old(receipts) + if reading.Acked? then [Receipt(who, true)]
                else if reading.OutOfTime? then [Receipt(who, false)] else []
      ensures done ==> h.stream == if reading.Erred? then Fresh() else FlushOne(old(h.stream), old(h.connectionClosed))
    {
      if !reading.Erred? {
        PublishReceipt(who, reading.Acked?);
      }
      rest, done := ReturnChannel(h, reading.Erred?, script);
    }

    /** One turn of the outer loop: take a channel, publish on it, give it back. */
    method Attempt(who: nat, script: seq<Event>)
      returns (rest: seq<Event>, reading: Reading, ghost host: ChannelHost, ghost flushed: Stream, ghost rounds: nat,
          ghost pos: nat)
      requires Valid() && channels != [] && Unknown(who)
      modifies this, set x | x in channels
      ensures (reading, rest) == OneTurn(old(SlotOf(channels[0])), who, script)
      ensures host == old(channels)[0] && who !in flushed.sent
      ensures Lag(flushed) <= Lag(old(host.stream)) && (Lag(old(host.stream)) == 0 ==> Lag(flushed) == 0)
      ensures forall x :: x in old(channels[1..]) ==> SlotOf(x) == old(SlotOf(x))
      ensures receipts == old(receipts) + match reading
                                          case Acked => [Receipt(who, true)]
                                          case OutOfTime => [Receipt(who, false)]
                                          case _ => []
      ensures !reading.ScriptOver? ==> Valid() && channels == old(channels[1..]) + [host]
      ensures reading.Acked? ==> Proof(flushed, host.stream, who, rounds, pos) && Lag(host.stream) <= Lag(flushed)
      ensures reading.Acked? && Lag(flushed) == 0 ==> Lag(host.stream) == 0
      ensures reading.OutOfTime? ==> Lag(flushed) <= Lag(host.stream) <= Lag(flushed) + 1
      ensures reading.Erred? ==> SlotOf(host) == Slot(Fresh(), false)
    {
      var h := GetChannelFromPool();
      host := h;
      assert h == old(channels)[0] && channels == old(channels[1..]);
      rest, reading, flushed, rounds, pos := FlushAndPublish(h, who, script);
      if !reading.ScriptOver? {
        var done;
        rest, done := Conclude(h, who, reading, rest);
        if !done {
          reading := ScriptOver;
        }
      }
    }

    /** Lags of the pool after a turn that started with quiet channels. */
    static lemma QuietTurn(hosts: seq<ChannelHost>, slots: seq<Slot>, h: ChannelHost, most: int)
      requires slots != [] && SlotsOf(hosts) == slots[1..] + [SlotOf(h)] && Quiet(slots) && Lag(h.stream) <= most
      requires most == 0 ==> Lag(h.stream) == 0
      requires hosts != [] && hosts[|hosts| - 1] == h
      ensures forall x :: x in hosts && x != h ==> Lag(x.stream) == 0
      ensures most == 0 ==> Quiet(SlotsOf(hosts))
    {
      forall x | x in hosts && x != h ensures Lag(x.stream) == 0 {
        var i :| 0 <= i < |hosts| && hosts[i] == x;
        assert SlotsOf(hosts)[i] == SlotOf(x) && i < |hosts| - 1 && slots[1..][i] == slots[i + 1];
      }
    }

    /** The same channels in another order. */
    static ghost predicate Reordered(hosts: seq<ChannelHost>, was: seq<ChannelHost>) {
      |hosts| == |was| && multiset(hosts) == multiset(was)
    }

    static lemma HeadToTail(hosts: seq<ChannelHost>, was: seq<ChannelHost>, later: seq<ChannelHost>)
      requires hosts != [] && Reordered(hosts, was) && later == hosts[1..] + [hosts[0]]
      ensures Reordered(later, was)
    {
      assert hosts == [hosts[0]] + hosts[1..];
    }

    static lemma SameHosts(hosts: seq<ChannelHost>, was: seq<ChannelHost>)
      requires Reordered(hosts, was)
      ensures forall x :: x in hosts ==> x in was
    {
      forall x | x in hosts ensures x in was { assert x in multiset(hosts); }
    }

    /** The same with what it means for the other channels. */
    method OneMore(who: nat, script: seq<Event>)
      returns (rest: seq<Event>, reading: Reading, ghost host: ChannelHost, ghost flushed: Stream, ghost rounds: nat,
          ghost pos: nat)
      requires Valid() && channels != [] && Unknown(who)
      modifies this, set x | x in channels
      ensures (reading, rest) == OneTurn(old(Slots())[0], who, script)
      ensures receipts == old(receipts) + match reading
                                          case Acked => [Receipt(who, true)]
                                          case OutOfTime => [Receipt(who, false)]
                                          case _ => []
      ensures !reading.ScriptOver? ==> Valid() && channels == old(channels)[1..] + [host] && host == old(channels)[0]
      ensures !reading.ScriptOver? ==> Slots() == old(Slots())[1..] + [SlotOf(host)]
      ensures reading.Acked? ==> Proof(flushed, host.stream, who, rounds, pos)
      ensures reading.Acked? && old(AllQuiet()) ==> AllQuiet() && host.stream.sent[pos] == who
      ensures reading.OutOfTime? && old(AllQuiet()) ==>
                Lag(host.stream) <= 1 && forall h :: h in channels && h != host ==> Lag(h.stream) == 0
      ensures reading.Erred? ==> Unknown(who) && SlotOf(host) == Slot(Fresh(), false)
      ensures reading.Erred? && old(AllQuiet()) ==> AllQuiet()
    {
      ghost var before, slots := channels, Slots();
      rest, reading, host, flushed, rounds, pos := Attempt(who, script);
      forall i | 0 < i < |before| ensures SlotOf(before[i]) == slots[i] { assert before[i] in before[1..]; }
      SlotsTurned(before, slots, host);
      if !reading.ScriptOver? && Quiet(slots) {
        QuietTurn(channels, slots, host, if reading.OutOfTime? then 1 else 0);
      }
    }

    /** PublishWithConfirmation: one receipt per finished call, and a success is exactly as true
        as the lag the call found allows. */
    method PublishWithConfirmation(who: nat, script: seq<Event>)
      returns (outcome: Outcome, ghost host: ChannelHost?, ghost flushed: Stream, ghost rounds: nat, ghost pos: nat)
      requires Valid() && channels != [] && Unknown(who)
      modifies this, set x | x in channels
      ensures outcome == Outcomes(old(Slots()), who, script)
      ensures receipts == old(receipts) + match outcome
                                          case Success => [Receipt(who, true)]
                                          case TimedOut => [Receipt(who, false)]
                                          case Unfinished => []
      ensures !outcome.Unfinished? ==> Valid() && Reordered(channels, old(channels)) && host in channels
      ensures outcome.Success? ==> Proof(flushed, host.stream, who, rounds, pos)
      ensures outcome.Success? && old(AllQuiet()) ==> host.stream.sent[pos] == who && AllQuiet()
      ensures outcome.TimedOut? && old(AllQuiet()) ==>
                Lag(host.stream) <= 1 && forall h :: h in channels && h != host ==> Lag(h.stream) == 0
    {
      var rest := script;
      host, flushed, rounds, pos := null, Fresh(), 0, 0;
      while true
        invariant Valid() && channels != [] && Unknown(who)
        invariant Reordered(channels, old(channels)) && receipts == old(receipts)
        invariant old(AllQuiet()) ==> AllQuiet()
        invariant Outcomes(Slots(), who, rest) == Outcomes(old(Slots()), who, script)
        decreases |rest|
      {
        var reading;
        SameHosts(channels, old(channels));
        ghost var before := channels;
        rest, reading, host, flushed, rounds, pos := OneMore(who, rest);
        if !reading.ScriptOver? { HeadToTail(before, old(channels), channels); }
        if reading.ScriptOver? {
          return Unfinished, host, flushed, rounds, pos;
        } else if !reading.Erred? {
          return if reading.Acked? then Success else TimedOut, host, flushed, rounds, pos;
        }
      }
    }

    /** PublishWithConfirmationTransient: every turn opens a channel of its own, so there is
        nothing outstanding on it and a success is always true. */
    method PublishWithConfirmationTransient(who: nat, script: seq<Event>)
      returns (outcome: Outcome, ghost host: ChannelHost?, ghost pos: nat)
      modifies this`receipts
      ensures outcome == TransientOutcome(who, script)
      ensures receipts == old(receipts) + match outcome
                                          case Success => [Receipt(who, true)]
                                          case TimedOut => [Receipt(who, false)]
                                          case Unfinished => []
      ensures outcome.Success? ==>
        && host != null && fresh(host)
        && pos < |host.stream.verdicts| && host.stream.verdicts[pos]
        && pos < |host.stream.sent| && host.stream.sent[pos] == who
        && (forall i :: 0 <= i < |host.stream.sent| ==> host.stream.sent[i] == who)
    {
      var rest := script;
      host, pos := null, 0;
      while true
        invariant receipts == old(receipts) && TransientOutcome(who, rest) == TransientOutcome(who, script)
        decreases |rest|
      {
        var channel := new ChannelHost();
        var reading;
        ghost var rounds;
        rest, reading, rounds, pos := PublishRounds(channel, who, rest);
        host := channel;
        match reading {
          case Acked =>
            PublishReceipt(who, true);
            return Success, host, pos;
          case OutOfTime =>
            PublishReceipt(who, false);
            return TimedOut, host, pos;
          case Erred =>
          case _ =>
            return Unfinished, host, pos;
        }
      }
    }
  }
}
