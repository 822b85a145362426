/** The confirm stream of one opened AMQP channel, as a value.

  A channel in confirm mode numbers its publishes; the broker answers them in that
  order, once each, and the client library appends each answer to the Go channel
  `Confirmations`. A closed Go channel first yields what it still buffers and then the
  zero value, whose `Ack` is false. Nothing else is assumed about the broker. */
module Streams {

  /** Capacity of the Confirmations buffer. */
  const CONFIRM_BUFFER: nat := 100

  /** `sent[i]` is who made publish i, `verdicts[i]` the broker's answer to it (true = ack),
      `taken` how many answers have been removed from the buffer. `tainted` remembers that
      a wait for a confirm timed out here, or that somebody published without waiting. */
  datatype Stream = Stream(sent: seq<nat>, verdicts: seq<bool>, taken: nat, open: bool, tainted: bool)

  predicate WellFormed(st: Stream) {
    st.taken <= |st.verdicts| <= |st.sent|
  }

  /** Publishes on this stream whose answer has not been removed from the buffer. */
  function Lag(st: Stream): int {
    |st.sent| - st.taken
  }

  /** Answers waiting in the buffer. */
  function Buffered(st: Stream): int {
    |st.verdicts| - st.taken
  }

  function Fresh(): Stream {
    Stream([], [], 0, true, false)
  }

  function Send(st: Stream, who: nat): Stream {
    st.(sent := st.sent + [who])
  }

  predicate CanAnswer(st: Stream) {
    st.open && |st.verdicts| < |st.sent| && Buffered(st) < CONFIRM_BUFFER
  }

  function Answer(st: Stream, ack: bool): Stream {
    st.(verdicts := st.verdicts + [ack])
  }

  function Shut(st: Stream): Stream {
    st.(open := false)
  }

  function Take(st: Stream): Stream {
    st.(taken := st.taken + 1)
  }

  /** FlushConfirms: at most one answer is dropped, and none while the connection is closed. */
  function FlushOne(st: Stream, connectionClosed: bool): Stream {
    if !connectionClosed && Buffered(st) > 0 then Take(st) else st
  }

  /** The last `n` publishes are all by `who`, and none before them is. */
  ghost predicate OwnTail(st: Stream, who: nat, n: nat) {
    && n <= |st.sent|
    && forall i :: 0 <= i < |st.sent| ==> (st.sent[i] == who <==> |st.sent| - n <= i)
  }
}
