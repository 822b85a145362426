/** The default receipt handler of the service, on letter objects that may be aliased: the same
  pointer can sit in any number of receipts and queue slots. */
module ReceiptHandler {

  newtype uint32 = x: int | 0 <= x < 0x1_0000_0000

  class Letter {
    var RetryCount: uint32

    constructor (retryCount: uint32)
      ensures RetryCount == retryCount
    {
      RetryCount := retryCount;
    }
  }

  datatype Receipt = Receipt(success: bool, failedLetter: Letter?)

  datatype Report = Retrying(count: uint32) | Refused | Exhausted | NoLetter

  /** What another goroutine does about the letter buffer around one send: nothing, or it closes
      the buffer before the send, or while the send is blocked on a full buffer. */
  datatype Meanwhile = Nothing | ClosesBefore | ClosesBlocked

  /** One turn of the receipt handler: a receipt arrives, or the loop polls for one. */
  datatype Event = Arrive(receipt: Receipt) | Poll(around: Meanwhile)

  function Arrivals(script: seq<Event>): seq<Receipt> {
    if script == [] then [] else Arrived(script[0]) + Arrivals(script[1..])
  }

  function Min(a: nat, b: nat): nat {
    if a <= b then a else b
  }

  /** Retries the letter still has. */
  function Left(maxRetry: uint32, count: uint32): nat {
    if count <= maxRetry then (maxRetry - count) as nat else 0
  }

  predicate Failure(r: Receipt, x: Letter) {
    !r.success && r.failedLetter == x
  }

  /** How many of the receipts report a failure of this very letter object. */
  function Failures(rs: seq<Receipt>, x: Letter): nat {
    if rs == [] then 0 else (if Failure(rs[0], x) then 1 else 0) + Failures(rs[1..], x)
  }

  function AllFailures(rs: seq<Receipt>): nat {
    if rs == [] then 0 else (if rs[0].success then 0 else 1) + AllFailures(rs[1..])
  }

  function Occurrences(xs: seq<Letter>, x: Letter): nat {
    if xs == [] then 0 else Occurrences(xs[..|xs| - 1], x) + if xs[|xs| - 1] == x then 1 else 0
  }

  lemma OccurrencesAppend(xs: seq<Letter>, y: Letter, x: Letter)
    ensures Occurrences(xs + [y], x) == Occurrences(xs, x) + if y == x then 1 else 0
  {
    assert (xs + [y])[..|xs|] == xs;
  }

  ghost function Involved(rs: seq<Receipt>): set<Letter> {
    set r | r in rs && r.failedLetter != null :: r.failedLetter
  }

  /** One letter's books after `seen` of its failures: how often it was queued again, and its
      count. */
  predicate Booked(maxRetry: uint32, start: uint32, seen: int, queued: nat, count: uint32) {
    && seen >= 0
    && queued == Min(seen, Left(maxRetry, start))
    && count as nat == start as nat + queued
  }

  /** Does handling the receipt count a retry on x? */
  predicate Counts(r: Receipt, x: Letter, maxRetry: uint32, count: uint32) {
    Failure(r, x) && count < maxRetry
  }

  /** One more receipt: the books of x move exactly when the receipt is its failure and it has a
      retry left. */
  lemma BooksMove(x: Letter, all: nat, rest: seq<Receipt>, maxRetry: uint32, start: uint32, queued: nat, count: uint32)
    requires rest != [] && Booked(maxRetry, start, all - Failures(rest, x), queued, count)
    ensures var moved := Counts(rest[0], x, maxRetry, count);
      Booked(maxRetry, start, all - Failures(rest[1..], x), if moved then queued + 1
          else queued, if moved then count + 1 else count)
  {
  }

  /** The letter buffer: `taken` is what the dispatcher has received from it so far. */
  class Publisher {
    var letters: seq<Letter>
    var taken: seq<Letter>
    var closed: bool
    const capacity: nat

    constructor (capacity: nat)
      ensures letters == [] && taken == [] && !closed && this.capacity == capacity
    {
      letters, taken, closed := [], [], false;
      this.capacity := capacity;
    }

    ghost predicate Valid()
      reads this
    {
      0 < capacity && |letters| <= capacity
    }

    /** Everything that ever entered the buffer, in order. */
    ghost function Entered(): seq<Letter>
      reads this
    {
      taken + letters
    }

    /** Whether a send finds the buffer closed, at the start or while it waits for room. */
    predicate Shuts(around: Meanwhile)
      reads this
    {
      closed || around.ClosesBefore? || (around.ClosesBlocked? && |letters| == capacity)
    }

    /** safeSend: true exactly when the letter entered the buffer. A send on a full buffer goes
        ahead once the dispatcher has received the oldest letter; on a closed one, or when the
        buffer is closed while it waits, it panics, which the recover turns into false. */
    method SafeSend(letter: Letter, around: Meanwhile) returns (ok: bool)
      requires Valid()
      modifies this
      ensures Valid() && ok == !closed && closed == old(Shuts(around))
      ensures ok ==> letters != [] && letters[|letters| - 1] == letter && Entered() == old(Entered()) + [letter]
      ensures !ok ==> letters == old(letters) && taken == old(taken)
    {
      closed := closed || around.ClosesBefore?;
      if closed {
        return false;
      }
      if |letters| == capacity {
        if around.ClosesBlocked? {
          closed := true;
          return false;
        }
        taken, letters := taken + [letters[0]], letters[1..];
      }
      letters := letters + [letter];
      ok := true;
    }

    /** QueueLetters stops at the first refusal: a prefix of the batch enters, and the answer is
        true exactly when that is all of it. A buffer that is still open has taken them all. */
    method QueueLetters(batch: seq<Letter>, around: nat -> Meanwhile) returns (ok: bool, ghost n: nat)
      requires Valid()
      modifies this
      ensures Valid() && n <= |batch| && ok == (n == |batch|)
      ensures Entered() == old(Entered()) + batch[..n]
      ensures !ok ==> closed
      ensures old(closed) ==> closed && n == 0
    {
      n := 0;
      for i := 0 to |batch|
        invariant Valid() && Entered() == old(Entered()) + batch[..i] && n == i
        invariant old(closed) ==> closed && i == 0
      {
        var sent := SafeSend(batch[i], around(i));
        if !sent {
          return false, n;
        }
        n := n + 1;
        assert batch[..i + 1] == batch[..i] + [batch[i]];
      }
      ok := true;
    }
  }

  class RabbitService {
    var receipts: seq<Receipt>
    var centralErr: seq<Report>
    const maxRetry: uint32
    const publisher: Publisher

    constructor (maxRetry: uint32, publisher: Publisher)
      ensures receipts == [] && centralErr == [] && this.maxRetry == maxRetry && this.publisher == publisher
    {
      receipts, centralErr := [], [];
      this.maxRetry, this.publisher := maxRetry, publisher;
    }

    /** One receipt: count a retry on the letter itself and queue it again, or give up. */
    method HandleReceipt(receipt: Receipt, around: Meanwhile) returns (ghost retried: seq<Letter>)
      requires publisher.Valid()
      modifies this`centralErr, publisher, (if receipt.failedLetter == null then {} else {receipt.failedLetter})
      ensures publisher.Valid()
      ensures publisher.closed == old(if retried == [] then publisher.closed else publisher.Shuts(around))
      ensures var x := receipt.failedLetter;
        if !receipt.success && x != null && old(x.RetryCount) < maxRetry
        then retried == [x] && x.RetryCount == old(x.RetryCount) + 1
        else retried == [] && (x != null ==> x.RetryCount == old(x.RetryCount))
      ensures publisher.Entered() == old(publisher.Entered()) + if publisher.closed then [] else retried
      ensures centralErr == old(centralErr) +
                (if receipt.success then []
                 else if receipt.failedLetter == null then [NoLetter]
                 else if retried == [] then [Exhausted]
                 else [Retrying(receipt.failedLetter.RetryCount)] + if publisher.closed then [Refused] else [])
    {
      retried := [];
      var x := receipt.failedLetter;
      if !receipt.success {
        if x != null {
          if x.RetryCount < maxRetry {
            x.RetryCount := x.RetryCount + 1;
            retried := [x];
            centralErr := centralErr + [Retrying(x.RetryCount)];
            var ok := publisher.SafeSend(x, around);
            if !ok {
              centralErr := centralErr + [Refused];
            }
          } else {
            centralErr := centralErr + [Exhausted];
          }
        } else {
          centralErr := centralErr + [NoLetter];
        }
      }
    }

    /** The counts of every letter after the receipts up to `rest` have been handled. */
    ghost predicate Progressed(start: map<Letter, uint32>, all: seq<Receipt>, rest: seq<Receipt>, retried: seq<Letter>)
      reads start.Keys
    {
      forall x :: x in start ==> ProgressedOne(x, start[x], all, rest, retried)
    }

    ghost predicate ProgressedOne(x: Letter, from: uint32, all: seq<Receipt>, rest: seq<Receipt>, retried: seq<Letter>)
      reads x
    {
      Booked(maxRetry, from, Failures(all, x) - Failures(rest, x), Occurrences(retried, x), x.RetryCount)
    }

    /** Receipt `r` moves the letter it fails from `counts`, and no other. */
    ghost predicate MovedBy(r: Receipt, counts: map<Letter, uint32>)
      reads counts.Keys
    {
      forall x :: x in counts ==>
          x.RetryCount as nat == counts[x] as nat + if Counts(r, x, maxRetry, counts[x]) then 1 else 0
    }

    /** What handling `r` queues again, when its letter stood at `counts`. */
    ghost function QueuedBy(r: Receipt, counts: map<Letter, uint32>): seq<Letter>
      requires r.failedLetter == null || r.failedLetter in counts
    {
      if r.failedLetter != null && Counts(r, r.failedLetter, maxRetry, counts[r.failedLetter]) then [r.failedLetter]
          else []
    }

    /** Progressed, on given counts instead of those on the heap. */
    ghost predicate AllBooked(start: map<Letter, uint32>, counts: map<Letter, uint32>, all: seq<Receipt>,
              rest: seq<Receipt>, retried: seq<Letter>)
      requires start.Keys == counts.Keys
    {
      forall x :: x in start ==>
          Booked(maxRetry, start[x], Failures(all, x) - Failures(rest, x), Occurrences(retried, x), counts[x])
    }

    lemma CountsBooked(start: map<Letter, uint32>, counts: map<Letter, uint32>, all: seq<Receipt>, rest: seq<Receipt>,
              retried: seq<Letter>)
      requires start.Keys == counts.Keys && Progressed(start, all, rest, retried)
      requires forall x :: x in counts ==> counts[x] == x.RetryCount
      ensures AllBooked(start, counts, all, rest, retried)
    {
      forall x | x in start ensures Booked(maxRetry, start[x], Failures(all, x) - Failures(rest, x),
          Occurrences(retried, x), counts[x]) {
        assert ProgressedOne(x, start[x], all, rest, retried);
      }
    }

    /** The books of every letter after the next receipt. */
    lemma Moved(start: map<Letter, uint32>, counts: map<Letter, uint32>, all: seq<Receipt>, rest: seq<Receipt>,
              retried: seq<Letter>)
      requires start.Keys == counts.Keys && rest != []
      requires (rest[0].failedLetter == null || rest[0].failedLetter in counts)
      requires AllBooked(start, counts, all, rest, retried) && MovedBy(rest[0], counts)
      ensures Progressed(start, all, rest[1..], retried + QueuedBy(rest[0], counts))
    {
      var more := QueuedBy(rest[0], counts);
      forall x | x in start ensures ProgressedOne(x, start[x], all, rest[1..], retried + more) {
        BooksMove(x, Failures(all, x), rest, maxRetry, start[x], Occurrences(retried, x), counts[x]);
        if more != [] { OccurrencesAppend(retried, more[0], x); } else { assert retried + more == retried; }
      }
    }

    /** Receive the next receipt and handle it. */
    method Next(around: Meanwhile, ghost counts: map<Letter, uint32>) returns (ghost more: seq<Letter>)
      requires publisher.Valid() && receipts != [] && Involved(receipts) <= counts.Keys
      requires forall x :: x in counts ==> counts[x] == x.RetryCount
      modifies this`receipts, this`centralErr, publisher, Involved(receipts)
      ensures receipts == old(receipts)[1..] && publisher.Valid() && (old(publisher.closed) ==> publisher.closed)
      ensures more == QueuedBy(old(receipts)[0], counts) && MovedBy(old(receipts)[0], counts)
      ensures publisher.Entered() == old(publisher.Entered()) + if publisher.closed then [] else more
      ensures |centralErr| == |old(centralErr)| + Reports(old(receipts)[0]) + if publisher.closed then |more| else 0
    {
      var receipt := receipts[0];
      assert receipt in receipts;
      receipts := receipts[1..];
      more := HandleReceipt(receipt, around);
    }

    /** One turn of the loop, with the books of every letter; `later` has not arrived yet. */
    method Turn(around: Meanwhile, ghost start: map<Letter, uint32>, ghost all: seq<Receipt>,
              ghost later: seq<Receipt>, ghost retried: seq<Letter>)
      returns (ghost more: seq<Letter>)
      requires publisher.Valid() && receipts != []
      requires Involved(receipts) <= start.Keys && Progressed(start, all, receipts + later, retried)
      modifies this`receipts, this`centralErr, publisher, Involved(receipts)
      ensures receipts == old(receipts)[1..] && publisher.Valid() && (old(publisher.closed) ==> publisher.closed)
      ensures Progressed(start, all, receipts + later, retried + more)
      ensures forall x :: x in more ==> x in start
      ensures publisher.Entered() == old(publisher.Entered()) + if publisher.closed then [] else more
      ensures |centralErr| == |old(centralErr)| + Reports(old(receipts)[0]) + if publisher.closed then |more| else 0
    {
      ghost var counts := map x | x in start :: x.RetryCount;
      ghost var rest := receipts + later;
      assert receipts[0] in receipts;
      CountsBooked(start, counts, all, rest, retried);
      more := Next(around, counts);
      Moved(start, counts, all, rest, retried);
      assert rest[1..] == receipts + later;
    }

    /** One event: a receipt arrives, or the loop polls. */
    method OneEvent(e: Event, ghost start: map<Letter, uint32>, ghost all: seq<Receipt>, ghost later: seq<Receipt>,
              ghost retried: seq<Letter>)
      returns (ghost more: seq<Letter>)
      requires publisher.Valid() && Involved(all) <= start.Keys && Suffix(receipts + Arrived(e) + later, all)
      requires Progressed(start, all, receipts + Arrived(e) + later, retried)
      modifies this`receipts, this`centralErr, publisher, start.Keys
      ensures publisher.Valid() && (old(publisher.closed) ==> publisher.closed)
      ensures Suffix(receipts + later, all) && Progressed(start, all, receipts + later, retried + more)
      ensures forall x :: x in more ==> x in start
      ensures publisher.Entered() == old(publisher.Entered()) + if publisher.closed then [] else more
      ensures |centralErr| + AllFailures(receipts + later)
              == |old(centralErr)| + AllFailures(old(receipts) + Arrived(e) + later) + if publisher.closed then |more|
                  else 0
    {
      more := [];
      assert retried + [] == retried;
      match e {
        case Arrive(r) =>
          receipts := receipts + [r];
        case Poll(around) =>
          assert receipts + [] == receipts;
          if |receipts| > 0 {
            ghost var rest := receipts + later;
            SuffixInvolves(receipts, later, all);
            SuffixNext(rest, all);
            more := Turn(around, start, all, later, retried);
            assert rest[1..] == receipts + later;
          }
      }
    }

    /** processPublishReceipts until it sees the shutdown, at the end of the script. Each letter
        object is queued again once per failure handled for it, but never more often than it had
        retries left, however many receipts and queue slots alias it; RetryCount records exactly
        that. The letters that entered the buffer are those queued again before it was closed. */
    method ProcessPublishReceipts(script: seq<Event>) returns (ghost retried: seq<Letter>, ghost entered: seq<Letter>)
      requires publisher.Valid()
      modifies this`receipts, this`centralErr, publisher, Involved(receipts + Arrivals(script))
      ensures publisher.Valid() && (old(publisher.closed) ==> publisher.closed)
      ensures Suffix(receipts, old(receipts) + Arrivals(script))
      ensures forall x :: x in old(Involved(receipts + Arrivals(script))) ==>
                Booked(maxRetry, old(x.RetryCount),
                    Failures(old(receipts) + Arrivals(script), x) - Failures(receipts, x),
                       Occurrences(retried, x), x.RetryCount)
      ensures forall x :: x in retried ==> x in old(Involved(receipts + Arrivals(script)))
      ensures Accepted(entered, retried, publisher.closed) && (old(publisher.closed) ==> entered == [])
      ensures publisher.Entered() == old(publisher.Entered()) + entered
      ensures |centralErr| + AllFailures(receipts)
              == |old(centralErr)| + AllFailures(old(receipts) + Arrivals(script)) + |retried| - |entered|
    {
      ghost var all := receipts + Arrivals(script);
      ghost var start := map x | x in Involved(all) :: x.RetryCount;
      retried, entered := Serve(script, start, all);
      AllHandled(start, all, retried);
    }

    /** The loop itself, with the books of every letter. */
    method Serve(script: seq<Event>, ghost start: map<Letter, uint32>, ghost all: seq<Receipt>)
      returns (ghost retried: seq<Letter>, ghost entered: seq<Letter>)
      requires publisher.Valid() && all == receipts + Arrivals(script) && Involved(all) <= start.Keys
      requires Progressed(start, all, all, [])
      modifies this`receipts, this`centralErr, publisher, start.Keys
      ensures publisher.Valid() && (old(publisher.closed) ==> publisher.closed)
      ensures Suffix(receipts, all) && Progressed(start, all, receipts, retried)
      ensures forall x :: x in retried ==> x in start
      ensures Accepted(entered, retried, publisher.closed) && (old(publisher.closed) ==> entered == [])
      ensures publisher.Entered() == old(publisher.Entered()) + entered
      ensures |centralErr| + AllFailures(receipts) == |old(centralErr)| + AllFailures(all) + |retried| - |entered|
    {
      retried, entered := [], [];
      ghost var before, later := publisher.Entered(), Arrivals(script);
      assert script[0..] == script;
      for i := 0 to |script|
        invariant publisher.Valid() && (old(publisher.closed) ==> publisher.closed)
        invariant later == Arrivals(script[i..])
        invariant Suffix(receipts + later, all) && Progressed(start, all, receipts + later, retried)
        invariant forall x :: x in retried ==> x in start
        invariant Accepted(entered, retried, publisher.closed) && (old(publisher.closed) ==> entered == [])
        invariant publisher.Entered() == before + entered
        invariant |centralErr| + AllFailures(receipts + later)
                  == |old(centralErr)| + AllFailures(all) + |retried| - |entered|
      {
        ArrivalsStep(script, i, receipts);
        later := Arrivals(script[i + 1..]);
        ghost var was := publisher.closed;
        ghost var more := OneEvent(script[i], start, all, later, retried);
        AcceptedNext(entered, retried, more, was, publisher.closed);
        AppendTwice(before, entered, more);
        if !publisher.closed { entered := entered + more; }
        retried := retried + more;
      }
      assert later == [] && receipts + [] == receipts;
    }

    lemma AllHandled(start: map<Letter, uint32>, all: seq<Receipt>, retried: seq<Letter>)
      requires Progressed(start, all, receipts, retried)
      ensures forall x :: x in start ==>
                Booked(maxRetry, start[x], Failures(all, x) - Failures(receipts, x), Occurrences(retried, x),
                    x.RetryCount)
    {
      forall x | x in start
        ensures Booked(maxRetry, start[x], Failures(all, x) - Failures(receipts, x), Occurrences(retried, x),
                  x.RetryCount)
      {
        assert ProgressedOne(x, start[x], all, receipts, retried);
      }
    }
  }

  /** What entered the buffer of all that was queued again: everything before it was closed. */
  predicate Accepted(entered: seq<Letter>, retried: seq<Letter>, closed: bool) {
    entered <= retried && (!closed ==> entered == retried)
  }

  lemma AcceptedNext(entered: seq<Letter>, retried: seq<Letter>, more: seq<Letter>, was: bool, closed: bool)
    requires Accepted(entered, retried, was) && (was ==> closed)
    ensures Accepted(if closed then entered else entered + more, retried + more, closed)
  {
  }

  lemma AppendTwice(a: seq<Letter>, b: seq<Letter>, c: seq<Letter>)
    ensures a + b + c == a + (b + c)
  {
  }

  /** What an event brings in. */
  function Arrived(e: Event): seq<Receipt> {
    if e.Arrive? then [e.receipt] else []
  }

  lemma ArrivalsStep(script: seq<Event>, i: nat, receipts: seq<Receipt>)
    requires i < |script|
    ensures receipts + Arrivals(script[i..]) == receipts + Arrived(script[i]) + Arrivals(script[i + 1..])
  {
    assert script[i..][1..] == script[i + 1..];
  }

  /** Every report but the refusals: one per failed receipt. */
  function Reports(r: Receipt): nat {
    if r.success then 0 else 1
  }

  predicate Suffix(rest: seq<Receipt>, all: seq<Receipt>) {
    |rest| <= |all| && rest == all[|all| - |rest|..]
  }

  lemma SuffixNext(rest: seq<Receipt>, all: seq<Receipt>)
    requires rest != [] && Suffix(rest, all)
    ensures Suffix(rest[1..], all) && AllFailures(rest) == AllFailures(rest[1..]) + Reports(rest[0])
  {
  }

  lemma SuffixInvolves(receipts: seq<Receipt>, later: seq<Receipt>, all: seq<Receipt>)
    requires Suffix(receipts + later, all)
    ensures Involved(receipts) <= Involved(all)
  {
    forall r | r in receipts ensures r in all {
      assert r in receipts + later;
    }
  }
}
