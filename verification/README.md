# Verified model of TurboCookedRabbit

TurboCookedRabbit is a Go client library for RabbitMQ. Its v2 line publishes letters with
confirmations: a letter goes through a bounded buffer, a dispatcher limited by a semaphore, a
cached or transient channel, a broker confirm, an asynchronous receipt, and a retry handler that
puts failures back into the buffer. Its v1 line has pools with per-connection channel quotas, a
publisher with back-pressure, and consumers that can be started and stopped. This project models
those parts in Dafny and proves what they keep in every run.

Two forms are used side by side.

* Where the point is interleaving, every atomic action of every goroutine is a step of a state
  machine, and the broker, the network and the scheduler choose freely among the enabled steps:
  `Machine` (the whole v2 pipeline), `Connections` (v2 connection hosts and their queue),
  `V1Creation`, `V1BackPressure`, `V1Consumer`.
* Where the point is one algorithm, it is the loop over mutable objects that the source has, run
  against a script of what happens to it, or against a fixed set of faults: `ConfirmedPublish`,
  `ReceiptHandler`, `ConnectionRecovery`, `V1Quota`, `V1Channels`, `RandomString`.

What is assumed of the outside: confirms on one channel arrive in publish order, at most one per
publish; a channel or connection object that is closed stays closed and refuses to publish; a Go
channel that is closed is first drained and then yields zero values, so a confirmation read from
it is a nack and a loop that receives until the channel is empty does not end; and the library
closes the `Errors` channel of a connection together with the connection.

## How the v2 proof is built

`Machine` defines the state and the steps, transient publishes, lost connections and the recovery
of channels included. Each module after it proves one part of the invariant step by step:
`PoolCustody` (who holds which channel), `Attribution` (what is outstanding on each channel and
which ack a success rests on), `LetterConservation` (where each letter is), `RetryBudget` (buffer
order, retry counts, semaphore), `LinkCustody` (the connections of transient calls).
`PipelineInvariant` puts them together, `Progress` adds a measure that falls whenever a letter moves
and a rank for the channel work, and `Guarantees` states the results for reachable states.
`RunAccounts` says what the ledger and the streams are, event by event, over whole runs;
`ChannelFacts`, `Endings` and `ErredChannels` add what else every run keeps, what is over for good,
and what becomes of a channel that failed. `FalseSuccess` and `Wedge` give the exact conditions of
the two ways in which a call goes wrong on the channel it holds, `ChannelChange` what follows when
it has to change that channel, and `FlagRace` the exact condition under which the flag of a returned
connection is lost. `StaleConfirm`, `EarlyStop`, `Endings`, `Wedge` and `FlagRace` hold concrete
runs that show which conditions of these results cannot be dropped.

## Where the code does less than it says

* The repository's README.md:62 promises "At Least Once". On a cached channel a success receipt
  can be false: after a wait that timed out, the late confirm is taken by the next caller
  (`StaleConfirm.StaleSuccess`). `Guarantees.SuccessAttribution` says which successes are false: the
  ack that was read belongs to this call if and only if the lag it found is smaller than the number
  of its own publishes on that channel. `FalseSuccess.FalseSuccessExactly` says when a call is at
  risk on the channel it holds: some run misleads it there if and only if one of the publishes
  outstanding on that channel has been acked or not answered; a lag does no harm there exactly when
  all of it is nacks that wait in the buffer. That protects the call only as long as its publish
  does not err: a publish that errs sends it on to another channel, and so from every reachable
  state in which a call is about to publish some run misleads it, whatever its lag
  (`ChannelChange.AnyCallCanBeMisled`). A success on a transient channel is always true
  (`Guarantees.TransientSuccess`).
* `triggerConnectionRecovery` flushes `Errors` until it is empty. If the connection it has just
  dialled is closed again by then, the flush does not end, and the goroutine neither dials again nor
  gives its channel back until another goroutine has reconnected that host (`Wedge.LeavesExactly`,
  `Wedge.WedgeStays`, `Wedge.DialFrees`). However many channels and connections there are, one
  publish that errs on each channel and connections that are lost before the flush can block the
  whole pool for good (`Wedge.CaughtReached`, `Wedge.CaughtForever`).
* A stop signal taken at the top of the auto-publish loop ends the loop without closing the
  buffer. The buffer can then fill up and block the retry handler until the auto-publisher is
  started again (`EarlyStop.StuckReached`, `Progress.StuckStays`, `Progress.RestartFrees`).
* Calls caught in the flush and consume loops keep their channels. Before shutdown, with room for
  one element in every buffer, the system can always go on by itself until it is at rest, however
  many calls are caught (`Progress.Advances`, `Guarantees.AlwaysComesToRest`). As long as fewer
  cached channels are kept that way than there are, fewer transient calls are caught than there are
  connections, and the caught calls of the dispatcher leave a place in its semaphore, it rests only
  when every letter is settled except those of the caught calls, or with the handler stuck as above
  (`Progress.RestDrained`, `Guarantees.EveryLetterSettles`), and these stuck states are the only
  ones that block the handler (`Guarantees.HandlerBlockedExactly`). If every cached channel is kept,
  the pool stays empty until a consume loop acts or one of those connections is dialled
  (`Wedge.KeptExactly`, `Wedge.PoolKeptForever`).
* A connection that is returned with the flag set is meant to be recovered before it is handed out
  again. The flag can be lost before the next Connect on it succeeds if and only if another
  goroutine is just then past its own Connect and not yet past the unflag, and is not held up in the
  flush for good: it is through the flush, or finds `Errors` open, or somebody can still renew
  `Errors` with an open connection before the next Connect succeeds (`FlagRace.FlagLostExactly`). In
  every other case the flag works (`Connections.HandedOutCleared`), and in this one the connection
  can be handed out as it is (`FlagRace.HandedOutUncleared`).
* A letter object that has no retries left is given up: a letter can end as exhausted or refused,
  so the pipeline delivers it at least once only if one of its publishes is acked.
* In v1, connections made with TLS keep an ackable quota of zero, so the channel pool never
  initializes with TLS; and the quota for ackable channels is guarded by the number of normal
  channels, so with several connections and one normal channel it initializes only if there are no
  more ackable channels than connections (`V1Quota.NewPools` has the exact condition). When the
  ackable part fails the code clears the queue of normal channels, not the ackable one.
* In v1, comments speak of giving up after three full connections; the code gives up after four
  (`V1Quota.ChannelPool.CreateChannelHost`).
* In v1, `RemoveChannel` exists but nothing calls it, so counted channels are never given back:
  with every connection at its quota a bad channel cannot be replaced before a connection is
  (`V1Creation.FullStays`, `V1Creation.CreationsBounded`).
* In v1, `StopConsuming` sends while it holds the lock. After the loop has heard its stop, the
  second further call blocks for good unless the loop finishes in between or somebody calls the
  exported `FlushStop` (`V1Consumer.TwoMoreStopsWedge`, `V1Consumer.WedgedStays`).
* `RandomStringFromSource` has an alphabet of 74 letters but six-bit indices, so `Q` to `Z` never
  appear (`RandomString.NeverWritten`).
* The branch of the receipt handler for a failed receipt without its letter is never taken for
  receipts of this publisher (`Guarantees.LettersConserved`).

## Model

| member | source | states |
|---|---|---|
| `Guarantees.ChannelsPartitioned` | v2/pkg/tcr/connectionpool.go:206-248 | In every reachable state each cached channel is in the pool once or with exactly one goroutine, never both, and a goroutine that gives a channel back never blocks. |
| `Guarantees.LagLaw` | v2/pkg/tcr/publisher.go:187-241 | While a call waits, the next confirmation on its channel answers the publish exactly `lag` places before its latest one; it is the call's own if and only if `lag` is below the number of its publishes there; on a channel without timeouts and unconfirmed publishes the lag is 0. |
| `Guarantees.LagSteps` | v2/pkg/tcr/channelhost.go:57-101 | How each operation changes its channel: a flush removes one answer exactly if the connection is open and an answer is there, and otherwise nothing; a publish raises the lag by one, a read lowers it by one, a timeout keeps the publish outstanding, a new channel starts at 0. |
| `Guarantees.ConfirmationExactly` | v2/pkg/tcr/publisher.go:214-240 | A waiting call reads exactly when an answer is buffered or the channel is closed; it succeeds exactly if that answer is an ack, and otherwise publishes again on the same channel; a timeout at any moment ends it as failed. |
| `Guarantees.SuccessAttribution` | v2/pkg/tcr/publisher.go:223-234 | Every success rests on a broker ack, and the ack is for a publish of this very call exactly when lag < rounds. |
| `Guarantees.CleanSuccess` | v2/pkg/tcr/publisher.go:187-241 | On a channel where no wait timed out and nobody published without waiting, a success means that the broker acked this call's publish. |
| `Guarantees.TransientSuccess` | v2/pkg/tcr/publisher.go:436-501 | A success of a transient publish means that the broker acked a publish of this call, in every run. |
| `FalseSuccess.FalseSuccessExactly` | v2/pkg/tcr/publisher.go:187-241 | A call that has flushed its channel can be given a success on that channel for somebody else's publish, in some run, if and only if one of the publishes outstanding there has been acked or not answered; with nothing outstanding it cannot. This holds for the channel it has, as long as its publish there does not err. |
| `FalseSuccess.CanBeMisled` | v2/pkg/tcr/publisher.go:196-240 | The run that does it: publish again for each nack in front, then read the first answer that is or can be an ack. |
| `FalseSuccess.NeverMisled` | v2/pkg/tcr/publisher.go:196-240 | If everything outstanding has been nacked, no run gives the call a false success on that stream, whatever other goroutines do. |
| `ChannelChange.AnyCallCanBeMisled` | v2/pkg/tcr/publisher.go:196-212 | No lag protects a call beyond that: from every reachable state in which a call is at the label Publish, some run gives it a success, on a channel opened later, for another call's publish. Its publish errs, it gives the remade channel back, another call's wait times out there, and it takes that channel. |
| `Guarantees.SuccessesWithinAcks` | v2/pkg/tcr/publisher.go:225-234 | Over any interleaving, stale confirmations included, there are never more successes than broker acks. |
| `Guarantees.AcksDistinct` | v2/pkg/tcr/publisher.go:225-234 | Different successes rest on different acked publishes. |
| `Guarantees.LettersConserved` | v2/pkg/tcr/rabbitservice.go:413-444 | For every letter, what was queued or published from outside, transient publishes included, is in exactly one place of the pipeline or has exactly one outcome; every failed receipt carries its letter and no success does. |
| `Guarantees.EveryLetterSettles` | v2/pkg/tcr/publisher.go:520-585 | From every reachable state before shutdown with capacities of at least 1, in which fewer cached channels are kept by consume loops and caught calls than there are, fewer transient calls are caught than there are connections, and caught calls do not fill the semaphore, some run of the system's own steps settles every letter but those of calls that are caught; only if a stop had left the buffer open can it end with the handler stuck instead. |
| `Guarantees.AlwaysComesToRest` | v2/pkg/tcr/publisher.go:520-585 | Without the three counts, and so with any number of caught calls, some run of the system alone still comes to rest: no free call, no receipt, letter or handler is left that could go on. |
| `Guarantees.HandlerBlockedExactly` | v2/pkg/tcr/publisher.go:525-529 | In the states of EveryLetterSettles a handler that wants to queue a letter again is blocked in every continuation without a restart if and only if a stop left the buffer open and it is full. |
| `Guarantees.RetriesBounded` | v2/pkg/tcr/rabbitservice.go:424-433 | RetryCount of a letter object is its initial value plus its requeue attempts, however often it was queued; the attempts never exceed the retries it had left, and the 32-bit increment never wraps. |
| `Guarantees.ExhaustedExactly` | v2/pkg/tcr/rabbitservice.go:424-433 | A letter is given up only when no retry is left: RetryCount is at MaxRetryCount and every retry it had at the start has been tried. |
| `RunAccounts.RetriesExactly` | v2/pkg/tcr/rabbitservice.go:424-433 | Over every run a letter object is tried again at each of its failed receipts until its retries are used up, and given up at each one after that. |
| `RunAccounts.AccountsExact` | v2/pkg/tcr/rabbitservice.go:413-444 | Every counter and history of the machine is the number of the events it stands for: letters queued while the buffer is open, publishes started, receipts handled, letters requeued and refused, errors reported less drained, stops asked for less taken. |
| `RunAccounts.StreamsExact` | v2/pkg/tcr/publisher.go:196-240 | On each channel the publishes are those of the calls that held it, in order, and its answers those that the broker gave, as it gave them. |
| `RunAccounts.PoolsFifo` | v2/pkg/tcr/connectionpool.go:206-233 | Channels and connections come out of their queues in the order in which they went in. |
| `RunAccounts.ReceiptsFifo` | v2/pkg/tcr/rabbitservice.go:421-423 | The handler takes the receipts in the order in which they reached it. |
| `Guarantees.PublishesBounded` | v2/pkg/tcr/publisher.go:553-572 | The dispatcher starts at most one publish per letter accepted from outside plus one per retry that was left. |
| `Guarantees.ParallelBounded` | v2/pkg/tcr/publisher.go:545-572 | At most MaxCacheChannelCount / 2 + 1 publishes of the dispatcher run at a time. |
| `ChannelFacts.ParallelExactly` | v2/pkg/tcr/publisher.go:545-572 | The dispatcher waits with a letter exactly while MaxCacheChannelCount / 2 + 1 of its publishes are running. |
| `ChannelFacts.ParallelReached` | v2/pkg/tcr/publisher.go:545-572 | Some run has any number up to that running at once. |
| `Guarantees.LeftBehind` | v2/pkg/tcr/publisher.go:574-585 | Letters leave the buffer in the order they entered; those left behind at close are exactly the ones accepted after the dispatcher last saw the buffer empty, and nothing enters or leaves afterwards. |
| `Endings.StopCloses` | v2/pkg/tcr/publisher.go:574-585 | A stop taken after the dispatcher saw the buffer empty is final: in every continuation the buffer is closed, the dispatcher stopped, nothing is dispatched, and the letters queued since stay where they are. |
| `Endings.ClosedExactly` | v2/pkg/tcr/publisher.go:520-585 | The buffer is closed in a run if and only if such a stop was taken in it. |
| `Endings.SendsExactly` | v2/pkg/tcr/publisher.go:619-628 | A send waits exactly while the buffer is open and full; on a closed buffer it ends at once and nothing enters. |
| `Endings.LeftBehindReached` | v2/pkg/tcr/publisher.go:574-585 | Such a state is reached, with a letter left behind and a retry refused. |
| `Endings.ShutdownTakesEffect` | v2/pkg/tcr/rabbitservice.go:413-420 | After a shutdown no receipt is handled and no error drained in any run. |
| `Endings.CloseSilences` | v2/pkg/tcr/channelhost.go:57-80 | On a channel that has been closed nothing is published or answered in any run. |
| `Endings.SeverExactly` | v2/pkg/tcr/connectionhost.go:62-128 | A connection that is lost takes exactly its own channels with it. |
| `ChannelFacts.OpenOnOpen` | v2/pkg/tcr/connectionpool.go:235-248 | In every reachable state a channel that can still publish is on an open connection. |
| `ChannelFacts.TransientClosed` | v2/pkg/tcr/publisher.go:463-492 | A channel that a transient publish has had is closed once the publish has let it go. |
| `ChannelFacts.ReceiptsOnPublishes` | v2/pkg/tcr/publisher.go:631-647 | Receipts are about publishes: an unconfirmed publish is reported as a success exactly if it took place, and a confirmed one is decided, either way, only after it took place. |
| `ChannelFacts.AnswersWait` | v2/pkg/tcr/channelhost.go:70-73 | A cached channel never buffers more than 100 confirmations, and the broker waits exactly when there are 100. |
| `ChannelFacts.AlwaysWithin` | v2/pkg/tcr/publisher.go:619-647 | Letters, receipts and error reports never exceed their buffers. |
| `PoolCustody.StepCustody` | v2/pkg/tcr/connectionpool.go:206-248 | Every step of every goroutine keeps the partition of the cached channels. |
| `PoolCustody.ReturnNeverBlocks` | v2/pkg/tcr/connectionpool.go:103-105 | The send at the end of ReturnChannel always finds room. |
| `PoolCustody.Partition` | v2/pkg/tcr/connectionpool.go:206-233 | Occurrences in the pool plus holders is 1 for every channel. |
| `ErredChannels.ErredNeverReturns` | v2/pkg/tcr/connectionpool.go:214-248 | A channel on which a publish or a subscription has failed never comes back to the pool: whenever its host is there again, in any run, it carries a new one. |
| `ErredChannels.SoundReturnsAsIs` | v2/pkg/tcr/connectionpool.go:214-233 | A channel on which nothing has failed goes back as it is. |
| `ErredChannels.RecoveryExactly` | v2/pkg/tcr/connectionpool.go:143-189 | The health check is passed exactly if nothing was found wrong and the connection is open, the dialling exactly if it is open or a dial succeeds, and a channel is made only on an open connection. |
| `ErredChannels.ConsumerEnds` | v2/pkg/tcr/consumer.go:188-292 | A consume loop that consumes can always be ended and then gives its channel back as it is, or can lose the channel, which it then makes anew. |
| `Attribution.NextTracks` | v2/pkg/tcr/publisher.go:187-241 | One act of the goroutine that holds a channel keeps the lag law on it. |
| `Attribution.NextEvidence` | v2/pkg/tcr/publisher.go:223-234 | When that act is the success, what it records about the ack is true. |
| `Attribution.StepAttributed` | v2/pkg/tcr/publisher.go:187-241 | Every step of the pipeline, the broker and the network keeps the lag law on all channels and the evidence of all successes. |
| `LetterConservation.OneReceipt` | v2/pkg/tcr/publisher.go:631-647 | A publish call creates a receipt exactly when it decides its outcome: one receipt, which is a success or carries the same letter, never both. |
| `LetterConservation.StepConserved` | v2/pkg/tcr/rabbitservice.go:413-444 | Every step keeps the balance of every letter. |
| `RetryBudget.StepBudget` | v2/pkg/tcr/rabbitservice.go:424-433 | Every step keeps the retry account of every letter object, aliased or not. |
| `RetryBudget.StepFifo` | v2/pkg/tcr/publisher.go:545-585 | Every step keeps the letter buffer in first-in first-out order, and after close exactly the letters since the last empty look. |
| `RetryBudget.StepTotals` | v2/pkg/tcr/publisher.go:553-572 | Every step keeps the balance between publishes started, letters dequeued, letters accepted and retry attempts. |
| `RetryBudget.StepBounded` | v2/pkg/tcr/publisher.go:545-572 | The semaphore counts the running publishes of the dispatcher, and none is running when a dispatch loop starts. |
| `LinkCustody.StepLinks` | v2/pkg/tcr/connectionpool.go:274-302 | Every connection is in the queue or with a transient call that is opening its channel. |
| `ChannelFacts.LinksPartitioned` | v2/pkg/tcr/connectionpool.go:274-302 | Every connection is in the queue once or with exactly one transient call that is opening its channel, never both. |
| `PipelineInvariant.StepInv` | v2/pkg/tcr/publisher.go:520-585 | Custody, attribution, conservation, budget and the connections together are kept by every step. |
| `Progress.StepWork` | v2/pkg/tcr/rabbitservice.go:425-433 | Without new letters from outside, each step that moves a letter lowers a measure of work and no step raises it. |
| `Progress.MovesBounded` | v2/pkg/tcr/publisher.go:553-572 | So any run without new letters moves letters at most as often as the measure says at its start. |
| `Progress.Advances` | v2/pkg/tcr/publisher.go:631-647 | Deadlock freedom: in every state that is not at rest, some step is enabled that lowers the measure or the rank, even with every buffer full and any number of calls caught. |
| `Progress.RestDrained` | v2/pkg/tcr/publisher.go:553-585 | With the three counts a state at rest has every letter drained but those of caught calls, or is stuck. |
| `Progress.StepWedged` | v2/pkg/tcr/connectionpool.go:166-189 | Only a lost connection can bring a recovery into the flush that does not end, so the system's own steps keep the three counts. |
| `Progress.Drains` | v2/pkg/tcr/rabbitservice.go:421-438 | Hence some run of the system alone drains every letter but those of caught calls, or ends in a stuck state if a stop had left the buffer open. |
| `Progress.DrainedSettled` | v2/pkg/tcr/rabbitservice.go:413-444 | Once drained, every letter has an outcome, was left behind by a stop, or is with a caught call, each exactly once. |
| `Progress.StuckStays` | v2/pkg/tcr/publisher.go:525-529 | If a stop left the buffer open and full, a handler blocked on it stays blocked in every continuation in which nobody starts the auto-publisher again. |
| `Progress.RestartFrees` | v2/pkg/tcr/publisher.go:509-517 | Starting it again takes a letter out, and the handler goes on. |
| `Wedge.LeavesExactly` | v2/pkg/tcr/connectionpool.go:181-188 | A recovering goroutine leaves the flush of Errors exactly by finding its connection open. |
| `Wedge.WedgeStays` | v2/pkg/tcr/connectionpool.go:166-189 | If the connection is closed again before the flush, the goroutine stays in it in every run in which nobody else dials that connection. |
| `Wedge.DialFrees` | v2/pkg/tcr/connectionpool.go:166-189 | Such a dial frees it. |
| `Wedge.KeptExactly` | v2/pkg/tcr/connectionpool.go:206-211 | As many channels are kept by consume loops and caught calls as there are if and only if every cached channel is with one of them. |
| `Wedge.PoolKeptForever` | v2/pkg/tcr/connectionpool.go:166-189 | Then the pool stays empty and these calls stay as they are, letters unsettled, in every run in which the consume loops keep their channels and nobody dials a closed connection of a cached channel. |
| `Wedge.CaughtReached` | v2/pkg/tcr/connectionpool.go:235-248 | For every number of channels and connections some run ends with all channels caught in the flush: one publish that errs on each, and connections lost before the flush. |
| `Wedge.CaughtForever` | v2/pkg/tcr/connectionpool.go:235-248 | From then on the pool stays empty and no letter of a caught call is settled in any run in which no transient publish is started, dials included: nobody is left who could dial. |
| `EarlyStop.StuckReached` | v2/pkg/tcr/publisher.go:525-529 | Such a state is reached. |
| `StaleConfirm.StaleSuccess` | v2/pkg/tcr/publisher.go:223-240 | A concrete run in which a success receipt is false: its lag is 1 and the call published once. |
| `ConfirmedPublish.ChannelHost.MakeChannel` | v2/pkg/tcr/channelhost.go:57-80 | A channel made again starts with a fresh confirm stream, whatever the old one held; if confirm mode is refused the new channel is left with the old buffer. |
| `ConfirmedPublish.ChannelHost.FlushConfirms` | v2/pkg/tcr/channelhost.go:83-101 | Removes the first buffered confirmation exactly if the connection is open and there is one, and otherwise nothing. |
| `ConfirmedPublish.ReadProves` | v2/pkg/tcr/publisher.go:225-234 | An ack read while waiting answers the publish `lag` places back, which is the call's own if and only if lag < rounds. |
| `ConfirmedPublish.ConnectionPool.ReconnectChannel` | v2/pkg/tcr/connectionpool.go:235-248 | Ends at the first attempt that goes through, with a fresh confirm stream, and is unfinished only if there is none. |
| `ConfirmedPublish.ConnectionPool.ReturnChannel` | v2/pkg/tcr/connectionpool.go:214-233 | A cached channel goes back to the tail of the pool, made anew if it erred and flushed otherwise. |
| `ConfirmedPublish.ConnectionPool.Wait` | v2/pkg/tcr/publisher.go:214-240 | The polling loop comes to what PollExactly says; an ack or a nack leaves the lag as it was, and a timeout raises it by one. |
| `ConfirmedPublish.PollExactly` | v2/pkg/tcr/publisher.go:214-240 | The wait is decided by the first event that ends one: out of time exactly at the timer, acked exactly at a poll that finds a true answer, nacked at one that finds a false answer or a drained closed buffer; without such an event it goes on. One answer is removed if there is one. |
| `ConfirmedPublish.ConnectionPool.PublishRounds` | v2/pkg/tcr/publisher.go:196-240 | Comes to what TryReadsNacks and TryEnds say; each round adds one own publish, and an ack comes with proof of what it answers. |
| `ConfirmedPublish.TryReadsNacks` | v2/pkg/tcr/publisher.go:196-240 | Only nacks make a call publish again: every answer it read before the last one is a nack, and an ack that it reads ends it. |
| `ConfirmedPublish.TryEnds` | v2/pkg/tcr/publisher.go:196-240 | It ends erred exactly at a publish that the channel refuses, out of time at the timer, acked at the poll that read the ack. |
| `ConfirmedPublish.ConnectionPool.Attempt` | v2/pkg/tcr/publisher.go:187-241 | One turn: takes the head channel, creates one receipt if it decides, gives the channel back, touches no other channel. |
| `ConfirmedPublish.ConnectionPool.PublishWithConfirmation` | v2/pkg/tcr/publisher.go:181-242 | The outcome is the one that FirstAnswerDecides and ErrorGoesOn describe; a finished call creates exactly one receipt and keeps the channels of the pool; a success comes with its proof; starting from quiet channels a success is this call's and a timeout leaves one answer outstanding, on the channel it used. |
| `ConfirmedPublish.FirstAnswerDecides` | v2/pkg/tcr/publisher.go:187-241 | A call whose first publish goes through succeeds if the first poll that finds something before the timer finds an ack, and times out if the timer comes first. |
| `ConfirmedPublish.ErrorGoesOn` | v2/pkg/tcr/publisher.go:209-212 | A publish that errs is never the end: the channel is made again, goes to the tail, and the call goes on with the next one. |
| `ConfirmedPublish.ConnectionPool.PublishWithConfirmationTransient` | v2/pkg/tcr/publisher.go:436-501 | In every run, nacks, timeouts and closed channels included, a success means that the broker acked a publish of this letter made in this call. |
| `ConfirmedPublish.TransientSucceeds` | v2/pkg/tcr/publisher.go:436-501 | After any number of refused publishes a transient call succeeds with the first one that goes through and is acked. |
| `ReceiptHandler.BooksMove` | v2/pkg/tcr/rabbitservice.go:424-433 | One more receipt moves the account of a letter exactly when it is a failure of that letter and a retry is left. |
| `ReceiptHandler.Publisher.SafeSend` | v2/pkg/tcr/publisher.go:619-628 | True exactly when the letter entered the buffer; false when the buffer is closed before the send or while it waits for room, and then nothing entered. |
| `ReceiptHandler.Publisher.QueueLetters` | v2/pkg/tcr/publisher.go:600-610 | A prefix of the batch enters, in order; the answer is true exactly when that is all of it, and otherwise the buffer was closed on the way. |
| `ReceiptHandler.RabbitService.HandleReceipt` | v2/pkg/tcr/rabbitservice.go:422-438 | The retry policy on one receipt: which letter object is counted and queued again, and exactly which errors are reported. |
| `ReceiptHandler.RabbitService.Moved` | v2/pkg/tcr/rabbitservice.go:422-438 | The accounts of all letters after the next receipt, when several receipts may name the same object. |
| `ReceiptHandler.RabbitService.ProcessPublishReceipts` | v2/pkg/tcr/rabbitservice.go:413-444 | Receipts arriving meanwhile included, each letter object is queued again once per failure handled, but never more often than it had retries left, however many receipts alias it; RetryCount records exactly that; what entered the buffer is what was queued again before it was closed; and the error reports are counted. |
| `Connections.OneOpenConnection` | v2/pkg/tcr/connectionhost.go:62-128 | However many goroutines reconnect a host, it never has two open connections, and it has dialled at most one more than it has seen closed. |
| `Connections.OverwritesClosed` | v2/pkg/tcr/connectionhost.go:73-124 | The connection that is overwritten is closed, and so is every other one of that host. |
| `Connections.ConnectionsPartitioned` | v2/pkg/tcr/connectionpool.go:113-200 | Every connection is in the queue or owned by exactly one goroutine. |
| `Connections.HandedOutCleared` | v2/pkg/tcr/connectionpool.go:143-200 | A connection returned with the flag set is not handed out again before a Connect on it has succeeded, unless a goroutine past its own Connect could still take the flag away when it was set. |
| `Connections.HandedOutOpen` | v2/pkg/tcr/connectionpool.go:143-164 | A connection is handed out exactly by a look that finds it open with no error and no flag seen before, or by the unflag that ends the getter's own recovery. |
| `Connections.HandedOutInRun` | v2/pkg/tcr/connectionpool.go:143-189 | In every run whoever uses a connection found it so on the way there. |
| `Connections.JudgedInRun` | v2/pkg/tcr/connectionpool.go:145-157 | And whoever goes on without a recovery has looked and found neither an error nor a flag. |
| `Connections.RecoveredExactly` | v2/pkg/tcr/connectionpool.go:159-161 | A look leads to a recovery exactly if an error or a flag was seen or the connection is closed. |
| `Connections.ConnectedExactly` | v2/pkg/tcr/connectionhost.go:62-128 | A recovery goes on to the flush exactly when it finds the connection open, or gives the lock up after a success. |
| `Connections.SucceededExactly` | v2/pkg/tcr/connectionhost.go:73-124 | Under the lock a success is the connection found open at the second look, or a new one installed with its Errors channel. |
| `Connections.FlagMoves` | v2/pkg/tcr/connectionpool.go:193-200 | A flag changes only by a flagged return and by an unflag. |
| `Connections.QueueFifo` | v2/pkg/tcr/connectionpool.go:126-141 | Connections leave the queue in the order in which they were put back. |
| `Connections.ClosedStays` | v2/pkg/tcr/connectionhost.go:62-128 | A connection that has been closed is never open again; only a new one is. |
| `FlagRace.FlagLostExactly` | v2/pkg/tcr/connectionpool.go:166-200 | For every reachable state and every owner that returns a connection with the flag set: some run removes the flag before the next success of a Connect if and only if another goroutine is past its own Connect and through the flush, or in the flush with Errors open, or in it with Errors closed while the holder of the reconnect lock, if any, has not already succeeded with a connection that is closed again. |
| `FlagRace.HandedOutUncleared` | v2/pkg/tcr/connectionpool.go:166-200 | When the flag is lost the connection can be handed out uncleared: a concrete run. |
| `Connections.DrainLeaves` | v2/pkg/tcr/connectionpool.go:181-188 | A goroutine leaves the flush of Errors exactly by finding the installed Errors channel open. |
| `Connections.DrainStays` | v2/pkg/tcr/connectionpool.go:166-189 | If the connection is closed again before, it stays there in every run in which no other goroutine installs the Errors channel of a new connection. |
| `Connections.StepInv` | v2/pkg/tcr/connectionhost.go:62-128 | Every step keeps the lock discipline of the reconnect and the custody of the queue. |
| `ConnectionRecovery.ConnectionHost.ConnectWithErrorHandler` | v2/pkg/tcr/connectionhost.go:62-128 | An open connection is never replaced; a closed one is replaced exactly when the dial succeeds. |
| `ConnectionRecovery.ConnectionPool.TriggerConnectionRecovery` | v2/pkg/tcr/connectionpool.go:166-189 | Dials until the first success; then, exactly if the connection is not closed between Connect and the flush, it ends with the connection open, its errors drained and its flag cleared, and otherwise it flushes for ever. An open connection is kept without a dial. It is still dialling only if the script has no success. |
| `ConnectionRecovery.RecoverExactly` | v2/pkg/tcr/connectionpool.go:166-189 | The same for the function of the script that the loops are proved to follow. |
| `ConnectionRecovery.ConnectionPool.VerifyHealthyConnection` | v2/pkg/tcr/connectionpool.go:143-164 | Recovers exactly a connection that is closed, flagged or has an error, and comes to what RecoverExactly says; when it returns, the connection is open and unflagged, and it was replaced exactly when it was closed; a connection in order is not held up; no other flag changed. |
| `ConnectionRecovery.ConnectionPool.GetConnection` | v2/pkg/tcr/connectionpool.go:113-124 | Returns exactly when the health check of the head of the queue does, and then hands it out, healthy and unflagged. |
| `ConnectionRecovery.ConnectionPool.ReturnConnection` | v2/pkg/tcr/connectionpool.go:193-200 | The connection goes to the tail, flagged if asked, and no other flag changes. |
| `ConnectionRecovery.ConnectionPool.CreateCacheChannel` | v2/pkg/tcr/connectionpool.go:251-271 | Tries the connections in turn until one opens the channel, the first one if it is in order; afterwards exactly the ones that failed since their last success are newly flagged and the successful one is not; it gives up only with the script. |
| `ConnectionRecovery.MarkedNext` | v2/pkg/tcr/connectionpool.go:251-271 | The flags after one more try, from those before it. |
| `ConnectionRecovery.TurnedInTurn` | v2/pkg/tcr/connectionpool.go:191-200 | After any number of turns the queue is still the round robin over the connections in order. |
| `ConnectionRecovery.ConnectionPool.InitializeConnections` | v2/pkg/tcr/connectionpool.go:75-108 | Start-up fails exactly when a dial fails (or none is configured); otherwise channel i has id i and sits on the connection whose turn it was, which is i mod MaxConnectionCount if no channel failed to open; a network without faults fills the pool. |
| `V1Quota.QuotaAdmits` | v1/pkg/pools/connectionpool.go:74-86 | Channel i finds room on its connection exactly when there is one connection, or more than one normal channel, or i is among the first on each. |
| `V1Quota.QuotaTight` | v1/pkg/pools/connectionpool.go:74-86 | The quota is tight: with one connection it is the number asked for, and otherwise, unless the guard cuts it to one, all connections together have room for more than that number but by at most one each. |
| `V1Quota.ChannelPool.CreateChannelHost` | v1/pkg/pools/channelpool.go:145-192 | Chooses the first connection in the queue with room out of at most four looks, counts it exactly once, and gives up exactly after four full ones. |
| `V1Quota.ChannelPool.CreateInTurn` | v1/pkg/pools/channelpool.go:145-192 | While the quota allows it the next channel goes to the head of the queue, which keeps the round robin; once it does not, the search gives up. |
| `V1Quota.ChannelPool.RoundRobinBalances` | v1/pkg/pools/channelpool.go:103-142 | Under the round robin the counts of any two connections differ by at most one. |
| `V1Quota.ChannelPool.Initialize` | v1/pkg/pools/channelpool.go:103-142 | Succeeds if and only if no channel fails to open and the ackable channels fit; then both kinds are spread evenly and ids are consecutive; on failure only the normal queue is cleared. |
| `V1Quota.NewPools` | v1/pkg/pools/channelpool.go:37-80 | The same from the configuration on: with the quotas that the connection pool computes, the exact condition under which start-up succeeds. |
| `V1Channels.ChannelPool.Replace` | v1/pkg/pools/channelpool.go:243-261 | The first attempt that decides opens a channel under the old id or tells that there is no room; failures before it are tried again. |
| `V1Channels.ChannelPool.Dequeue` | v1/pkg/pools/channelpool.go:217-266 | The head of the queue is handed out itself if and only if it is healthy and unflagged; otherwise it is replaced under its id exactly if the first attempt that decides opens a channel, and passed over with its flag set exactly if that attempt finds no room. |
| `V1Channels.ChannelPool.GetChannel` | v1/pkg/pools/channelpool.go:206-267 | A head in order is handed out at once; after any number of channels that were passed over, each for want of room, hands out the next one in turn or its replacement; an id that is flagged or was passed over is handed out only as a new channel; exactly the ids passed over are newly flagged and the id handed out is not. |
| `V1Channels.TurnedKeepsIds` | v1/pkg/pools/channelpool.go:206-286 | Passing channels over loses no id and duplicates none. |
| `V1Channels.UseChannel` | v1/pkg/pools/channelpool.go:206-286 | Taking a channel and giving it back keeps the ids of the pool, replaced channels included, and leaves the id flagged exactly if it was returned as bad. |
| `V1Creation.QuotaKept` | v1/pkg/pools/channelpool.go:153-189 | In every concurrent run, with failures and replaced connections, no connection counts more channels than its quota, although the check and the increment lock separately. |
| `V1Creation.QuotaReached` | v1/pkg/pools/channelpool.go:145-192 | Some run fills every connection up to its quota for both kinds. |
| `V1Creation.CheckedExactly` | v1/pkg/pools/channelpool.go:153-189 | A connection that is looked at takes the channel exactly if it has room; otherwise the call looks on until it has met four without. |
| `V1Creation.OpenedExactly` | v1/pkg/pools/channelpool.go:165-189 | A channel that fails to open ends the call uncounted; one that opens is counted once, where it was opened. |
| `V1Creation.CreationsBounded` | v1/pkg/pools/connectionhost.go:118-137 | Counted channels are never given back, so a run opens at most quota times as many channels as it has had connections. |
| `V1Creation.FullStays` | v1/pkg/pools/channelpool.go:206-267 | Once every connection is full for a kind, no channel of that kind is opened again in any run that replaces no connection, so a bad channel is not replaced either. |
| `V1Creation.StepInv` | v1/pkg/pools/channelpool.go:153-189 | A goroutine that has passed the check owns the connection, so the room it saw is still there. |
| `V1BackPressure.CountExactAndBounded` | v1/pkg/publisher/publisher.go:186-229 | In every run with k queuers the counter is exactly the letters counted and not sent, buffered, or taken and not yet published; it never underflows and never exceeds letterBuffer + maxOverBuffer + k - 1. |
| `V1BackPressure.BoundReached` | v1/pkg/publisher/publisher.go:201-222 | The bound is exact: unless both sizes are 0 some run reaches it. |
| `V1BackPressure.NothingPasses` | v1/pkg/publisher/publisher.go:201-222 | With both sizes 0 no letter is ever counted. |
| `V1BackPressure.AlwaysReleases` | v1/pkg/publisher/publisher.go:186-229 | From every reachable state some run publishes every counted letter, so the guard opens again. |
| `V1BackPressure.ToggleStops` | v1/pkg/publisher/publisher.go:122-183 | Once auto-publishing has stopped, no letter leaves the buffer in any run until it starts again. |
| `V1Consumer.OneLoopAlive` | v1/pkg/consumer/consumer.go:212-270 | In every run at most one consume loop is alive, exactly when `started` is true. |
| `V1Consumer.StopsStayInSession` | v1/pkg/consumer/consumer.go:354-371 | A loop leaves its deliveries only on a stop, and the stop is always one of its own session. |
| `V1Consumer.GracefulStopPlacesAll` | v1/pkg/consumer/consumer.go:254-270 | When a session none of whose stops was immediate has ended, every delivery it pulled has been placed on `messages`. |
| `V1Consumer.StopEnds` | v1/pkg/consumer/consumer.go:254-270 | A stop ends its session: with room for one message and an application that receives, the loop and its goroutines can always go on by themselves until `started` is cleared, and unless a stop was immediate every delivery has been placed by then. |
| `V1Consumer.StopBegins` | v1/pkg/consumer/consumer.go:354-371 | A stop call that finds a session running signals that session and returns, and records whether it is immediate. |
| `V1Consumer.EndsAloneExactly` | v1/pkg/consumer/consumer.go:254-270 | When it has heard the stop, the loop can end by its own steps alone exactly if the stop is immediate or nothing is left to place. |
| `V1Consumer.DeliveriesConserved` | v1/pkg/consumer/consumer.go:392-404 | Every delivery pulled is with one goroutine or placed exactly once, and the wait group counts the goroutines. |
| `V1Consumer.PlacedInOrder` | v1/pkg/consumer/consumer.go:392-404 | Messages leave the buffer in the order in which they were placed. |
| `V1Consumer.MessagesBounded` | v1/pkg/consumer/consumer.go:392-404 | The buffer never holds more messages than it has room for. |
| `V1Consumer.AccountsExact` | v1/pkg/consumer/consumer.go:212-270 | Sessions, deliveries and messages taken are numbered by the starts, pulls and receives of the run. |
| `V1Consumer.DeliversFromChannel` | v1/pkg/consumer/consumer.go:233-351 | A loop that has no delivery channel, or has seen it closed, delivers nothing before it has got a new one. |
| `V1Consumer.WedgedStays` | v1/pkg/consumer/consumer.go:354-371 | A stop call blocked on the full buffer after the loop's last read stays blocked under every step but FlushStop. |
| `V1Consumer.TwoMoreStopsWedge` | v1/pkg/consumer/consumer.go:354-371 | Once the loop has heard its stop, two further stop calls bring that about. |
| `V1Consumer.UnlessWedgedSends` | v1/pkg/consumer/consumer.go:325-348 | In every other state a blocked stop call can send, or every step of the loop brings the next stop check nearer. |
| `V1Consumer.FlushReturns` | v1/pkg/consumer/consumer.go:354-371 | A stop call that flushes removes every message before it returns, and can always go on. |
| `V1Consumer.FlushStopFrees` | v1/pkg/consumer/consumer.go:407-417 | FlushStop frees a blocked stop call. |
| `RandomString.RandomStringFromSource` | v2/pkg/tcr/random.go:23-40 | Takes exactly `size` turns and max(1, ceil(size / 10)) draws, and the letter j places from the end is named by the six bits j mod 10 of draw j / 10. |
| `RandomString.ShiftDivides` | v2/pkg/tcr/random.go:36 | Shifting by six bits k times is division by 64 to the k. |
| `RandomString.SlicesAreLowBits` | v2/pkg/tcr/random.go:27-38 | No bit is dropped or used twice: the first n letters of a draw spell its lowest 6n bits. |
| `RandomString.SameLetters` | v2/pkg/tcr/random.go:14-18 | Ten letters from two draws agree exactly when the draws agree in their lowest 60 bits. |
| `RandomString.NeverWritten` | v2/pkg/tcr/random.go:14-18 | None of the last ten letters of the alphabet ever appears. |

## Left out

- AMQP itself, dialling, TLS files, heartbeats and sleeps: a dial, an open or a publish succeeds or fails as the environment chooses, and a timeout can come at any time.
- Flow control (`PauseOnFlowControl`): it only delays.
- The `Error`, `Context` and `ContextError` variants of PublishWithConfirmation: the same loop with another way to report the outcome or to time out.
- The lock of a connection host and its two looks inside the pipeline: there a recovery is one dial at a time; the finer steps, the order of the connection queue and the flags are in Connections.
- Shutdown of the pools while they are in use, and restarting the auto-publisher after its buffer was closed.
- Closing of channels that are not cached in `ReturnChannel`: it touches no shared state.
- Error producers other than the retry handler: their reports share the central error buffer, which is assumed to be drained before shutdown.
- What a close error says: in the machines the health of a channel or connection is whatever the environment chooses.
- Letter bodies and ids: a letter is its object identity.
- JSON, compression, encryption and the topologer: straight calls into other libraries.
- v1 `GetAckableChannel`, `Get` and `GetBatch`: ackable channels are put back while they are handed out, so they have no owner to speak of.
- Whether v2 consumers deliver only real messages: a closed delivery channel yields zero values.
- ConfirmedPublish.ConnectionPool.PublishWithConfirmation: other callers of the same pool are in the interleaved machine; here the script changes only the channel in use, and the connection is made healthy before each attempt to make a channel.
- ConnectionRecovery.ConnectionPool.GetConnection: a connection that closes after the check is closed in the caller's hands; the interleaved machines have that.
- ChannelFacts.TransientClosed: a channel for which confirm mode is refused counts as one that did not open; `GetTransientChannel` leaves it open and opens another one.
- V1Quota.ChannelPool.CreateChannelHost: takes the connections to be healthy, as at start-up; failing and replaced connections are in V1Creation.
- RandomString.RandomStringFromSource: a negative size panics in the source and is not modelled; masks and shifts of non-negative numbers are written as remainders and quotients.
