# Verified model of omniqueue's queues

omniqueue gives Rust programs one interface to several message queues. This project models the queues that omniqueue
builds itself and proves what they promise: the Redis backend in its two layouts, batch sending to SQS, and the
in-memory channel. `dafny verify dfyconfig.toml` checks everything.

## What is modelled

**Redis, two lists** (`fallback.rs`). A message travels as a key `id#count|payload`. BRPOPLPUSH moves it from the main
to the processing list, LREM removes it. A sweep pushes a copy of an overdue key with one more receive, or its payload
to the dead-letter list, and then removes the original. Nothing is transactional.

**Redis, streams** (`streams.rs`). The same queue from XADD, XREADGROUP, XAUTOCLAIM, XACK and XDEL with a
pending-entries list.

**Shared** (`redis/mod.rs`). The key codec, the sorted set of delayed messages, the mover that shifts due messages
under a lock that expires, and `redrive_dlq`.

There are three views of the Redis backend:

- *Protocols* (`FallbackProtocol`, `StreamsProtocol`, `DelayedLock`): every Redis command is one atomic step, any
  number of senders, deliveries, sweeps, movers and redrives interleave, and each may stop or lose a reply between any
  two commands. Replies that Redis, the clock or the identifier library choose are event parameters; an event the state
  does not allow changes nothing. Movers take no lock in the first two protocols, which only adds behaviours; the lock
  has its own timed protocol. Conservation is an equation: copies made ahead of a removal are `Owed`, and copies whose
  original nobody will remove any more (a process stopped, a removal found nothing) are `surplus`.
  `FallbackUndisturbed` and `StreamsUndisturbed` say exactly which events make a surplus.
- *Operations run one at a time* (`FallbackQueue`, `StreamsQueue`), as functions on the stores, with the classes
  `ListServer.Server` and `StreamServer.Server` and their ackers, whose methods change the stores in place and are
  proved against those functions. `FallbackAlone` and `StreamsAlone` show that sweeps, redrives, settlements and
  passes of the mover that nobody interrupts in the protocols are the sequential ones.
- *One abstract queue* (`BagQueue`): bags of waiting, leased, delayed and dead-lettered messages. Both layouts are
  proved to implement it. Its conservation and termination results carry over, and `FallbackDrain` and `StreamsDrain`
  add that the operations themselves never get stuck before everything unacked is dead-lettered.

`SqsBatch` models `send_batch_inner` against a service with arbitrary replies. `InMemory` models the channel, the
acker, `receive_all` with arrivals while it runs, and whole runs.

## Assumptions

- Identifiers are 27 base62 characters and never repeat. A KSUID is the base62 text of `second * 2^128 + rest`; the
  limit of a sweep is one too, its `rest` beginning with the fraction of the second. All hosts share one clock.
- The payload field of stream entries is not called `num_receives`. `StreamCodec` shows exactly what happens otherwise.
- Stores start empty, the consumer group exists before the first read, `ack_deadline_ms` is not negative.
- Entry ids of a stream only increase. XAUTOCLAIM hands out some or none of the idle pending entries, at most 1000,
  and may drop pending ids of deleted entries. A key with an expiry is gone once that time is reached.
- `usize` has 64 bits; an overflowing `+ 1` panics, as with overflow checks on.

## Where code and documentation differ

- `redis/mod.rs:15-17` says an unacknowledged message is put at the back of the queue. The list sweep uses RPUSH, and
  messages are popped from that end, so retried messages come first (`FallbackQueue.RetriedComeFirst`).
- The age a list sweep compares with the ack deadline is that of the identifier, so it counts from sending or
  requeueing and not from the receive: a message older than that is taken back even when it was received just now
  (`FallbackQueue.TakenBackAtOnce`).
- `redrive_dlq` names a batch size of 50, but the range 0 to 50 includes both ends: it moves 51 at a time.
- At the limit, `nack` pushes to the dead-letter list before it looks at the flag, so a second `nack` pushes again
  (with streams, only while the entry exists).
- A comment says the delayed lock avoids races. It does so only while every holder is done within five seconds
  (`DelayedLock.ExclusionNeedsTimeliness`, `DelayedLock.LateMoverCopiesTwice`, `DelayedLock.LateReleaseUnlocks`).
- Likewise two stream sweeps put one entry back twice when the first outlasts the deadline of its claim
  (`StreamsLate.LateSweepsCopyTwice`).
- An SQS request that is answered may still reject some of its entries; the code does not look.

## Model

| member | source | states |
|---|---|---|
| `Codec.RoundTrip` | omniqueue/src/backends/redis/mod.rs:163-215 | Decoding an encoded key gives back the payload, whatever bytes it holds, and one receive more, exactly when the count is below the largest `usize` |
| `Codec.LegacyRoundTrip` | omniqueue/src/backends/redis/mod.rs:182-192 | A key without a count decodes to its payload and one receive exactly when the payload has no `#`; otherwise decoding panics |
| `Codec.FormDecodes` | omniqueue/src/backends/redis/mod.rs:163-198 | Every key of the written form decodes to the fields read off it |
| `Codec.KeyText` | omniqueue/src/backends/redis/mod.rs:200-215 | The bytes of a key: the identifier, `#`, the count in decimal without leading zeros, `|`, the payload, and no other separator before the payload |
| `Codec.DecodesExactly` | omniqueue/src/backends/redis/mod.rs:163-198 | Which byte strings decode and to what: exactly a UTF-8 identifier, `#`, a number below the largest `usize` (a `+` and leading zeros allowed), `|` and the payload, or without any `#` identifier, `|` and payload |
| `Utf8.ValidMeansEncoded` | omniqueue/src/backends/redis/mod.rs:175-181 | The check on the identifier passes exactly the encodings of sequences of Unicode scalar values |
| `Codec.EncodeInjective` | omniqueue/src/backends/redis/mod.rs:200-215 | Equal keys agree in identifier, count and payload, so LREM by key removes the right message |
| `Ksuid.ExpiryReadsTheIdOnly` | omniqueue/src/backends/redis/fallback.rs:249-257 | Comparing a whole key with the limit is comparing identifiers, strictly; count and payload never matter |
| `Ksuid.ExpiryMonotone` | omniqueue/src/backends/redis/fallback.rs:249-257 | What an earlier limit expires, a later one expires |
| `Ksuid.ExpiryMeasuresAge` | omniqueue/src/backends/redis/fallback.rs:249-257 | An expired key is older than the deadline less a second, and a key older than the deadline plus a second is expired |
| `Ksuid.Base62Order` | omniqueue/src/backends/redis/fallback.rs:250-252 | Byte order of equally long base62 texts is numeric order |
| `FallbackConservation.Conservation` | omniqueue/src/backends/redis/fallback.rs:18-290 | In every interleaving, with stops and lost replies anywhere: sent + owed + surplus = copies in the stores + acked, payload by payload |
| `FallbackConservation.NoLoss` | omniqueue/src/backends/redis/fallback.rs:117-290 | A payload sent more often than acked is still in a store |
| `FallbackUndisturbed.SurplusOnlyWhenDisturbed` | omniqueue/src/backends/redis/fallback.rs:117-290 | A copy is left without a remover if and only if some process stops or fails owing a removal, or a removal does not find what it is for |
| `FallbackUndisturbed.ExactWhenUndisturbed` | omniqueue/src/backends/redis/fallback.rs:117-290 | In a run without such an event, whenever nobody has a removal to make, stores and acks hold exactly what was sent |
| `FallbackConservation.NackSendsThePayload` | omniqueue/src/backends/redis/fallback.rs:144-150 | In every reachable state the key of a delivery decodes, so the decode-failure branch of `nack` is dead |
| `FallbackLineage.StoredKeysDecode` | omniqueue/src/backends/redis/mod.rs:163-215 | Every key in main, processing or delayed in a reachable state has the written form and decodes |
| `FallbackLineage.ReceiveYieldsADelivery` | omniqueue/src/backends/redis/fallback.rs:50-79 | A receive from a non-empty main list always yields a delivery with the stored count plus one |
| `FallbackLineage.SweptKeysDecode` | omniqueue/src/backends/redis/fallback.rs:254-258 | What a sweep has read decodes too, even after it has left processing, so no sweep ends in a decode error |
| `FallbackLineage.MoverGoesOn` | omniqueue/src/backends/redis/mod.rs:659-662 | Whatever members the mover reads, it goes on to copy them |
| `FallbackLineage.ProcessingNoDup` | omniqueue/src/backends/redis/fallback.rs:50-79 | No key is ever twice in processing, in any interleaving |
| `FallbackLineage.CountIsDeliveries` | omniqueue/src/backends/redis/fallback.rs:254-283 | The count in a key is the number of pops on its chain of copies, and no key is popped twice, even with concurrent sweeps |
| `FallbackLineage.DeliveryBound` | omniqueue/src/backends/redis/mod.rs:295-299 | With a retry limit a chain of copies has at most `max(1, max_receives)` deliveries |
| `FallbackLineage.SweepDecides` | omniqueue/src/backends/redis/fallback.rs:254-283 | In every interleaving a sweep passes by a message that is not expired, puts an expired one back after fewer deliveries than the limit, under the count of these, and dead-letters any other, after exactly `max(1, max_receives)` deliveries |
| `FallbackLineage.NackDecides` | omniqueue/src/backends/redis/fallback.rs:137-163 | So does `nack`: a delivery carries the number of deliveries so far; below the limit it is left to the sweep, else its payload is dead-lettered after exactly `max(1, max_receives)` |
| `FallbackKeys.SweepExactlyInRuns` | omniqueue/src/backends/redis/fallback.rs:247-283 | After any operations from empty stores on, the whole effect of the next sweep on the last 50 keys: what leaves processing, what main and the dead-letter list gain, in which order; it stops exactly at the first expired key that does not decode, if there is one |
| `FallbackDecisions.SweepDecides` | omniqueue/src/backends/redis/fallback.rs:247-283 | After any operations: of the last 50 keys, an expired one of count n gets a copy of count n + 1 into main if and only if n + 1 is below the limit, its payload is dead-lettered if and only if it is not, and never without a limit; as many keys leave processing as copies and dead letters are made |
| `FallbackQueue.SweepConservesPayloads` | omniqueue/src/backends/redis/fallback.rs:254-283 | Kept, retried and dead-lettered keys share out the payloads of what the sweep saw |
| `FallbackQueue.RetriedComeFirst` | omniqueue/src/backends/redis/fallback.rs:268-275 | Retried messages are popped before all others, oldest first |
| `FallbackQueue.TakenBackAtOnce` | omniqueue/src/backends/redis/fallback.rs:247-283 | A message received this very moment is taken from its consumer by the next sweep, and waits or is dead-lettered, exactly when its identifier is before the limit |
| `FallbackQueue.FirstInFirstOut` | omniqueue/src/backends/redis/fallback.rs:18-79 | A sent message is popped after everything there is; a receive takes the one whose turn it is |
| `FallbackKeys.DrainInRuns` | omniqueue/src/backends/redis/mod.rs:653-679 | After any operations from empty stores on, repeated passes at one time end, take out exactly the members with a score up to that second, and append them to the pop order by score, then bytes, as one unbatched move would |
| `FallbackDelayed.PassInRuns` | omniqueue/src/backends/redis/mod.rs:653-679 | One pass after any operations gets through and takes all members with a score up to the second, or the first 50 in order, to behind everything in main; the others stay |
| `FallbackDelayed.ScheduledOnTime` | omniqueue/src/backends/redis/mod.rs:646-747 | A scheduled send adds one member whose score is the second it is due in; through any operations with passes up to the time it is due it stays delayed, and repeated passes a second later or more have put it into main |
| `RedisLists.RemovePrefix` | omniqueue/src/backends/redis/mod.rs:799-804 | Removing the members of a batch one by one, first occurrence each, removes exactly the prefix, repeated payloads or not |
| `ListServer.Server.SendRaw` | omniqueue/src/backends/redis/fallback.rs:18-33 | Adds one message with count 0 and changes nothing else |
| `ListServer.Server.SendRawScheduled` | omniqueue/src/backends/redis/mod.rs:732-750 | Adds exactly one member, with the second of `now + delay` as its score, or fails before the epoch |
| `ListServer.Server.ReceiveWithTimeout` | omniqueue/src/backends/redis/fallback.rs:50-79 | Moves the message at the pop end to processing; an undecodable one stays there |
| `ListServer.Server.ReenqueueTimedOut` | omniqueue/src/backends/redis/fallback.rs:236-290 | The sweep's loop has the effect of the specified sweep, also when it ends early |
| `ListServer.Server.RedriveDlq` | omniqueue/src/backends/redis/mod.rs:761-809 | Ends with an empty dead-letter list, in one round per 51 messages; main is popped in the old order and then the whole list in order with counts reset; unsupported without a configuration |
| `ListServer.Server.MoveDue` | omniqueue/src/backends/redis/mod.rs:616-693 | Nothing happens under another's lock; an error leaves the lock for 5 seconds; otherwise the lock is released after a pass that takes exactly the first 50 members due, or all if there are fewer, to behind everything in main |
| `ListServer.Acker.Ack` | omniqueue/src/backends/redis/fallback.rs:118-135 | Removes the key once; a second call changes nothing |
| `ListServer.Acker.Nack` | omniqueue/src/backends/redis/fallback.rs:137-163 | At `receives >= max_receives` dead-letters the payload and removes the key, below it changes nothing; the flag is looked at after the push |
| `FallbackRefinement.RunRefines` | omniqueue/src/backends/redis/fallback.rs:18-290 | Every run of operations on the lists is a run of the abstract queue, act for act, where a requeue needs `count + 1 < max_receives` and a dead-lettering the contrary |
| `FallbackRefinement.NackRefines` | omniqueue/src/backends/redis/fallback.rs:137-163 | `nack` below the limit does nothing; at the limit it dead-letters a leased message, and for one no longer leased only adds a dead letter |
| `FallbackRefinement.ListsImplementTheBagQueue` | omniqueue/src/backends/redis/fallback.rs:18-290 | From empty stores the lists implement the abstract queue and counts stay below the limit |
| `FallbackDrain.ListsDrain` | omniqueue/src/backends/redis/fallback.rs:254-283 | With a retry limit and without new sends or redrives, messages move only boundedly often, whatever receives, acks, `nack`s, sweeps and passes are made; none of these can move one exactly when main, processing and the delayed set are empty; then the dead-letter list holds all that was not acked, and once more what each `nack` at the limit found no longer leased |
| `FallbackDrain.ListsCanDrain` | omniqueue/src/backends/redis/fallback.rs:236-290 | From the lists of any run and any time on, some receives, sweeps and passes at times that do not go back, without a single ack, bring every message to the dead-letter list |
| `FallbackDrain.SweepProgress` | omniqueue/src/backends/redis/fallback.rs:247-258 | Every sweep whose limit is past the oldest leased message moves something |
| `FallbackDrain.MoveProgress` | omniqueue/src/backends/redis/mod.rs:653-679 | Every pass of the mover at a time when something is due moves something |
| `FallbackDrain.RunsAreLive` | omniqueue/src/backends/redis/mod.rs:295-299 | The lists of every run from empty stores meet the conditions of these results |
| `FallbackAlone.SweepAlone` | omniqueue/src/backends/redis/fallback.rs:236-290 | The commands of one sweep that nobody interrupts have the effect of the sequential sweep and leave the process idle |
| `FallbackAlone.RedriveAlone` | omniqueue/src/backends/redis/mod.rs:761-809 | The commands of a redrive that nobody interrupts, through all rounds, have the effect of the sequential one |
| `FallbackAlone.MoveAlone` | omniqueue/src/backends/redis/mod.rs:653-679 | So have the commands of a pass of the mover |
| `FallbackAlone.NackAlone` | omniqueue/src/backends/redis/fallback.rs:137-163 | So have those of a `nack`, all of them its own |
| `FallbackAlone.AckAlone` | omniqueue/src/backends/redis/fallback.rs:118-135 | The command of an `ack` whose reply arrives has the effect of the sequential `ack` and sets the flag |
| `FallbackAlone.SendAndReceiveAlone` | omniqueue/src/backends/redis/fallback.rs:18-79 | A send and a receive in the protocol are the sequential ones |
| `FallbackAlone.ReadsAlone` | omniqueue/src/backends/redis/fallback.rs:236-257 | In the protocol a sweep goes on only if the oldest leased key is expired, with the last 50 keys, and a redrive with the first 51 dead letters |
| `BagQueue.NoLivelock` | omniqueue/src/backends/redis/fallback.rs:254-283 | A run of receives, acks, requeues, dead-letterings and delayed moves is no longer than the measure of its start: 2M+1 per delayed, 2(M-c) per waiting, 2(M-c)-1 per leased message, where M is `max(1, max_receives)` |
| `BagQueue.AllEndInTheDeadLetterList` | omniqueue/src/backends/redis/fallback.rs:254-283 | Whatever moves have been made, some more without any further ack lead to where everything not acked is dead-lettered, as often as it was there, and all together are no more than the measure of the start |
| `BagQueue.PathGains` | omniqueue/src/backends/redis/fallback.rs:117-290 | Only sends, acks and second dead-letterings change how many messages of a payload there are |
| `DelayedSet.ZAddKeepsOrder` | omniqueue/src/backends/redis/mod.rs:739-747 | The sorted set stays sorted and changes by the one member |
| `DelayedSet.DueIsThePrefix` | omniqueue/src/backends/redis/mod.rs:653-656 | What a pass may take is exactly the members up to the second, as a prefix |
| `DelayedSet.DelayIsKept` | omniqueue/src/backends/redis/mod.rs:650-656 | A message is never eligible before it is due, always within a second after, and exactly from the next full second on |
| `DelayedKeys.DelayedAdd` | omniqueue/src/backends/redis/mod.rs:824-831 | A scheduled message replaces no other, even with the same payload |
| `DelayedLock.AtMostOneHolder` | omniqueue/src/backends/redis/mod.rs:634-693 | If every holder is done or has failed within five seconds of its SET, at most one worker is between SET and DEL, and the lock it deletes is its own |
| `DelayedLock.EachCopiedOnce` | omniqueue/src/backends/redis/mod.rs:653-683 | In such runs, without a failure between first copy and removal, each member is copied exactly once by the time it is removed, and not before unless its mover is in between |
| `DelayedLock.NothingMovesEarly` | omniqueue/src/backends/redis/mod.rs:650-656 | In every run, late movers included, a copy is made only when the second of the score its message was added with is over |
| `DelayedLock.DueAgrees` | omniqueue/src/backends/redis/mod.rs:650-656 | What a worker of this protocol reads as due in milliseconds is what the pass of the servers takes in seconds |
| `DelayedLock.ExpiryLetsOthersIn` | omniqueue/src/backends/redis/mod.rs:630-644 | Whatever failed, five seconds later an idle worker that tries gets the lock |
| `DelayedLock.ExclusionNeedsTimeliness` | omniqueue/src/backends/redis/mod.rs:634-644 | As soon as a holder is taken to its deadline, another worker can join it |
| `DelayedLock.LateMoverCopiesTwice` | omniqueue/src/backends/redis/mod.rs:634-693 | From every timely and clean run: when time takes a mover to its deadline, any idle worker can join it, each member of its batch can end up copied twice, and the late mover then deletes the lock the other still holds |
| `DelayedLock.LateReleaseUnlocks` | omniqueue/src/backends/redis/mod.rs:681-693 | From every timely run: a holder that reaches its deadline with only the DEL left deletes the lock of any worker that joined |
| `DelayedLock.TimelyMover` | omniqueue/src/backends/redis/mod.rs:634-679 | For every key there is a timely and clean run with a mover in the middle of a pass and another worker idle |
| `DelayedLock.FailureCopiesAgain` | omniqueue/src/backends/redis/mod.rs:669-683 | When a mover fails between a copy and the removal, five seconds later any worker can copy the member a second time |
| `StreamCodec.StreamRoundTrip` | omniqueue/src/backends/redis/streams.rs:31-41 | Reading an entry's fields gives back payload and count plus one exactly when the payload field is not named like the count, or agrees with it |
| `StreamCodec.EntryReads` | omniqueue/src/backends/redis/streams.rs:129-151 | With a payload field of another name, an entry reads as its payload and count plus one, and panics at the largest count |
| `StreamsConservation.Conservation` | omniqueue/src/backends/redis/streams.rs:43-446 | In every interleaving: sent + owed + surplus = recoverable copies + acked, where an entry counts only while unread or pending |
| `StreamsConservation.NoLoss` | omniqueue/src/backends/redis/streams.rs:357-446 | A payload sent more often than acked is delayed, dead-lettered, or in an entry that is unread or pending |
| `StreamsUndisturbed.SurplusOnlyWhenDisturbed` | omniqueue/src/backends/redis/streams.rs:357-446 | A copy is left without a remover if and only if some process stops, fails or breaks off owing a removal, or a removal does not find what it is for |
| `StreamsUndisturbed.ExactWhenUndisturbed` | omniqueue/src/backends/redis/streams.rs:357-446 | In a run without such an event, whenever nobody has a removal to make, recoverable copies and acks are exactly what was sent |
| `StreamsUndisturbed.MoverGoesOn` | omniqueue/src/backends/redis/mod.rs:659-662 | Whatever members the mover reads, it goes on to copy them |
| `StreamsLease.NotRetriedEarly` | omniqueue/src/backends/redis/streams.rs:370-439 | No sweep copies an entry before `ack_deadline_ms` after it was read |
| `StreamsLease.ReadOnce` | omniqueue/src/backends/redis/streams.rs:64-125 | An entry is delivered under its id at most once |
| `StreamsLease.EarlyAckIsFinal` | omniqueue/src/backends/redis/streams.rs:191-209 | An entry whose XACK ran within the deadline of its read is never requeued |
| `StreamsSweeps.NeverRequeuedTwice` | omniqueue/src/backends/redis/streams.rs:370-439 | If sweeps acknowledge what they copied within the deadline of their claim, no entry is copied twice and none is held by two sweeps |
| `StreamsLineage.CountIsReads` | omniqueue/src/backends/redis/streams.rs:382-415 | In every interleaving the count in an entry, deleted or not, is the number of reads on its chain of copies: each earlier entry of the chain was read exactly once, and all carry the same payload |
| `StreamsLineage.DeliveryBound` | omniqueue/src/backends/redis/mod.rs:295-299 | With a retry limit no chain of copies has more than `max(1, max_receives)` reads |
| `StreamsLineage.SweepDecides` | omniqueue/src/backends/redis/streams.rs:388-411 | In every interleaving a sweep queues a claimed entry read fewer times than the limit for its copy, fetches the payload of any other, after exactly `max(1, max_receives)` reads, and ends only if that entry is gone |
| `StreamsLineage.NackDecides` | omniqueue/src/backends/redis/streams.rs:211-234 | So does `nack`: below the limit the entry is left to the sweep, else its payload is fetched for the dead-letter list after exactly `max(1, max_receives)` reads |
| `StreamsLineage.CountsReadable` | omniqueue/src/backends/redis/streams.rs:94-151 | As long as the retry limit or the number of events fits a `usize`, no entry in the stream has a count that cannot be read, so a group read hands out every entry it takes |
| `StreamsLineage.SweepReads` | omniqueue/src/backends/redis/streams.rs:388-393 | Nor does a sweep end for a count it cannot read |
| `StreamsLineage.LogIsComplete` | omniqueue/src/backends/redis/streams.rs:43-62 | The log these chains are read from has an entry for every id given out, and those in the stream as they are |
| `StreamsLate.LateSweepsCopyTwice` | omniqueue/src/backends/redis/streams.rs:370-439 | From any timely run: when time takes a sweep to the deadline of its claim, any idle process can claim what it still holds and has not acknowledged, and if nothing else ends the first sweep both copy it |
| `StreamsLate.StoppedSweepCopiesAgain` | omniqueue/src/backends/redis/streams.rs:382-439 | From any timely run: when an event ends a sweep between a copy and its acknowledgement, any process idle after it, the ended one included, can claim and copy the entry again as soon as a deadline has passed since the claim |
| `StreamsLate.TimelySweep` | omniqueue/src/backends/redis/streams.rs:370-380 | For every configuration there is a timely run with a sweep that meets the conditions of the first |
| `StreamsLate.TimelyCopy` | omniqueue/src/backends/redis/streams.rs:382-439 | For every deadline above 0 there is one with a sweep that has copied and not acknowledged, as the second needs |
| `StreamServer.Server.ReceiveAll` | omniqueue/src/backends/redis/streams.rs:64-125 | Hands out exactly the lowest `max_messages` entries after the last-delivered id, or all of these if there are fewer or the count is 0, pending since now; one unreadable count loses the whole reply |
| `StreamServer.Server.SendRawScheduled` | omniqueue/src/backends/redis/mod.rs:732-750 | Adds exactly one member, with the second of `now + delay` as its score, or fails before the epoch |
| `StreamServer.Server.ReenqueueTimedOut` | omniqueue/src/backends/redis/streams.rs:357-446 | The sweep's loops have the effect of the specified sweep, also when it ends among the dead-letterings; then the claim has only renewed the times of its entries |
| `StreamServer.Server.AddToMainQueue` | omniqueue/src/backends/redis/streams.rs:243-269 | Appends the payloads in order with counts reset |
| `StreamServer.Server.RedriveDlq` | omniqueue/src/backends/redis/mod.rs:761-809 | Appends the whole dead-letter list in order with counts reset and empties it, in one round per 51 messages |
| `StreamServer.Server.MoveDue` | omniqueue/src/backends/redis/mod.rs:646-679 | Takes exactly the first 50 members due, or all if there are fewer, to the end of the stream, or nothing if a key does not decode |
| `StreamServer.Acker.Ack` | omniqueue/src/backends/redis/streams.rs:191-209 | Acknowledges and deletes the entry once |
| `StreamServer.Acker.Nack` | omniqueue/src/backends/redis/streams.rs:211-234 | At `receives >= max_receives` dead-letters the body and deletes the entry if it still exists and fails without any change if not |
| `StreamsRefinement.RunRefines` | omniqueue/src/backends/redis/streams.rs:43-446 | Every run of operations on the stream is a run of the same abstract queue, act for act |
| `StreamsRefinement.SweptStream` | omniqueue/src/backends/redis/streams.rs:382-439 | A finished sweep times out every claimed message exactly once |
| `StreamsRefinement.SweepAborted` | omniqueue/src/backends/redis/streams.rs:388-411 | A sweep that ends early has only added dead letters; its messages stay leased |
| `StreamsDecisions.SweepDecides` | omniqueue/src/backends/redis/streams.rs:388-439 | After any operations: a finished sweep takes exactly the claimed entries out of the stream; one of count n comes back with count n + 1 if and only if n + 1 is below the limit, its payload is dead-lettered if and only if it is not, each in the order of the claim |
| `StreamsDelayed.PassInRuns` | omniqueue/src/backends/redis/mod.rs:653-679 | One pass after any operations gets through and takes all members with a score up to the second, or the first 50 in order, to the end of the stream |
| `StreamsDelayed.ScheduledOnTime` | omniqueue/src/backends/redis/mod.rs:646-747 | A scheduled message has the second it is due in as its score, stays delayed through any operations with passes up to that time, and is in the stream after repeated passes a second later or more |
| `StreamsRefinement.StreamsImplementTheBagQueue` | omniqueue/src/backends/redis/streams.rs:43-446 | From an empty stream the abstract queue is implemented, counts stay below the limit, and the pending entries are exactly the read ones not yet deleted |
| `StreamsDrain.SweepsFinish` | omniqueue/src/backends/redis/streams.rs:388-411 | With a retry limit that fits a `usize`, counts stay below it and no sweep ends early |
| `StreamsDrain.StreamsDrain` | omniqueue/src/backends/redis/streams.rs:357-446 | The bound on acts, that none of read, settlement, sweep and pass can act exactly when stream and delayed set are empty, and the final dead-lettering, for streams |
| `StreamsDrain.StreamsCanDrain` | omniqueue/src/backends/redis/streams.rs:357-446 | From the stores of any run and any time on, some reads, sweeps and passes at times that do not go back, without a single ack, bring every message to the dead-letter list |
| `StreamsDrain.SweepProgress` | omniqueue/src/backends/redis/streams.rs:370-411 | Every sweep that claims something moves it |
| `StreamsDrain.Claimable` | omniqueue/src/backends/redis/streams.rs:370-380 | Entries that were read and not settled are pending, and any batch of them can be claimed at exactly the times at which each has been idle for the deadline, if they are different and at most 1000 |
| `StreamsDrain.RunsAreLive` | omniqueue/src/backends/redis/mod.rs:295-299 | The stores of every run from an empty stream meet the conditions of these results |
| `StreamsAlone.SweepAlone` | omniqueue/src/backends/redis/streams.rs:357-446 | The commands of a sweep that nobody interrupts, pipelines included, have the effect of the sequential sweep |
| `StreamsAlone.RedriveAlone` | omniqueue/src/backends/redis/mod.rs:761-809 | So have those of a redrive, through all rounds |
| `StreamsAlone.NackAlone` | omniqueue/src/backends/redis/streams.rs:211-234 | So have those of a `nack` at the limit |
| `StreamsAlone.AckAlone` | omniqueue/src/backends/redis/streams.rs:191-209 | So have the XACK and XDEL of an `ack` |
| `StreamsAlone.MoveAlone` | omniqueue/src/backends/redis/mod.rs:653-679 | So have those of a pass of the mover, over any sorted set with the members that the protocol keeps |
| `StreamsAlone.SendAndReadAlone` | omniqueue/src/backends/redis/streams.rs:43-125 | A send and a group read in the protocol are the sequential ones; an unreadable count only costs the deliveries |
| `StreamsAlone.ReadsAlone` | omniqueue/src/backends/redis/streams.rs:370-380 | In the protocol a sweep goes on with exactly the replies of XAUTOCLAIM that the sequential one may get, and a redrive with the first 51 dead letters |
| `StreamEntries.UnreadIsARange` | omniqueue/src/backends/redis/streams.rs:94-112 | A read takes exactly the entries between the old and the new last-delivered id |
| `SqsBatch.SendBatch` | omniqueue/src/backends/sqs.rs:326-373 | Fails without any request exactly if an input does not convert or else a converted one is over 262144 bytes, naming the length of the first such; otherwise the answered requests, of at most 10 numbered entries, carry the converted inputs in order, all of them exactly when none is refused |
| `SqsBatch.ChunksShape` | omniqueue/src/backends/sqs.rs:348-348 | n payloads make ceil(n/10) requests of 1 to 10 entries, all but the last full |
| `SqsBatch.EntriesShape` | omniqueue/src/backends/sqs.rs:349-359 | The entries of a request have different ids and carry its payloads in order |
| `SqsBatch.BatchSendsAPrefix` | omniqueue/src/backends/sqs.rs:348-372 | The answered requests carry a prefix of the payloads in order, ending at a whole chunk, and all of them exactly when none is refused |
| `SqsBatch.SentMeansTaken` | omniqueue/src/backends/sqs.rs:361-369 | What SQS took of the answered requests is all of it if and only if it rejected no entry |
| `InMemory.ReceiveAll` | omniqueue/src/backends/in_memory.rs:128-154 | Delivered and remaining messages are together what was there and arrived, in order; at most `max(1, max_messages)`, short only for an empty channel or the deadline |
| `InMemory.Acker.Nack` | omniqueue/src/backends/in_memory.rs:177-189 | Sends the message round again once; a second call changes nothing |
| `InMemory.RunConserves` | omniqueue/src/backends/in_memory.rs:55-190 | Over every run channel + delayed + unsettled + acked = sent, messages leave in the order they entered, and each acker succeeds at most once |

## Left out

- Connection pools, cluster and sentinel managers, the eviction-policy check, builders and dynamic wrappers: plumbing
  around other libraries.
- GCP Pub/Sub, Azure, RabbitMQ, SQS receiving and single sends: thin calls of their clients.
- JSON conversion, tracing, task scheduling and real sleeping; time is a value, and a failed command is an event.
- The KSUID library and the inside of Redis: their assumed behaviour is stated above. The migration of keys written by
  older versions is only covered by the legacy form of the codec.
- Exactly-once delivery under concurrency and a lease measured from receipt in the list layout: the code does not
  provide them.
- Pipelines: an XADD that fails inside one is modelled as ending it. Redis would still run the later ones, whose copies
  nobody would acknowledge.
- The fields of entries in the stream protocol: they carry payload and count, which `StreamCodec` ties to the fields.
- `ListServer.Server`: waiting (BRPOPLPUSH with a timeout, the half-second sleeps) is not modelled, only how it ends.
- `StreamServer.Server`: the blocking of XREADGROUP is not modelled; XAUTOCLAIM's reply is a parameter of the sweep.
- `StreamServer.Server.MoveDue`: the lock is not repeated here; it is that of `ListServer.Server.MoveDue` and of
  `DelayedLock`.
- `SqsBatch.SendBatch`: a request that failed may still have reached SQS; only answered requests count as sent.
- `InMemory.RunConserves`: an acker dropped without being settled keeps its message among the unsettled ones for good.
