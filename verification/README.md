# The lease manager of Pubsuber's subscriber side

A pulled Pub/Sub message comes with an ack id, and with a lease: a deadline by which the subscriber must acknowledge the
message, give it back, or ask for more time. Pubsuber keeps these leases in `ModAckIterator`. Pulling registers a lease,
the user's threads complete it with `Ack` or `Nack` (or by dropping the message), and one ack thread merges new leases,
sends what was completed, and extends what is about to run out. This project models that machinery and proves what it
promises.

## How the model is built

| module | what it is |
|---|---|
| `Types` | ack ids, milliseconds, the constants |
| `Batching`, `Wire` | greedy packing of ids into requests; the size estimate against the Protocol Buffers encoding |
| `Histogram` | the bounded histogram of processing times and the ack deadline picked from it |
| `Backoff`, `Retry` | the delays between retries, and the loop around every remote call |
| `Queues`, `Iterator`, `Extension` | the four containers as a value; the class that updates them in place; what a pass of it does |
| `Messages` | messages as the user sees them, and the pull |
| `Executor` | the ack thread: when it waits, merges and runs a round over its iterators |
| `Protocol` | all threads and the server together, as atomic steps, from the view of one iterator |
| `Conservation`, `Leases`, `Retention`, `Timing`, `Overrun`, `Prompt` | theorems about every run of the protocol |
| `Latency` | how long a completed id waits to be sent |
| `Several`, `SeveralTiming`, `Outvoting` | any number of iterators under one ack thread: what carries over to each, and what does not |
| `Refinement`, `Rounds`, `Pulling` | a pass of the class, a call with its retries, a round over all iterators and a pull are runs of the protocol |

Objects that the source updates in place are classes (`ModAckIterator`, `Distribution`, `ExpoBackoff`, `MessageImpl`,
`AckThread`), and loops are loops; each method is proved against a function or predicate on values, and the theorems are
about those.

A remote call is a value chosen by the environment: a script says how each retried call comes out and when its last
attempt starts (`Batching.Call`), or how each attempt goes (`Retry.Reply`). A loop that is still going when the script
ends says so (`Unfinished`, `Trying`), so nothing is assumed about termination. The order in which a hash container is
visited is a parameter, any sequence without repetitions that covers the container; statements hold for every order.

The steps of `Protocol`, each of them a critical section, a moment of a call, or the passing of time:

| step | source |
|---|---|
| `Add`, `Complete` | `pubsuber/src/ModAckIterator.cpp:51-100` |
| `Wait`, `TimeOut`, `Merge` | `pubsuber/src/Executor.cpp:224-243` |
| `Skip`: the turn of an iterator does not come, because one before it threw | `pubsuber/src/Executor.cpp:262-266` |
| `Drain` (with the erasing that follows it on the same thread) | `pubsuber/src/ModAckIterator.cpp:174-191` |
| `SendAckBatch`, `EraseNacks`, `SendNackBatch` | `pubsuber/src/ModAckIterator.cpp:193-198` |
| `Choose`, `Carve`, `Finish` | `pubsuber/src/ModAckIterator.cpp:129-168` |
| `Begin`, `Reach`, `End`, `Throw`: an attempt starts, takes effect at the server, comes back with success or to be retried; the call throws | `pubsuber/src/Retriable.h:98-125` |
| `Tick` | time passes |

`Complete` records the processing time of the message, and the deadline that `Choose` grants is the clamped 99th percentile
of the times recorded so far (`Histogram.IsDeadline`): no run grants a deadline that no processing time has brought about.

The server is part of the state: a map from ack id to the time its lease really ends. An extension counts, as
`google/pubsub/v1/pubsub.proto:861-869` puts it, from when the request was sent, or from any later moment of the attempt.

## Main results

1. **Conservation** (`Conservation.EveryIdInOnePlace`, `IdsOnlyMoveForward`). However the threads interleave and whatever
   throws, every id ever watched is in exactly one of live, pending, drained, sent and dropped, only moves forward, and
   is in at most one call, the one its first completion asks for.
2. **The client never believes in a later deadline than the server** (`Leases.NeverBelievesLater`), through retries, lost
   replies and throws.
3. **No live lease lapses** (`Timing.NoLeaseLapses`), and exactly when. If every id is merged with more than a margin m
   left, no lease lapses in any run whose passes and sleeps overrun by at most e if and only if e is at most 1.25 s and at
   most m (or m is 9 s or more, so that nothing uncompleted is ever merged): `Overrun.ExactlyTheOverrunsThatNeverLapse`.
   Timely merging is not assured: `Overrun.InputMayWaitTooLong` is a punctual run without it. Where nothing is supposed
   about merging, but ids are watched at most a lag after their pull, the idle wait of 500 ms overruns by at most e too,
   and deadlines up to r, in whole seconds, are granted, no uncompleted lease runs out in any run, merged or not, if and
   only if e is at most 1.25 s and lag + (r + e) / 2 + 2e is less than 9 s: `Prompt.ExactlyTheDeadlinesThatHold`. With the
   largest deadline the client can grant, 600 s, that never holds. The failing runs grant only what their processing times
   give: `Overrun.Experienced` keeps a message alive for any time from 10 s to 600 s, five seconds at a time with the least
   deadline, and completes it, after which that time is the deadline.
4. **Completed ids stay gone, exactly unless they leak** (`Retention.CompletedIdsStayGone`). The code leaks in two ways,
   each shown by a run: an id completed between the merge and the drain (`EarlyDrainLeaks`), and ids to give back when an
   acknowledgement throws (`FailedAcknowledgeLeaks`). An id given back has no lease at the server for the rest of the run
   unless it leaked (`GivenBackStaysEnded`); one that leaked may get its lease extended again (`GivenBackRevives`).
5. **Batching** partitions, terminates exactly when every id fits alone, and needs at most 2n - 1 batches where any packing
   needs n (`Batching.SendAllPartitions`, `SendAllFinishes`, `WithinTwiceOptimal`). The 100 bytes that the source assumes for
   everything but the ids suffice exactly for subscription names of at most 98 bytes (Acknowledge) and 98, 96 or 95 bytes
   (ModifyAckDeadline, by deadline); the comment at `pubsuber/src/ModAckIterator.cpp:24-31` assumes them for every name (`Wire`).
   Both encoded requests read back field by field (`Wire.AcknowledgeRoundTrip`, `ModifyAckDeadlineRoundTrip`).
6. **The histogram loses nothing** (`Histogram.AckDeadline`, `DeadlineIsOrderStatistic`): 601 saturating buckets give the
   99th percentile of the sorted, unbounded samples, clamped, and that is what every pass grants
   (`Iterator.ModAckIterator.ProcessModAcks`). So in every run no lease is extended by more than processing a message has
   ever taken, or ten seconds (`Leases.NoGrantBeyondExperience`).
7. **Retries.** What every attempt of every call gets (`Retry.AttemptsFollow`): a timeout doubled once for each attempt
   before it that exceeded its deadline, and for nothing else (`TimeoutsCountDeadlines`), and a delay decided by the sample
   drawn; when and how the call ends (`WhenACallEnds`); and its cost in closed form (`CountLimitBoundsCost`,
   `TimeLimitBoundsAttempts`).
8. **Several subscriptions.** Each iterator of a group under one ack thread goes through a run of the protocol
   (`Several.EachIsReachable`), so results 1, 2 and 4 hold for each. Result 3 does not: the wish of one iterator to run
   again at once is outvoted by the sleep another asks for. With deadlines in whole seconds, as the client grants them, no
   lease lapses in any run of any number of iterators if and only if half of the largest deadline and the overrun together
   are at most the grace period of 5 s, or nothing uncompleted is ever merged
   (`Outvoting.ExactlyWhenOutvotingIsHarmless`). As no deadline is below 10 s, a single millisecond of overrun is too
   much, and so is a largest deadline above 10 s: a single message that took eleven seconds (`Outvoting.Experienced`).
9. **A completed id is sent soon** (`Latency.CompletedIsSent`): in a timely run within half of the largest deadline and
   three overruns, whatever the ack thread was doing when it was completed.
10. **The code is a run of the protocol.** A pass (`Refinement.PassIsRun`), a round over any number of iterators with its
    throws (`Rounds.RoundIsGroupRun`), the waiting around it (`Rounds.WaitsAlike`, `IterationIsGroupRun`), a call with its
    retries (`Refinement.CallIsRun`) and a pull with all that its callbacks do (`Pulling.PullIsRun`) do to containers, calls,
    processing times and the leases at the server what a run does.
11. **A pull watches before it delivers** (`Messages.Pull`): each callback finds the containers as watching the whole
    response and the callbacks before it have left them, so every id of the response is held by then.

## Model

| member | source | states |
|---|---|---|
| Batching.Cut | pubsuber/src/Algorithms.h:35-55 | a batch is the longest prefix, in iteration order, whose estimate stays below the limit; none when the first id alone is too long |
| Batching.CutUnique | pubsuber/src/Algorithms.h:35-55 | no other cut meets that description |
| Batching.SplitRequestIds | pubsuber/src/Algorithms.h:34-55 | the loop takes exactly that prefix and leaves the rest, in order |
| Batching.CutProgress | pubsuber/src/Algorithms.h:40-54 | a batch is empty if and only if the id at the front does not fit alone |
| Batching.SendAllAccounts | pubsuber/src/ModAckIterator.cpp:205-227 | whatever the calls do, the outcome, the sent batches and the failed one agree with how the calls went |
| Batching.SendAllPartitions | pubsuber/src/ModAckIterator.cpp:205-227 | sent batches, failed batch and rest are the ids, in order, nothing lost or repeated, and each non-empty batch obeys the size limit |
| Batching.SendAllFinishes | pubsuber/src/ModAckIterator.cpp:210-214 | a loop can only finish if every id fits alone; then no batch is empty and as many calls as ids are enough; otherwise it goes on for as long as calls succeed |
| Batching.SentInRounds | pubsuber/src/ModAckIterator.cpp:210-214 | the number of requests of a finished loop depends on the ids alone |
| Batching.NeighboursOverflow | pubsuber/src/Algorithms.h:51-54 | the first two batches together exceed the limit, and so on from what they leave |
| Batching.PairsAreHeavy | pubsuber/src/Algorithms.h:34-55 | the ids weigh at least one full payload for every two batches |
| Batching.PackingNeedsRoom | pubsuber/src/Algorithms.h:34-55 | any packing of the same ids under the same limit has more room than they weigh |
| Batching.WithinTwiceOptimal | pubsuber/src/ModAckIterator.cpp:210-214 | the loop uses at most 2n - 1 batches when some packing of the same ids under the same limit has n |
| Batching.TwiceOptimalIsTight | pubsuber/src/ModAckIterator.cpp:210-214 | the bound is reached at the limit the client uses: for every n up to 65536 there are different ids that fit into n requests and make the client send 2n - 1 |
| Wire.VarintRoundTrip | google/pubsub/v1/pubsub.proto:853-882 | "Base 128 Varints": every length reads back, and what follows it is left |
| Wire.RecordsRoundTrip | google/pubsub/v1/pubsub.proto:853-882 | "Length-Delimited Records": the ack ids of a request read back, whatever bytes they hold |
| Wire.AcknowledgeRoundTrip | google/pubsub/v1/pubsub.proto:873-882 | a reader who knows the encoding only finds the subscription in field 1 and the ids, in order, in field 2, and nothing else |
| Wire.ModifyAckDeadlineRoundTrip | google/pubsub/v1/pubsub.proto:853-870 | likewise the subscription in field 1, a deadline that is not zero in field 3 and the ids in field 4 |
| Wire.RecordsSize | pubsuber/src/Algorithms.h:9-10 | three bytes and the length bound the record of an id shorter than 16384 bytes, and are exact from 128 bytes on |
| Wire.TightestBatch | pubsuber/src/ModAckIterator.cpp:24-35 | some batch of different ids uses up the estimate to the last byte |
| Wire.HeaderDecides | pubsuber/src/Algorithms.h:9-10 | all batches of different ids encode below the limit if and only if everything but the ids takes at most 100 bytes |
| Wire.AcknowledgeEstimateSound | pubsuber/src/ModAckIterator.cpp:24-35 | all Acknowledge requests for different ids encode below 512 KiB if and only if the subscription name has at most 98 bytes |
| Wire.ModifyAckDeadlineEstimateSound | pubsuber/src/ModAckIterator.cpp:24-35 | all ModifyAckDeadline requests do if and only if it has at most 98, 96 or 95 bytes, for a zero, a below-128 or a larger deadline |
| Histogram.Distribution.constructor | pubsuber/src/Distribution.h:16 | no samples yet, if the counters start at zero as C++20 has it |
| Histogram.Distribution.Record | pubsuber/src/Distribution.h:18-25 | the counters stand for one more, unbounded sample |
| Histogram.LowerBound | pubsuber/src/Distribution.h:42 | the binary search finds the first sum that reaches the target |
| Histogram.Distribution.Percentile | pubsuber/src/Distribution.h:27-48 | throws only for a share outside 0 to 1, so a target is always found; the result is the first bucket at which that share of all samples is reached |
| Histogram.PercentileMonotone | pubsuber/src/Distribution.h:27-48 | a larger share never has a smaller percentile |
| Histogram.PercentileIsOrderStatistic | pubsuber/src/Distribution.h:18-48 | the percentile is the sample of that rank in the sorted list of all samples, saturated |
| Histogram.AckDeadline | pubsuber/src/ModAckIterator.cpp:249-252 | the deadline is the one that the raw, unsaturated samples determine |
| Histogram.DeadlineIsOrderStatistic | pubsuber/src/ModAckIterator.cpp:249-252 | a number is that deadline if and only if it is the rank-ceil(0.99 n) sample of the sorted samples, clamped to 10 to 600 seconds; 10 when there is none |
| Histogram.PercentileIsDeadline | pubsuber/src/ModAckIterator.cpp:249-252 | the percentile over 601 saturating buckets, clamped, is that deadline |
| Backoff.ExpoBackoff.constructor | pubsuber/src/ExpoBackoff.cpp:23-29 | the first delay is the initial one, no attempt is counted, and the spread is the default one |
| Backoff.ExpoBackoff.CalculateNext | pubsuber/src/ExpoBackoff.cpp:31-49 | the next interval is the largest whole number that exceeds neither the largest delay nor, with spread, the sample drawn, or, without, the scaled interval |
| Backoff.ExpoBackoff.Delay | pubsuber/src/ExpoBackoff.cpp:51-56 | gives the interval that was current, counts the attempt, moves on to the one the sample decides |
| Backoff.SpreadDecides | pubsuber/src/ExpoBackoff.cpp:41-48 | with spread, the next interval is the largest whole number that exceeds neither the sample nor the largest delay |
| Backoff.ScaleDecides | pubsuber/src/ExpoBackoff.cpp:31-40 | without, neither the scaled interval nor the largest delay |
| Backoff.DelaysFollowSamples | pubsuber/src/ExpoBackoff.cpp:41-56 | the first delay is the initial one, and each later one is decided by the sample drawn when the one before it was given |
| Backoff.DelaysAreCappedGeometric | pubsuber/src/ExpoBackoff.cpp:31-40 | in the branch without spread, which the source never takes, capping every step equals capping the uncapped geometric sequence once |
| Backoff.DelaysNeverShrink | pubsuber/src/ExpoBackoff.cpp:31-40 | in that branch delays never shrink and, once at the largest, stay there |
| Backoff.DelaysAreCapped | pubsuber/src/ExpoBackoff.cpp:46-48 | with any spread, a delay exceeds the largest if and only if it is the first one and configured so |
| Retry.MakeCall | pubsuber/src/Retriable.h:90-126 | the attempts made are the ones the policies and replies dictate, and the result is the first status that is not retried with the start of its own attempt, or the exception of an exhausted loop |
| Retry.AttemptsFollow | pubsuber/src/Retriable.h:98-122 | each attempt starts when the delay after the one before it is over, within both limits, and only after DEADLINE_EXCEEDED or UNAVAILABLE; its own delay is the initial one or what the last sample decides |
| Retry.WhenACallEnds | pubsuber/src/Retriable.h:90-126 | a call returns if and only if its last status is neither of these two, with that status and the start of that attempt, and throws if and only if a limit is exceeded before |
| Retry.TimeoutsCountDeadlines | pubsuber/src/Retriable.h:104-109 | the timeout of an attempt is the first one times two to the number of attempts before it that came back with DEADLINE_EXCEEDED |
| Retry.TimeoutsAtMostDouble | pubsuber/src/Retriable.h:104-109 | the k-th attempt has at most 2^k times the first timeout, and never less than it |
| Retry.CostSoFar | pubsuber/src/Retriable.h:98-122 | the time of the first attempts and delays in closed form |
| Retry.CountLimitBoundsCost | pubsuber/src/Retriable.h:58-61 | a count limit n allows n + 1 attempts, all of them used when the call gives up in time; total time at most T (2^(n+1) - 1) plus the initial delay plus n largest delays |
| Retry.TimeLimitBoundsAttempts | pubsuber/src/Retriable.h:58-61 | without a count limit, delays of at least d allow interval / d + 1 attempts |
| Retry.ReportedStartIsLast | pubsuber/src/Retriable.h:103-119 | every failed attempt has ended, and its delay has passed, by the reported start, which lies within the interval |
| Queues.InOrderDistinct | pubsuber/src/Algorithms.h:22-32 | a set visited in any order yields no id twice |
| Iterator.GiveMeTheKeys | pubsuber/src/Algorithms.h:22-32 | picks exactly the leases inside the grace period, and if there is none, the shortest time any lease has left |
| Iterator.ExtendAckDeadlines | pubsuber/src/ModAckIterator.cpp:155-165 | the extension loop sends the greedy batches, and each batch that succeeds runs from the start of its own call |
| Iterator.ModAckIterator.constructor | pubsuber/src/ModAckIterator.cpp:42-49 | all four containers start empty |
| Iterator.ModAckIterator.AddDeadlineWatcher | pubsuber/src/ModAckIterator.cpp:51-66 | watches the id in the input and touches nothing else |
| Iterator.ModAckIterator.Done | pubsuber/src/ModAckIterator.cpp:68-100 | records the processing time; the id is pending for this completion only, the last one wins, and no lease changes |
| Iterator.ModAckIterator.MergeInput | pubsuber/src/ModAckIterator.h:39-42 | input joins the leases kept alive, those already there win, and the input is empty |
| Iterator.ModAckIterator.SendAcks | pubsuber/src/ModAckIterator.cpp:205-215 | one Acknowledge request for each greedy batch, until all are out or one fails |
| Iterator.ModAckIterator.SendNacks | pubsuber/src/ModAckIterator.cpp:217-227 | one zero-deadline request for each greedy batch, until all are out or one fails |
| Iterator.ModAckIterator.ModifyAckDeadlines | pubsuber/src/ModAckIterator.cpp:129-168 | extends the due leases by batches; asks to run again at once if there was one or no lease at all, otherwise to sleep for half the shortest time left |
| Iterator.ModAckIterator.ProcessModAcks | pubsuber/src/ModAckIterator.cpp:170-203 | drains, acknowledges, gives back, extends, in this order, each part only if the one before it succeeded; the deadline granted is the clamped percentile of the processing times; the new containers, all requests and the result, also for a pass that throws |
| Extension.BatchesDisjoint | pubsuber/src/ModAckIterator.cpp:155-165 | no id is in two batches of one loop |
| Extension.ExtensionIsExact | pubsuber/src/ModAckIterator.cpp:129-168 | exactly the leases in batches that succeeded, all inside the grace period, get their batch's call start plus the deadline; every other lease and the set of leases stay; after a throw exactly the failed batch and what follows is not extended |
| Extension.WholePassIsExact | pubsuber/src/ModAckIterator.cpp:170-203 | a pass that ends acknowledges exactly the pending acks, gives back exactly the pending nacks and extends exactly the due ones of the other leases, each once; keepAlive loses exactly the completed ids |
| Extension.ExtensionGains | pubsuber/src/Trimpl.h:10-11 | a successful extension moves a lease forward by at least the grace period of five seconds |
| Extension.NextPassSleeps | pubsuber/src/ModAckIterator.cpp:137-167 | with a frozen clock the next pass extends nothing and asks for half the shortest time left, at least 2.5 s and at most half of what every lease has |
| Messages.MessageImpl.constructor | pubsuber/src/MessageImpl.cpp:22-32 | a new message is bound to its iterator |
| Messages.MessageImpl.Ack | pubsuber/src/MessageImpl.cpp:45-50 | completes the id with Ack only if nothing has completed it and the iterator is alive, and cuts the tie |
| Messages.MessageImpl.Nack | pubsuber/src/MessageImpl.cpp:52-57 | likewise with Nack |
| Messages.MessageImpl.Destroy | pubsuber/src/MessageImpl.cpp:34-37 | a message dropped uncompleted is given back |
| Messages.MessageImpl.UseUp | pubsuber/src/MessageImpl.cpp:34-57 | over any calls ending in destruction there is exactly one completion, with the first action, and one sample |
| Messages.WatchResponse | pubsuber/src/SubscriptionPullIterator.cpp:43-48 | every id of the response is watched, in order, and has its own message |
| Messages.Deliver | pubsuber/src/SubscriptionPullIterator.cpp:51-56 | with the ids of the response held, messages go to the callback one by one, the last first, until all are delivered or one throws; whatever the callbacks do, with messages of this pull or with unused ones kept from earlier pulls, each id is completed by the first thing done with its message, with the time it took, and by nothing else |
| Messages.Pull | pubsuber/src/SubscriptionPullIterator.cpp:23-62 | all ids are watched before the first delivery, so each callback finds every id of the response held, and otherwise what the callbacks before it have left; a failed call throws and changes nothing; a callback that throws ends the pull; containers, processing times and kept messages are as the callbacks, with new messages and with unused ones kept from earlier pulls, leave them |
| Messages.WatchedAfterPull | pubsuber/src/SubscriptionPullIterator.cpp:39-48 | after the watching every id of the response is in the input with the new deadline, and nothing else differs |
| Messages.SettledAfterPull | pubsuber/src/SubscriptionPullIterator.cpp:51-56 | an id is pending for what was first done with its own message, or as before if nothing was, and no lease is lost |
| Messages.UndeliveredAreGivenBack | pubsuber/src/SubscriptionPullIterator.cpp:51-56 | when a callback throws, every message of the response not yet delivered is given back |
| Executor.AckThread.constructor | pubsuber/src/Executor.cpp:189-190 | no sleep is wanted at first |
| Executor.AckThread.BeforeWait | pubsuber/src/Executor.cpp:192-228 | waits if and only if a sleep is wanted or no iterator has input or a lease; 500 ms when idle |
| Executor.AckThread.MergeInputs | pubsuber/src/Executor.cpp:237-241 | every iterator merges its input |
| Executor.AckThread.AfterWait | pubsuber/src/Executor.cpp:229-256 | an idle wait that times out changes nothing; otherwise every input is merged and one round runs on the merged containers with the calls at hand, and the next sleep is what the round says, none after a throw |
| Executor.Turn | pubsuber/src/Executor.cpp:262-265 | the turn of one iterator changes no other one |
| Executor.ProcessModAcks | pubsuber/src/Executor.cpp:259-269 | the iterators take their turns, each with the calls the ones before it left, until all have or one throws; those after it are untouched; otherwise the result is the least of the times |
| Protocol.NextReachable | pubsuber/src/Executor.cpp:187-257 | what an enabled step makes of a reachable state is reachable |
| Conservation.ConservedStep | pubsuber/src/ModAckIterator.cpp:170-227 | every step of every thread keeps the places of all ids, one call per id, and pending ids within input and keepAlive |
| Conservation.ForwardStep | pubsuber/src/ModAckIterator.cpp:68-100 | no step moves an id back |
| Conservation.GrowsStep | pubsuber/src/ModAckIterator.cpp:205-227 | no step revises a first completion, a call made or an id dropped |
| Conservation.CompletionIsRecorded | pubsuber/src/ModAckIterator.cpp:68-70 | in every reachable state there is one processing time for each completed id, and a completion records the whole seconds since the pull of its own message |
| Conservation.RunConserves | pubsuber/src/ModAckIterator.cpp:170-227 | all of this over every run |
| Conservation.EveryIdInOnePlace | pubsuber/src/ModAckIterator.cpp:68-100 | in every reachable state each watched id is in exactly one place, others in none; no two calls share an id; each call does what the first completion asked for |
| Conservation.IdsOnlyMoveForward | pubsuber/src/ModAckIterator.cpp:170-227 | over every run ids only advance, and sent or dropped is final |
| Conservation.NothingStrandedWhenIdle | pubsuber/src/Executor.cpp:202-232 | when the ack thread idles, every watched id has been completed and sent or dropped, and nothing is pending |
| Leases.ChosenStep | pubsuber/src/ModAckIterator.cpp:137-165 | the leases chosen for extension stay distinct, kept alive and inside the grace period at the time of choosing |
| Leases.BelievesStep | pubsuber/src/ModAckIterator.cpp:115-121 | no step, a lost reply or a retry included, makes the client believe in more than the server grants, supposing that no attempt takes effect after the client has given it up |
| Leases.RunSound | pubsuber/src/ModAckIterator.cpp:170-227 | both, with conservation, over every run, on the same supposition |
| Leases.NeverBelievesLater | pubsuber/src/Retriable.h:103-119 | in every reachable state the client holds every uncompleted id, and means to extend its lease no later than the server lets it end, supposing that no attempt takes effect after the client has given it up |
| Leases.ServerStep | google/pubsub/v1/pubsub.proto:861-869 | a request that takes effect moves the leases of its batch, to what was asked for or, with zero seconds, to an end at once, and no other lease; nothing else moves any |
| Leases.NoGrantBeyondExperience | pubsuber/src/ModAckIterator.cpp:249-252 | in every reachable state the deadline being granted is at least ten seconds and at most that or the longest processing time so far |
| Retention.RetainsStep | pubsuber/src/ModAckIterator.cpp:188-198 | every step keeps exact track of which completed ids are still held |
| Retention.SettledStep | pubsuber/src/ModAckIterator.cpp:170-203 | an id sent or dropped stays so, and whether it leaked is decided |
| Retention.CompletedIdsStayGone | pubsuber/src/Algorithms.h:12-16 | for the rest of every run an id sent or dropped is held if and only if it was drained before it was merged or dropped before it was erased; otherwise no extension ever takes it |
| Retention.GivenBackStep | pubsuber/src/ModAckIterator.cpp:217-226 | a successful call that gives ids back ends their leases, and no step starts one of them again unless the id leaked |
| Retention.GivenBackStaysEnded | pubsuber/src/ModAckIterator.cpp:217-226 | the lease of an id given back by a call that succeeded is over at the server, then and for the rest of every run, unless the id was drained before it was merged |
| Retention.GivenBackRevives | pubsuber/src/Executor.cpp:237-241 | a run in which such an id, drained before it was merged, is given back and then has its lease extended by ten seconds |
| Retention.FailedAcknowledgeLeaks | pubsuber/src/ModAckIterator.cpp:193-198 | a run in which a throw while acknowledging leaves an id to give back unsent and kept alive |
| Retention.EarlyDrainLeaks | pubsuber/src/Executor.cpp:237-241 | a run in which an id completed between merge and drain is acknowledged and yet in the input |
| Timing.SafeStep | pubsuber/src/ModAckIterator.cpp:129-168 | with overruns of at most 1.25 s every step leaves each uncompleted lease enough time for the wait, its overrun and the next pass |
| Timing.RunSafe | pubsuber/src/Executor.cpp:187-257 | so does every run |
| Timing.NoLeaseLapses | pubsuber/src/Executor.cpp:187-257 | in every state of every timely run each uncompleted id kept alive has time left at the server |
| Overrun.LapsesAbove | pubsuber/src/ModAckIterator.cpp:142-152 | for every overrun above 1.25 s, a run with a lapsed lease |
| Overrun.LapsesBeyondMargin | pubsuber/src/ModAckIterator.cpp:137-147 | for every overrun above the margin, a run in which a lease lapses in the pass that merged it |
| Overrun.RunNeverMerges | pubsuber/src/SubscriptionPullIterator.cpp:39-45 | with a margin of 9 s or more, no uncompleted id is ever merged |
| Overrun.KeptFor | pubsuber/src/ModAckIterator.cpp:129-168 | a lease extended by nothing but the least deadline is kept alive for any number of five second cycles |
| Overrun.Experienced | pubsuber/src/ModAckIterator.cpp:249-252 | for every deadline of 10 to 600 seconds a run after which the processing times so far give exactly that deadline, with no leases left |
| Overrun.ExactlyTheOverrunsThatNeverLapse | pubsuber/src/Executor.cpp:187-257 | no lease lapses in any timely run if and only if the overrun is at most 1.25 s and at most the margin, or the margin is at least 9 s |
| Overrun.InputMayWaitTooLong | pubsuber/src/Executor.cpp:224-233 | however punctual the thread is, a run, with a deadline that a processing time has brought about, in which an id watched during a pass is not merged before its lease runs out |
| Prompt.InputIsMergedInTime | pubsuber/src/Executor.cpp:224-243 | from the lag, the largest deadline and the overrun alone, idle waits included, it follows that every id is merged with more than the overrun left |
| Prompt.RunHolds | pubsuber/src/Executor.cpp:187-257 | every such run keeps each uncompleted lease, merged or not, long enough |
| Prompt.EveryLeaseHolds | pubsuber/src/SubscriptionPullIterator.cpp:39-45 | in every state of such a run each uncompleted id, kept alive or still in the input, has time left at the client and at least as much at the server |
| Prompt.LapsesWhenLate | pubsuber/src/Executor.cpp:224-233 | for every lag, deadline in whole seconds and overrun up to 1.25 s that use up a fresh lease, a run in which one runs out, granting only what its processing times give |
| Prompt.ExactlyTheDeadlinesThatHold | pubsuber/src/Executor.cpp:187-257 | for a largest deadline r in whole seconds, no uncompleted lease runs out in any such run if and only if e is at most 1.25 s and lag + (r + e) / 2 + 2e is less than 9 s |
| Latency.RunWaits | pubsuber/src/Executor.cpp:187-257 | over every timely run, a completed id that is not sent yet tells how long ago the wait or the pass before its sending began at most |
| Latency.CompletedIsSent | pubsuber/src/ModAckIterator.cpp:170-198 | in a timely run with calls that succeed, every completed id has been sent, as its first completion asked, once half of the largest deadline and three overruns have passed |
| Several.MoveProjects | pubsuber/src/Executor.cpp:187-257 | whatever the thread and its users do, each iterator by itself makes a run of the protocol |
| Several.EachIsReachable | pubsuber/src/Executor.cpp:259-269 | each iterator of a reachable group is in a reachable state of the protocol, also after throws that skip its turn |
| Several.NothingStrandedWhenAllIdle | pubsuber/src/Executor.cpp:202-232 | when the thread waits for want of input and leases, no iterator has anything left to send |
| SeveralTiming.RunTimed | pubsuber/src/Executor.cpp:259-269 | with half of the largest deadline and the overrun within the grace period, each lease of each iterator lasts until the next round |
| SeveralTiming.NoneLapses | pubsuber/src/Executor.cpp:187-257 | then no lease of any iterator lapses in any timely run |
| SeveralTiming.RunNoneMerged | pubsuber/src/Executor.cpp:237-241 | with a margin of 9 s or more, no uncompleted id of any iterator is ever merged |
| Outvoting.Experienced | pubsuber/src/ModAckIterator.cpp:249-252 | a run of two iterators in which a message kept alive with the least deadline takes eleven seconds, after which its iterator grants eleven |
| Outvoting.Outvoted | pubsuber/src/Executor.cpp:262-266 | from any state in which the first of two idle iterators grants d seconds, a run in which the wish of the second to run again is outvoted by a sleep of half of d |
| Outvoting.OutvotedLapses | pubsuber/src/Executor.cpp:265 | from there, when half of d and two overruns exceed the grace period, a run with a lapsed lease, at every margin below 9 s |
| Outvoting.ExactlyWhenOutvotingIsHarmless | pubsuber/src/Executor.cpp:187-269 | for a largest deadline in whole seconds, no lease lapses in any timely run of any number of iterators, each granting what its own processing times give, if and only if half of the largest deadline and the overrun are together at most the grace period, or the margin is at least 9 s |
| Refinement.AcksRun | pubsuber/src/ModAckIterator.cpp:205-215 | the acknowledging loop is a run of single calls, with the same log and end |
| Refinement.NacksRun | pubsuber/src/ModAckIterator.cpp:217-227 | so is the loop that gives ids back; at the server exactly the leases of the batches that went out are over |
| Refinement.ExtensionRun | pubsuber/src/ModAckIterator.cpp:155-165 | so is the extension loop, also when a call throws; at the server exactly the leases of the batches that went out run as long as the client believes |
| Refinement.CallOf | pubsuber/src/ModAckIterator.cpp:118-126 | a call succeeded if and only if it returned OK, and then counts from the start it reports |
| Refinement.RetriesRun | pubsuber/src/Retriable.h:98-117 | the attempts of a call that are retried are a run, whichever of them took effect; at the server the last that did decides |
| Refinement.CallIsRun | pubsuber/src/ModAckIterator.cpp:115-126 | a call as the retry loop makes it is a run of the protocol: if and only if it returned OK, the batch, and no other lease, runs from the start it reports and the extending goes on; with any other status, or exhausted, the pass ends and no lease changes at the client; at the server the last attempt that took effect decides |
| Refinement.PassIsRun | pubsuber/src/ModAckIterator.cpp:170-203 | what ProcessModAcks does to the containers, the calls it makes for completed ids, the deadline it grants, the leases at the server and how the thread goes on is what a run of the protocol does, when no other thread steps in between |
| Refinement.RoundIsRun | pubsuber/src/Executor.cpp:235-252 | for each iterator a merge and a pass lead from a reachable state to a reachable one, so every theorem about reachable states holds of it afterwards |
| Rounds.TurnLifts | pubsuber/src/Executor.cpp:259-266 | what is a run of one iterator for the length of its turn is a run of the group, and hands over to the next turn, to the sleep, or to the throw |
| Rounds.RoundLifts | pubsuber/src/Executor.cpp:259-269 | so are the turns that are left, one after the other |
| Rounds.RoundIsGroupRun | pubsuber/src/Executor.cpp:229-256 | what a round does to the containers of all iterators, and how long the thread then means to sleep, is what a run of the group does, a throw that skips the later turns included, when no other thread steps in between |
| Rounds.WaitsAlike | pubsuber/src/Executor.cpp:224-233 | the group waits if and only if a sleep is wanted or no iterator holds anything, merges at once otherwise, and an idle wait alone can end in vain |
| Rounds.IdleWaitIsGroupRun | pubsuber/src/Executor.cpp:226-231 | an iteration whose idle wait times out is a run of the group that changes nothing but the clock |
| Rounds.IterationIsGroupRun | pubsuber/src/Executor.cpp:192-256 | any other iteration of the loop, with its wait if there is one, is a run of the group, when no other thread steps in between |
| Pulling.WatchRun | pubsuber/src/SubscriptionPullIterator.cpp:39-48 | watching the ids of a response is a run of additions |
| Pulling.ActsRun | pubsuber/src/MessageImpl.cpp:34-57 | whatever is done with messages is a run of completions, one for each message used, with its first action and its processing time |
| Pulling.PullIsRun | pubsuber/src/SubscriptionPullIterator.cpp:23-62 | what a pull and its callbacks do to the containers, the completed ids and the processing times is what a run of the protocol does |

## Left out

- Refinement.PassIsRun: is about a pass during which no other thread steps in between; the theorems about `Protocol` cover all interleavings themselves.
- Refinement.RoundIsRun: the same holds of the round.
- Rounds.IterationIsGroupRun: the same holds of the loop, whose wait no other thread's steps interrupt; a wake-up by one is a wait that ends early.
- Rounds.RoundIsGroupRun: the same holds of the round over several iterators, whose calls start in sequence.
- Pulling.PullIsRun: is about a pull during which the ack thread does not step in between, and supposes that what the user does comes in the order of time.
- Messages.Deliver: the messages kept from earlier pulls are of the same iterator and not used yet when the pull begins.
- Timing.NoLeaseLapses: supposes that calls succeed in the end, that input is merged with at least the overrun left, and one subscription; what becomes of it without the last two is said exactly by `Prompt.ExactlyTheDeadlinesThatHold` and `Outvoting.ExactlyWhenOutvotingIsHarmless`.
- Prompt.EveryLeaseHolds: supposes that calls succeed in the end, one subscription, and that an idle wait, from its begin or from the end of the pass before it, is over after 500 ms and the overrun at most.
- Outvoting.ExactlyWhenOutvotingIsHarmless: supposes that calls succeed in the end, and bounds the overrun of a whole round, not of each turn.
- Iterator.ModAckIterator.ProcessModAcks: no other thread watches or completes ids during the pass; the interleavings are in `Protocol`.
- Executor.ProcessModAcks: the same holds between the turns.
- Executor.AckThread.AfterWait: the same holds of the whole round.
- Latency.CompletedIsSent: supposes that calls succeed in the end, one subscription, and that an idle wait is over after at most half of the largest deadline and the overrun.
- Conservation.CompletionIsRecorded: completing an id and recording its processing time are one step; the source records just before it enters the critical section, so the ack thread could take the new time into account a little before the id is pending. Likewise `Choose` takes the percentile and reads the clock in one step.
- Leases.BelievesStep: excludes an attempt that takes effect after the client gave it up, as said under `Leases.NeverBelievesLater`.
- Leases.RunSound: excludes the same.
- Leases.NeverBelievesLater: is about uncompleted ids; a lease that was given back ends at the server at once, even if the id leaked. An attempt that takes effect after the client gave it up is excluded: a server that counts from the sending could then shorten a lease that a later attempt has extended.
- Batching.SendAllFinishes: an id too long for any request makes the source send empty requests for ever; the model says `Unfinished` for every script instead of looping.
- Wire.ModifyAckDeadlineEstimateSound: is for deadlines up to 600 seconds, the largest the client grants and the service accepts.
- What an acknowledgement does at the server is not modelled: the map of leases says nothing about acknowledged ids.
- Retention.GivenBackStaysEnded: is about calls that succeeded; of a call that threw, the protocol leaves open whether it took effect.
- Retry.CountLimitBoundsCost: the total time supposes that every call returns within its timeout and no sleep overruns.
- Histogram.Distribution.constructor: the model starts the counters at zero; the source's constructor does not initialise them before C++20.
- Two threads inside one critical section cannot happen and memory order is not modelled: each section guarded by the mutex is one step. Erasing drained ids from `keepAlive` is part of the drain step, since only the ack thread sees that container.
- `_executor.lock()` always succeeds in the model; the source logs an error otherwise and calls that nearly impossible. The weak reference from messages is modelled by whether the iterator is alive.
- Each delivery has its own ack id, and one message is used by one thread at a time.
- The first lease is at least ten seconds counted from at most one second before the pull's clock reading; an attempt takes effect at the server, if at all, before it comes back to the client.
- Time is one monotone clock in whole milliseconds; counters and durations are unbounded integers; the percentile is computed with exact rationals, not doubles.
- Backoff.DelaysAreCappedGeometric: the source sets the spread to 0.11 in its only constructor, so the branch this is about is dead code as things are; with the spread, `Backoff.DelaysAreCapped` is what holds.
- The random spread of delays is any non-negative sample in place of a normal distribution, and nothing is said about probabilities.
- populate_ack_ids empties one kind of container and not the other, which nobody can observe since both are dropped afterwards; the model passes the batch to the call.
- gRPC stubs, channels, credentials, connecting, starting and stopping threads, and the registry of added and removed iterators: the active iterators and the order of their turns are fixed.
- The pacing of the pull thread, topics, publishing, subscription administration, logging, metrics and the text of exceptions.
