# FoundationDB GRV proxy tag throttler, modelled in Dafny

FoundationDB's GRV proxy answers GetReadVersion requests. Before a request reaches the
priority-partitioned queues, it passes a tag-throttling stage,
`GrvProxyTransactionTagThrottler`. That stage keeps one `TagQueue` per transaction tag:
- an optional rate limiter (`GrvTransactionRateInfo`);
- a FIFO deque of `DelayedRequest`s (the request plus its queueing time).

Alongside the tag queues it keeps a pass-through deque of untagged requests.

The stage has four operations:
- `updateRates` applies the rates received from ratekeeper;
- `addRequest` queues a request;
- `releaseTransactions` runs once per epoch, given the time elapsed since the previous
  epoch. Each tag queue releases the requests its limiter admits, in FIFO order, into the
  batch-priority or default-priority output deque. Requests that are not ready stay queued.
  The untagged requests always pass through;
- `size` reports the number of tracked tags.

The project has four modules:
- `RateLimiter` (`rate_limiter.dfy`): the limiter, seen only through a contract. Its state
  is the configured rate plus an opaque carried budget. Its admission decision is a
  function value of type `Limiter`, which the caller supplies.
- `ThrottlerSpec` (`throttler_spec.dfy`): value-level records and one function per operation
  giving the state it leads to. `Epoch` describes one `releaseTransactions` call as a fold
  over an order of the tags.
- `TagThrottler` (`throttler.dfy`): the imperative model. `TagQueue` and
  `GrvProxyTransactionTagThrottler` are classes whose fields the methods update in place.
  Each method is proved to reach the state the matching `ThrottlerSpec` function gives.
  `releaseTransactions` visits the tag map in an order the model does not fix, as a hash
  map does. Its contract therefore states that some order listing every tracked tag once
  produces the result.
- `ThrottlerProperties` (`throttler_properties.dfy`): lemmas about those functions. They
  cover conservation of requests, FIFO release, routing by priority, untagged pass-through,
  idle epochs, composition of rate updates, and enqueueing into exactly one place.

Only three members of the header have bodies. They are `DelayedRequest`'s constructor, which
pairs a request with its start time; the `TagQueue` constructor; and `setRate`. The model
builds `DelayedRequest(req, now)` in `Enqueued` and `AddRequest`. The header only declares
the other operations, so their behaviour below is the model's own choice, consistent with
the header's comments:
- a queue releases a FIFO prefix whose length is the limiter's grant, cut to the backlog;
- `updateRates` is incremental, so tags missing from an update keep their queue unchanged;
- a queue created by `addRequest` starts with rate 0, as the constructor's default gives;
- the untagged requests are released after the tag queues;
- a request passes through exactly when its tag set is empty, matching the name
  `untaggedRequests`. The header has no rule about which tags are throttled.

The header's constructor `TagQueue(double rate = 0.0) : rateInfo(rate)` always creates a
limiter, and no modelled operation ever clears one: `ApplyRatesKeepsLimiters`,
`EnqueuedKeepsLimiters` and `EpochKeepsLimiters` prove that rate updates, added requests and
epochs keep every queue's limiter. After construction, every queue in the model has a
limiter, so a queue without one cannot be reached. The model still covers that
case, because `setRate`'s else branch (header lines 58-59) exists only for it. The header
does not say what such a queue admits. The model chooses that it admits nothing:
`Admissions` gives 0, and `NoLimiterHolds` proves that such a queue keeps every request.

## Model

| member | source | states |
|---|---|---|
| RateLimiter.Initial | fdbserver/include/fdbserver/GrvProxyTransactionTagThrottler.h:59 | a limiter built from a rate holds that rate and carries no budget |
| RateLimiter.SetRate | fdbserver/include/fdbserver/GrvProxyTransactionTagThrottler.h:57 | reconfiguring a limiter changes its rate and keeps the budget it carries, neither granting nor revoking any |
| RateLimiter.Charge | fdbserver/include/fdbserver/GrvProxyTransactionTagThrottler.h:30-31 | an admission decision keeps the configured rate; the limiter carries on the budget the decision leaves |
| ThrottlerSpec.NewQueue | fdbserver/include/fdbserver/GrvProxyTransactionTagThrottler.h:49 | a new tag queue has a present limiter holding the given rate and no queued request |
| ThrottlerSpec.SetRateOn | fdbserver/include/fdbserver/GrvProxyTransactionTagThrottler.h:55-61 | after setRate the limiter is present and holds the new rate; a present limiter keeps its carried budget; an absent one is created fresh |
| ThrottlerSpec.Admissions | fdbserver/include/fdbserver/GrvProxyTransactionTagThrottler.h:31-35 | the number released this epoch is at most the backlog and at most the limiter's grant, and equals one of them; with no limiter it is 0 |
| ThrottlerSpec.Charged | fdbserver/include/fdbserver/GrvProxyTransactionTagThrottler.h:30-31 | an epoch keeps a limiter's presence and its rate |
| ThrottlerSpec.WithPriority | fdbserver/include/fdbserver/GrvProxyTransactionTagThrottler.h:75-76 | picking out the requests of one priority never yields more requests than it was given |
| ThrottlerSpec.ReleaseOne | fdbserver/include/fdbserver/GrvProxyTransactionTagThrottler.h:51-53 | one queue's epoch releases exactly the admitted number of requests and keeps the limiter present with its rate |
| ThrottlerSpec.WithPriorityAppend | fdbserver/include/fdbserver/GrvProxyTransactionTagThrottler.h:75-76 | routing a concatenation by priority is routing each part in turn |
| ThrottlerSpec.VisitTag | fdbserver/include/fdbserver/GrvProxyTransactionTagThrottler.h:74-79 | visiting one tag during an epoch neither adds nor removes a tracked tag |
| ThrottlerSpec.ReleaseInOrder | fdbserver/include/fdbserver/GrvProxyTransactionTagThrottler.h:74-79 | visiting tags one after another keeps the set of tracked tags |
| ThrottlerSpec.Epoch | fdbserver/include/fdbserver/GrvProxyTransactionTagThrottler.h:74-79 | one releaseTransactions call visits the tag queues in the given order, then appends the untagged requests to the output of their priority and clears the pass-through deque; the set of tracked tags is kept and each output ends with the untagged requests of its priority |
| ThrottlerSpec.ApplyRates | fdbserver/include/fdbserver/GrvProxyTransactionTagThrottler.h:71-72 | after a rate update every tag of the update is tracked and its limiter holds the new rate; its requests and carried budget are kept; a new tag gets an empty queue; tags absent from the update are unchanged |
| ThrottlerSpec.ApplyRatesStep | fdbserver/include/fdbserver/GrvProxyTransactionTagThrottler.h:71-72 | applying one more tag's rate changes that tag's entry only |
| ThrottlerSpec.RateApplied | fdbserver/include/fdbserver/GrvProxyTransactionTagThrottler.h:55-61 | one tag's step of updateRates: afterwards its limiter is present and holds the new rate; a tracked queue keeps its requests and carried budget; an untracked tag gets an empty queue with no carried budget |
| ThrottlerSpec.Enqueued | fdbserver/include/fdbserver/GrvProxyTransactionTagThrottler.h:81 | an untagged request is appended to the pass-through deque; a tagged one is appended to its home tag's queue, created with rate 0 if needed, without changing its limiter; no other queue changes |
| TagThrottler.TagQueue.constructor | fdbserver/include/fdbserver/GrvProxyTransactionTagThrottler.h:49 | the constructed queue is NewQueue(rate), with rate 0.0 by default |
| TagThrottler.TagQueue.SetRate | fdbserver/include/fdbserver/GrvProxyTransactionTagThrottler.h:55-61 | the limiter becomes SetRateOn of the old one, updated in place when present; the request deque is untouched |
| TagThrottler.TagQueue.ReleaseTransactions | fdbserver/include/fdbserver/GrvProxyTransactionTagThrottler.h:51-53 | the queue becomes what ReleaseOne leaves, and each output gains the released requests of its priority in order |
| TagThrottler.ReleaseFront | fdbserver/include/fdbserver/GrvProxyTransactionTagThrottler.h:33-35 | popping k requests off the front leaves the queue's suffix after k and appends the first k, split by priority and in order, to the outputs |
| TagThrottler.ReleaseStep | fdbserver/include/fdbserver/GrvProxyTransactionTagThrottler.h:75-76 | releasing one more request adds it to the output of its own priority only |
| TagThrottler.GrvProxyTransactionTagThrottler.constructor | fdbserver/include/fdbserver/GrvProxyTransactionTagThrottler.h:64-68 | a new throttler tracks no tag and holds no request |
| TagThrottler.GrvProxyTransactionTagThrottler.UpdateRates | fdbserver/include/fdbserver/GrvProxyTransactionTagThrottler.h:71-72 | the new state is ApplyRates of the old one; the untagged requests are unchanged; every queue object is an old one or a new one |
| TagThrottler.GrvProxyTransactionTagThrottler.ApplyRate | fdbserver/include/fdbserver/GrvProxyTransactionTagThrottler.h:55-61 | one tag's rate is applied with setRate on its queue, or by creating the queue with that rate |
| TagThrottler.GrvProxyTransactionTagThrottler.AddRequest | fdbserver/include/fdbserver/GrvProxyTransactionTagThrottler.h:81 | the new state is Enqueued of the old one; existing queue objects stay under their tags |
| TagThrottler.GrvProxyTransactionTagThrottler.ReleaseTransactions | fdbserver/include/fdbserver/GrvProxyTransactionTagThrottler.h:74-79 | for some order listing every tracked tag exactly once, the new state and outputs are that of Epoch; no tag is added or dropped |
| TagThrottler.GrvProxyTransactionTagThrottler.ReleaseTags | fdbserver/include/fdbserver/GrvProxyTransactionTagThrottler.h:33-35 | the tag queues release in turn, in an order that lists every tracked tag once |
| TagThrottler.GrvProxyTransactionTagThrottler.ReleaseTag | fdbserver/include/fdbserver/GrvProxyTransactionTagThrottler.h:51-53 | one tag's queue releases as VisitTag says; the map and the untagged deque are unchanged |
| TagThrottler.GrvProxyTransactionTagThrottler.Size | fdbserver/include/fdbserver/GrvProxyTransactionTagThrottler.h:84-85 | the result is the number of tracked tags as a uint32: below 2^32, congruent to the count modulo 2^32, and equal to it whenever it fits; no state changes |
| ThrottlerProperties.WithPriorityMembers | fdbserver/include/fdbserver/GrvProxyTransactionTagThrottler.h:75-76 | a request is in the output of priority p if and only if it was released and has priority p |
| ThrottlerProperties.WithPriorityPartition | fdbserver/include/fdbserver/GrvProxyTransactionTagThrottler.h:75-79 | routing by priority splits the released requests between the two outputs; none is lost or duplicated |
| ThrottlerProperties.ReleaseOneConserves | fdbserver/include/fdbserver/GrvProxyTransactionTagThrottler.h:33-35 | one queue's epoch releases a prefix of its requests and keeps the suffix, in order; together they are exactly the requests held before |
| ThrottlerProperties.ReleaseOneFifo | fdbserver/include/fdbserver/GrvProxyTransactionTagThrottler.h:47 | if a request leaves a queue, every request queued before it under that tag leaves as well |
| ThrottlerProperties.ReleaseInOrderQueues | fdbserver/include/fdbserver/GrvProxyTransactionTagThrottler.h:74-79 | visiting distinct tags releases each visited queue from its state at the start of the epoch and leaves the others untouched |
| ThrottlerProperties.ReleaseInOrderOutputs | fdbserver/include/fdbserver/GrvProxyTransactionTagThrottler.h:74-79 | visiting distinct tags appends exactly the released requests, in visiting order, to the outputs by priority |
| ThrottlerProperties.HeldAfterRelease | fdbserver/include/fdbserver/GrvProxyTransactionTagThrottler.h:33-35 | what the visited queues held equals, as a multiset, what they released plus what they kept |
| ThrottlerProperties.EpochEffect | fdbserver/include/fdbserver/GrvProxyTransactionTagThrottler.h:74-79 | in an epoch each queue loses exactly its released prefix and the pass-through deque is emptied; each output gains the released and then the untagged requests of its priority |
| ThrottlerProperties.EpochConserves | fdbserver/include/fdbserver/GrvProxyTransactionTagThrottler.h:33-35 | an epoch keeps every request: queued plus passed-through plus already-output requests before equal queued plus output requests after, as multisets |
| ThrottlerProperties.EpochPassesUntagged | fdbserver/include/fdbserver/GrvProxyTransactionTagThrottler.h:67-68 | after an epoch the pass-through deque is empty and each of its requests is in the output of its priority |
| ThrottlerProperties.EpochRoutesByPriority | fdbserver/include/fdbserver/GrvProxyTransactionTagThrottler.h:74-76 | a request is in an output after an epoch if and only if it was there before, or it has that output's priority and was released by a queue or passed through |
| ThrottlerProperties.AllReleasedIdle | fdbserver/include/fdbserver/GrvProxyTransactionTagThrottler.h:76 | queues whose limiters admit nothing release nothing |
| ThrottlerProperties.IdleEpoch | fdbserver/include/fdbserver/GrvProxyTransactionTagThrottler.h:74-76 | in an epoch where no limiter admits anything, every queue keeps its requests and only the untagged requests are output |
| ThrottlerProperties.NoLimiterHolds | fdbserver/include/fdbserver/GrvProxyTransactionTagThrottler.h:46 | a queue without a limiter releases nothing and stays exactly as it was; no admissions without a limiter is the model's rule, and no modelled operation reaches such a queue |
| ThrottlerProperties.ApplyRatesKeepsLimiters | fdbserver/include/fdbserver/GrvProxyTransactionTagThrottler.h:55-61 | if every queue has a limiter, it still does after a rate update, including the queues the update creates |
| ThrottlerProperties.EnqueuedKeepsLimiters | fdbserver/include/fdbserver/GrvProxyTransactionTagThrottler.h:49 | if every queue has a limiter, it still does after a request is added, including a queue created for a new home tag |
| ThrottlerProperties.EpochKeepsLimiters | fdbserver/include/fdbserver/GrvProxyTransactionTagThrottler.h:74-79 | if every queue has a limiter, it still does after an epoch |
| ThrottlerProperties.ApplyRatesCompose | fdbserver/include/fdbserver/GrvProxyTransactionTagThrottler.h:55-61 | two rate updates in a row equal one merged update in which the later rate wins, because setRate keeps the rest of the limiter |
| ThrottlerProperties.ApplyRatesIdempotent | fdbserver/include/fdbserver/GrvProxyTransactionTagThrottler.h:71-72 | applying the same rate update twice is the same as applying it once |
| ThrottlerProperties.HeldUpdate | fdbserver/include/fdbserver/GrvProxyTransactionTagThrottler.h:65 | replacing one tag's queue changes what the tag queues hold by that queue's contents only |
| ThrottlerProperties.HeldUnvisited | fdbserver/include/fdbserver/GrvProxyTransactionTagThrottler.h:65 | a queue outside the enumerated tags does not affect what they hold |
| ThrottlerProperties.EnqueuedHoldsOnce | fdbserver/include/fdbserver/GrvProxyTransactionTagThrottler.h:81 | addRequest puts the request in exactly one place: the multiset of held requests grows by that request and nothing else; a newly seen tag joins the tracked tags |
| ThrottlerProperties.EnqueuedTracked | fdbserver/include/fdbserver/GrvProxyTransactionTagThrottler.h:81 | a request for a tracked home tag joins that queue and no other |
| ThrottlerProperties.EnqueuedNewTag | fdbserver/include/fdbserver/GrvProxyTransactionTagThrottler.h:81 | a request for an untracked home tag starts a new tracked queue that holds only that request |
| ThrottlerProperties.TwoOfFiveReleased | fdbserver/include/fdbserver/GrvProxyTransactionTagThrottler.h:33-35 | with five queued requests and a grant of two, the first two are released to their priorities' outputs and the last three stay queued in order |
| ThrottlerProperties.FiveReleasedOverThreeEpochs | fdbserver/include/fdbserver/GrvProxyTransactionTagThrottler.h:33-35 | the same queue over three epochs releases two requests, two more, then the last one, always from the front, and ends empty |

## Left out

- `GrvTransactionRateInfo` internals are left out. The limiter's floating-point arithmetic is
  not in the header, so its state is reduced to a rate and an opaque carried budget. Its
  admission decision is any function of type `RateLimiter.Limiter`. The limiter's own rules
  depend on those internals and are not modelled:
  - rate conformance, at most about rate × elapsed admissions per epoch;
  - a grant of at most the backlog offered. The model cuts the released count to the backlog
    (`Admissions`), but `Charge` still carries on whatever budget the decision reports, even
    for an uncut grant;
  - no admissions when `elapsed <= 0`.
- The clock is left out. `DelayedRequest`'s default `startTime = now()` is the parameter
  `now` of `AddRequest`, and the throttling decision never reads it.
- TagThrottler.GrvProxyTransactionTagThrottler.AddRequest: the home tag of a multi-tag request is the
  parameter `home`, required only to be one of the request's tags. The header does not
  show the choice, so a rule such as taking the tag with the lowest rate among the request's
  tags is not modelled.
- TagThrottler.GrvProxyTransactionTagThrottler.AddRequest: a request passes through exactly when its tag
  set is empty. A rule based on which tags have an active quota would need the quota
  configuration, which the header does not show.
- TagThrottler.GrvProxyTransactionTagThrottler.ReleaseTransactions: the order in which the tag map is
  visited is not fixed. The contract states only that some order visiting every tag once
  produces the result, because `TransactionTagMap`'s hashing order is not part of the model.
- `GetReadVersionRequest` carries only an identity, its tag set and its priority. Its
  payload and reply promise are not modelled, and `SpannedDeque`'s tracing spans are plain
  sequences. The two output deques are separate values passed in and returned, so a call
  that passes the same deque for both priorities, which the reference parameters allow, is
  not modelled.
- Priorities are limited to batch and default, the two output deques of the header. A
  request's priority is one of those two.
- fdbserver/include/fdbserver/KmsConnectorInterface.h is not part of this model. It holds RPC
  endpoint wiring and message serialisation, with no throttling logic.
- Concurrency is left out. The operations are called from one thread and none of them waits,
  so each runs to completion before another starts; they are modelled as sequential methods.
