/**
 * The tag-throttling stage for read-version requests: a queue per tag, each
 * with its own rate limiter, and a pass-through deque for untagged requests.
 * Every state-changing operation is proved to lead to the state that the
 * matching function of ThrottlerSpec describes.
 */
module TagThrottler {
  import opened Wrappers
  import RateLimiter
  import opened ThrottlerSpec

  /** The queue of one tag: an optional limiter and a FIFO of delayed requests. */
  class TagQueue {
    var rateInfo: Option<RateLimiter.GrvTransactionRateInfo>
    var requests: seq<DelayedRequest>

    /** The queue's value. */
    ghost function State(): QueueState
      reads this
    {
      QueueState(rateInfo, requests)
    }

    /** A new queue has a present limiter holding `rate` and no requests. */
    constructor (rate: real := 0.0)
      ensures State() == NewQueue(rate)
    {
      rateInfo := Some(RateLimiter.Initial(rate));
      requests := [];
    }

    /** Reconfigures the limiter in place, or creates it when absent; the requests are untouched. */
    method SetRate(rate: real)
      modifies this
      ensures rateInfo == SetRateOn(old(rateInfo), rate)
      ensures requests == old(requests)
    {
      if rateInfo.Some? {
        rateInfo := Some(RateLimiter.SetRate(rateInfo.value, rate));
      } else {
        rateInfo := Some(RateLimiter.Initial(rate));
      }
    }

    /**
     * Releases the requests the limiter admits this epoch from the front of
     * the queue, appending each to the output of its priority; the others
     * stay queued in their order.
     */
    method ReleaseTransactions(elapsed: real, limiter: RateLimiter.Limiter,
                               outBatchPriority: seq<Request>, outDefaultPriority: seq<Request>)
      returns (batchPriority: seq<Request>, defaultPriority: seq<Request>)
      modifies this
      ensures State() == ReleaseOne(old(State()), elapsed, limiter).rest
      ensures batchPriority == outBatchPriority + WithPriority(ReleaseOne(old(State()), elapsed, limiter).released, Batch)
      ensures defaultPriority == outDefaultPriority + WithPriority(ReleaseOne(old(State()), elapsed, limiter).released, Default)
    {
      var k := Admissions(rateInfo, elapsed, |requests|, limiter);
      rateInfo := Charged(rateInfo, elapsed, |requests|, limiter);
      requests, batchPriority, defaultPriority := ReleaseFront(requests, k, outBatchPriority, outDefaultPriority);
    }
  }

  /**
   * Pops the first `k` requests off the front of a queue one at a time,
   * appending each to the output of its priority.
   */
  method ReleaseFront(queue: seq<DelayedRequest>, k: nat, outBatchPriority: seq<Request>, outDefaultPriority: seq<Request>)
    returns (rest: seq<DelayedRequest>, batchPriority: seq<Request>, defaultPriority: seq<Request>)
    requires k <= |queue|
    ensures rest == queue[k..]
    ensures batchPriority == outBatchPriority + WithPriority(Reqs(queue[..k]), Batch)
    ensures defaultPriority == outDefaultPriority + WithPriority(Reqs(queue[..k]), Default)
  {
    rest, batchPriority, defaultPriority := queue, outBatchPriority, outDefaultPriority;
    var released := 0;
    while released < k
      invariant released <= k
      invariant rest == queue[released..]
      invariant batchPriority == outBatchPriority + WithPriority(Reqs(queue[..released]), Batch)
      invariant defaultPriority == outDefaultPriority + WithPriority(Reqs(queue[..released]), Default)
    {
      var front := rest[0];
      ReleaseStep(queue, released, Batch);
      ReleaseStep(queue, released, Default);
      rest := rest[1..];
      if front.req.priority == Batch {
        batchPriority := batchPriority + [front.req];
      } else {
        defaultPriority := defaultPriority + [front.req];
      }
      released := released + 1;
    }
  }

  /** The throttler: a queue per tracked tag and the untagged requests passed through. */
  class GrvProxyTransactionTagThrottler {
    var queues: map<Tag, TagQueue>
    var untaggedRequests: seq<Request>
    /** The tag each queue object was created for. */
    ghost var owner: map<TagQueue, Tag>

    /** Every queue belongs to the tag it is filed under, so no two tags share a queue. */
    ghost predicate Valid()
      reads this
    {
      forall t :: t in queues ==> queues[t] in owner && owner[queues[t]] == t
    }

    /** The throttler's value. */
    ghost function State(): ThrottlerState
      reads this, queues.Values
    {
      ThrottlerState(QueueStates(queues), untaggedRequests)
    }

    /** A new throttler tracks no tag and holds no request. */
    constructor ()
      ensures Valid()
      ensures queues == map[] && untaggedRequests == []
      ensures State() == ThrottlerState(map[], [])
    {
      queues := map[];
      untaggedRequests := [];
      owner := map[];
    }

    /** Applies the rates received from ratekeeper, tag by tag. */
    method UpdateRates(newRates: map<Tag, real>)
      requires Valid()
      modifies this, queues.Values
      ensures Valid()
      ensures forall q :: q in queues.Values ==> q in old(queues.Values) || fresh(q)
      ensures State() == ThrottlerState(ApplyRates(old(State()).queues, newRates), old(untaggedRequests))
    {
      ghost var s0 := State();
      var todo := newRates.Keys;
      assert newRates - todo == map[];
      assert ApplyRates(s0.queues, map[]) == s0.queues;
      while todo != {}
        invariant todo <= newRates.Keys
        invariant Valid()
        invariant forall q :: q in queues.Values ==> q in old(queues.Values) || fresh(q)
        invariant untaggedRequests == s0.untagged
        invariant State().queues == ApplyRates(s0.queues, newRates - todo)
        decreases todo
      {
        var t :| t in todo;
        ApplyRate(t, newRates[t]);
        ApplyRatesStep(s0.queues, newRates, todo, t);
        todo := todo - {t};
      }
      assert newRates - {} == newRates;
    }

    /** Applies one tag's rate: setRate on its queue, or a new queue holding the rate. */
    method ApplyRate(t: Tag, rate: real)
      requires Valid()
      modifies this, queues.Values
      ensures Valid()
      ensures forall q :: q in queues.Values ==> q in old(queues.Values) || fresh(q)
      ensures untaggedRequests == old(untaggedRequests)
      ensures State().queues == old(State()).queues[t := RateApplied(old(State()).queues, t, rate)]
    {
      ghost var s0 := State();
      if t in queues {
        queues[t].SetRate(rate);
      } else {
        var q := new TagQueue(rate);
        queues := queues[t := q];
        owner := owner[q := t];
      }
      assert State().queues == s0.queues[t := RateApplied(s0.queues, t, rate)];
    }

    /**
     * Queues a request: untagged ones pass through; a tagged one joins the
     * queue of `home`, the tag chosen among its tags to govern it.
     */
    method AddRequest(req: Request, home: Tag, now: real)
      requires Valid()
      requires req.tags != {} ==> home in req.tags
      modifies this, queues.Values
      ensures Valid()
      ensures forall t :: t in old(queues) ==> t in queues && queues[t] == old(queues[t])
      ensures forall q :: q in queues.Values ==> q in old(queues.Values) || fresh(q)
      ensures State() == Enqueued(old(State()), req, home, now)
    {
      if req.tags == {} {
        untaggedRequests := untaggedRequests + [req];
      } else {
        ghost var s0 := State();
        if home in queues {
          var q := queues[home];
          q.requests := q.requests + [DelayedRequest(req, now)];
          assert QueueStates(queues) == s0.queues[home := q.State()];
        } else {
          var q := new TagQueue();
          queues := queues[home := q];
          owner := owner[q := home];
          q.requests := q.requests + [DelayedRequest(req, now)];
          assert QueueStates(queues) == s0.queues[home := q.State()];
        }
      }
    }

    /**
     * One epoch: every tag queue releases what its limiter admits, in some
     * order of the tags, and then every untagged request is released; each
     * released request is appended to the output of its priority.
     */
    method ReleaseTransactions(elapsed: real, limiter: RateLimiter.Limiter,
                               outBatchPriority: seq<Request>, outDefaultPriority: seq<Request>)
      returns (batchPriority: seq<Request>, defaultPriority: seq<Request>)
      requires Valid()
      modifies this, queues.Values
      ensures Valid() && queues == old(queues)
      ensures exists order ::
                && Enumerates(order, queues.Keys)
                && Epoch(old(State()), Outputs(outBatchPriority, outDefaultPriority), order, elapsed, limiter)
                   == (State(), Outputs(batchPriority, defaultPriority))
    {
      ghost var s0 := State();
      ghost var order;
      batchPriority, defaultPriority, order := ReleaseTags(elapsed, limiter, outBatchPriority, outDefaultPriority);
      ghost var p := ReleaseInOrder(Progress(s0.queues, Outputs(outBatchPriority, outDefaultPriority)), order, elapsed, limiter);
      assert p.queues == QueueStates(queues) && p.out == Outputs(batchPriority, defaultPriority);
      batchPriority := batchPriority + WithPriority(untaggedRequests, Batch);
      defaultPriority := defaultPriority + WithPriority(untaggedRequests, Default);
      untaggedRequests := [];
    }

    /** The tag queues' part of an epoch, visiting the tags in the order returned. */
    method ReleaseTags(elapsed: real, limiter: RateLimiter.Limiter,
                       outBatchPriority: seq<Request>, outDefaultPriority: seq<Request>)
      returns (batchPriority: seq<Request>, defaultPriority: seq<Request>, ghost order: seq<Tag>)
      requires Valid()
      modifies queues.Values
      ensures Enumerates(order, queues.Keys)
      ensures Progress(State().queues, Outputs(batchPriority, defaultPriority))
              == ReleaseInOrder(Progress(old(State()).queues, Outputs(outBatchPriority, outDefaultPriority)), order, elapsed, limiter)
    {
      ghost var s0 := State();
      order := [];
      batchPriority, defaultPriority := outBatchPriority, outDefaultPriority;
      var todo := queues.Keys;
      while todo != {}
        invariant todo <= queues.Keys
        invariant Enumerates(order, queues.Keys - todo)
        invariant Progress(State().queues, Outputs(batchPriority, defaultPriority))
                  == ReleaseInOrder(Progress(s0.queues, Outputs(outBatchPriority, outDefaultPriority)), order, elapsed, limiter)
        decreases todo
      {
        var t :| t in todo;
        batchPriority, defaultPriority := ReleaseTag(t, elapsed, limiter, batchPriority, defaultPriority);
        assert (order + [t])[..|order|] == order;
        order := order + [t];
        todo := todo - {t};
      }
      assert queues.Keys - todo == queues.Keys;
    }

    /** The epoch of one tag: its queue releases, nothing else changes. */
    method ReleaseTag(t: Tag, elapsed: real, limiter: RateLimiter.Limiter,
                      outBatchPriority: seq<Request>, outDefaultPriority: seq<Request>)
      returns (batchPriority: seq<Request>, defaultPriority: seq<Request>)
      requires Valid() && t in queues
      modifies queues[t]
      ensures queues == old(queues) && untaggedRequests == old(untaggedRequests)
      ensures Progress(State().queues, Outputs(batchPriority, defaultPriority))
              == VisitTag(Progress(old(State()).queues, Outputs(outBatchPriority, outDefaultPriority)), t, elapsed, limiter)
    {
      ghost var s0 := State();
      var q := queues[t];
      batchPriority, defaultPriority := q.ReleaseTransactions(elapsed, limiter, outBatchPriority, outDefaultPriority);
      assert State().queues == s0.queues[t := q.State()];
    }

    /** The number of tracked tags, as `size()`'s `uint32_t` result. */
    method Size() returns (n: nat)
      ensures n < 0x1_0000_0000
      ensures (n - |queues|) % 0x1_0000_0000 == 0
      ensures |queues| < 0x1_0000_0000 ==> n == |queues|
    {
      n := |queues| % 0x1_0000_0000;
    }
  }

  /** The value of every queue of `queues`, under its tag. */
  ghost function QueueStates(queues: map<Tag, TagQueue>): map<Tag, QueueState>
    reads queues.Values
  {
    map t | t in queues :: queues[t].State()
  }

  /** Releasing one more queued request adds it to the output of its priority only. */
  lemma ReleaseStep(ds: seq<DelayedRequest>, i: nat, p: Priority)
    requires i < |ds|
    ensures WithPriority(Reqs(ds[..i + 1]), p) == WithPriority(Reqs(ds[..i]), p) + (if ds[i].req.priority == p then [ds[i].req] else [])
  {
    var before, after := Reqs(ds[..i]), Reqs(ds[..i + 1]);
    assert after[..|after| - 1] == before;
  }
}
