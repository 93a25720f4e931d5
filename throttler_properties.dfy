/**
 * What the throttler promises, proved about the functions of ThrottlerSpec
 * that the methods of TagThrottler are proved to follow: no request is lost
 * or duplicated by an epoch, each released request reaches the output of
 * its priority, a tag queue releases a prefix of itself, untagged requests
 * always pass through, and rate updates only ever touch the limiters.
 */
module ThrottlerProperties {
  import opened Wrappers
  import RateLimiter
  import opened ThrottlerSpec

  /** The output of priority `p` holds exactly the requests of `rs` with that priority. */
  lemma {:induction false} WithPriorityMembers(rs: seq<Request>, p: Priority)
    ensures forall r :: r in WithPriority(rs, p) <==> r in rs && r.priority == p
    decreases |rs|
  {
    if rs != [] {
      var init := rs[..|rs| - 1];
      WithPriorityMembers(init, p);
      assert rs == init + [rs[|rs| - 1]];
    }
  }

  /** Routing by priority splits a sequence of requests between the two outputs, losing and duplicating nothing. */
  lemma {:induction false} WithPriorityPartition(rs: seq<Request>)
    ensures multiset(WithPriority(rs, Batch)) + multiset(WithPriority(rs, Default)) == multiset(rs)
    decreases |rs|
  {
    if rs != [] {
      var init, last := rs[..|rs| - 1], rs[|rs| - 1];
      assert rs == init + [last];
      assert multiset(rs) == multiset(init) + multiset{last};
      assert WithPriority(rs, Batch) == WithPriority(init, Batch) + (if last.priority == Batch then [last] else []);
      assert WithPriority(rs, Default) == WithPriority(init, Default) + (if last.priority == Default then [last] else []);
      WithPriorityPartition(init);
    }
  }

  /**
   * One queue's epoch keeps every request, in order: the released requests
   * are the front of the queue and the requests left behind are the rest.
   */
  lemma ReleaseOneConserves(q: QueueState, elapsed: real, limiter: RateLimiter.Limiter)
    ensures var d := ReleaseOne(q, elapsed, limiter);
            && d.released == Reqs(q.requests)[..|d.released|]
            && Reqs(d.rest.requests) == Reqs(q.requests)[|d.released|..]
            && Reqs(q.requests) == d.released + Reqs(d.rest.requests)
  {
    var d := ReleaseOne(q, elapsed, limiter);
    var all := Reqs(q.requests);
    var k := |d.released|;
    assert d.released == all[..k];
    assert Reqs(d.rest.requests) == all[k..];
    assert all == all[..k] + all[k..];
  }

  /**
   * Within one tag, nothing is released ahead of an earlier request: if the
   * request at position j leaves the queue, so does every request before it.
   */
  lemma ReleaseOneFifo(q: QueueState, elapsed: real, limiter: RateLimiter.Limiter, i: nat, j: nat)
    requires i <= j < |q.requests|
    requires q.requests[j].req in ReleaseOne(q, elapsed, limiter).released
    requires forall a, b :: 0 <= a < b < |q.requests| ==> q.requests[a].req != q.requests[b].req
    ensures q.requests[i].req in ReleaseOne(q, elapsed, limiter).released
  {
    var d := ReleaseOne(q, elapsed, limiter);
    var x :| 0 <= x < |d.released| && d.released[x] == q.requests[j].req;
    assert q.requests[x].req == q.requests[j].req;
    assert d.released[i] == q.requests[i].req;
  }

  /**
   * Visiting distinct tracked tags one after another releases each visited
   * queue from its state at the start and leaves the others alone.
   */
  lemma {:induction false} ReleaseInOrderQueues(start: Progress, order: seq<Tag>, elapsed: real, limiter: RateLimiter.Limiter)
    requires Distinct(order)
    requires forall t :: t in order ==> t in start.queues
    ensures var r := ReleaseInOrder(start, order, elapsed, limiter);
            && (forall t :: t in order ==> r.queues[t] == ReleaseOne(start.queues[t], elapsed, limiter).rest)
            && (forall t :: t in start.queues && t !in order ==> r.queues[t] == start.queues[t])
    decreases |order|
  {
    if order != [] {
      var init, last := order[..|order| - 1], order[|order| - 1];
      assert order == init + [last];
      ReleaseInOrderQueues(start, init, elapsed, limiter);
    }
  }

  /**
   * Visiting distinct tracked tags one after another appends the released
   * requests, in visiting order, to the outputs by priority.
   */
  lemma {:induction false} ReleaseInOrderOutputs(start: Progress, order: seq<Tag>, elapsed: real, limiter: RateLimiter.Limiter)
    requires Distinct(order)
    requires forall t :: t in order ==> t in start.queues
    ensures var r := ReleaseInOrder(start, order, elapsed, limiter);
            var released := AllReleased(start.queues, order, elapsed, limiter);
            && r.out.batchPriority == start.out.batchPriority + WithPriority(released, Batch)
            && r.out.defaultPriority == start.out.defaultPriority + WithPriority(released, Default)
    decreases |order|
  {
    if order != [] {
      var init, last := order[..|order| - 1], order[|order| - 1];
      assert order == init + [last];
      ReleaseInOrderOutputs(start, init, elapsed, limiter);
      ReleaseInOrderQueues(start, init, elapsed, limiter);
      var mid := ReleaseInOrder(start, init, elapsed, limiter);
      assert last !in init;
      var d := ReleaseOne(start.queues[last], elapsed, limiter);
      assert ReleaseOne(mid.queues[last], elapsed, limiter) == d;
      var before := AllReleased(start.queues, init, elapsed, limiter);
      assert AllReleased(start.queues, order, elapsed, limiter) == before + d.released;
      WithPriorityAppend(before, d.released, Batch);
      WithPriorityAppend(before, d.released, Default);
      var r := ReleaseInOrder(start, order, elapsed, limiter);
      assert r.out == VisitTag(mid, last, elapsed, limiter).out;
      assert r.out.batchPriority == mid.out.batchPriority + WithPriority(d.released, Batch);
      assert r.out.defaultPriority == mid.out.defaultPriority + WithPriority(d.released, Default);
      assert WithPriority(AllReleased(start.queues, order, elapsed, limiter), Batch) == WithPriority(before, Batch) + WithPriority(d.released, Batch);
      assert WithPriority(AllReleased(start.queues, order, elapsed, limiter), Default) == WithPriority(before, Default) + WithPriority(d.released, Default);
      AppendAssoc(start.out.batchPriority, WithPriority(before, Batch), WithPriority(d.released, Batch));
      AppendAssoc(start.out.defaultPriority, WithPriority(before, Default), WithPriority(d.released, Default));
    }
  }

  /** Concatenation of requests is associative. */
  lemma AppendAssoc(a: seq<Request>, b: seq<Request>, c: seq<Request>)
    ensures (a + b) + c == a + (b + c)
  {}

  /** Per tag, what the queues held is what they release plus what they keep. */
  lemma {:induction false} HeldAfterRelease(qs: map<Tag, QueueState>, after: map<Tag, QueueState>, order: seq<Tag>,
                                            elapsed: real, limiter: RateLimiter.Limiter)
    requires forall t :: t in order ==> t in qs && t in after
    requires forall t :: t in order ==> after[t] == ReleaseOne(qs[t], elapsed, limiter).rest
    ensures multiset(Held(qs, order)) == multiset(AllReleased(qs, order, elapsed, limiter)) + multiset(Held(after, order))
    decreases |order|
  {
    if order != [] {
      var init, last := order[..|order| - 1], order[|order| - 1];
      assert order == init + [last];
      HeldAfterRelease(qs, after, init, elapsed, limiter);
      ReleaseOneConserves(qs[last], elapsed, limiter);
    }
  }

  /**
   * The effect of a whole epoch in which every tracked tag is visited once:
   * each queue loses exactly its released prefix, the pass-through deque is
   * emptied, and each output gains, in order, the released requests and then
   * the pass-through requests of its priority.
   */
  lemma EpochEffect(s: ThrottlerState, out: Outputs, order: seq<Tag>, elapsed: real, limiter: RateLimiter.Limiter)
    requires Enumerates(order, s.queues.Keys)
    ensures var e := Epoch(s, out, order, elapsed, limiter);
            && e.0.untagged == []
            && e.0.queues.Keys == s.queues.Keys
            && (forall t :: t in s.queues ==> e.0.queues[t] == ReleaseOne(s.queues[t], elapsed, limiter).rest)
            && e.1.batchPriority == out.batchPriority + WithPriority(AllReleased(s.queues, order, elapsed, limiter) + s.untagged, Batch)
            && e.1.defaultPriority == out.defaultPriority + WithPriority(AllReleased(s.queues, order, elapsed, limiter) + s.untagged, Default)
  {
    ReleaseInOrderQueues(Progress(s.queues, out), order, elapsed, limiter);
    ReleaseInOrderOutputs(Progress(s.queues, out), order, elapsed, limiter);
    var released := AllReleased(s.queues, order, elapsed, limiter);
    WithPriorityAppend(released, s.untagged, Batch);
    WithPriorityAppend(released, s.untagged, Default);
    AppendAssoc(out.batchPriority, WithPriority(released, Batch), WithPriority(s.untagged, Batch));
    AppendAssoc(out.defaultPriority, WithPriority(released, Default), WithPriority(s.untagged, Default));
  }

  /**
   * An epoch keeps every request: what was queued, passed through or already
   * in the outputs before is exactly what is queued or in the outputs after.
   */
  lemma EpochConserves(s: ThrottlerState, out: Outputs, order: seq<Tag>, elapsed: real, limiter: RateLimiter.Limiter)
    requires Enumerates(order, s.queues.Keys)
    ensures var e := Epoch(s, out, order, elapsed, limiter);
            && e.0.queues.Keys == s.queues.Keys
            && multiset(Held(s.queues, order)) + multiset(s.untagged) + multiset(out.batchPriority) + multiset(out.defaultPriority)
               == multiset(Held(e.0.queues, order)) + multiset(e.0.untagged) + multiset(e.1.batchPriority) + multiset(e.1.defaultPriority)
  {
    var e := Epoch(s, out, order, elapsed, limiter);
    EpochEffect(s, out, order, elapsed, limiter);
    var released := AllReleased(s.queues, order, elapsed, limiter);
    HeldAfterRelease(s.queues, e.0.queues, order, elapsed, limiter);
    var all := released + s.untagged;
    WithPriorityPartition(all);
    var wb, wd := WithPriority(all, Batch), WithPriority(all, Default);
    assert multiset(all) == multiset(released) + multiset(s.untagged);
    assert multiset(e.1.batchPriority) == multiset(out.batchPriority) + multiset(wb);
    assert multiset(e.1.defaultPriority) == multiset(out.defaultPriority) + multiset(wd);
    Regroup(multiset(Held(s.queues, order)), multiset(Held(e.0.queues, order)), multiset(s.untagged), multiset(released),
            multiset(out.batchPriority), multiset(out.defaultPriority), multiset(wb), multiset(wd));
  }

  /** The bookkeeping of an epoch: held, passed through and output before, regrouped as held and output after. */
  lemma Regroup(h0: multiset<Request>, h1: multiset<Request>, u: multiset<Request>, rel: multiset<Request>,
                b0: multiset<Request>, d0: multiset<Request>, wb: multiset<Request>, wd: multiset<Request>)
    requires h0 == rel + h1 && wb + wd == rel + u
    ensures h0 + u + b0 + d0 == h1 + multiset{} + (b0 + wb) + (d0 + wd)
  {
    forall x
      ensures (h0 + u + b0 + d0)[x] == (h1 + multiset{} + (b0 + wb) + (d0 + wd))[x]
    {
      assert h0[x] == rel[x] + h1[x];
      assert (wb + wd)[x] == (rel + u)[x];
    }
  }

  /**
   * Untagged requests are never throttled: after an epoch the pass-through
   * deque is empty and each of its requests is in the output of its priority.
   */
  lemma EpochPassesUntagged(s: ThrottlerState, out: Outputs, order: seq<Tag>, elapsed: real, limiter: RateLimiter.Limiter)
    ensures var e := Epoch(s, out, order, elapsed, limiter);
            && e.0.untagged == []
            && (forall r :: r in s.untagged && r.priority == Batch ==> r in e.1.batchPriority)
            && (forall r :: r in s.untagged && r.priority == Default ==> r in e.1.defaultPriority)
  {
    WithPriorityMembers(s.untagged, Batch);
    WithPriorityMembers(s.untagged, Default);
  }

  /**
   * Every request an epoch puts in an output has that output's priority and
   * came from a tag queue or from the pass-through deque, and every such
   * request is put there; nothing else joins the outputs.
   */
  lemma EpochRoutesByPriority(s: ThrottlerState, out: Outputs, order: seq<Tag>, elapsed: real, limiter: RateLimiter.Limiter)
    requires Enumerates(order, s.queues.Keys)
    ensures var e := Epoch(s, out, order, elapsed, limiter);
            var released := AllReleased(s.queues, order, elapsed, limiter);
            && (forall r :: r in e.1.batchPriority <==>
                  r in out.batchPriority || (r.priority == Batch && (r in released || r in s.untagged)))
            && (forall r :: r in e.1.defaultPriority <==>
                  r in out.defaultPriority || (r.priority == Default && (r in released || r in s.untagged)))
  {
    EpochEffect(s, out, order, elapsed, limiter);
    var all := AllReleased(s.queues, order, elapsed, limiter) + s.untagged;
    WithPriorityMembers(all, Batch);
    WithPriorityMembers(all, Default);
  }

  /** Queues whose limiters admit nothing release nothing. */
  lemma {:induction false} AllReleasedIdle(qs: map<Tag, QueueState>, order: seq<Tag>, elapsed: real, limiter: RateLimiter.Limiter)
    requires forall t :: t in order ==> t in qs
    requires forall t :: t in order ==> Admissions(qs[t].rateInfo, elapsed, |qs[t].requests|, limiter) == 0
    ensures AllReleased(qs, order, elapsed, limiter) == []
    decreases |order|
  {
    if order != [] {
      var init := order[..|order| - 1];
      assert order == init + [order[|order| - 1]];
      AllReleasedIdle(qs, init, elapsed, limiter);
    }
  }

  /**
   * An epoch in which no limiter admits anything leaves every tag queue's
   * requests as they were and outputs only the pass-through requests.
   */
  lemma IdleEpoch(s: ThrottlerState, out: Outputs, order: seq<Tag>, elapsed: real, limiter: RateLimiter.Limiter)
    requires Enumerates(order, s.queues.Keys)
    requires forall t :: t in s.queues ==> Admissions(s.queues[t].rateInfo, elapsed, |s.queues[t].requests|, limiter) == 0
    ensures var e := Epoch(s, out, order, elapsed, limiter);
            && (forall t :: t in s.queues ==> e.0.queues[t].requests == s.queues[t].requests)
            && e.1 == Outputs(out.batchPriority + WithPriority(s.untagged, Batch),
                              out.defaultPriority + WithPriority(s.untagged, Default))
  {
    EpochEffect(s, out, order, elapsed, limiter);
    AllReleasedIdle(s.queues, order, elapsed, limiter);
    assert [] + s.untagged == s.untagged;
  }

  /** A queue without a limiter holds all of its requests through any epoch. */
  lemma NoLimiterHolds(q: QueueState, elapsed: real, limiter: RateLimiter.Limiter)
    requires q.rateInfo.None?
    ensures ReleaseOne(q, elapsed, limiter).released == []
    ensures ReleaseOne(q, elapsed, limiter).rest == q
  {
    assert q.requests[0..] == q.requests;
  }

  /** A rate update leaves every queue with a limiter, whether it was tracked before or not. */
  lemma ApplyRatesKeepsLimiters(qs: map<Tag, QueueState>, newRates: map<Tag, real>)
    requires AllLimited(qs)
    ensures AllLimited(ApplyRates(qs, newRates))
  {}

  /** Adding a request keeps every queue's limiter, and a queue it creates has one. */
  lemma EnqueuedKeepsLimiters(s: ThrottlerState, req: Request, home: Tag, now: real)
    requires AllLimited(s.queues)
    ensures AllLimited(Enqueued(s, req, home, now).queues)
  {}

  /** An epoch changes no queue's limiter from present to absent. */
  lemma EpochKeepsLimiters(s: ThrottlerState, out: Outputs, order: seq<Tag>, elapsed: real, limiter: RateLimiter.Limiter)
    requires Enumerates(order, s.queues.Keys) && AllLimited(s.queues)
    ensures AllLimited(Epoch(s, out, order, elapsed, limiter).0.queues)
  {
    EpochEffect(s, out, order, elapsed, limiter);
  }

  /**
   * Two rate updates in a row amount to one update with the two merged, the
   * later rate winning: setRate only ever replaces the rate and keeps the
   * rest of the limiter.
   */
  lemma ApplyRatesCompose(qs: map<Tag, QueueState>, first: map<Tag, real>, second: map<Tag, real>)
    ensures ApplyRates(ApplyRates(qs, first), second) == ApplyRates(qs, first + second)
  {
    var lhs := ApplyRates(ApplyRates(qs, first), second);
    var rhs := ApplyRates(qs, first + second);
    var mid := ApplyRates(qs, first);
    forall t | t in lhs
      ensures lhs[t] == rhs[t]
    {
      if t in second {
        assert lhs[t] == RateApplied(mid, t, second[t]);
        assert rhs[t] == RateApplied(qs, t, second[t]);
      } else {
        assert lhs[t] == mid[t];
      }
    }
  }

  /** Applying the same rate update twice has the effect of applying it once. */
  lemma ApplyRatesIdempotent(qs: map<Tag, QueueState>, newRates: map<Tag, real>)
    ensures ApplyRates(ApplyRates(qs, newRates), newRates) == ApplyRates(qs, newRates)
  {
    ApplyRatesCompose(qs, newRates, newRates);
    assert newRates + newRates == newRates;
  }

  /** Replacing one visited queue changes what the queues hold by that queue's requests only. */
  lemma {:induction false} HeldUpdate(qs: map<Tag, QueueState>, order: seq<Tag>, home: Tag, q: QueueState)
    requires Distinct(order)
    requires forall t :: t in order ==> t in qs
    requires home in order
    ensures multiset(Held(qs[home := q], order)) + multiset(Reqs(qs[home].requests))
            == multiset(Held(qs, order)) + multiset(Reqs(q.requests))
    decreases |order|
  {
    var init, last := order[..|order| - 1], order[|order| - 1];
    assert order == init + [last];
    assert last !in init && Distinct(init);
    if last == home {
      HeldUnvisited(qs, init, home, q);
    } else {
      assert home in init;
      HeldUpdate(qs, init, home, q);
      var updated := qs[home := q];
      var kept := multiset(Reqs(qs[last].requests));
      var was, now := multiset(Reqs(qs[home].requests)), multiset(Reqs(q.requests));
      assert updated[last] == qs[last];
      assert Held(updated, order) == Held(updated, init) + Reqs(qs[last].requests);
      assert Held(qs, order) == Held(qs, init) + Reqs(qs[last].requests);
      assert multiset(Held(updated, init)) + was == multiset(Held(qs, init)) + now;
      calc {
        multiset(Held(updated, order)) + was;
        multiset(Held(updated, init)) + kept + was;
        multiset(Held(updated, init)) + was + kept;
        multiset(Held(qs, init)) + now + kept;
        multiset(Held(qs, init)) + kept + now;
        multiset(Held(qs, order)) + now;
      }
    }
  }

  /** A queue whose tag is not visited does not count towards what the visited queues hold. */
  lemma {:induction false} HeldUnvisited(qs: map<Tag, QueueState>, order: seq<Tag>, home: Tag, q: QueueState)
    requires forall t :: t in order ==> t in qs
    requires home !in order
    ensures Held(qs[home := q], order) == Held(qs, order)
    decreases |order|
  {
    if order != [] {
      var init := order[..|order| - 1];
      assert order == init + [order[|order| - 1]];
      HeldUnvisited(qs, init, home, q);
    }
  }

  /**
   * Adding a request puts it in exactly one place: the multiset of all held
   * requests (queued under some tag or passing through) grows by the request
   * and by nothing else. A tag seen for the first time joins the enumeration.
   */
  lemma EnqueuedHoldsOnce(s: ThrottlerState, req: Request, home: Tag, now: real, order: seq<Tag>)
    requires Enumerates(order, s.queues.Keys)
    ensures var r := Enqueued(s, req, home, now);
            var order' := if req.tags != {} && home !in s.queues then order + [home] else order;
            && Enumerates(order', r.queues.Keys)
            && multiset(Held(r.queues, order')) + multiset(r.untagged)
               == multiset(Held(s.queues, order)) + multiset(s.untagged) + multiset{req}
  {
    if req.tags == {} {
    } else if home in s.queues {
      EnqueuedTracked(s, req, home, now, order);
    } else {
      EnqueuedNewTag(s, req, home, now, order);
    }
  }

  /** A request for a tracked home tag joins that queue and no other. */
  lemma EnqueuedTracked(s: ThrottlerState, req: Request, home: Tag, now: real, order: seq<Tag>)
    requires Enumerates(order, s.queues.Keys)
    requires req.tags != {} && home in s.queues
    ensures var r := Enqueued(s, req, home, now);
            && r.queues.Keys == s.queues.Keys
            && multiset(Held(r.queues, order)) == multiset(Held(s.queues, order)) + multiset{req}
  {
    var r := Enqueued(s, req, home, now);
    var q0, q1 := s.queues[home], r.queues[home];
    assert Reqs(q1.requests) == Reqs(q0.requests) + [req];
    HeldUpdate(s.queues, order, home, q1);
    assert r.queues == s.queues[home := q1];
    var was := multiset(Reqs(q0.requests));
    MultisetCancel(multiset(Held(r.queues, order)), multiset(Held(s.queues, order)) + multiset{req}, was);
  }

  /** A common part can be taken away from both sides of an equation between multisets. */
  lemma MultisetCancel(a: multiset<Request>, b: multiset<Request>, x: multiset<Request>)
    requires a + x == b + x
    ensures a == b
  {
    assert forall e :: a[e] == (a + x)[e] - x[e];
  }

  /** A request for an untracked home tag starts a new queue holding only that request. */
  lemma EnqueuedNewTag(s: ThrottlerState, req: Request, home: Tag, now: real, order: seq<Tag>)
    requires Enumerates(order, s.queues.Keys)
    requires req.tags != {} && home !in s.queues
    ensures var r := Enqueued(s, req, home, now);
            && Enumerates(order + [home], r.queues.Keys)
            && multiset(Held(r.queues, order + [home])) == multiset(Held(s.queues, order)) + multiset{req}
  {
    var r := Enqueued(s, req, home, now);
    var q1 := r.queues[home];
    assert Reqs(q1.requests) == [req];
    var order' := order + [home];
    assert order'[..|order'| - 1] == order;
    HeldUnvisited(s.queues, order, home, q1);
    assert r.queues == s.queues[home := q1];
  }

  /** Five requests queued under tag "t", alternating between the two priorities. */
  function FiveQueued(): seq<DelayedRequest> {
    [DelayedRequest(Request(0, {"t"}, Batch), 0.0), DelayedRequest(Request(1, {"t"}, Default), 0.0),
     DelayedRequest(Request(2, {"t"}, Batch), 0.0), DelayedRequest(Request(3, {"t"}, Default), 0.0),
     DelayedRequest(Request(4, {"t"}, Batch), 0.0)]
  }

  /** A limiter that grants two admissions whatever its state. */
  function GrantTwo(info: RateLimiter.GrvTransactionRateInfo, elapsed: real, backlog: nat): RateLimiter.Grant {
    RateLimiter.Grant(2, info.carried)
  }

  /**
   * A worked epoch: a tag queue holding five requests whose limiter grants
   * two releases the first two, in order, to the outputs of their priorities
   * and keeps the last three queued in order.
   */
  lemma TwoOfFiveReleased(elapsed: real)
    ensures var d := ReleaseOne(QueueState(Some(RateLimiter.Initial(2.0)), FiveQueued()), elapsed, GrantTwo);
            && d.released == [Request(0, {"t"}, Batch), Request(1, {"t"}, Default)]
            && d.rest.requests == FiveQueued()[2..]
            && WithPriority(d.released, Batch) == [Request(0, {"t"}, Batch)]
            && WithPriority(d.released, Default) == [Request(1, {"t"}, Default)]
  {
    var d := ReleaseOne(QueueState(Some(RateLimiter.Initial(2.0)), FiveQueued()), elapsed, GrantTwo);
    assert |d.released| == 2;
    assert d.released[..1] == [Request(0, {"t"}, Batch)];
  }

  /**
   * The same queue over three epochs: two, two more, then the last one are
   * released, each time from the front, and the queue ends up empty.
   */
  lemma FiveReleasedOverThreeEpochs(elapsed: real)
    ensures var d1 := ReleaseOne(QueueState(Some(RateLimiter.Initial(2.0)), FiveQueued()), elapsed, GrantTwo);
            var d2 := ReleaseOne(d1.rest, elapsed, GrantTwo);
            var d3 := ReleaseOne(d2.rest, elapsed, GrantTwo);
            && d1.released == Reqs(FiveQueued()[..2])
            && d2.released == Reqs(FiveQueued()[2..4])
            && d3.released == Reqs(FiveQueued()[4..])
            && d3.rest.requests == []
  {
    var d1 := ReleaseOne(QueueState(Some(RateLimiter.Initial(2.0)), FiveQueued()), elapsed, GrantTwo);
    assert d1.rest.requests == FiveQueued()[2..];
    var d2 := ReleaseOne(d1.rest, elapsed, GrantTwo);
    assert d2.rest.requests == FiveQueued()[4..];
    assert d2.released == Reqs(FiveQueued()[2..][..2]);
    assert FiveQueued()[2..][..2] == FiveQueued()[2..4];
  }
}
