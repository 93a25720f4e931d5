/**
 * Value-level description of the tag throttler: the request records, the
 * state of one tag queue and of the whole throttler, and one function per
 * operation giving the state it leads to. The classes in TagThrottler are
 * proved against these functions; ThrottlerProperties proves what they
 * promise.
 */
module ThrottlerSpec {
  import opened Wrappers
  import RateLimiter

  type Tag = string

  /** The two priority classes the throttler routes to. */
  datatype Priority = Batch | Default

  /** A read-version request: an opaque identity, its workload tags and its priority. */
  datatype Request = Request(id: nat, tags: set<Tag>, priority: Priority)

  /** A queued request with the (opaque) time at which it was queued. */
  datatype DelayedRequest = DelayedRequest(req: Request, startTime: real)

  /** The state of one tag queue: its optional limiter and its FIFO of delayed requests. */
  datatype QueueState = QueueState(rateInfo: Option<RateLimiter.GrvTransactionRateInfo>, requests: seq<DelayedRequest>)

  /** The state of the throttler: a queue per tracked tag and the pass-through requests. */
  datatype ThrottlerState = ThrottlerState(queues: map<Tag, QueueState>, untagged: seq<Request>)

  /** The two priority-partitioned output deques. */
  datatype Outputs = Outputs(batchPriority: seq<Request>, defaultPriority: seq<Request>)

  /** What one tag queue gives up in an epoch: the queue left behind and the requests released in order. */
  datatype Drained = Drained(rest: QueueState, released: seq<Request>)

  /** A freshly constructed tag queue: a limiter holding `rate` and no requests. */
  function NewQueue(rate: real): (q: QueueState)
    ensures q.rateInfo.Some? && q.rateInfo.value == RateLimiter.Initial(rate)
    ensures q.requests == []
  {
    QueueState(Some(RateLimiter.Initial(rate)), [])
  }

  /**
   * The limiter after setRate: a present limiter keeps its state and only
   * changes its rate; an absent one is created with the rate. Either way it
   * is present afterwards.
   */
  function SetRateOn(info: Option<RateLimiter.GrvTransactionRateInfo>, rate: real): (r: Option<RateLimiter.GrvTransactionRateInfo>)
    ensures r.Some? && r.value.rate == rate
    ensures info.Some? ==> r.value.carried == info.value.carried
    ensures info.None? ==> r.value == RateLimiter.Initial(rate)
  {
    if info.Some? then Some(RateLimiter.SetRate(info.value, rate)) else Some(RateLimiter.Initial(rate))
  }

  /**
   * How many requests a queue releases this epoch: the limiter's grant, cut
   * to the backlog; nothing at all while no limiter is present.
   */
  function Admissions(info: Option<RateLimiter.GrvTransactionRateInfo>, elapsed: real, backlog: nat, limiter: RateLimiter.Limiter): (k: nat)
    ensures k <= backlog
    ensures info.None? ==> k == 0
    ensures info.Some? ==> k <= limiter(info.value, elapsed, backlog).admitted
    ensures info.Some? ==> k == backlog || k == limiter(info.value, elapsed, backlog).admitted
  {
    if info.None? then 0
    else
      var granted := limiter(info.value, elapsed, backlog).admitted;
      if granted < backlog then granted else backlog
  }

  /** The limiter after the epoch's decision; its presence and its rate are kept. */
  function Charged(info: Option<RateLimiter.GrvTransactionRateInfo>, elapsed: real, backlog: nat, limiter: RateLimiter.Limiter): (r: Option<RateLimiter.GrvTransactionRateInfo>)
    ensures r.Some? == info.Some?
    ensures info.Some? ==> r.value.rate == info.value.rate
  {
    if info.None? then None else Some(RateLimiter.Charge(info.value, elapsed, backlog, limiter))
  }

  /** The requests inside a sequence of delayed requests, in order. */
  function Reqs(ds: seq<DelayedRequest>): (rs: seq<Request>)
    ensures |rs| == |ds|
    ensures forall i :: 0 <= i < |ds| ==> rs[i] == ds[i].req
  {
    seq(|ds|, i requires 0 <= i < |ds| => ds[i].req)
  }

  /** The requests of `rs` that have priority `p`, in their order in `rs`. */
  function WithPriority(rs: seq<Request>, p: Priority): (out: seq<Request>)
    ensures |out| <= |rs|
  {
    if rs == [] then []
    else
      var last := rs[|rs| - 1];
      WithPriority(rs[..|rs| - 1], p) + (if last.priority == p then [last] else [])
  }

  /**
   * One tag queue's epoch: the first Admissions(...) requests leave the
   * queue, in order; the rest stay, in order; the limiter is charged.
   */
  function ReleaseOne(q: QueueState, elapsed: real, limiter: RateLimiter.Limiter): (d: Drained)
    ensures |d.released| == Admissions(q.rateInfo, elapsed, |q.requests|, limiter)
    ensures d.rest.rateInfo.Some? == q.rateInfo.Some?
    ensures q.rateInfo.Some? ==> d.rest.rateInfo.value.rate == q.rateInfo.value.rate
  {
    var k := Admissions(q.rateInfo, elapsed, |q.requests|, limiter);
    Drained(QueueState(Charged(q.rateInfo, elapsed, |q.requests|, limiter), q.requests[k..]), Reqs(q.requests[..k]))
  }

  /** Every tracked queue has a limiter. */
  predicate AllLimited(qs: map<Tag, QueueState>) {
    forall t :: t in qs ==> qs[t].rateInfo.Some?
  }

  /** `order` lists every tag of `tags` exactly once. */
  predicate Enumerates(order: seq<Tag>, tags: set<Tag>) {
    && Distinct(order)
    && (forall t :: t in order ==> t in tags)
    && (forall t :: t in tags ==> t in order)
  }

  /** No tag occurs twice in `order`. */
  predicate Distinct(order: seq<Tag>)
    decreases |order|
  {
    order == [] || (order[|order| - 1] !in order[..|order| - 1] && Distinct(order[..|order| - 1]))
  }

  /** The requests released by the queues of `order`, visited in that order. */
  function AllReleased(qs: map<Tag, QueueState>, order: seq<Tag>, elapsed: real, limiter: RateLimiter.Limiter): seq<Request>
    requires forall t :: t in order ==> t in qs
  {
    if order == [] then []
    else
      var last := order[|order| - 1];
      assert last in order;
      AllReleased(qs, order[..|order| - 1], elapsed, limiter) + ReleaseOne(qs[last], elapsed, limiter).released
  }

  /** The requests queued under the tags of `order`, visited in that order. */
  function Held(qs: map<Tag, QueueState>, order: seq<Tag>): seq<Request>
    requires forall t :: t in order ==> t in qs
  {
    if order == [] then []
    else
      var last := order[|order| - 1];
      assert last in order;
      Held(qs, order[..|order| - 1]) + Reqs(qs[last].requests)
  }

  /** Concatenation commutes with picking out one priority. */
  lemma {:induction false} WithPriorityAppend(a: seq<Request>, b: seq<Request>, p: Priority)
    ensures WithPriority(a + b, p) == WithPriority(a, p) + WithPriority(b, p)
    decreases |b|
  {
    if b == [] {
      assert a + b == a;
    } else {
      var b' := b[..|b| - 1];
      assert (a + b)[..|a + b| - 1] == a + b';
      WithPriorityAppend(a, b', p);
    }
  }

  /** The tag queues and the outputs part-way through an epoch. */
  datatype Progress = Progress(queues: map<Tag, QueueState>, out: Outputs)

  /**
   * Visiting tag `t` in an epoch: its queue releases what ReleaseOne says
   * from its current state, and the released requests are appended to the
   * output of their priority. A tag that is not tracked changes nothing.
   */
  function VisitTag(p: Progress, t: Tag, elapsed: real, limiter: RateLimiter.Limiter): (r: Progress)
    ensures r.queues.Keys == p.queues.Keys
  {
    if t !in p.queues then p
    else
      var d := ReleaseOne(p.queues[t], elapsed, limiter);
      Progress(p.queues[t := d.rest],
               Outputs(p.out.batchPriority + WithPriority(d.released, Batch),
                       p.out.defaultPriority + WithPriority(d.released, Default)))
  }

  /** The tag queues and the outputs once the tags of `order` have been visited one after another. */
  function ReleaseInOrder(start: Progress, order: seq<Tag>, elapsed: real, limiter: RateLimiter.Limiter): (r: Progress)
    ensures r.queues.Keys == start.queues.Keys
    decreases |order|
  {
    if order == [] then start
    else VisitTag(ReleaseInOrder(start, order[..|order| - 1], elapsed, limiter), order[|order| - 1], elapsed, limiter)
  }

  /**
   * One whole epoch, the tag queues visited in `order`, and then every
   * pass-through request appended to the output of its priority.
   */
  function Epoch(s: ThrottlerState, out: Outputs, order: seq<Tag>, elapsed: real, limiter: RateLimiter.Limiter): (r: (ThrottlerState, Outputs))
    ensures r.0.untagged == [] && r.0.queues.Keys == s.queues.Keys
    ensures var b := WithPriority(s.untagged, Batch);
            |b| <= |r.1.batchPriority| && r.1.batchPriority[|r.1.batchPriority| - |b|..] == b
    ensures var d := WithPriority(s.untagged, Default);
            |d| <= |r.1.defaultPriority| && r.1.defaultPriority[|r.1.defaultPriority| - |d|..] == d
  {
    var p := ReleaseInOrder(Progress(s.queues, out), order, elapsed, limiter);
    (ThrottlerState(p.queues, []),
     Outputs(p.out.batchPriority + WithPriority(s.untagged, Batch), p.out.defaultPriority + WithPriority(s.untagged, Default)))
  }

  /**
   * Applying a rate update: every tag of `newRates` is tracked afterwards and
   * its limiter holds the new rate; its requests are untouched; a tag seen
   * for the first time gets an empty queue; tags absent from the update keep
   * their queue as it was.
   */
  function ApplyRates(qs: map<Tag, QueueState>, newRates: map<Tag, real>): (r: map<Tag, QueueState>)
    ensures r.Keys == qs.Keys + newRates.Keys
    ensures forall t :: t in newRates ==> r[t].rateInfo.Some? && r[t].rateInfo.value.rate == newRates[t]
    ensures forall t :: t in newRates && t in qs ==> r[t].requests == qs[t].requests
    ensures forall t :: t in newRates && t in qs && qs[t].rateInfo.Some? ==> r[t].rateInfo.value.carried == qs[t].rateInfo.value.carried
    ensures forall t :: t in newRates && t !in qs ==> r[t] == NewQueue(newRates[t])
    ensures forall t :: t in qs && t !in newRates ==> r[t] == qs[t]
  {
    map t | t in qs.Keys + newRates.Keys :: if t in newRates then RateApplied(qs, t, newRates[t]) else qs[t]
  }

  /** Applying the rate of one more tag `t` of `newRates` updates the entry of `t` and nothing else. */
  lemma ApplyRatesStep(qs: map<Tag, QueueState>, newRates: map<Tag, real>, todo: set<Tag>, t: Tag)
    requires t in todo && todo <= newRates.Keys
    ensures var before := ApplyRates(qs, newRates - todo);
            ApplyRates(qs, newRates - (todo - {t})) == before[t := RateApplied(qs, t, newRates[t])]
  {
    var before := ApplyRates(qs, newRates - todo);
    var after := ApplyRates(qs, newRates - (todo - {t}));
    assert after.Keys == before.Keys + {t};
  }

  /** The queue of tag `t` once `rate` is applied to it: setRate on the tracked queue, or a new queue. */
  function RateApplied(qs: map<Tag, QueueState>, t: Tag, rate: real): (q: QueueState)
    ensures q.rateInfo.Some? && q.rateInfo.value.rate == rate
    ensures q.requests == (if t in qs then qs[t].requests else [])
    ensures t in qs && qs[t].rateInfo.Some? ==> q.rateInfo.value.carried == qs[t].rateInfo.value.carried
    ensures t !in qs ==> q.rateInfo.value.carried == 0.0
  {
    if t in qs then qs[t].(rateInfo := SetRateOn(qs[t].rateInfo, rate)) else NewQueue(rate)
  }

  /**
   * Adding a request: an untagged request joins the pass-through deque;
   * a tagged one is appended, with its start time, to the queue of its home
   * tag, which is created with rate 0 if the tag is not yet tracked. Nothing
   * else changes.
   */
  function Enqueued(s: ThrottlerState, req: Request, home: Tag, now: real): (r: ThrottlerState)
    ensures req.tags == {} ==> r.queues == s.queues && r.untagged == s.untagged + [req]
    ensures req.tags != {} ==> r.untagged == s.untagged && r.queues.Keys == s.queues.Keys + {home}
    ensures req.tags != {} ==> r.queues[home].requests == (if home in s.queues then s.queues[home].requests else []) + [DelayedRequest(req, now)]
    ensures req.tags != {} ==> r.queues[home].rateInfo == (if home in s.queues then s.queues[home].rateInfo else NewQueue(0.0).rateInfo)
    ensures forall t :: t in s.queues && t != home ==> r.queues[t] == s.queues[t]
  {
    if req.tags == {} then s.(untagged := s.untagged + [req])
    else
      var q := if home in s.queues then s.queues[home] else NewQueue(0.0);
      s.(queues := s.queues[home := q.(requests := q.requests + [DelayedRequest(req, now)])])
  }
}
