/**
 * The per-tag rate limiter (GrvTransactionRateInfo), seen only through its
 * contract. Its floating-point internals are not part of this model: its
 * state is reduced to the configured rate and an opaque carried budget, and
 * its admission decision is a function the caller supplies.
 */
module RateLimiter {

  /** Limiter state: the configured rate (requests per second) and whatever budget it carries between epochs. */
  datatype GrvTransactionRateInfo = GrvTransactionRateInfo(rate: real, carried: real)

  /** One admission decision: how many requests may start now, and the budget carried on afterwards. */
  datatype Grant = Grant(admitted: nat, carried: real)

  /**
   * The limiter's decision procedure: given its state, the time elapsed since
   * the previous epoch and the number of requests waiting, it grants some
   * number of admissions. Any such function is allowed.
   */
  type Limiter = (GrvTransactionRateInfo, real, nat) -> Grant

  /** A limiter constructed with the given rate and no carried budget. */
  function Initial(rate: real): (info: GrvTransactionRateInfo)
    ensures info.rate == rate && info.carried == 0.0
  {
    GrvTransactionRateInfo(rate, 0.0)
  }

  /** Reconfigures the rate; the carried budget is neither granted nor revoked. */
  function SetRate(info: GrvTransactionRateInfo, rate: real): (r: GrvTransactionRateInfo)
    ensures r.rate == rate && r.carried == info.carried
  {
    info.(rate := rate)
  }

  /** The limiter after an epoch's decision: same rate, the budget the decision carries on. */
  function Charge(info: GrvTransactionRateInfo, elapsed: real, backlog: nat, limiter: Limiter): (r: GrvTransactionRateInfo)
    ensures r.rate == info.rate
    ensures r.carried == limiter(info, elapsed, backlog).carried
  {
    info.(carried := limiter(info, elapsed, backlog).carried)
  }
}
