/** The community burn rate: static, then rising by an integer slope, then fixed at a limit. */
module BurnRates {
  import opened Units

  /** The fields of `CommunityBurnRateParameters`. */
  datatype BurnParams = BurnParams(
    limit: BurnRate,
    toIncreasing: EpochDuration,
    toLimit: EpochDuration,
    slopeNumerator: BurnRate,
    slopeDenominator: EpochDuration,
    next: BurnRate)

  const UNSET: BurnParams := BurnParams(0, 0, 0, 0, 0, 0)

  datatype Mode = Static | Increasing | Limit

  function ModeOf(p: BurnParams): Mode {
    if p.toIncreasing != 0 then Static else if p.toLimit != 0 then Increasing else Limit
  }

  function NextBurnRate(p: BurnParams): Option<BurnRate> {
    if p.next == 0 then None else Some(p.next)
  }

  /** The u64 value formed from the cached rate and the slope; None when the addition overflows. */
  function SlopedRate(p: BurnParams): Option<u64>
    requires p.slopeDenominator != 0
  {
    assert 0 <= p.next * p.slopeDenominator by { MulNonNegative(p.next, p.slopeDenominator); }
    var total := Min(p.next * p.slopeDenominator, U64_MAX) + p.slopeNumerator;
    DivBounded(total, p.slopeDenominator);
    if total < TWO_64 then Some(total / p.slopeDenominator) else None
  }

  /**
   * One computation: whether it yields the rate cached before it, and the parameters it leaves.
   * None stands for the early returns and for a division by zero.
   */
  function Computed(p: BurnParams): Option<BurnParams> {
    if NextBurnRate(p).None? then
      None
    else
      var toLimit := SatSub32(p.toLimit, 1);
      var toIncreasing := SatSub32(p.toIncreasing, 1);
      var q := p.(toLimit := toLimit, toIncreasing := toIncreasing);
      if toLimit == 0 then
        Some(q.(next := p.limit))
      else if toIncreasing == 0 then
        if p.slopeDenominator == 0 || SlopedRate(p).None? || SlopedRate(p).value > SHARE32_MAX then
          None
        else
          Some(q.(next := Min(SlopedRate(p).value, p.limit)))
      else
        Some(q)
  }

  predicate CanUpdate(p: BurnParams, limit: BurnRate, inc: EpochDuration, lim: EpochDuration) {
    p.next <= limit && inc != 0 && inc <= lim
  }

  function Updated(p: BurnParams, limit: BurnRate, inc: EpochDuration, lim: EpochDuration): BurnParams
    requires CanUpdate(p, limit, inc, lim)
  {
    BurnParams(limit, inc, lim, limit - p.next, SatAdd32(SatSub32(lim, inc), 1), p.next)
  }

  /** `CommunityBurnRateParameters::new`. */
  function Initial(rate: BurnRate, limit: BurnRate, inc: EpochDuration, lim: EpochDuration): Option<BurnParams> {
    var p := UNSET.(next := rate);
    if rate == 0 || !CanUpdate(p, limit, inc, lim) then None else Some(Updated(p, limit, inc, lim))
  }

  /** The account field, updated in place. */
  class CommunityBurnRateParameters {
    var limit: BurnRate
    var toIncreasing: EpochDuration
    var toLimit: EpochDuration
    var slopeNumerator: BurnRate
    var slopeDenominator: EpochDuration
    var next: BurnRate

    function View(): BurnParams
      reads this
    {
      BurnParams(limit, toIncreasing, toLimit, slopeNumerator, slopeDenominator, next)
    }

    constructor (params: BurnParams)
      ensures View() == params
    {
      limit := params.limit;
      toIncreasing := params.toIncreasing;
      toLimit := params.toLimit;
      slopeNumerator := params.slopeNumerator;
      slopeDenominator := params.slopeDenominator;
      next := params.next;
    }

    /** `CommunityBurnRateParameters::new`: blank parameters with a rate, then an update. */
    static method New(rate: BurnRate, limit: BurnRate, inc: EpochDuration, lim: EpochDuration)
      returns (params: CommunityBurnRateParameters?)
      ensures params != null <==> Initial(rate, limit, inc, lim).Some?
      ensures params != null ==> fresh(params) && params.View() == Initial(rate, limit, inc, lim).value
    {
      if rate == 0 {
        return null;
      }
      params := new CommunityBurnRateParameters(UNSET.(next := rate));
      var slope := params.CheckedUpdate(limit, inc, lim);
      if slope.None? {
        return null;
      }
    }

    /** Counts down before it computes; what it leaves when it fails is rolled back. */
    method CheckedCompute() returns (rate: Option<BurnRate>)
      modifies this
      ensures rate.Some? <==> Computed(old(View())).Some?
      ensures rate.Some? ==> rate == NextBurnRate(old(View())) && View() == Computed(old(View())).value
    {
      if next == 0 {
        return None;
      }
      var nextRate := next;
      toLimit := SatSub32(toLimit, 1);
      toIncreasing := SatSub32(toIncreasing, 1);
      if toLimit == 0 {
        next := limit;
        return Some(nextRate);
      }
      if toIncreasing == 0 {
        if slopeDenominator == 0 {
          return None;  // the division panics
        }
        var sloped := SlopedRate(View());
        if sloped.None? || sloped.value > SHARE32_MAX {
          return None;
        }
        next := Min(sloped.value, limit);
      }
      return Some(nextRate);
    }

    method CheckedUpdate(newLimit: BurnRate, newToIncreasing: EpochDuration, newToLimit: EpochDuration)
      returns (slope: Option<(BurnRate, EpochDuration)>)
      modifies this
      ensures slope.Some? <==> CanUpdate(old(View()), newLimit, newToIncreasing, newToLimit)
      ensures slope.Some? ==> View() == Updated(old(View()), newLimit, newToIncreasing, newToLimit)
      ensures slope.Some? ==> slope.value == (slopeNumerator, slopeDenominator)
      ensures slope.None? ==> View() == old(View())
    {
      if newLimit < next {
        return None;
      }
      if newToIncreasing == 0 {
        return None;
      }
      if newToLimit < newToIncreasing {
        return None;
      }
      limit, toIncreasing, toLimit := newLimit, newToIncreasing, newToLimit;
      slopeNumerator := newLimit - next;
      slopeDenominator := SatAdd32(SatSub32(newToLimit, newToIncreasing), 1);
      return Some((slopeNumerator, slopeDenominator));
    }
  }

  // ---------------------------------------------------------------- what every operation keeps

  /** The increments still to come, counting one for the jump to the limit. */
  function StepsLeft(p: BurnParams): nat
    requires p.toIncreasing <= p.toLimit
  {
    if p.toLimit == 0 then 0 else p.toLimit - Max(p.toIncreasing, 1) + 1
  }

  function Increment(p: BurnParams): nat {
    if p.slopeDenominator == 0 then 0 else p.slopeNumerator / p.slopeDenominator
  }

  /** The invariant of the parameters: the remaining increments fit below the limit. */
  ghost predicate Wellformed(p: BurnParams) {
    && p.toIncreasing <= p.toLimit
    && p.next <= p.limit
    && (p.toLimit != 0 ==> p.slopeDenominator != 0)
    && p.next + StepsLeft(p) * Increment(p) <= p.limit
  }

  /** The 64-bit product neither saturates nor overflows, and dividing it back adds the increment. */
  lemma ProductStaysBelow(p: BurnParams)
    requires p.slopeDenominator != 0
    ensures p.next * p.slopeDenominator + p.slopeNumerator < TWO_64
    ensures SlopedRate(p) == Some(p.next + Increment(p))
  {
    var r, d, n := p.next, p.slopeDenominator, p.slopeNumerator;
    assert 0 <= r * d <= SHARE32_MAX * d by { MulMonotone(r, SHARE32_MAX, d); MulNonNegative(r, d); }
    DivShift(r, d, n);
  }

  lemma DivBounded(x: int, d: int)
    requires 0 <= x && 0 < d
    ensures 0 <= x / d <= x
  {
    if x < x / d {
      MulMonotone(x + 1, x / d, d);
      MulMonotone(1, d, x + 1);
      assert false;
    }
  }

  lemma DivShift(r: int, d: int, n: int)
    requires 0 < d
    ensures (r * d + n) / d == r + n / d
  {
    var q := n / d;
    assert n == q * d + n % d;
    assert r * d + n == (r + q) * d + n % d;
    DivUnique(r * d + n, d, r + q, n % d);
  }

  lemma DivUnique(x: int, d: int, q: int, rem: int)
    requires 0 < d && 0 <= rem < d && x == q * d + rem
    ensures x / d == q
  {
    var q' := x / d;
    assert x == q' * d + x % d;
    if q' < q {
      MulMonotone(q' + 1, q, d);
      assert false;
    } else if q < q' {
      MulMonotone(q + 1, q', d);
      assert false;
    }
  }

  /** The only way a computation fails is an unset rate; the clamp to the limit never binds. */
  lemma ComputeSucceeds(p: BurnParams)
    requires Wellformed(p)
    ensures Computed(p).None? <==> p.next == 0
    ensures p.next != 0 && p.toLimit > 1 && p.toIncreasing <= 1 ==>
              SlopedRate(p) == Some(p.next + Increment(p)) && p.next + Increment(p) <= p.limit
  {
    if p.next != 0 && p.toLimit > 1 && p.toIncreasing <= 1 {
      ProductStaysBelow(p);
      MulMonotone(1, StepsLeft(p), Increment(p));
    }
  }

  /** A computation keeps the invariant, never lowers the cached rate and never changes the limit. */
  lemma ComputeKeeps(p: BurnParams)
    requires Wellformed(p) && Computed(p).Some?
    ensures var q := Computed(p).value;
      Wellformed(q) && q.limit == p.limit && 0 < p.next <= q.next <= q.limit
  {
    ComputeSucceeds(p);
    var q := Computed(p).value;
    if q.toLimit == 0 {
    } else if q.toIncreasing == 0 {
      assert StepsLeft(q) == StepsLeft(p) - 1;
      assert (StepsLeft(p) - 1) * Increment(p) == StepsLeft(p) * Increment(p) - Increment(p);
    } else {
      assert StepsLeft(q) == StepsLeft(p);
    }
  }

  /** An update keeps the invariant and the cached rate. */
  lemma UpdateKeeps(p: BurnParams, limit: BurnRate, inc: EpochDuration, lim: EpochDuration)
    requires CanUpdate(p, limit, inc, lim)
    ensures var q := Updated(p, limit, inc, lim); Wellformed(q) && q.next == p.next && q.limit == limit
  {
    var q := Updated(p, limit, inc, lim);
    assert StepsLeft(q) == q.slopeDenominator;
    FloorTimes(q.slopeNumerator, q.slopeDenominator);
  }

  lemma FloorTimes(n: int, d: int)
    requires 0 <= n && 0 < d
    ensures 0 <= d * (n / d) <= n
  {}

  // ---------------------------------------------------------------- the closed form

  /** The parameters after k computations; None once one of them fails. */
  function ComputedTimes(p: BurnParams, k: nat): Option<BurnParams> {
    if k == 0 then Some(p)
    else
      var q := ComputedTimes(p, k - 1);
      if q.None? then None else Computed(q.value)
  }

  /** The rate cached after k computations, read off the update that came before them. */
  function ClosedRate(r0: int, limit: int, inc: int, lim: int, k: nat): int
    requires 0 < inc <= lim
  {
    if k < inc then r0
    else if k < lim then r0 + (k - inc + 1) * ((limit - r0) / (lim - inc + 1))
    else limit
  }

  /**
   * After an update with counts (inc, lim) from rate r0, every computation succeeds, and the rate
   * cached after the k-th is r0 for k < inc, then r0 plus one whole increment per computation, then
   * exactly the limit from the lim-th on.
   */
  lemma {:induction false} BurnRateClosedForm(
    p: BurnParams, limit: BurnRate, inc: EpochDuration, lim: EpochDuration, k: nat)
    requires p.next != 0 && CanUpdate(p, limit, inc, lim)
    ensures var u := Updated(p, limit, inc, lim);
      var c := ClosedRate(p.next, limit, inc, lim, k);
      && p.next <= c <= limit
      && ComputedTimes(u, k)
         == Some(u.(toIncreasing := Max(inc - k, 0), toLimit := Max(lim - k, 0), next := c))
      && ModeOf(ComputedTimes(u, k).value) == if k < inc then Static else if k < lim then Increasing else Limit
  {
    var u := Updated(p, limit, inc, lim);
    var step := u.slopeNumerator / u.slopeDenominator;
    if k == 0 {
    } else {
      BurnRateClosedForm(p, limit, inc, lim, k - 1);
      var q := ComputedTimes(u, k - 1).value;
      if inc <= k < lim {
        ProductStaysBelow(q);
        assert q.next == p.next + (k - inc) * step;
        assert (k - inc) * step + step == (k - inc + 1) * step;
        FloorTimes(u.slopeNumerator, u.slopeDenominator);
        MulMonotone(k - inc + 1, u.slopeDenominator, step);
        MulNonNegative(k - inc + 1, step);
      }
    }
  }
}
