// The faucet's difficulty arithmetic: targets and expected hashes are inverse to each
// other, and what a network pays for its grants.

module FaucetPricing {
  import opened Arithmetic
  import opened Basics

  function Pow2(k: nat): (r: nat)
    ensures r >= 1
  {
    if k == 0 then 1 else 2 * Pow2(k - 1)
  }

  const U256_MAX: nat := 0xFFFF_FFFF_FFFF_FFFF_FFFF_FFFF_FFFF_FFFF_FFFF_FFFF_FFFF_FFFF_FFFF_FFFF_FFFF_FFFF

  const MAX_PREFIX_DOUBLINGS: nat := 20

  /** `target_for_expected_hashes`. */
  function TargetFor(expected: u64): nat {
    U256_MAX / (if expected == 0 then 1 else expected)
  }

  /** `expected_hashes_for_target`. */
  function ExpectedFor(target: nat): u64 {
    if target == 0 then U64_MAX
    else if U256_MAX / target > U64_MAX then U64_MAX
    else U256_MAX / target
  }

  // ----- targets and hashes are inverse -----------------------------------------------------

  /** Division is pinned by its two bounds. */
  lemma DivIs(m: nat, d: nat, q: nat)
    requires d > 0 && d * q <= m < d * q + d
    ensures m / d == q
  {
    var q', r := m / d, m % d;
    assert m == d * q' + r && 0 <= r < d;
    if q' < q {
      MulMonotone(d, q' + 1, q);
    } else if q' > q {
      MulMonotone(d, q + 1, q');
    }
  }

  /** d divides into m at least n times exactly when n * d fits. */
  lemma DivAtLeast(m: nat, d: nat, n: nat)
    requires d > 0
    ensures m / d >= n <==> n * d <= m
  {
    var q := m / d;
    assert d * q <= m < d * q + d;
    if q >= n {
      MulMonotone(d, n, q);
    } else {
      MulMonotone(d, q + 1, n);
    }
  }

  /** A target asks for at least `expected` hashes exactly when it is at most the target
      that `expected` maps to: tighter targets, and only those, cost as much. */
  lemma TargetsAndHashes(target: nat, expected: u64)
    requires expected >= 1 && target >= 1
    ensures ExpectedFor(target) >= expected <==> target <= TargetFor(expected)
  {
    DivAtLeast(U256_MAX, target, expected);
    DivAtLeast(U256_MAX, expected, target);
    assert target * expected == expected * target;
  }

  lemma TargetIsWide(expected: u64)
    requires expected >= 1
    ensures TargetFor(expected) > expected
  {
  }

  /** The work quoted back from a challenge's target is the work that was asked for. */
  lemma QuotesRoundTrip(expected: u64)
    ensures ExpectedFor(TargetFor(expected)) == if expected == 0 then 1 else expected
  {
    var n := if expected == 0 then 1 else expected;
    TargetIsWide(n);
    var target := TargetFor(n);
    var rest := U256_MAX % n;
    assert U256_MAX == n * target + rest && 0 <= rest < n;
    assert target * n == n * target;
    DivIs(U256_MAX, target, n);
  }

  // ----- the price curve ---------------------------------------------------------------------

  function Steps(taken: u64, free: u64, step: u64): nat
    requires taken >= free
  {
    (taken - free) / (if step == 0 then 1 else step)
  }

  /** The one count at which the `1 +` overflows its u64, and the build that ships panics. */
  predicate Overflows(taken: u64, free: u64, step: u64) { taken >= free && 1 + Steps(taken, free, step) > U64_MAX }

  function Capped(doublings: nat): nat {
    if doublings > MAX_PREFIX_DOUBLINGS then MAX_PREFIX_DOUBLINGS else doublings
  }

  function SaturatingMul(a: u64, b: nat): u64 { if a * b > U64_MAX then U64_MAX else a * b }

  /** `expected_hashes_for_prefix`: what the next grant to a network costs. */
  function Price(base: u64, taken: u64, free: u64, step: u64): u64
    requires !Overflows(taken, free, step)
  {
    if taken < free then base
    else SaturatingMul(base, Pow2(Capped(1 + Steps(taken, free, step))))
  }

  /** It takes 2^64 - 1 grants, no free band and a band of one to overflow. */
  lemma OverflowsOnlyAtTheEnd(taken: u64, free: u64, step: u64)
    ensures Overflows(taken, free, step) <==> taken == U64_MAX && free == 0 && step <= 1
  {
  }

  lemma {:induction false} Pow2Monotone(a: nat, b: nat)
    requires a <= b
    ensures Pow2(a) <= Pow2(b)
    decreases b
  {
    if a < b {
      Pow2Monotone(a, b - 1);
    }
  }

  lemma SaturatingMonotone(base: u64, a: nat, b: nat)
    requires 1 <= a <= b
    ensures base <= SaturatingMul(base, a) <= SaturatingMul(base, b)
  {
    MulMonotone(base, 1, a);
    MulMonotone(base, a, b);
  }

  lemma DivMonotone(a: nat, b: nat, d: nat)
    requires a <= b && d > 0
    ensures a / d <= b / d
  {
    DivAtLeast(b, d, a / d);
    assert (a / d) * d <= a;
  }

  lemma DoubledMonotone(base: u64, da: nat, db: nat)
    requires da <= db
    ensures base <= SaturatingMul(base, Pow2(Capped(da))) <= SaturatingMul(base, Pow2(Capped(db)))
  {
    Pow2Monotone(Capped(da), Capped(db));
    SaturatingMonotone(base, Pow2(Capped(da)), Pow2(Capped(db)));
  }

  lemma StepsMonotone(a: u64, b: u64, free: u64, step: u64)
    requires free <= a <= b
    ensures 0 <= Steps(a, free, step) <= Steps(b, free, step)
  {
    DivMonotone(a - free, b - free, if step == 0 then 1 else step);
  }

  /** The price never falls as a network takes more grants. */
  lemma PriceNeverFalls(base: u64, a: u64, b: u64, free: u64, step: u64)
    requires a <= b && !Overflows(a, free, step) && !Overflows(b, free, step)
    ensures Price(base, a, free, step) <= Price(base, b, free, step)
  {
    if free <= a {
      StepsMonotone(a, b, free, step);
      DoubledMonotone(base, 1 + Steps(a, free, step), 1 + Steps(b, free, step));
    } else if free <= b {
      DoubledMonotone(base, 0, 1 + Steps(b, free, step));
    }
  }

  // ----- what a whole run of grants costs ----------------------------------------------------

  function SumTo(f: int -> int, n: nat): int {
    if n == 0 then 0 else SumTo(f, n - 1) + f(n - 1)
  }

  /** `c * n`, as the sum it stands for. */
  function Times(c: int, n: nat): int { if n == 0 then 0 else Times(c, n - 1) + c }

  lemma {:induction false} TimesIs(c: int, n: nat)
    ensures Times(c, n) == c * n
    decreases n
  {
    if n > 0 {
      TimesIs(c, n - 1);
      MulOneMore(c, n - 1);
    }
  }

  lemma {:induction false} SumOfConstant(f: int -> int, start: nat, n: nat, c: int)
    requires forall j :: start <= j < start + n ==> f(j) == c
    ensures SumTo(f, start + n) == SumTo(f, start) + Times(c, n)
    decreases n
  {
    if n > 0 {
      SumOfConstant(f, start, n - 1, c);
      assert f(start + (n - 1)) == c;
    }
  }

  function PriceCurve(base: u64, free: u64, step: u64): int -> int {
    (taken: int) => if 0 <= taken <= U64_MAX && !Overflows(taken, free, step) then Price(base, taken, free, step) else 0
  }

  /** What the first `grants` grants of a window cost together. */
  function TotalCost(base: u64, grants: u64, free: u64, step: u64): int {
    SumTo(PriceCurve(base, free, step), grants)
  }

  /** The weight of `k` full bands: 2 + 4 + ... up to the cap, then flat. */
  function BandWeight(k: nat): int {
    if k <= MAX_PREFIX_DOUBLINGS then Pow2(k + 1) - 2
    else Pow2(MAX_PREFIX_DOUBLINGS + 1) - 2 + (k - MAX_PREFIX_DOUBLINGS) * Pow2(MAX_PREFIX_DOUBLINGS)
  }

  /** The first grant of band `k`, and what `k` whole bands cost, band by band. */
  function Start(step: nat, k: nat): nat { if k == 0 then 0 else Start(step, k - 1) + step }

  function Rate(base: nat, k: nat): int { base * Pow2(Capped(k)) }

  function Rates(base: nat): int -> int { (k: int) => if k >= 0 then Rate(base, k) else 0 }

  function BandsCost(rates: int -> int, step: nat, k: nat): int {
    if k == 0 then 0 else BandsCost(rates, step, k - 1) + Times(rates(k), step)
  }

  lemma {:induction false} StartIs(step: nat, k: nat)
    ensures Start(step, k) == step * k
    decreases k
  {
    if k > 0 {
      StartIs(step, k - 1);
      MulOneMore(step, k - 1);
    }
  }

  ghost predicate Flat(f: int -> int, start: int, n: int, c: int) {
    forall j :: start <= j < start + n ==> f(j) == c
  }

  /** Grant `i` of band `k` is `k` steps past the free ones. */
  lemma StepsInBand(free: u64, step: u64, k: nat, taken: u64, i: nat)
    requires i < step && taken == free + Start(step, k) + i < U64_MAX
    ensures Steps(taken, free, step) == k && !Overflows(taken, free, step)
  {
    StartIs(step, k);
    DivIs(Start(step, k) + i, step, k);
    OverflowsOnlyAtTheEnd(taken, free, step);
  }

  /** A price that nothing saturates is the rate of its band. */
  lemma PriceIsRate(base: u64, taken: u64, free: u64, step: u64, k: nat)
    requires free <= taken && !Overflows(taken, free, step) && Steps(taken, free, step) == k
    requires Rate(base, k + 1) <= U64_MAX
    ensures PriceCurve(base, free, step)(taken) == Rate(base, k + 1)
  {
  }

  /** Every grant of a band costs the same. */
  lemma BandIsFlat(base: u64, free: u64, step: u64, k: nat)
    requires step >= 1 && free + Start(step, k) + step <= U64_MAX && Rate(base, k + 1) <= U64_MAX
    ensures Flat(PriceCurve(base, free, step), free + Start(step, k), step, Rate(base, k + 1))
  {
    var start := free + Start(step, k);
    forall j | start <= j < start + step
      ensures PriceCurve(base, free, step)(j) == Rate(base, k + 1)
    {
      StepsInBand(free, step, k, j, j - start);
      PriceIsRate(base, j, free, step, k);
    }
  }

  lemma {:induction false} LaterIsMore(base: nat, step: nat, i: nat, k: nat)
    requires i <= k
    ensures Rate(base, i) <= Rate(base, k) && Start(step, i) <= Start(step, k)
    decreases k
  {
    if i < k {
      LaterIsMore(base, step, i, k - 1);
      Pow2Monotone(Capped(k - 1), Capped(k));
      MulMonotone(base, Pow2(Capped(k - 1)), Pow2(Capped(k)));
    }
  }

  lemma FreeIsFlat(base: u64, free: u64, step: u64)
    ensures Flat(PriceCurve(base, free, step), 0, free, base)
  {
  }

  /** A band that ends before band `k` does is flat too. */
  lemma EarlierBandIsFlat(base: u64, free: u64, step: u64, k: nat, i: nat)
    requires i < k && step >= 1 && free + Start(step, k) <= U64_MAX && Rate(base, k) <= U64_MAX
    ensures Flat(PriceCurve(base, free, step), free + Start(step, i), step, Rates(base)(i + 1))
  {
    LaterIsMore(base, step, i + 1, k);
    BandIsFlat(base, free, step, i);
  }

  lemma AllBandsFlat(base: u64, free: u64, step: u64, k: nat)
    requires step >= 1 && free + Start(step, k) <= U64_MAX && Rate(base, k) <= U64_MAX
    ensures AllFlat(PriceCurve(base, free, step), Rates(base), free, step, k)
  {
    forall i | 0 <= i < k
      ensures Flat(PriceCurve(base, free, step), free + Start(step, i), step, Rates(base)(i + 1))
    {
      EarlierBandIsFlat(base, free, step, k, i);
    }
  }

  ghost predicate AllFlat(f: int -> int, rates: int -> int, free: nat, step: nat, k: nat) {
    forall i :: 0 <= i < k ==> Flat(f, free + Start(step, i), step, rates(i + 1))
  }

  /** Band by band, for any price that is flat within each. */
  lemma {:induction false} CostBandByBand(f: int -> int, rates: int -> int, first: int, free: nat, step: nat, k: nat)
    requires Flat(f, 0, free, first) && AllFlat(f, rates, free, step, k)
    ensures SumTo(f, free + Start(step, k)) == Times(first, free) + BandsCost(rates, step, k)
    decreases k
  {
    if k == 0 {
      SumOfConstant(f, 0, free, first);
    } else {
      CostBandByBand(f, rates, first, free, step, k - 1);
      assert Flat(f, free + Start(step, k - 1), step, rates((k - 1) + 1));
      SumOfConstant(f, free + Start(step, k - 1), step, rates(k));
    }
  }

  /** Each band adds its own rate to the weight: doubled up to the cap ... */
  lemma WeightStepWithin(k: nat)
    requires k < MAX_PREFIX_DOUBLINGS
    ensures BandWeight(k + 1) == BandWeight(k) + Pow2(Capped(k + 1))
  {
  }

  /** ... and the same again past it. */
  lemma WeightStepPast(k: nat)
    requires k >= MAX_PREFIX_DOUBLINGS
    ensures BandWeight(k + 1) == BandWeight(k) + Pow2(Capped(k + 1))
  {
    MulOneMore(Pow2(MAX_PREFIX_DOUBLINGS), k - MAX_PREFIX_DOUBLINGS);
  }

  lemma Distribute(base: int, step: int, w: int, p: int)
    ensures base * (step * w) + (base * p) * step == base * (step * (w + p))
  {
  }

  /** One more band on top of `prev`, in plain numbers. */
  lemma OneBandMore(prev: int, cost: int, base: int, step: nat, w: int, w': int, p: int)
    requires prev == base * (step * w) && cost == prev + Times(base * p, step) && w' == w + p
    ensures cost == base * (step * w')
  {
    TimesIs(base * p, step);
    Distribute(base, step, w, p);
  }

  function Weights(): int -> int { (k: int) => if k >= 0 then BandWeight(k) else 0 }

  function Doublings(): int -> int { (k: int) => if k >= 0 then Pow2(Capped(k)) else 0 }

  /** Whatever the doublings are, when the rates are `base` times them and the weights their sums. */
  lemma {:induction false} BandsCostIs(rates: int -> int, weights: int -> int, doublings: int -> int,
                                       base: int, step: nat, k: nat)
    requires forall j :: 0 < j <= k ==> rates(j) == base * doublings(j)
    requires weights(0) == 0 && forall j :: 0 < j <= k ==> weights(j) == weights(j - 1) + doublings(j)
    ensures BandsCost(rates, step, k) == base * (step * weights(k))
    decreases k
  {
    if k > 0 {
      BandsCostIs(rates, weights, doublings, base, step, k - 1);
      OneBandMore(BandsCost(rates, step, k - 1), BandsCost(rates, step, k),
                  base, step, weights(k - 1), weights(k), doublings(k));
    }
  }

  lemma WeightStep(k: nat)
    requires k > 0
    ensures Weights()(k) == Weights()(k - 1) + Doublings()(k)
  {
    if k <= MAX_PREFIX_DOUBLINGS {
      WeightStepWithin(k - 1);
    } else {
      WeightStepPast(k - 1);
    }
  }

  lemma BandsWeigh(base: nat, step: nat, k: nat)
    ensures BandsCost(Rates(base), step, k) == base * (step * Weights()(k))
  {
    forall j | 0 < j <= k ensures Weights()(j) == Weights()(j - 1) + Doublings()(j) {
      WeightStep(j);
    }
    BandsCostIs(Rates(base), Weights(), Doublings(), base, step, k);
  }

  lemma CurveCost(base: u64, free: u64, step: u64, k: nat)
    requires step >= 1 && free + Start(step, k) <= U64_MAX && Rate(base, k) <= U64_MAX
    ensures SumTo(PriceCurve(base, free, step), free + Start(step, k))
      == Times(base, free) + BandsCost(Rates(base), step, k)
  {
    FreeIsFlat(base, free, step);
    AllBandsFlat(base, free, step, k);
    CostBandByBand(PriceCurve(base, free, step), Rates(base), base, free, step, k);
  }

  /** While nothing saturates, the first `free + step * k` grants cost
      base * (free + step * weight), whatever the number of bands. */
  lemma CostOfBands(base: u64, free: u64, step: u64, k: nat, grants: nat)
    requires step >= 1 && grants == step * k && free + grants <= U64_MAX && Rate(base, k) <= U64_MAX
    ensures TotalCost(base, free + grants, free, step) == base * free + base * (step * BandWeight(k))
  {
    StartIs(step, k);
    CurveCost(base, free, step, k);
    TimesIs(base, free);
    BandsWeigh(base, step, k);
  }

  /** Within the cap, the first `free + step * k` grants cost base * (free + step * (2^(k+1) - 2)). */
  lemma CostWithinTheCap(base: u64, free: u64, step: u64, k: nat, grants: nat)
    requires step >= 1 && grants == step * k && free + grants <= U64_MAX
    requires k <= MAX_PREFIX_DOUBLINGS && base * Pow2(k) <= U64_MAX
    ensures TotalCost(base, free + grants, free, step) == base * (free + step * (Pow2(k + 1) - 2))
  {
    CostOfBands(base, free, step, k, grants);
    Gathered(TotalCost(base, free + grants, free, step), base, free, step, BandWeight(k), Pow2(k + 1) - 2);
  }

  lemma Gathered(total: int, base: int, free: int, step: int, w: int, v: int)
    requires total == base * free + base * (step * w) && w == v
    ensures total == base * (free + step * v)
  {
  }
}
