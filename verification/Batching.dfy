/**
 Batch sizes and progress arithmetic of one inference run.
 */
module Batching {
  import opened Wrappers

  // The runtime options as sent; anything that is not a positive integer counts as absent.
  datatype Options = Options(
    targetBatches: Option<int>,
    minBatch: Option<int>,
    maxBatch: Option<int>,
    predictorBatch: Option<int>,
    sinkBatch: Option<int>,
    maxActors: Option<int>)

  datatype Requested = Requested(batchSize: Option<int>, concurrency: Option<int>, options: Options)

  datatype Policy = Policy(predictorBatch: nat, sinkBatch: nat, concurrency: nat)

  function PositiveOr(o: Option<int>, default: nat): nat {
    if o.Some? && o.value > 0 then o.value else default
  }

  function Min(a: int, b: int): int {
    if a < b then a else b
  }

  function Max(a: int, b: int): int {
    if a < b then b else a
  }

  function CeilDiv(a: nat, b: nat): nat
    requires b > 0
  {
    (a + b - 1) / b
  }

  function Target(o: Options): (t: nat)
    ensures t > 0
  {
    PositiveOr(o.targetBatches, 20)
  }

  // Bounds the wrong way round fall back to the defaults.
  function Bounds(o: Options): (r: (nat, nat))
    ensures 0 < r.0 <= r.1
  {
    var (low, high) := (PositiveOr(o.minBatch, 50000), PositiveOr(o.maxBatch, 200000));
    if low > high then (50000, 200000) else (low, high)
  }

  function AdaptiveBase(measured: nat, target: nat, low: nat, high: nat): nat
    requires target > 0
  {
    Min(measured, Min(Max(low, CeilDiv(measured, target)), high))
  }

  // `None` where the request is refused.
  function ExecutionPolicy(r: Requested, measured: Option<nat>, override: Option<int>): Option<Policy> {
    var (low, high) := Bounds(r.options);
    var base: int :=
      if override.Some? then override.value
      else if measured.Some? && measured.value > 0 then AdaptiveBase(measured.value, Target(r.options), low, high)
      else if r.batchSize.Some? then r.batchSize.value
      else 4096;
    var concurrency: int :=
      if r.concurrency.Some? then r.concurrency.value else PositiveOr(r.options.maxActors, 2);
    if base < 1 || concurrency < 1 then None
    else Some(Policy(
      if override.Some? then base else PositiveOr(r.options.predictorBatch, base),
      PositiveOr(r.options.sinkBatch, Min(base, Min(low, 50000))),
      concurrency))
  }

  // ---------------------------------------------------------------- adaptive sizes

  lemma CeilDivMeans(a: nat, b: nat, c: nat)
    requires b > 0
    ensures CeilDiv(a, b) <= c <==> a <= b * c
  {
    var q := CeilDiv(a, b);
    assert b * q <= a + b - 1 < b * q + b;
    if a <= b * c && q > c {
      ScaleLe(b, c + 1, q);
    }
    if q <= c {
      ScaleLe(b, q, c);
    }
  }

  lemma ScaleLe(b: nat, x: nat, y: nat)
    requires x <= y
    ensures b * x <= b * y
  {
  }

  // The base stays within the rows there are and the configured maximum.
  lemma BaseWithinBounds(measured: nat, o: Options)
    requires measured > 0
    ensures
      var (low, high) := Bounds(o);
      1 <= AdaptiveBase(measured, Target(o), low, high) <= Min(measured, high)
  {
    CeilDivMeans(measured, Target(o), 0);
  }

  // The target number of batches is met exactly when the maximum does not cut the size needed.
  lemma TargetMetIff(measured: nat, o: Options)
    requires measured > 0
    ensures
      var (low, high) := Bounds(o);
      var base := AdaptiveBase(measured, Target(o), low, high);
      base >= 1 && (CeilDiv(measured, base) <= Target(o) <==> CeilDiv(measured, Target(o)) <= high)
  {
    var (low, high) := Bounds(o);
    var t, base := Target(o), AdaptiveBase(measured, Target(o), low, high);
    BaseWithinBounds(measured, o);
    CeilDivMeans(measured, base, t);
    CeilDivMeans(measured, t, base);
    CeilDivMeans(measured, t, measured);
    ScaleLe(measured, 1, t);
    assert t * base == base * t;
    assert t * measured == measured * t;
  }

  // Unless it is asked for, a sink batch exceeds neither the base nor the minimum nor 50000.
  lemma SinkDefaultSmall(r: Requested, measured: nat, override: Option<int>)
    requires measured > 0 && ExecutionPolicy(r, Some(measured), override).Some?
    requires r.options.sinkBatch.None? || r.options.sinkBatch.value <= 0
    ensures
      var p := ExecutionPolicy(r, Some(measured), override).value;
      var base := if override.Some? then override.value else AdaptiveBase(measured, Target(r.options), Bounds(r.options).0, Bounds(r.options).1);
      1 <= p.sinkBatch <= base && p.sinkBatch <= Bounds(r.options).0 && p.sinkBatch <= 50000
  {
  }

  // A measured run is refused only for its concurrency, and a retry never is.
  lemma RetryAccepted(r: Requested, measured: nat, batch: nat)
    requires measured > 0 && batch >= 1
    ensures ExecutionPolicy(r, Some(measured), Some(batch)).Some? <==> ExecutionPolicy(r, Some(measured), None).Some?
    ensures ExecutionPolicy(r, Some(measured), Some(batch)).Some? ==> ExecutionPolicy(r, Some(measured), Some(batch)).value.predictorBatch == batch
  {
    BaseWithinBounds(measured, r.options);
  }

  // What is accepted before the rows are counted is accepted after.
  lemma MeasuredAccepted(r: Requested, measured: nat)
    requires measured > 0 && ExecutionPolicy(r, None, None).Some?
    ensures ExecutionPolicy(r, Some(measured), None).Some?
  {
    BaseWithinBounds(measured, r.options);
  }

  // A positive option is taken as it is, anything else is the default.
  lemma OptionTaken(o: Option<int>, default: nat)
    ensures o.Some? && o.value > 0 ==> PositiveOr(o, default) == o.value
    ensures o.None? || o.value <= 0 ==> PositiveOr(o, default) == default
  {
  }

  // Twenty batches are aimed at unless another number is asked for.
  lemma TargetTaken(o: Options)
    ensures Target(o) == if o.targetBatches.Some? && o.targetBatches.value > 0 then o.targetBatches.value else 20
  {
  }

  // The requested bounds hold unless they are the wrong way round.
  lemma BoundsTaken(o: Options)
    ensures
      var low := if o.minBatch.Some? && o.minBatch.value > 0 then o.minBatch.value else 50000;
      var high := if o.maxBatch.Some? && o.maxBatch.value > 0 then o.maxBatch.value else 200000;
      Bounds(o).0 == (if low <= high then low else 50000) && Bounds(o).1 == (if low <= high then high else 200000)
  {
  }

  // The base is the smallest size from the minimum on that keeps to the target, as far as the rows
  // and the maximum go.
  lemma BaseExact(measured: nat, o: Options)
    requires measured > 0
    ensures
      var (low, high) := Bounds(o);
      var base := AdaptiveBase(measured, Target(o), low, high);
      && 0 < base <= measured && base <= high
      && (base < measured && base < high ==> base >= low && CeilDiv(measured, base) <= Target(o))
      && (base > low ==> base == 1 || CeilDiv(measured, base - 1) > Target(o))
  {
    var (low, high) := Bounds(o);
    var t, base := Target(o), AdaptiveBase(measured, Target(o), low, high);
    BaseWithinBounds(measured, o);
    CeilDivMeans(measured, base, t);
    CeilDivMeans(measured, t, base);
    assert t * base == base * t;
    if base > low && base > 1 {
      CeilDivMeans(measured, base - 1, t);
      CeilDivMeans(measured, t, base - 1);
      assert t * (base - 1) == (base - 1) * t;
    }
  }

  // What an accepted request asks for is what it gets: on a first attempt its predictor batch, or
  // else the base; always its sink batch, if any, and its concurrency.
  lemma PolicyTakesOptions(r: Requested, measured: Option<nat>, override: Option<int>)
    requires ExecutionPolicy(r, measured, override).Some?
    ensures
      var p := ExecutionPolicy(r, measured, override).value;
      && (override.Some? ==> p.predictorBatch == override.value)
      && (override.None? && r.options.predictorBatch.Some? && r.options.predictorBatch.value > 0 ==>
            p.predictorBatch == r.options.predictorBatch.value)
      && (override.None? && (r.options.predictorBatch.None? || r.options.predictorBatch.value <= 0) ==>
            p.predictorBatch ==
              if measured.Some? && measured.value > 0
              then AdaptiveBase(measured.value, Target(r.options), Bounds(r.options).0, Bounds(r.options).1)
              else if r.batchSize.Some? then r.batchSize.value else 4096)
      && (r.options.sinkBatch.Some? && r.options.sinkBatch.value > 0 ==> p.sinkBatch == r.options.sinkBatch.value)
      && p.concurrency == (if r.concurrency.Some? then r.concurrency.value
                           else if r.options.maxActors.Some? && r.options.maxActors.value > 0 then r.options.maxActors.value else 2)
  {
  }

  // ---------------------------------------------------------------- halving

  function Pow2(k: nat): (p: nat)
    ensures p >= 1
  {
    if k == 0 then 1 else 2 * Pow2(k - 1)
  }

  function Halved(batch: nat, k: nat): nat {
    if k == 0 then batch else Halved(batch, k - 1) / 2
  }

  lemma {:induction false} HalvedMeans(batch: nat, k: nat)
    ensures Halved(batch, k) == batch / Pow2(k)
  {
    if k > 0 {
      HalvedMeans(batch, k - 1);
      DivTwice(batch, Pow2(k - 1));
    }
  }

  lemma DivTwice(a: nat, b: nat)
    requires b > 0
    ensures a / b / 2 == a / (2 * b)
  {
    var q := a / b;
    var h := q / 2;
    assert a == b * q + a % b;
    assert q == 2 * h + q % 2;
    assert b * q == 2 * b * h + b * (q % 2);
    assert b * (q % 2) <= b;
    DivUnique(a, 2 * b, h);
  }

  lemma DivUnique(a: nat, d: nat, q: nat)
    requires d > 0 && d * q <= a < d * q + d
    ensures a / d == q
  {
    var r := a / d;
    assert d * r <= a < d * r + d;
    if r < q {
      ScaleLe(d, r + 1, q);
    } else if r > q {
      ScaleLe(d, q + 1, r);
    }
  }

  // ---------------------------------------------------------------- percentages

  function RoundUpFrom(q: nat, r: nat, d: nat): nat {
    if 2 * r < d then q
    else if 2 * r > d then q + 1
    else if q % 2 == 0 then q
    else q + 1
  }

  // To the nearest whole number, halves to the even one.
  function RoundDiv(n: nat, d: nat): nat
    requires d > 0
  {
    RoundUpFrom(n / d, n % d, d)
  }

  lemma DivOrder(m: nat, n: nat, d: nat)
    requires d > 0 && m <= n
    ensures m / d < n / d || (m / d == n / d && m % d <= n % d)
  {
    var q, q' := m / d, n / d;
    assert m == d * q + m % d && n == d * q' + n % d;
    if q > q' {
      ScaleLe(d, q' + 1, q);
    }
  }

  lemma RoundDivMonotone(m: nat, n: nat, d: nat)
    requires d > 0 && m <= n
    ensures RoundDiv(m, d) <= RoundDiv(n, d)
  {
    DivOrder(m, n, d);
    RoundUpMonotone(m / d, m % d, n / d, n % d, d);
  }

  lemma RoundUpMonotone(q: nat, r: nat, q': nat, r': nat, d: nat)
    requires q < q' || (q == q' && r <= r')
    ensures RoundUpFrom(q, r, d) <= RoundUpFrom(q', r', d)
  {
  }

  lemma RoundDivNearest(n: nat, d: nat)
    requires d > 0
    ensures 2 * n - d <= 2 * (d * RoundDiv(n, d)) <= 2 * n + d
  {
    assert n == d * (n / d) + n % d;
    assert d * (n / d + 1) == d * (n / d) + d;
  }

  // A percentage in tenths, as published while rows are still being processed.
  function Tenths(processed: nat, total: nat): nat {
    Min(999, RoundDiv(1000 * processed, Max(1, total)))
  }

  lemma TenthsMonotone(p: nat, q: nat, total: nat)
    requires p <= q
    ensures Tenths(p, total) <= Tenths(q, total) <= 999
  {
    RoundDivMonotone(1000 * p, 1000 * q, Max(1, total));
  }

  // The published tenths are the nearest to the share of rows processed, and never more than 999.
  lemma TenthsNearest(processed: nat, total: nat)
    ensures
      var d := Max(1, total);
      && Tenths(processed, total) <= 999
      && (Tenths(processed, total) < 999 ==>
            2000 * processed - d <= 2 * (d * Tenths(processed, total)) <= 2000 * processed + d)
      && (Tenths(processed, total) == 999 ==> 2 * (d * 999) <= 2000 * processed + d)
  {
    var d := Max(1, total);
    RoundDivNearest(1000 * processed, d);
    var q := RoundDiv(1000 * processed, d);
    if q > 999 {
      ScaleLe(d, 999, q);
      CapBelow(d, q, processed);
    }
  }

  lemma CapBelow(d: nat, q: nat, processed: nat)
    requires d >= 1 && q >= 1000 && 2 * (d * q) <= 2000 * processed + d
    ensures 2 * (d * 999) <= 2000 * processed + d
  {
    ScaleLe(d, 999, q);
  }

  // Halfway between two tenths the even one is taken.
  lemma TiesToEven(n: nat, d: nat)
    requires d > 0 && 2 * (n % d) == d
    ensures RoundDiv(n, d) % 2 == 0
  {
  }
}
