/** Online statistics: running sums per sample set, a snapshot of minimum, mean,
    maximum, mean square and variance, and a histogram with an overflow slot. */
module OnlineStats {
  import opened Arithmetic

  const INT32_MIN: int := -0x8000_0000
  const INT32_MAX: int := 0x7fff_ffff
  const INT64_LIMIT: int := 0x8000_0000_0000_0000
  const UINT64_LIMIT: int := 0x1_0000_0000_0000_0000
  const MAX_SLOTS: nat := 101

  type Int32 = x: int | INT32_MIN <= x <= INT32_MAX

  // Batch definitions, over a whole sample set

  function Sum(s: seq<int>): int {
    if s == [] then 0 else Sum(s[..|s| - 1]) + s[|s| - 1]
  }

  function SumOfSquares(s: seq<int>): nat {
    if s == [] then 0 else SumOfSquares(s[..|s| - 1]) + s[|s| - 1] * s[|s| - 1]
  }

  function Least(start: int, s: seq<int>): (least: int)
    ensures least <= start
  {
    if s == [] then start
    else var m := Least(start, s[..|s| - 1]); if s[|s| - 1] < m then s[|s| - 1] else m
  }

  function Greatest(start: int, s: seq<int>): (greatest: int)
    ensures greatest >= start
  {
    if s == [] then start
    else var m := Greatest(start, s[..|s| - 1]); if s[|s| - 1] > m then s[|s| - 1] else m
  }

  /** The running totals of a sample set, one sample at a time. */
  datatype Totals = Totals(count: nat, sum: int, squares: int, min: int, max: int) {
    function Add(val: int): Totals {
      Totals(count + 1, sum + val, squares + val * val,
             if val < min then val else min, if val > max then val else max)
    }
  }

  /** The accumulators and the squared sum fit their 32-bit and 64-bit variables. */
  predicate Fits(t: Totals) {
    t.count < 0x1_0000_0000 && t.squares < UINT64_LIMIT && t.sum * t.sum < INT64_LIMIT
  }

  const NoSamples := Totals(0, 0, 0, INT32_MAX, -INT32_MAX)

  function Running(s: seq<int>): (t: Totals)
    ensures t.count == |s| && t.min <= INT32_MAX && t.max >= -INT32_MAX
  {
    if s == [] then NoSamples else Running(s[..|s| - 1]).Add(s[|s| - 1])
  }

  lemma RunningAppend(s: seq<int>, val: int)
    ensures Running(s + [val]) == Running(s).Add(val)
  {
  }

  /** The running totals are the batch values of the same sample set. */
  lemma {:induction false} RunningIsBatch(s: seq<int>)
    ensures Running(s) == Totals(|s|, Sum(s), SumOfSquares(s), Least(INT32_MAX, s), Greatest(-INT32_MAX, s))
  {
    if s != [] {
      RunningIsBatch(s[..|s| - 1]);
    }
  }

  ghost predicate AllInt32(s: seq<int>) {
    forall k :: 0 <= k < |s| ==> INT32_MIN <= s[k] <= INT32_MAX
  }

  lemma {:induction false} LeastIsMinimum(s: seq<int>)
    requires s != [] && AllInt32(s)
    ensures Least(INT32_MAX, s) in s
    ensures forall k :: 0 <= k < |s| ==> Least(INT32_MAX, s) <= s[k]
  {
    var front := s[..|s| - 1];
    if front != [] {
      LeastIsMinimum(front);
      assert forall k :: 0 <= k < |front| ==> front[k] == s[k];
    }
  }

  lemma {:induction false} GreatestBounds(s: seq<int>)
    ensures Greatest(-INT32_MAX, s) >= -INT32_MAX
    ensures forall k :: 0 <= k < |s| ==> s[k] <= Greatest(-INT32_MAX, s)
    ensures Greatest(-INT32_MAX, s) == -INT32_MAX || Greatest(-INT32_MAX, s) in s
  {
    if s != [] {
      var front := s[..|s| - 1];
      GreatestBounds(front);
      assert forall k :: 0 <= k < |front| ==> front[k] == s[k];
    }
  }

  /** The recorded maximum starts one above the least 32-bit value, so it is the
      true maximum unless every sample of the set is that least value. */
  lemma MaximumExactWhen(s: seq<int>)
    requires s != [] && AllInt32(s)
    ensures Greatest(-INT32_MAX, s) in s <==> exists k :: 0 <= k < |s| && s[k] > INT32_MIN
  {
    GreatestBounds(s);
    if k :| 0 <= k < |s| && s[k] > INT32_MIN {
      if Greatest(-INT32_MAX, s) == -INT32_MAX {
        assert s[k] == -INT32_MAX;
      }
    }
  }

  lemma MaximumWrongExample()
    ensures Greatest(-INT32_MAX, [INT32_MIN]) > INT32_MIN
  {
  }

  lemma {:induction false} SumBounds(s: seq<int>, lo: int, hi: int)
    requires forall k :: 0 <= k < |s| ==> lo <= s[k] <= hi
    ensures |s| * lo <= Sum(s) <= |s| * hi
  {
    if s != [] {
      SumBounds(s[..|s| - 1], lo, hi);
    }
  }

  lemma Binomial(v: int, t: int)
    ensures (v - t) * (v - t) == v * v - 2 * (t * v) + t * t
  {
    assert (v - t) * (v - t) == v * (v - t) - t * (v - t);
  }

  lemma SquareNotNegative(x: int)
    ensures x * x >= 0
  {
  }

  lemma {:induction false} DistanceStep(squares: int, sum: int, n: int, t: int, v: int)
    requires squares - 2 * (t * sum) + n * (t * t) >= 0
    ensures (squares + v * v) - 2 * (t * (sum + v)) + (n + 1) * (t * t) >= 0
  {
    var q := t * t;
    assert (n + 1) * q == n * q + q;
    assert t * (sum + v) == t * sum + t * v;
    Binomial(v, t);
    SquareNotNegative(v - t);
  }

  /** The squared distances to any t add up to something non-negative. */
  lemma {:induction false} SquaredDistances(s: seq<int>, t: int)
    ensures SumOfSquares(s) - 2 * (t * Sum(s)) + |s| * (t * t) >= 0
  {
    if s != [] {
      var front, v := s[..|s| - 1], s[|s| - 1];
      SquaredDistances(front, t);
      DistanceStep(SumOfSquares(front), Sum(front), |front|, t, v);
    }
  }

  lemma CauchyStep(squares: int, sum: int, n: int, v: int)
    requires sum * sum <= n * squares
    requires squares - 2 * (v * sum) + n * (v * v) >= 0
    ensures (sum + v) * (sum + v) <= (n + 1) * (squares + v * v)
  {
    var q := v * v;
    assert (n + 1) * (squares + q) == n * squares + n * q + squares + q;
    Binomial(sum, -v);
  }

  lemma {:induction false} CauchySchwarz(s: seq<int>)
    ensures Sum(s) * Sum(s) <= |s| * SumOfSquares(s)
  {
    if s != [] {
      var front, v := s[..|s| - 1], s[|s| - 1];
      CauchySchwarz(front);
      SquaredDistances(front, v);
      CauchyStep(SumOfSquares(front), Sum(front), |front|, v);
    }
  }

  lemma QuotientOfSquares(squares: nat, sumSquared: nat, n: nat)
    requires n > 0 && sumSquared <= n * squares && n * n > 0
    ensures sumSquared / (n * n) <= squares / n
  {
    var q := sumSquared / (n * n);
    assert sumSquared == q * (n * n) + sumSquared % (n * n);
    assert q * (n * n) == (q * n) * n;
    assert (q * n) * n < (squares + 1) * n by { assert (squares + 1) * n == n * squares + n; }
    MulCancel(q * n, squares + 1, n);
    QuotientAtLeast(q, squares, n);
  }

  lemma MeanBetween(sum: int, n: nat, lo: int, hi: int)
    requires n > 0 && n * lo <= sum <= n * hi
    ensures lo <= sum / n <= hi
    ensures lo <= TruncDiv(sum, n) <= hi
  {
    QuotientAtLeast(lo, sum, n);
    QuotientAtMost(hi, sum, n);
    if sum < 0 {
      assert (-hi) * n == -(n * hi) && (-lo) * n == -(n * lo);
      QuotientAtLeast(-hi, -sum, n);
      QuotientAtMost(-lo, -sum, n);
    }
  }

  datatype Summary = Summary(min: int, mean: int, max: int, ms: int, variance: int)

  /** The summary of a full set, whose size is a power of two: shifts round down. */
  function Shifted(t: Totals): Summary
    requires t.count > 0
  {
    var ms := t.squares / t.count;
    Summary(t.min, t.sum / t.count, t.max, ms, ms - t.sum * t.sum / (t.count * t.count))
  }

  /** The summary of a set of any size: division rounds towards zero. */
  function Divided(t: Totals): Summary
    requires t.count > 0
  {
    Shifted(t).(mean := TruncDiv(t.sum, t.count))
  }

  /** q is the quotient, rounded down. */
  predicate FloorOf(q: int, a: int, n: nat) {
    q * n <= a < q * n + n
  }

  /** q is the quotient, rounded towards zero. */
  predicate TowardsZero(q: int, a: int, n: nat) {
    if a >= 0 then 0 <= q * n <= a < q * n + n else q * n - n < a <= q * n <= 0
  }

  /** Within one of the mean square less the square of the mean, both exact. */
  ghost predicate NearVariance(s: seq<int>, variance: int) {
    NearDifference(variance, SumOfSquares(s), Sum(s) * Sum(s), |s|)
  }

  predicate NearDifference(v: int, squares: nat, sumSquared: int, n: nat) {
    -(n * n) < v * (n * n) - (n * squares - sumSquared) < n * n
  }

  /** What a summary says about the sample set it was taken from: the extremes, and the
      mean, the mean square and the variance to less than one. */
  ghost predicate Describes(s: seq<int>, r: Summary) {
    s != [] && Extremes(s, r.min, r.max) && MeanOf(s, r) && SquaresOf(s, r)
  }

  ghost predicate Extremes(s: seq<int>, min: int, max: int) {
    && min in s && (forall k :: 0 <= k < |s| ==> min <= s[k] <= max)
    && (max in s || forall k :: 0 <= k < |s| ==> s[k] == INT32_MIN)
  }

  ghost predicate MeanOf(s: seq<int>, r: Summary) {
    r.min <= r.mean <= r.max && (FloorOf(r.mean, Sum(s), |s|) || TowardsZero(r.mean, Sum(s), |s|))
  }

  ghost predicate SquaresOf(s: seq<int>, r: Summary) {
    FloorOf(r.ms, SumOfSquares(s), |s|) && 0 <= r.variance && NearVariance(s, r.variance)
  }

  lemma FloorNear(a: int, n: nat)
    requires n > 0
    ensures FloorOf(a / n, a, n)
  {
    assert a == a / n * n + a % n;
  }

  lemma NegatedProduct(x: int, n: nat)
    ensures (-x) * n == -(x * n)
    ensures x >= 0 ==> x * n >= 0
  {
  }

  lemma TruncNear(a: int, n: nat)
    requires n > 0
    ensures TowardsZero(TruncDiv(a, n), a, n)
  {
    if a >= 0 {
      FloorNear(a, n);
      QuotientAtLeast(0, a, n);
      NegatedProduct(a / n, n);
    } else {
      FloorNear(-a, n);
      QuotientAtLeast(0, -a, n);
      NegatedProduct((-a) / n, n);
    }
  }

  lemma VarianceScalars(q: int, r: nat, p: int, r': nat, n: nat, squares: nat, sumSquared: nat)
    requires r < n && r' < n * n && squares == q * n + r && sumSquared == p * (n * n) + r'
    ensures NearDifference(q - p, squares, sumSquared, n)
  {
    var nn, nr := n * n, n * r;
    assert n * squares == q * nn + nr by {
      assert n * (q * n) == q * nn;
    }
    assert (q - p) * nn == q * nn - p * nn;
    assert 0 <= nr < nn by {
      MulMonotone(r, n - 1, n);
    }
  }

  /** The difference of the two quotients is within one of the exact difference. */
  lemma VarianceNear(squares: nat, sumSquared: nat, n: nat)
    requires n > 0 && n * n > 0
    ensures NearDifference(squares / n - sumSquared / (n * n), squares, sumSquared, n)
  {
    FloorNear(squares, n);
    FloorNear(sumSquared, n * n);
    VarianceScalars(squares / n, squares % n, sumSquared / (n * n), sumSquared % (n * n), n, squares, sumSquared);
  }

  lemma VarianceNotNegative(s: seq<int>)
    requires s != []
    ensures Sum(s) * Sum(s) / (|s| * |s|) <= SumOfSquares(s) / |s|
  {
    CauchySchwarz(s);
    assert Sum(s) * Sum(s) >= 0 && |s| * |s| > 0;
    QuotientOfSquares(SumOfSquares(s), Sum(s) * Sum(s), |s|);
  }

  lemma MeansBetweenExtremes(s: seq<int>)
    requires s != [] && AllInt32(s)
    ensures var lo, hi := Least(INT32_MAX, s), Greatest(-INT32_MAX, s);
            lo <= Sum(s) / |s| <= hi && lo <= TruncDiv(Sum(s), |s|) <= hi
  {
    LeastIsMinimum(s);
    GreatestBounds(s);
    SumBounds(s, Least(INT32_MAX, s), Greatest(-INT32_MAX, s));
    MeanBetween(Sum(s), |s|, Least(INT32_MAX, s), Greatest(-INT32_MAX, s));
  }

  lemma SquaresNear(s: seq<int>)
    requires s != []
    ensures |s| * |s| > 0 && FloorOf(SumOfSquares(s) / |s|, SumOfSquares(s), |s|)
    ensures NearVariance(s, SumOfSquares(s) / |s| - Sum(s) * Sum(s) / (|s| * |s|))
  {
    SquareNotNegative(Sum(s));
    NegatedProduct(|s|, |s|);
    FloorNear(SumOfSquares(s), |s|);
    VarianceNear(SumOfSquares(s), Sum(s) * Sum(s), |s|);
  }

  lemma ExtremesDescribe(s: seq<int>)
    requires s != [] && AllInt32(s)
    ensures Extremes(s, Shifted(Running(s)).min, Shifted(Running(s)).max)
  {
    RunningIsBatch(s);
    LeastIsMinimum(s);
    GreatestBounds(s);
    MaximumExactWhen(s);
  }

  lemma MeanDescribes(s: seq<int>)
    requires s != [] && AllInt32(s)
    ensures MeanOf(s, Shifted(Running(s))) && FloorOf(Shifted(Running(s)).mean, Sum(s), |s|)
  {
    RunningIsBatch(s);
    MeansBetweenExtremes(s);
    FloorNear(Sum(s), |s|);
  }

  lemma SquaresDescribe(s: seq<int>)
    requires s != []
    ensures SquaresOf(s, Shifted(Running(s)))
  {
    RunningIsBatch(s);
    VarianceNotNegative(s);
    SquaresNear(s);
  }

  lemma OtherMean(s: seq<int>, r: Summary, mean: int)
    requires Describes(s, r) && r.min <= mean <= r.max && TowardsZero(mean, Sum(s), |s|)
    ensures Describes(s, r.(mean := mean))
  {
  }

  /** Both roundings describe the set. The mean of a full set is rounded down, the one of
      any other towards zero. */
  lemma SummariesDescribe(s: seq<int>)
    requires s != [] && AllInt32(s)
    ensures Describes(s, Shifted(Running(s))) && FloorOf(Shifted(Running(s)).mean, Sum(s), |s|)
    ensures Describes(s, Divided(Running(s))) && TowardsZero(Divided(Running(s)).mean, Sum(s), |s|)
  {
    ExtremesDescribe(s);
    MeanDescribes(s);
    SquaresDescribe(s);
    RunningIsBatch(s);
    MeansBetweenExtremes(s);
    TruncNear(Sum(s), |s|);
    OtherMean(s, Shifted(Running(s)), TruncDiv(Sum(s), |s|));
  }

  class Stats {
    var log2Size: nat
    var count: nat
    var currentMin: int
    var currentMax: int
    var currentSum: int
    var currentSquares: int
    var min: int
    var max: int
    var mean: int
    var ms: int
    var variance: int
    var absMin: int
    var absMax: int
    ghost var samples: seq<int>   // since the last reset
    ghost var history: seq<int>   // since initialisation

    ghost function Current(): Totals
      reads this`count, this`currentSum, this`currentSquares, this`currentMin, this`currentMax
    {
      Totals(count, currentSum, currentSquares, currentMin, currentMax)
    }

    ghost predicate Valid()
      reads this`log2Size, this`samples, this`history, this`absMin, this`absMax
      reads this`count, this`currentSum, this`currentSquares, this`currentMin, this`currentMax
    {
      && log2Size <= 31 && |samples| < Pow2(log2Size) && AllInt32(samples) && Fits(Current())
      && Current() == Running(samples)
      && Absolute()
    }

    /** The extremes that no reset clears. */
    ghost predicate Absolute()
      reads this`history, this`absMin, this`absMax, this`currentMin, this`currentMax
    {
      && absMin == Running(history).min <= currentMin
      && absMax == Running(history).max >= currentMax
    }

    ghost function Snapshot(): Summary
      reads this`min, this`mean, this`max, this`ms, this`variance
    {
      Summary(min, mean, max, ms, variance)
    }

    constructor (log2Size: nat)
      requires log2Size <= 31
      ensures Valid() && samples == [] && history == [] && this.log2Size == log2Size
    {
      this.log2Size := log2Size;
      absMin, absMax := INT32_MAX, -INT32_MAX;
      count, currentMin, currentSum, currentMax, currentSquares := 0, INT32_MAX, 0, -INT32_MAX, 0;
      samples, history := [], [];
    }

    method Reset()
      requires log2Size <= 31
      requires absMin == Running(history).min && absMax == Running(history).max
      modifies this`count, this`currentMin, this`currentSum, this`currentMax, this`currentSquares, this`samples
      ensures Valid() && samples == []
    {
      count, currentMin, currentSum, currentMax, currentSquares := 0, INT32_MAX, 0, -INT32_MAX, 0;
      samples := [];
    }

    method AddToMinimum(val: Int32)
      requires absMin <= currentMin
      modifies this`currentMin, this`absMin
      ensures currentMin == if val < old(currentMin) then val else old(currentMin)
      ensures absMin == if val < old(absMin) then val else old(absMin)
    {
      if val < currentMin {
        currentMin := val;
        if val < absMin {
          absMin := val;
        }
      }
    }

    method AddToMaximum(val: Int32)
      requires absMax >= currentMax
      modifies this`currentMax, this`absMax
      ensures currentMax == if val > old(currentMax) then val else old(currentMax)
      ensures absMax == if val > old(absMax) then val else old(absMax)
    {
      if val > currentMax {
        currentMax := val;
        if val > absMax {
          absMax := val;
        }
      }
    }

    /** Adds the sample to the accumulators. */
    method Accumulate(val: Int32)
      requires absMin <= currentMin && absMax >= currentMax
      modifies this`count, this`currentSum, this`currentSquares, this`currentMin, this`currentMax
      modifies this`absMin, this`absMax
      ensures Current() == old(Current()).Add(val)
      ensures absMin == if val < old(absMin) then val else old(absMin)
      ensures absMax == if val > old(absMax) then val else old(absMax)
    {
      count := count + 1;
      currentSum := currentSum + val;
      currentSquares := currentSquares + val * val;
      AddToMinimum(val);
      AddToMaximum(val);
    }

    /** Records the sample behind an accumulation. */
    ghost method Record(val: Int32, before: Totals)
      requires before == Running(samples) && Current() == before.Add(val)
      requires Running(history).min <= before.min && Running(history).max >= before.max
      requires absMin == Running(history).Add(val).min && absMax == Running(history).Add(val).max
      modifies this`samples, this`history
      ensures samples == old(samples) + [val] && history == old(history) + [val]
      ensures Current() == Running(samples) && Absolute()
    {
      RunningAppend(samples, val);
      RunningAppend(history, val);
      samples, history := samples + [val], history + [val];
    }

    method Add(val: Int32)
      requires Current() == Running(samples) && Absolute()
      modifies this`count, this`currentSum, this`currentSquares, this`currentMin, this`currentMax
      modifies this`absMin, this`absMax, this`samples, this`history
      ensures samples == old(samples) + [val] && history == old(history) + [val]
      ensures Current() == Running(samples) && Absolute()
    {
      ghost var before := Current();
      Accumulate(val);
      Record(val, before);
    }

    /** The snapshot of a full set, computed with shifts. */
    method Publish()
      requires count == Pow2(log2Size)
      modifies this`min, this`max, this`mean, this`ms, this`variance
      ensures count > 0 && Snapshot() == Shifted(Current())
    {
      Pow2Sum(log2Size, log2Size);
      ms := currentSquares / Pow2(log2Size);
      variance := ms - currentSum * currentSum / Pow2(2 * log2Size);
      mean := currentSum / Pow2(log2Size);
      min, max := currentMin, currentMax;
    }

    /** Publishes a full set and starts the next one. */
    method Close()
      requires log2Size <= 31 && count == Pow2(log2Size) && Current() == Running(samples) && Absolute()
      modifies this
      ensures Valid() && samples == [] && log2Size == old(log2Size) && history == old(history)
      ensures Snapshot() == Shifted(Running(old(samples)))
    {
      Publish();
      Reset();
    }

    /** Adds one sample; a full set leaves its summary in the snapshot. */
    method Update(val: Int32)
      requires Valid() && Fits(Current().Add(val))
      modifies this
      ensures Valid() && log2Size == old(log2Size) && history == old(history) + [val]
      ensures if |old(samples)| + 1 < Pow2(log2Size)
              then samples == old(samples) + [val] && Snapshot() == old(Snapshot())
              else samples == [] && Snapshot() == Shifted(Running(old(samples) + [val]))
    {
      RunningAppend(samples, val);
      Add(val);
      assert |samples| == count;
      if count == Pow2(log2Size) {
        Close();
      }
    }

    /** The snapshot of a set of any size but zero, computed with divisions. */
    method Divide()
      requires count > 0
      modifies this`min, this`max, this`mean, this`ms, this`variance
      ensures Snapshot() == Divided(Current())
    {
      ms := currentSquares / count;
      variance := ms - currentSum * currentSum / (count * count);
      mean := TruncDiv(currentSum, count);
      min, max := currentMin, currentMax;
    }

    /** Summarises the set collected so far, whatever its size. */
    method Compute()
      requires Valid()
      modifies this`min, this`max, this`mean, this`ms, this`variance
      ensures Valid() && samples == old(samples) && history == old(history)
      ensures Snapshot() == if samples != [] then Divided(Running(samples)) else Summary(INT32_MAX, 0, -INT32_MAX, 0, 0)
    {
      if count != 0 {
        Divide();
      } else {
        mean, ms, variance := 0, 0, 0;
        min, max := currentMin, currentMax;
      }
    }
  }

  // Histogram

  function SlotOf(value: nat, slots: nat, slotSize: nat): nat
    requires slotSize > 0
  {
    if value / slotSize > slots then slots else value / slotSize
  }

  /** Slot k takes the values from k slot sizes up to the next; the last slot, the rest. */
  predicate InSlot(value: nat, k: nat, slots: nat, slotSize: nat) {
    if k < slots then k * slotSize <= value < (k + 1) * slotSize else k == slots && value >= slots * slotSize
  }

  lemma SlotBounds(value: nat, k: nat, slots: nat, slotSize: nat)
    requires slotSize > 0
    ensures SlotOf(value, slots, slotSize) == k <==> InSlot(value, k, slots, slotSize)
  {
    var q := value / slotSize;
    assert value == q * slotSize + value % slotSize && (q + 1) * slotSize == q * slotSize + slotSize;
    if k < slots && InSlot(value, k, slots, slotSize) {
      assert value - k * slotSize < slotSize by {
        assert (k + 1) * slotSize == k * slotSize + slotSize;
      }
      QuotientUnique(value, slotSize, k, value - k * slotSize);
    }
    if k == slots && value >= slots * slotSize {
      QuotientAtLeast(slots, value, slotSize);
    }
    if q >= slots {
      MulMonotone(slots, q, slotSize);
    }
  }

  /** Number of values that belong in a slot; the last slot takes the rest. */
  function CountIn(values: seq<nat>, slot: nat, slots: nat, slotSize: nat): nat
    requires slotSize > 0
  {
    if values == [] then 0
    else CountIn(values[..|values| - 1], slot, slots, slotSize) +
         (if SlotOf(values[|values| - 1], slots, slotSize) == slot then 1 else 0)
  }

  function CountUpTo(values: seq<nat>, n: nat, slots: nat, slotSize: nat): nat
    requires slotSize > 0
  {
    if n == 0 then 0 else CountUpTo(values, n - 1, slots, slotSize) + CountIn(values, n - 1, slots, slotSize)
  }

  lemma {:induction false} CountUpToStep(values: seq<nat>, n: nat, slots: nat, slotSize: nat)
    requires slotSize > 0 && values != []
    ensures CountUpTo(values, n, slots, slotSize) ==
            CountUpTo(values[..|values| - 1], n, slots, slotSize) +
            (if SlotOf(values[|values| - 1], slots, slotSize) < n then 1 else 0)
  {
    if n > 0 {
      CountUpToStep(values, n - 1, slots, slotSize);
    }
  }

  lemma {:induction false} CountUpToNone(n: nat, slots: nat, slotSize: nat)
    requires slotSize > 0
    ensures CountUpTo([], n, slots, slotSize) == 0
  {
    if n > 0 {
      CountUpToNone(n - 1, slots, slotSize);
    }
  }

  /** An update counts in the slot whose bounds hold the value, and in no other. */
  lemma UpdateCounts(values: seq<nat>, value: nat, k: nat, slots: nat, slotSize: nat)
    requires slotSize > 0
    ensures CountIn(values + [value], k, slots, slotSize) ==
            CountIn(values, k, slots, slotSize) + if InSlot(value, k, slots, slotSize) then 1 else 0
  {
    assert (values + [value])[..|values|] == values;
    SlotBounds(value, k, slots, slotSize);
  }

  /** The slots together hold every value exactly once. */
  lemma {:induction false} SlotsTotal(values: seq<nat>, slots: nat, slotSize: nat)
    requires slotSize > 0
    ensures CountUpTo(values, slots + 1, slots, slotSize) == |values|
  {
    if values == [] {
      CountUpToNone(slots + 1, slots, slotSize);
    } else {
      CountUpToStep(values, slots + 1, slots, slotSize);
      SlotsTotal(values[..|values| - 1], slots, slotSize);
    }
  }

  class Histogram {
    const slots: array<nat>
    var nSlots: nat
    var slotSize: nat
    ghost var values: seq<nat>   // since the slots were zeroed

    ghost predicate Valid()
      reads this, slots
    {
      && slots.Length == MAX_SLOTS && nSlots < MAX_SLOTS && slotSize > 0
      && forall k :: 0 <= k <= nSlots ==> slots[k] == CountIn(values, k, nSlots, slotSize)
    }

    /** A histogram over memory its owner provides. */
    constructor (slots: array<nat>)
      requires slots.Length == MAX_SLOTS
      ensures this.slots == slots
    {
      this.slots := slots;
      nSlots, slotSize, values := 0, 0, [];
    }

    /** Checks the number of slots in 32 bits, and leaves the slots as they are. */
    method Init(nSlots: U32, slotSize: nat) returns (ok: bool)
      requires slots.Length == MAX_SLOTS
      modifies this
      ensures ok <==> nSlots + 1 <= MAX_SLOTS || nSlots + 1 == TWO_32
      ensures ok ==> this.nSlots == nSlots && this.slotSize == slotSize
      ensures !ok ==> this.nSlots == old(this.nSlots) && this.slotSize == old(this.slotSize)
      ensures ok && slotSize > 0 && (forall k :: 0 <= k < MAX_SLOTS ==> slots[k] == 0) ==>
                values == [] && (Valid() <==> nSlots < MAX_SLOTS)
    {
      ok := (nSlots + 1) % TWO_32 <= MAX_SLOTS;
      if ok {
        this.nSlots, this.slotSize, values := nSlots, slotSize, [];
      }
    }

    method Update(value: nat)
      requires Valid()
      modifies this, slots
      ensures Valid() && values == old(values) + [value] && nSlots == old(nSlots) && slotSize == old(slotSize)
    {
      ghost var before := values;
      values := values + [value];
      assert values[..|values| - 1] == before;
      var slot := value / slotSize;
      if slot > nSlots {
        slot := nSlots;
      }
      slots[slot] := slots[slot] + 1;
    }

    method Reset()
      requires slots.Length == MAX_SLOTS && nSlots < MAX_SLOTS && slotSize > 0
      modifies this`values, slots
      ensures Valid() && values == [] && nSlots == old(nSlots) && slotSize == old(slotSize)
    {
      for i := 0 to nSlots + 1
        modifies slots
        invariant forall k :: 0 <= k < i ==> slots[k] == 0
      {
        slots[i] := 0;
      }
      values := [];
    }
  }

  function SlotSum(slots: seq<nat>, n: nat): nat
    requires n <= |slots|
  {
    if n == 0 then 0 else SlotSum(slots, n - 1) + slots[n - 1]
  }

  lemma {:induction false} SlotSumCounts(h: Histogram, n: nat)
    requires h.Valid() && n <= h.nSlots + 1
    ensures SlotSum(h.slots[..], n) == CountUpTo(h.values, n, h.nSlots, h.slotSize)
  {
    if n > 0 {
      SlotSumCounts(h, n - 1);
    }
  }

  /** The counts of the slots in use total the updates since they were zeroed. */
  lemma CountsTotalUpdates(h: Histogram)
    requires h.Valid()
    ensures SlotSum(h.slots[..], h.nSlots + 1) == |h.values|
  {
    SlotSumCounts(h, h.nSlots + 1);
    SlotsTotal(h.values, h.nSlots, h.slotSize);
  }
}
