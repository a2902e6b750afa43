/**
 The calibrated static TTFT estimate: bilinear interpolation over a validated grid,
 rounded on each axis, plus load terms under a 64-bit overflow check.

 Durations are integers. The interpolation is exact rational arithmetic rounded half
 away from zero, the value the program's floating-point expression approximates.
 */
module StaticEstimator {
  import opened Wrappers
  import opened Int64

  const BASIS_POINTS: int := 10_000

  datatype Identity = Identity(model: string, hardware: string, version: string,
                               minPromptTokens: int, maxModelTokens: int)
  datatype Bounds = Bounds(maxQueue: int, maxRunning: int, maxLocalDelta: int, maxLocalFallback: int)

  datatype Profile = Profile(
    identity: Identity, maxPromptTokens: int, version: string, calibrated: bool,
    prompts: seq<int>, ratios: seq<int>, prefill: seq<seq<int>>,
    queueWait: int, runningDelay: int, localDelta: int, localFallback: int, margin: int,
    bounds: Option<Bounds>)

  datatype Load = Load(queue: int, running: int, localDelta: int, localInflight: int, valid: bool)
  datatype Input = Input(identity: Identity, promptTokens: int, cachedTokens: int, load: Load)

  datatype Why = Calibrated | Uncalibrated | LoadFallback | InvalidInput | ProfileMismatch | OutOfRange | Overflow
  datatype Confidence = NoConfidence | CalibratedConfidence | DegradedConfidence | UncalibratedConfidence
  datatype Estimate = Estimate(ttft: int, valid: bool, confidence: Confidence, why: Why)

  // ---------------------------------------------------------------- validation

  predicate ValidIdentity(i: Identity) {
    i.model != "" && i.hardware != "" && i.version != "" && i.minPromptTokens > 0
    && i.maxModelTokens >= i.minPromptTokens && i.maxModelTokens <= MAX_INT64 / BASIS_POINTS
  }

  predicate Increasing(values: seq<int>, minimum: int, maximum: int) {
    && (forall i :: 0 <= i < |values| ==> minimum <= values[i] <= maximum)
    && (forall i :: 0 < i < |values| ==> values[i - 1] < values[i])
  }

  function PromptLimit(p: Profile): int {
    if p.maxPromptTokens == 0 then p.identity.maxModelTokens else p.maxPromptTokens
  }

  predicate RowAtMost(a: seq<int>, b: seq<int>) {
    |a| == |b| && forall c :: 0 <= c < |a| ==> a[c] <= b[c]
  }

  predicate ValidGrid(prefill: seq<seq<int>>, rows: nat, columns: nat) {
    && |prefill| == rows
    && (forall r :: 0 <= r < rows ==> |prefill[r]| == columns)
    && (forall r, c :: 0 <= r < rows && 0 <= c < columns ==> 0 <= prefill[r][c] <= MAX_INT64)
    && (forall r, c :: 0 <= r < rows && 0 < c < columns ==> prefill[r][c] <= prefill[r][c - 1])
    && (forall r :: 0 < r < rows ==> RowAtMost(prefill[r - 1], prefill[r]))
  }

  predicate ValidProfile(p: Profile) {
    && ValidIdentity(p.identity) && p.version != ""
    && |p.prompts| > 0 && |p.ratios| >= 2
    && p.ratios[0] == 0 && p.ratios[|p.ratios| - 1] == BASIS_POINTS
    && p.identity.minPromptTokens <= PromptLimit(p) <= p.identity.maxModelTokens
    && Increasing(p.prompts, 1, PromptLimit(p))
    && p.prompts[0] == p.identity.minPromptTokens && p.prompts[|p.prompts| - 1] == PromptLimit(p)
    && Increasing(p.ratios, 0, BASIS_POINTS)
    && p.queueWait >= 0 && p.runningDelay >= 0 && p.localDelta >= 0 && p.localFallback >= 0 && p.margin >= 0
    && (p.bounds.Some? ==> p.bounds.value.maxQueue >= 0 && p.bounds.value.maxRunning >= 0
                           && p.bounds.value.maxLocalDelta >= 0 && p.bounds.value.maxLocalFallback >= 0)
    && ValidGrid(p.prefill, |p.prompts|, |p.ratios|)
  }

  // ---------------------------------------------------------------- interpolation

  /** a / b rounded half away from zero, for a non-negative a. */
  function RoundDiv(a: int, b: int): int
    requires a >= 0 && b > 0
  {
    (2 * a + b) / (2 * b)
  }

  lemma RoundBetween(a: int, b: int, low: int, high: int)
    requires b > 0 && 0 <= low && low * b <= a <= high * b
    ensures a >= 0 && low <= RoundDiv(a, b) <= high
  {
    assert low * b >= 0;
    DivMonotone(2 * (low * b) + b, 2 * a + b, 2 * b);
    DivMonotone(2 * a + b, 2 * (high * b) + b, 2 * b);
    RoundExact(low, b);
    RoundExact(high, b);
  }

  lemma RoundExact(n: int, b: int)
    requires b > 0
    ensures (2 * (n * b) + b) / (2 * b) == n
  {
    assert 2 * (n * b) == (2 * b) * n;
    DivUnique(2 * (n * b) + b, 2 * b, n);
  }

  function Weighted(low: int, high: int, lowAt: int, highAt: int, at: int): int {
    low * (highAt - at) + high * (at - lowAt)
  }

  lemma WeightedBetween(low: int, high: int, lowAt: int, highAt: int, at: int, floor: int, ceiling: int)
    requires lowAt <= at <= highAt && floor <= low <= ceiling && floor <= high <= ceiling
    ensures floor * (highAt - lowAt) <= Weighted(low, high, lowAt, highAt, at) <= ceiling * (highAt - lowAt)
  {
    var u, v := highAt - at, at - lowAt;
    MulAtMost(floor, low, u);
    MulAtMost(low, ceiling, u);
    MulAtMost(floor, high, v);
    MulAtMost(high, ceiling, v);
    assert floor * u + floor * v == floor * (highAt - lowAt);
    assert ceiling * u + ceiling * v == ceiling * (highAt - lowAt);
  }

  /** r is within half a unit of a / b, ties upwards. */
  predicate NearestTo(r: int, a: int, b: int) { -b < 2 * (r * b - a) <= b }

  lemma RoundIsNearest(a: int, b: int)
    requires a >= 0 && b > 0
    ensures NearestTo(RoundDiv(a, b), a, b)
  {
    var n, q := 2 * a + b, RoundDiv(a, b);
    assert n == (2 * b) * q + n % (2 * b);
    assert (2 * b) * q == 2 * (q * b);
  }

  lemma FlatIsExact(low: int, lowAt: int, highAt: int, at: int)
    ensures low * (highAt - lowAt) == low * (highAt - at) + low * (at - lowAt)
  {
  }

  /** The value at `at` on the segment from (lowAt, low) to (highAt, high), rounded to the nearest: the
      error against the straight line is at most half a unit. */
  function Interpolate(low: int, high: int, lowAt: int, highAt: int, at: int): (r: int)
    requires lowAt <= at <= highAt && 0 <= low && 0 <= high
    ensures if low <= high then low <= r <= high else high <= r <= low
    ensures lowAt == highAt ==> r == low
    ensures lowAt < highAt ==>
              -(highAt - lowAt)
              < 2 * (r * (highAt - lowAt) - (low * (highAt - at) + high * (at - lowAt)))
              <= highAt - lowAt
  {
    if lowAt == highAt || low == high then
      FlatIsExact(low, lowAt, highAt, at);
      low
    else
      assert NearestTo(RoundDiv(Weighted(low, high, lowAt, highAt, at), highAt - lowAt),
                       Weighted(low, high, lowAt, highAt, at), highAt - lowAt) by {
        WeightedBetween(low, high, lowAt, highAt, at, 0, if low <= high then high else low);
        RoundIsNearest(Weighted(low, high, lowAt, highAt, at), highAt - lowAt);
      }
      var floor, ceiling := if low <= high then low else high, if low <= high then high else low;
      WeightedBetween(low, high, lowAt, highAt, at, floor, ceiling);
      RoundBetween(Weighted(low, high, lowAt, highAt, at), highAt - lowAt, floor, ceiling);
      RoundDiv(Weighted(low, high, lowAt, highAt, at), highAt - lowAt)
  }

  lemma RoundMonotone(a: int, b: int, d: int)
    requires 0 <= a <= b && d > 0
    ensures RoundDiv(a, d) <= RoundDiv(b, d)
  {
    DivMonotone(2 * a + d, 2 * b + d, 2 * d);
  }

  lemma InterpolateIsRounded(low: int, high: int, lowAt: int, highAt: int, at: int)
    requires lowAt <= at <= highAt && lowAt < highAt && 0 <= low && 0 <= high
    ensures Weighted(low, high, lowAt, highAt, at) >= 0
    ensures Interpolate(low, high, lowAt, highAt, at)
         == RoundDiv(Weighted(low, high, lowAt, highAt, at), highAt - lowAt)
  {
    WeightedBetween(low, high, lowAt, highAt, at, 0, if low <= high then high else low);
    if low == high {
      WeightedBetween(low, high, lowAt, highAt, at, low, low);
      RoundExact(low, highAt - lowAt);
    }
  }

  /** Direction of a comparison: upwards or downwards. */
  predicate Le(up: bool, a: int, b: int) { if up then a <= b else b <= a }

  lemma WeightedMonotone(low: int, high: int, lowAt: int, highAt: int, a: int, b: int)
    requires a <= b
    ensures Le(low <= high, Weighted(low, high, lowAt, highAt, a), Weighted(low, high, lowAt, highAt, b))
  {
    var x, y := Weighted(low, high, lowAt, highAt, a), Weighted(low, high, lowAt, highAt, b);
    assert y - x == (high - low) * (b - a);
    if low <= high { MulNonNegative(high - low, b - a); } else { MulNonNegative(low - high, b - a); }
    assert (low - high) * (b - a) == -((high - low) * (b - a));
  }

  lemma InterpolateMonotone(low: int, high: int, lowAt: int, highAt: int, a: int, b: int)
    requires lowAt <= a <= b <= highAt && lowAt < highAt && 0 <= low && 0 <= high
    ensures Le(low <= high, Interpolate(low, high, lowAt, highAt, a), Interpolate(low, high, lowAt, highAt, b))
  {
    InterpolateIsRounded(low, high, lowAt, highAt, a);
    InterpolateIsRounded(low, high, lowAt, highAt, b);
    WeightedMonotone(low, high, lowAt, highAt, a, b);
    var x, y := Weighted(low, high, lowAt, highAt, a), Weighted(low, high, lowAt, highAt, b);
    if low <= high { RoundMonotone(x, y, highAt - lowAt); } else { RoundMonotone(y, x, highAt - lowAt); }
  }

  lemma InterpolatePointwise(low: int, high: int, low': int, high': int, lowAt: int, highAt: int, at: int)
    requires lowAt <= at <= highAt && lowAt < highAt && 0 <= low <= low' && 0 <= high <= high'
    ensures Interpolate(low, high, lowAt, highAt, at) <= Interpolate(low', high', lowAt, highAt, at)
  {
    InterpolateIsRounded(low, high, lowAt, highAt, at);
    InterpolateIsRounded(low', high', lowAt, highAt, at);
    MulAtMost(low, low', highAt - at);
    MulAtMost(high, high', at - lowAt);
    RoundMonotone(Weighted(low, high, lowAt, highAt, at), Weighted(low', high', lowAt, highAt, at), highAt - lowAt);
  }

  // ---------------------------------------------------------------- piecewise interpolation

  /** The first breakpoint at or after the target: what the binary search returns. */
  function FirstAtLeast(values: seq<int>, target: int): (high: nat)
    requires |values| > 0 && target <= values[|values| - 1]
    ensures high < |values| && values[high] >= target
    ensures forall i :: 0 <= i < high ==> values[i] < target
  {
    if values[0] >= target then 0 else FirstAtLeast(values[1..], target) + 1
  }

  function Bracket(values: seq<int>, target: int): (r: (nat, nat))
    requires |values| > 0
    ensures r.0 <= r.1 < |values| && (r.0 == r.1 || r.0 + 1 == r.1)
    ensures values[0] <= target <= values[|values| - 1] ==> values[r.0] <= target <= values[r.1]
    ensures r.0 == r.1 ==> (r.0 == 0 && target <= values[0]) || (r.0 == |values| - 1 && target >= values[r.0])
  {
    var last := |values| - 1;
    if target <= values[0] then (0, 0)
    else if target >= values[last] then (last, last)
    else var high := FirstAtLeast(values, target); (high - 1, high)
  }

  predicate Within(xs: seq<int>, at: int) { |xs| > 0 && xs[0] <= at <= xs[|xs| - 1] }
  predicate NonNegative(ys: seq<int>) { forall i :: 0 <= i < |ys| ==> ys[i] >= 0 }

  function Piecewise(xs: seq<int>, ys: seq<int>, at: int): int
    requires Within(xs, at) && |ys| == |xs| && NonNegative(ys)
  {
    var (low, high) := Bracket(xs, at);
    Interpolate(ys[low], ys[high], xs[low], xs[high], at)
  }

  predicate Monotone(up: bool, ys: seq<int>) {
    forall i, j :: 0 <= i <= j < |ys| ==> Le(up, ys[i], ys[j])
  }

  predicate Ascending(xs: seq<int>) { forall i, j :: 0 <= i < j < |xs| ==> xs[i] < xs[j] }

  /** Through segment boundaries and rounding, the interpolation moves with its table. */
  lemma PiecewiseMonotone(up: bool, xs: seq<int>, ys: seq<int>, a: int, b: int)
    requires Ascending(xs) && |ys| == |xs| && NonNegative(ys) && Monotone(up, ys)
    requires Within(xs, a) && Within(xs, b) && a <= b
    ensures Le(up, Piecewise(xs, ys, a), Piecewise(xs, ys, b))
  {
    var (la, ha) := Bracket(xs, a);
    var (lb, hb) := Bracket(xs, b);
    if la == lb && ha == hb {
      if la < ha { InterpolateMonotone(ys[la], ys[ha], xs[la], xs[ha], a, b); }
    } else {
      assert ha <= lb;
      assert Le(up, Piecewise(xs, ys, a), ys[ha]);
      assert Le(up, ys[ha], ys[lb]);
      assert Le(up, ys[lb], Piecewise(xs, ys, b));
    }
  }

  lemma PiecewisePointwise(xs: seq<int>, ys: seq<int>, zs: seq<int>, at: int)
    requires Ascending(xs) && |ys| == |zs| == |xs| && NonNegative(ys) && Within(xs, at) && RowAtMost(ys, zs)
    ensures NonNegative(zs) && Piecewise(xs, ys, at) <= Piecewise(xs, zs, at)
  {
    var (low, high) := Bracket(xs, at);
    assert NonNegative(zs);
    if low < high { InterpolatePointwise(ys[low], ys[high], zs[low], zs[high], xs[low], xs[high], at); }
  }

  lemma NearestIsExact(r: int, n: int, b: int)
    requires b > 0 && -b < 2 * (r * b - n * b) <= b
    ensures r == n
  {
    if r < n { MulStep(b, r, n); }
    if r > n { MulStep(b, n, r); }
    assert r * b == b * r && n * b == b * n;
  }

  lemma InterpolateAtEnds(low: int, high: int, lowAt: int, highAt: int)
    requires lowAt < highAt && 0 <= low && 0 <= high
    ensures Interpolate(low, high, lowAt, highAt, lowAt) == low
    ensures Interpolate(low, high, lowAt, highAt, highAt) == high
  {
    NearestIsExact(Interpolate(low, high, lowAt, highAt, lowAt), low, highAt - lowAt);
    NearestIsExact(Interpolate(low, high, lowAt, highAt, highAt), high, highAt - lowAt);
  }

  /** At a breakpoint the interpolation is the table's own value. */
  lemma PiecewiseAtBreakpoint(xs: seq<int>, ys: seq<int>, i: nat)
    requires Ascending(xs) && |ys| == |xs| && NonNegative(ys) && i < |xs|
    ensures Within(xs, xs[i]) && Piecewise(xs, ys, xs[i]) == ys[i]
  {
    var last := |xs| - 1;
    assert xs[0] <= xs[i] <= xs[last];
    if 0 < i < last {
      var high := FirstAtLeast(xs, xs[i]);
      assert high == i;
      InterpolateAtEnds(ys[i - 1], ys[i], xs[i - 1], xs[i]);
    }
  }

  // ---------------------------------------------------------------- the prefill grid

  function Column(p: Profile, c: nat): (ys: seq<int>)
    requires ValidProfile(p) && c < |p.ratios|
    ensures |ys| == |p.prompts| && NonNegative(ys)
  {
    seq(|p.prompts|, r requires 0 <= r < |p.prompts| => p.prefill[r][c])
  }

  /** The grid cut at one prompt length: one value per cache-ratio breakpoint. */
  function RowAt(p: Profile, prompt: int): (ys: seq<int>)
    requires ValidProfile(p) && Within(p.prompts, prompt)
    ensures |ys| == |p.ratios| && NonNegative(ys)
  {
    seq(|p.ratios|, c requires 0 <= c < |p.ratios| => Piecewise(p.prompts, Column(p, c), prompt))
  }

  function PrefillAt(p: Profile, prompt: int, ratio: int): (d: int)
    requires ValidProfile(p) && Within(p.prompts, prompt) && Within(p.ratios, ratio)
    ensures d >= 0
  {
    Piecewise(p.ratios, RowAt(p, prompt), ratio)
  }

  method InterpolateGrid(p: Profile, x: int, y: int) returns (d: int)
    requires ValidProfile(p) && Within(p.prompts, x) && Within(p.ratios, y)
    ensures d == PrefillAt(p, x, y)
  {
    var (xLow, xHigh) := Bracket(p.prompts, x);
    var (yLow, yHigh) := Bracket(p.ratios, y);
    var left := Interpolate(p.prefill[xLow][yLow], p.prefill[xHigh][yLow], p.prompts[xLow], p.prompts[xHigh], x);
    var right := Interpolate(p.prefill[xLow][yHigh], p.prefill[xHigh][yHigh], p.prompts[xLow], p.prompts[xHigh], x);
    assert left == RowAt(p, x)[yLow] && right == RowAt(p, x)[yHigh];
    d := Interpolate(left, right, p.ratios[yLow], p.ratios[yHigh], y);
  }

  lemma {:induction false} IncreasingIsAscending(values: seq<int>, minimum: int, maximum: int, i: nat, j: nat)
    requires Increasing(values, minimum, maximum) && i < j < |values|
    ensures values[i] < values[j]
  {
    if i + 1 < j { IncreasingIsAscending(values, minimum, maximum, i, j - 1); }
  }

  lemma BreakpointsAscend(p: Profile)
    requires ValidProfile(p)
    ensures Ascending(p.prompts) && Ascending(p.ratios)
  {
    forall i, j | 0 <= i < j < |p.prompts| ensures p.prompts[i] < p.prompts[j] {
      IncreasingIsAscending(p.prompts, 1, PromptLimit(p), i, j);
    }
    forall i, j | 0 <= i < j < |p.ratios| ensures p.ratios[i] < p.ratios[j] {
      IncreasingIsAscending(p.ratios, 0, BASIS_POINTS, i, j);
    }
  }

  lemma {:induction false} PrefillGrows(p: Profile, r: nat, q: nat, c: nat)
    requires ValidProfile(p) && r <= q < |p.prompts| && c < |p.ratios|
    ensures p.prefill[r][c] <= p.prefill[q][c]
  {
    if r < q {
      PrefillGrows(p, r, q - 1, c);
      assert RowAtMost(p.prefill[q - 1], p.prefill[q]);
    }
  }

  lemma {:induction false} PrefillShrinks(p: Profile, r: nat, c: nat, d: nat)
    requires ValidProfile(p) && r < |p.prompts| && c <= d < |p.ratios|
    ensures p.prefill[r][d] <= p.prefill[r][c]
  {
    if c < d { PrefillShrinks(p, r, c, d - 1); }
  }

  lemma RowDescends(p: Profile, prompt: int)
    requires ValidProfile(p) && Within(p.prompts, prompt)
    ensures Monotone(false, RowAt(p, prompt))
  {
    BreakpointsAscend(p);
    var row := RowAt(p, prompt);
    forall c, d | 0 <= c <= d < |row| ensures row[d] <= row[c] {
      forall r | 0 <= r < |p.prompts| ensures Column(p, d)[r] <= Column(p, c)[r] { PrefillShrinks(p, r, c, d); }
      PiecewisePointwise(p.prompts, Column(p, d), Column(p, c), prompt);
    }
  }

  lemma RowRises(p: Profile, a: int, b: int)
    requires ValidProfile(p) && Within(p.prompts, a) && Within(p.prompts, b) && a <= b
    ensures RowAtMost(RowAt(p, a), RowAt(p, b))
  {
    BreakpointsAscend(p);
    forall c | 0 <= c < |p.ratios| ensures RowAt(p, a)[c] <= RowAt(p, b)[c] {
      var ys := Column(p, c);
      forall r, q | 0 <= r <= q < |ys| ensures ys[r] <= ys[q] { PrefillGrows(p, r, q, c); }
      PiecewiseMonotone(true, p.prompts, ys, a, b);
    }
  }

  /** At every grid point the prefill is the calibrated value. */
  lemma PrefillAtGridPoint(p: Profile, r: nat, c: nat)
    requires ValidProfile(p) && r < |p.prompts| && c < |p.ratios|
    ensures Within(p.prompts, p.prompts[r]) && Within(p.ratios, p.ratios[c])
    ensures PrefillAt(p, p.prompts[r], p.ratios[c]) == p.prefill[r][c]
  {
    BreakpointsAscend(p);
    PiecewiseAtBreakpoint(p.prompts, Column(p, c), r);
    PiecewiseAtBreakpoint(p.ratios, RowAt(p, p.prompts[r]), c);
  }

  /** More prompt and less cache never shortens the prefill. */
  lemma PrefillMonotone(p: Profile, a: int, b: int, y: int, z: int)
    requires ValidProfile(p) && Within(p.prompts, a) && Within(p.prompts, b) && a <= b
    requires Within(p.ratios, y) && Within(p.ratios, z) && z <= y
    ensures PrefillAt(p, a, y) <= PrefillAt(p, b, z)
  {
    BreakpointsAscend(p);
    RowRises(p, a, b);
    PiecewisePointwise(p.ratios, RowAt(p, a), RowAt(p, b), y);
    RowDescends(p, b);
    PiecewiseMonotone(false, p.ratios, RowAt(p, b), z, y);
  }

  // ---------------------------------------------------------------- the estimate

  /** The cached share in basis points, rounded down. */
  function CacheRatio(cached: int, prompt: int): (r: int)
    requires prompt > 0
    ensures prompt * r <= cached * 10_000 < prompt * r + prompt
  {
    var r := cached * BASIS_POINTS / prompt;
    assert cached * BASIS_POINTS == prompt * r + cached * BASIS_POINTS % prompt;
    r
  }

  lemma CacheRatioRange(cached: int, prompt: int)
    requires 0 <= cached <= prompt && 0 < prompt
    ensures 0 <= CacheRatio(cached, prompt) <= BASIS_POINTS
  {
    DivUnique(prompt * BASIS_POINTS, prompt, BASIS_POINTS);
    DivMonotone(cached * BASIS_POINTS, prompt * BASIS_POINTS, prompt);
    DivUnique(0, prompt, 0);
    DivMonotone(0, cached * BASIS_POINTS, prompt);
  }

  lemma CacheRatioMonotone(cached: int, prompt: int, cached': int, prompt': int)
    requires 0 <= cached' <= cached && 0 < prompt <= prompt'
    ensures CacheRatio(cached', prompt') <= CacheRatio(cached, prompt)
  {
    var n := cached' * BASIS_POINTS;
    var q := n / prompt';
    assert n == prompt' * q + n % prompt';
    DivUnique(0, prompt', 0);
    DivMonotone(0, n, prompt');
    MulAtMost(prompt, prompt', q);
    DivUnique(prompt * q, prompt, q);
    DivMonotone(prompt * q, cached * BASIS_POINTS, prompt);
  }

  predicate WellFormed(i: Input) {
    i.promptTokens > 0 && 0 <= i.cachedTokens <= i.promptTokens
    && i.load.queue >= 0 && i.load.running >= 0 && i.load.localDelta >= 0 && i.load.localInflight >= 0
  }

  predicate OutsideLoadBounds(p: Profile, l: Load) {
    p.bounds.Some? &&
    if l.valid then l.queue > p.bounds.value.maxQueue || l.running > p.bounds.value.maxRunning
                    || l.localDelta > p.bounds.value.maxLocalDelta
    else l.localInflight > p.bounds.value.maxLocalFallback
  }

  /** The inputs an estimate is attempted for. */
  predicate InRange(p: Profile, i: Input) {
    i.identity == p.identity && WellFormed(i)
    && p.identity.minPromptTokens <= i.promptTokens <= PromptLimit(p) && !OutsideLoadBounds(p, i.load)
  }

  function LoadTerms(p: Profile, l: Load): int {
    if l.valid then p.queueWait * l.queue + p.runningDelay * l.running + p.localDelta * l.localDelta
    else p.localFallback * l.localInflight
  }

  /** No single load term overflows. */
  predicate ProductsFit(p: Profile, l: Load) {
    if l.valid then p.queueWait * l.queue <= MAX_INT64 && p.runningDelay * l.running <= MAX_INT64
                    && p.localDelta * l.localDelta <= MAX_INT64
    else p.localFallback * l.localInflight <= MAX_INT64
  }

  /** The estimate in unbounded arithmetic. */
  function ExactTotal(p: Profile, i: Input): int
    requires ValidProfile(p) && InRange(p, i)
  {
    BasePart(p, i) + LoadTerms(p, i.load)
  }

  function PrefillOf(p: Profile, i: Input): int
    requires ValidProfile(p) && InRange(p, i)
  {
    CacheRatioRange(i.cachedTokens, i.promptTokens);
    PrefillAt(p, i.promptTokens, CacheRatio(i.cachedTokens, i.promptTokens))
  }

  /** Prefill and safety margin. */
  function BasePart(p: Profile, i: Input): int
    requires ValidProfile(p) && InRange(p, i)
  {
    PrefillOf(p, i) + p.margin
  }

  function MultiplyDuration(value: int, count: int): Option<int>
  {
    if value == 0 || count == 0 then Some(0)
    else if count > MAX_INT64 / value then None
    else Some(value * count)
  }

  lemma MultiplyIsExact(value: int, count: int)
    requires value >= 0 && count >= 0
    ensures value * count >= 0
    ensures MultiplyDuration(value, count) == if value * count <= MAX_INT64 then Some(value * count) else None
  {
    MulNonNegative(value, count);
    if value > 0 { ProductTest(value, count); }
  }

  function AddDuration(left: int, right: int): Option<int> {
    if left > MAX_INT64 - right then None else Some(left + right)
  }

  /** The stepwise estimate is Valid exactly when the exact sum is in (0, MaxInt64], and then it is
      that sum; the basis-point product never overflows. */
  method EstimateTTFT(p: Profile, i: Input) returns (e: Estimate)
    requires ValidProfile(p)
    ensures e.valid <==> InRange(p, i) && 0 < ExactTotal(p, i) <= MAX_INT64
    ensures e.valid ==>
              e.ttft == PrefillOf(p, i) + p.margin
                        + if i.load.valid
                          then p.queueWait * i.load.queue + p.runningDelay * i.load.running
                               + p.localDelta * i.load.localDelta
                          else p.localFallback * i.load.localInflight
    ensures InRange(p, i) <==>
              && i.identity == p.identity && i.promptTokens > 0 && 0 <= i.cachedTokens <= i.promptTokens
              && i.load.queue >= 0 && i.load.running >= 0 && i.load.localDelta >= 0 && i.load.localInflight >= 0
              && p.identity.minPromptTokens <= i.promptTokens
              && i.promptTokens <= (if p.maxPromptTokens == 0 then p.identity.maxModelTokens else p.maxPromptTokens)
              && (p.bounds.Some? && i.load.valid ==>
                    i.load.queue <= p.bounds.value.maxQueue && i.load.running <= p.bounds.value.maxRunning
                    && i.load.localDelta <= p.bounds.value.maxLocalDelta)
              && (p.bounds.Some? && !i.load.valid ==> i.load.localInflight <= p.bounds.value.maxLocalFallback)
    ensures !e.valid ==> e.ttft == 0
    ensures i.identity != p.identity ==> e.why == ProfileMismatch
    ensures i.identity == p.identity && !WellFormed(i) ==> e.why == InvalidInput
    ensures i.identity == p.identity && WellFormed(i) && !InRange(p, i) ==> e.why == OutOfRange
    ensures InRange(p, i) && !e.valid ==> e.why == Overflow
    ensures e.valid ==> e.why == if !p.calibrated then Uncalibrated
                                     else if i.load.valid then Calibrated else LoadFallback
    ensures InRange(p, i) ==> i.cachedTokens * BASIS_POINTS <= MAX_INT64
    ensures e.valid ==> e.confidence == if !p.calibrated then UncalibratedConfidence
                                        else if i.load.valid then CalibratedConfidence else DegradedConfidence
    ensures !e.valid ==> e.confidence == if InRange(p, i) && !ProductsFit(p, i.load) && BasePart(p, i) <= MAX_INT64
                                          then (if p.calibrated then CalibratedConfidence else UncalibratedConfidence)
                                          else NoConfidence
  {
    e := Estimate(0, false, NoConfidence, Overflow);
    if i.identity != p.identity {
      return e.(why := ProfileMismatch);
    }
    if !WellFormed(i) {
      return e.(why := InvalidInput);
    }
    if i.promptTokens < p.identity.minPromptTokens || i.promptTokens > PromptLimit(p) {
      return e.(why := OutOfRange);
    }
    if OutsideLoadBounds(p, i.load) {
      return e.(why := OutOfRange);
    }
    CacheRatioRange(i.cachedTokens, i.promptTokens);
    var prefill := InterpolateGrid(p, i.promptTokens, CacheRatio(i.cachedTokens, i.promptTokens));
    LoadTermsNonNegative(p, i.load);
    var total := AddDuration(prefill, p.margin);
    if total.None? {
      return;
    }
    e := e.(why := if p.calibrated then Calibrated else Uncalibrated,
            confidence := if p.calibrated then CalibratedConfidence else UncalibratedConfidence);
    var multiplied, sum := AddLoad(p, i.load, total.value);
    if !multiplied {
      return e.(why := Overflow);
    }
    if !i.load.valid && p.calibrated {
      e := e.(why := LoadFallback, confidence := DegradedConfidence);
    }
    if sum.None? || sum.value <= 0 {
      return e.(why := Overflow, confidence := NoConfidence);
    }
    return e.(ttft := sum.value, valid := true);
  }

  /** The load terms on top of `base`; false when a product alone overflows. */
  method AddLoad(p: Profile, l: Load, base: int) returns (multiplied: bool, total: Option<int>)
    requires ValidProfile(p) && 0 <= base <= MAX_INT64
    requires l.queue >= 0 && l.running >= 0 && l.localDelta >= 0 && l.localInflight >= 0
    ensures multiplied <==> ProductsFit(p, l)
    ensures multiplied && total.Some? <==> base + LoadTerms(p, l) <= MAX_INT64
    ensures multiplied && total.Some? ==> total.value == base + LoadTerms(p, l)
  {
    MultiplyIsExact(p.queueWait, l.queue);
    MultiplyIsExact(p.runningDelay, l.running);
    MultiplyIsExact(p.localDelta, l.localDelta);
    MultiplyIsExact(p.localFallback, l.localInflight);
    if l.valid {
      var queue := MultiplyDuration(p.queueWait, l.queue);
      var running := MultiplyDuration(p.runningDelay, l.running);
      var delta := MultiplyDuration(p.localDelta, l.localDelta);
      if queue.None? || running.None? || delta.None? {
        return false, None;
      }
      total := AddDuration(base, queue.value);
      if total.Some? {
        total := AddDuration(total.value, running.value);
      }
      if total.Some? {
        total := AddDuration(total.value, delta.value);
      }
    } else {
      var local := MultiplyDuration(p.localFallback, l.localInflight);
      if local.None? {
        return false, None;
      }
      total := AddDuration(base, local.value);
    }
    multiplied := true;
  }

  lemma LoadTermsNonNegative(p: Profile, l: Load)
    requires ValidProfile(p) && l.queue >= 0 && l.running >= 0 && l.localDelta >= 0 && l.localInflight >= 0
    ensures LoadTerms(p, l) >= 0
  {
    MulNonNegative(p.queueWait, l.queue);
    MulNonNegative(p.runningDelay, l.running);
    MulNonNegative(p.localDelta, l.localDelta);
    MulNonNegative(p.localFallback, l.localInflight);
  }

  /** Input `a` asks for no more prompt, has no less of it cached, and meets no more load. */
  predicate NoHeavier(a: Input, b: Input) {
    && a.promptTokens <= b.promptTokens && a.cachedTokens >= b.cachedTokens && a.load.valid == b.load.valid
    && a.load.queue <= b.load.queue && a.load.running <= b.load.running
    && a.load.localDelta <= b.load.localDelta && a.load.localInflight <= b.load.localInflight
  }

  /** For every validated profile the estimate is monotone: more cache at a fixed prompt never
      raises it, a longer prompt at a fixed cached count never lowers it, more load never lowers it. */
  lemma EstimateIsMonotone(p: Profile, a: Input, b: Input)
    requires ValidProfile(p) && InRange(p, a) && InRange(p, b) && NoHeavier(a, b)
    ensures ExactTotal(p, a) <= ExactTotal(p, b)
  {
    CacheRatioRange(a.cachedTokens, a.promptTokens);
    CacheRatioRange(b.cachedTokens, b.promptTokens);
    CacheRatioMonotone(a.cachedTokens, a.promptTokens, b.cachedTokens, b.promptTokens);
    PrefillMonotone(p, a.promptTokens, b.promptTokens, CacheRatio(a.cachedTokens, a.promptTokens),
                    CacheRatio(b.cachedTokens, b.promptTokens));
    MulAtMost(a.load.queue, b.load.queue, p.queueWait);
    MulAtMost(a.load.running, b.load.running, p.runningDelay);
    MulAtMost(a.load.localDelta, b.load.localDelta, p.localDelta);
    MulAtMost(a.load.localInflight, b.load.localInflight, p.localFallback);
  }
}
