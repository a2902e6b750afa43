/**
 The learned TTFT model: ridge least squares over five non-negative features, solved by
 box-projected coordinate descent on the normal equations. Floats are reals.
 */
module RidgeFit {

  const FEATURES: nat := 5
  const PASSES: nat := 64
  const RIDGE: real := 1.0
  const MILLISECOND: real := 1000000.0

  datatype Features = Features(uncached: int, queue: int, running: int, inflight: int, loadValid: bool)
  datatype Sample = Sample(features: Features, ttft: int)

  predicate ValidFeatures(f: Features) {
    f.loadValid && f.uncached >= 0 && f.queue >= 0 && f.running >= 0 && f.inflight >= 0
  }

  predicate Usable(s: Sample) { s.ttft > 0 && ValidFeatures(s.features) }

  function UpperBound(k: nat): real { if k == 1 then 10.0 else 10000.0 }

  type Vector = v: seq<real> | |v| == FEATURES witness [0.0, 0.0, 0.0, 0.0, 0.0]
  type Weights = Vector

  const ZERO: Weights := [0.0, 0.0, 0.0, 0.0, 0.0]

  /** One equation of the regression: a feature vector and the observed milliseconds. */
  datatype Row = Row(x: Vector, y: real)

  function FeatureVector(f: Features): Vector {
    [1.0, f.uncached as real, f.queue as real, f.running as real, f.inflight as real]
  }

  function RowOf(s: Sample): Row { Row(FeatureVector(s.features), s.ttft as real / MILLISECOND) }

  /** The usable samples, as equations. */
  function Rows(samples: seq<Sample>): seq<Row> {
    if samples == [] then []
    else
      var s := samples[|samples| - 1];
      Rows(samples[..|samples| - 1]) + if Usable(s) then [RowOf(s)] else []
  }

  predicate InBox(w: Weights) { forall k :: 0 <= k < FEATURES ==> 0.0 <= w[k] <= UpperBound(k) }

  // ---------------------------------------------------------------- the objective

  function Dot(w: Weights, x: Vector, k: nat): real
    requires k <= FEATURES
  {
    if k == 0 then 0.0 else Dot(w, x, k - 1) + x[k - 1] * w[k - 1]
  }

  function Square(x: real): real { x * x }

  function Penalty(w: Weights): real { RIDGE * (Square(w[1]) + Square(w[2]) + Square(w[3]) + Square(w[4])) }

  /** Squared error plus the ridge penalty, which spares the constant term. */
  function Loss(rows: seq<Row>, w: Weights): real {
    if rows == [] then Penalty(w)
    else
      var s := rows[|rows| - 1];
      Loss(rows[..|rows| - 1], w) + Square(Dot(w, s.x, FEATURES) - s.y)
  }

  // ---------------------------------------------------------------- the normal equations

  function AddScaled(x: Vector, a: real, y: Vector): (z: Vector)
    ensures forall c :: 0 <= c < FEATURES ==> z[c] == x[c] + a * y[c]
  {
    seq(FEATURES, c requires 0 <= c < FEATURES => x[c] + a * y[c])
  }

  /** One row of the normal matrix: the sum of x[row] * x over the rows. */
  function Gram(rows: seq<Row>, row: nat): Vector
    requires row < FEATURES
  {
    if rows == [] then ZERO
    else
      var s := rows[|rows| - 1];
      AddScaled(Gram(rows[..|rows| - 1], row), s.x[row], s.x)
  }

  function Target(rows: seq<Row>, row: nat): real
    requires row < FEATURES
  {
    if rows == [] then 0.0
    else
      var s := rows[|rows| - 1];
      Target(rows[..|rows| - 1], row) + s.x[row] * s.y
  }

  function Ridge(row: nat, column: nat): real { if row == column && row >= 1 then RIDGE else 0.0 }

  function Diagonal(rows: seq<Row>, row: nat): real
    requires row < FEATURES
  {
    Gram(rows, row)[row] + Ridge(row, row)
  }

  /** The right-hand side of coordinate `row` with the other coordinates moved across. */
  function Residual(rows: seq<Row>, w: Weights, row: nat): real
    requires row < FEATURES
  {
    Target(rows, row) - Dot(w[row := 0.0], Gram(rows, row), FEATURES)
  }

  lemma {:induction false} DotAddScaled(w: Weights, x: Vector, a: real, y: Vector, k: nat)
    requires k <= FEATURES
    ensures Dot(w, AddScaled(x, a, y), k) == Dot(w, x, k) + a * Dot(w, y, k)
  {
    if k > 0 {
      DotAddScaled(w, x, a, y, k - 1);
      Distribute(AddScaled(x, a, y)[k - 1], x[k - 1], a, y[k - 1], w[k - 1], Dot(w, y, k - 1));
    }
  }

  lemma Distribute(h: real, g: real, a: real, b: real, w: real, d: real)
    requires h == g + a * b
    ensures h * w == g * w + a * (b * w)
    ensures a * (d + b * w) == a * d + a * (b * w)
  {
    assert h * w == (g + a * b) * w;
  }

  lemma {:induction false} DotZero(w: Weights, k: nat)
    requires k <= FEATURES
    ensures Dot(w, ZERO, k) == 0.0
  {
    if k > 0 { DotZero(w, k - 1); }
  }

  lemma {:induction false} DotUpdate(w: Weights, x: Vector, row: nat, z: real, k: nat)
    requires row < FEATURES && k <= FEATURES
    ensures Dot(w[row := z], x, k) == Dot(w[row := 0.0], x, k) + if row < k then x[row] * z else 0.0
  {
    if k > 0 { DotUpdate(w, x, row, z, k - 1); }
  }

  /** The quadratic n z^2 - 2 z r. */
  function Quadratic(n: real, r: real, z: real): real { n * Square(z) - 2.0 * z * r }

  lemma SquareShift(d: real, p: real, a: real, z: real, y: real)
    requires d == p + a * z
    ensures Square(d - y) == Square(p - y) + Quadratic(a * a, a * y - a * p, z)
  {
    assert Square(d - y) == Square(p + a * z - y);
  }

  lemma QuadraticSum(n: real, m: real, r: real, q: real, z: real)
    ensures Quadratic(n + m, r + q, z) == Quadratic(n, r, z) + Quadratic(m, q, z)
  {
  }

  lemma PenaltyAlongCoordinate(w: Weights, row: nat, z: real)
    requires row < FEATURES
    ensures Penalty(w[row := z]) == Penalty(w[row := 0.0]) + Quadratic(Diagonal([], row), Residual([], w, row), z)
  {
    DotZero(w[row := 0.0], FEATURES);
    assert Residual([], w, row) == 0.0;
    assert Quadratic(Diagonal([], row), 0.0, z) == if row >= 1 then Square(z) else 0.0;
  }

  lemma ErrorAlongCoordinate(s: Row, w: Weights, row: nat, z: real)
    requires row < FEATURES
    ensures Square(Dot(w[row := z], s.x, FEATURES) - s.y)
         == Square(Dot(w[row := 0.0], s.x, FEATURES) - s.y)
            + Quadratic(s.x[row] * s.x[row], s.x[row] * s.y - s.x[row] * Dot(w[row := 0.0], s.x, FEATURES), z)
  {
    var d, p, a := Dot(w[row := z], s.x, FEATURES), Dot(w[row := 0.0], s.x, FEATURES), s.x[row];
    DotUpdate(w, s.x, row, z, FEATURES);
    SquareShift(d, p, a, z, s.y);
    assert Square(d - s.y) == Square(p - s.y) + Quadratic(a * a, a * s.y - a * p, z);
  }

  lemma TargetSnoc(rest: seq<Row>, s: Row, row: nat)
    requires row < FEATURES
    ensures Target(rest + [s], row) == Target(rest, row) + s.x[row] * s.y
  {
    assert (rest + [s])[..|rest + [s]| - 1] == rest;
  }

  lemma GramSnoc(rest: seq<Row>, s: Row, row: nat)
    requires row < FEATURES
    ensures Gram(rest + [s], row) == AddScaled(Gram(rest, row), s.x[row], s.x)
  {
    assert (rest + [s])[..|rest + [s]| - 1] == rest;
  }

  lemma DiagonalSnoc(rest: seq<Row>, s: Row, row: nat)
    requires row < FEATURES
    ensures Diagonal(rest + [s], row) == Diagonal(rest, row) + s.x[row] * s.x[row]
  {
    GramSnoc(rest, s, row);
  }

  lemma DotSnoc(rest: seq<Row>, s: Row, u: Weights, row: nat)
    requires row < FEATURES
    ensures Adds(Dot(u, Gram(rest + [s], row), FEATURES), Dot(u, Gram(rest, row), FEATURES),
                 s.x[row], Dot(u, s.x, FEATURES))
  {
    GramSnoc(rest, s, row);
    DotAdds(u, Gram(rest, row), s.x[row], s.x);
  }

  lemma DotAdds(u: Weights, g: Vector, a: real, x: Vector)
    ensures Adds(Dot(u, AddScaled(g, a, x), FEATURES), Dot(u, g, FEATURES), a, Dot(u, x, FEATURES))
  {
    DotAddScaled(u, g, a, x, FEATURES);
  }

  lemma ResidualSnoc(rest: seq<Row>, s: Row, w: Weights, row: nat)
    requires row < FEATURES
    ensures Residual(rest + [s], w, row)
         == Residual(rest, w, row) + (s.x[row] * s.y - s.x[row] * Dot(w[row := 0.0], s.x, FEATURES))
  {
    TargetSnoc(rest, s, row);
    DotSnoc(rest, s, w[row := 0.0], row);
  }

  /** Along one coordinate the objective is the quadratic whose coefficients are the diagonal
      entry and the residual that the descent computes. */
  lemma {:induction false} LossAlongCoordinate(rows: seq<Row>, w: Weights, row: nat, z: real)
    requires row < FEATURES
    ensures Loss(rows, w[row := z])
         == Loss(rows, w[row := 0.0]) + Quadratic(Diagonal(rows, row), Residual(rows, w, row), z)
  {
    if rows == [] {
      PenaltyAlongCoordinate(w, row, z);
    } else {
      var s, rest := rows[|rows| - 1], rows[..|rows| - 1];
      LossAlongCoordinate(rest, w, row, z);
      var m, q := s.x[row] * s.x[row], s.x[row] * s.y - s.x[row] * Dot(w[row := 0.0], s.x, FEATURES);
      ErrorAlongCoordinate(s, w, row, z);
      assert rows == rest + [s];
      DiagonalSnoc(rest, s, row);
      ResidualSnoc(rest, s, w, row);
      QuadraticSum(Diagonal(rest, row), m, Residual(rest, w, row), q, z);
    }
  }

  // ---------------------------------------------------------------- one coordinate step

  function Clamp(t: real, upper: real): real {
    var low := if t > 0.0 then t else 0.0;
    if upper < low then upper else low
  }

  lemma ProductSign(a: real, b: real)
    ensures (a >= 0.0 && b >= 0.0) || (a <= 0.0 && b <= 0.0) ==> a * b >= 0.0
  {
  }

  /** The nearest point of the box is the box's minimiser of an upward quadratic. */
  lemma ClampMinimises(n: real, r: real, t: real, upper: real, z: real)
    requires n > 0.0 && r == n * t && 0.0 <= z <= upper
    ensures Quadratic(n, r, Clamp(t, upper)) <= Quadratic(n, r, z)
  {
    var p := Clamp(t, upper);
    var near, far := z - p, z + p - 2.0 * t;
    assert (near >= 0.0 && far >= 0.0) || (near <= 0.0 && far <= 0.0);
    ProductSign(near, far);
    ProductSign(n, near * far);
    Factor(n, r, t, z, p);
  }

  lemma Factor(n: real, r: real, t: real, z: real, p: real)
    requires r == n * t
    ensures n * ((z - p) * (z + p - 2.0 * t)) == Quadratic(n, r, z) - Quadratic(n, r, p)
  {
    assert Quadratic(n, r, z) == Quadratic(n, n * t, z) && Quadratic(n, r, p) == Quadratic(n, n * t, p);
  }

  function Step(rows: seq<Row>, w: Weights, row: nat): Weights
    requires row < FEATURES
  {
    var n := Diagonal(rows, row);
    if n == 0.0 then w else w[row := Clamp(Residual(rows, w, row) / n, UpperBound(row))]
  }

  lemma {:induction false} GramDiagonal(rows: seq<Row>, row: nat)
    requires row < FEATURES
    ensures Gram(rows, row)[row] >= 0.0
  {
    if rows != [] {
      GramDiagonal(rows[..|rows| - 1], row);
      ProductSign(rows[|rows| - 1].x[row], rows[|rows| - 1].x[row]);
    }
  }

  lemma Quotient(n: real, r: real, t: real)
    requires n != 0.0 && t == r / n
    ensures r == n * t
  {
  }

  /** A coordinate update stays in the box and is the best value of that coordinate in the box. */
  lemma StepIsCoordinateOptimal(rows: seq<Row>, w: Weights, row: nat, z: real)
    requires row < FEATURES && InBox(w) && 0.0 <= z <= UpperBound(row) && Diagonal(rows, row) != 0.0
    ensures InBox(Step(rows, w, row))
    ensures Loss(rows, Step(rows, w, row)) <= Loss(rows, w[row := z])
  {
    var n, r := Diagonal(rows, row), Residual(rows, w, row);
    GramDiagonal(rows, row);
    var t := r / n;
    Quotient(n, r, t);
    ClampMinimises(n, r, t, UpperBound(row), z);
    LossAlongCoordinate(rows, w, row, Clamp(t, UpperBound(row)));
    LossAlongCoordinate(rows, w, row, z);
  }

  /** No coordinate update ever raises the objective. */
  lemma StepNeverRaisesLoss(rows: seq<Row>, w: Weights, row: nat)
    requires row < FEATURES && InBox(w)
    ensures InBox(Step(rows, w, row)) && Loss(rows, Step(rows, w, row)) <= Loss(rows, w)
  {
    if Diagonal(rows, row) != 0.0 {
      StepIsCoordinateOptimal(rows, w, row, w[row]);
      assert w[row := w[row]] == w;
    }
  }

  /** The first `row` coordinates updated in order. */
  function Sweep(rows: seq<Row>, w: Weights, row: nat): Weights
    requires row <= FEATURES
  {
    if row == 0 then w else Step(rows, Sweep(rows, w, row - 1), row - 1)
  }

  function Descended(rows: seq<Row>, passes: nat): Weights {
    if passes == 0 then ZERO else Sweep(rows, Descended(rows, passes - 1), FEATURES)
  }

  lemma {:induction false} SweepNeverRaisesLoss(rows: seq<Row>, w: Weights, row: nat)
    requires row <= FEATURES && InBox(w)
    ensures InBox(Sweep(rows, w, row)) && Loss(rows, Sweep(rows, w, row)) <= Loss(rows, w)
  {
    if row > 0 {
      SweepNeverRaisesLoss(rows, w, row - 1);
      StepNeverRaisesLoss(rows, Sweep(rows, w, row - 1), row - 1);
    }
  }

  /** For any sample list, more passes never do worse, and none leaves the box. */
  lemma {:induction false} DescentNeverRaisesLoss(rows: seq<Row>, fewer: nat, more: nat)
    requires fewer <= more
    ensures InBox(Descended(rows, more)) && Loss(rows, Descended(rows, more)) <= Loss(rows, Descended(rows, fewer))
  {
    if more > 0 {
      DescentNeverRaisesLoss(rows, if fewer < more then fewer else more - 1, more - 1);
      SweepNeverRaisesLoss(rows, Descended(rows, more - 1), FEATURES);
    }
  }

  // ---------------------------------------------------------------- where the descent rests

  /** Half the gradient of the objective at w: the errors weighted by the features, plus the ridge. */
  function Slopes(rows: seq<Row>, w: Weights): Vector {
    if rows == [] then [0.0, RIDGE * w[1], RIDGE * w[2], RIDGE * w[3], RIDGE * w[4]]
    else
      var s := rows[|rows| - 1];
      AddScaled(Slopes(rows[..|rows| - 1], w), Dot(w, s.x, FEATURES) - s.y, s.x)
  }

  lemma SlopesSnoc(rest: seq<Row>, s: Row, w: Weights)
    ensures Slopes(rest + [s], w) == AddScaled(Slopes(rest, w), Dot(w, s.x, FEATURES) - s.y, s.x)
  {
    assert (rest + [s])[..|rest + [s]| - 1] == rest;
  }

  lemma SlopeSnoc(rest: seq<Row>, s: Row, w: Weights, row: nat)
    requires row < FEATURES
    ensures Adds(Slopes(rest + [s], w)[row], Slopes(rest, w)[row], Dot(w, s.x, FEATURES) - s.y, s.x[row])
  {
    SlopesSnoc(rest, s, w);
    AddScaledAt(Slopes(rest, w), Dot(w, s.x, FEATURES) - s.y, s.x, row);
  }

  lemma AddScaledAt(g: Vector, e: real, x: Vector, row: nat)
    requires row < FEATURES
    ensures Adds(AddScaled(g, e, x)[row], g[row], e, x[row])
  {
  }

  /** One coordinate of the normal equations, up to the slope. */
  predicate Balances(slope: real, n: real, weight: real, r: real) { slope == n * weight - r }

  /** A move by d does not lower the objective to first order. */
  predicate Uphill(slope: real, d: real) { slope * d >= 0.0 }

  /** One more row adds e times its feature. */
  predicate Adds(after: real, before: real, e: real, x: real) { after == before + e * x }

  /** One more row on both sides of slope = n weight - r. */
  lemma SlopeAlgebra(slope: real, n: real, r: real, slope': real, n': real, r': real,
                     x: real, weight: real, others: real, y: real, e: real)
    requires Balances(slope, n, weight, r) && e == others + x * weight - y
    requires Adds(slope', slope, e, x) && Adds(n', n, x, x) && Adds(r', r, x, y - others)
    ensures Balances(slope', n', weight, r')
  {
    assert e * x == others * x + (x * weight) * x - y * x by { assert e * x == (others + x * weight - y) * x; }
    assert x * (y - others) == x * y - x * others;
    assert n' * weight == n * weight + (x * x) * weight by { assert n' * weight == (n + x * x) * weight; }
  }

  lemma SlopeBase(rows: seq<Row>, w: Weights, row: nat)
    requires row < FEATURES && rows == []
    ensures Balances(Slopes(rows, w)[row], Diagonal(rows, row), w[row], Residual(rows, w, row))
  {
    DotZero(w[row := 0.0], FEATURES);
    assert Residual(rows, w, row) == 0.0 && Diagonal(rows, row) == Ridge(row, row);
    SlopeOfRidge(Slopes(rows, w)[row], Diagonal(rows, row), w[row], row);
  }

  lemma SlopeOfRidge(slope: real, n: real, weight: real, row: nat)
    requires n == Ridge(row, row) && slope == if row == 0 then 0.0 else RIDGE * weight
    ensures slope == n * weight
  {
  }

  lemma DotAt(w: Weights, x: Vector, row: nat)
    requires row < FEATURES
    ensures Dot(w, x, FEATURES) == Dot(w[row := 0.0], x, FEATURES) + x[row] * w[row]
  {
    DotUpdate(w, x, row, w[row], FEATURES);
    assert w[row := w[row]] == w;
  }

  lemma SlopeNext(rows: seq<Row>, rest: seq<Row>, s: Row, w: Weights, row: nat)
    requires row < FEATURES && Balances(Slopes(rest, w)[row], Diagonal(rest, row), w[row], Residual(rest, w, row))
    requires rows == rest + [s]
    ensures Balances(Slopes(rows, w)[row], Diagonal(rows, row), w[row], Residual(rows, w, row))
  {
    SlopeSnoc(rest, s, w, row);
    DiagonalAdds(rest, s, row);
    ResidualAdds(rest, s, w, row);
    DotAt(w, s.x, row);
    SlopeAlgebra(Slopes(rest, w)[row], Diagonal(rest, row), Residual(rest, w, row),
                 Slopes(rows, w)[row], Diagonal(rows, row), Residual(rows, w, row),
                 s.x[row], w[row], Dot(w[row := 0.0], s.x, FEATURES), s.y, Dot(w, s.x, FEATURES) - s.y);
  }

  lemma DiagonalAdds(rest: seq<Row>, s: Row, row: nat)
    requires row < FEATURES
    ensures Adds(Diagonal(rest + [s], row), Diagonal(rest, row), s.x[row], s.x[row])
  {
    DiagonalSnoc(rest, s, row);
  }

  lemma ResidualAdds(rest: seq<Row>, s: Row, w: Weights, row: nat)
    requires row < FEATURES
    ensures Adds(Residual(rest + [s], w, row), Residual(rest, w, row), s.x[row],
                 s.y - Dot(w[row := 0.0], s.x, FEATURES))
  {
    ResidualSnoc(rest, s, w, row);
    Factored(Residual(rest + [s], w, row), Residual(rest, w, row), s.x[row], s.y, Dot(w[row := 0.0], s.x, FEATURES));
  }

  lemma Factored(after: real, before: real, x: real, y: real, others: real)
    requires after == before + (x * y - x * others)
    ensures Adds(after, before, x, y - others)
  {
    assert x * (y - others) == x * y - x * others;
  }

  /** The slope is what one coordinate of the normal equations misses. */
  lemma {:induction false} SlopeIs(rows: seq<Row>, w: Weights, row: nat)
    requires row < FEATURES
    ensures Balances(Slopes(rows, w)[row], Diagonal(rows, row), w[row], Residual(rows, w, row))
  {
    if rows == [] {
      SlopeBase(rows, w, row);
    } else {
      var s, rest := rows[|rows| - 1], rows[..|rows| - 1];
      SlopeIs(rest, w, row);
      SlopeNext(rows, rest, s, w, row);
    }
  }

  lemma ClampSlope(t: real, upper: real, z: real)
    requires 0.0 <= z <= upper
    ensures (Clamp(t, upper) - t) * (z - Clamp(t, upper)) >= 0.0
  {
    var p := Clamp(t, upper);
    assert (p >= t && z >= p) || (p <= t && z <= p) || p == t;
    ProductSign(p - t, z - p);
  }

  /** A coordinate at the nearest box point of the quadratic's minimum does not go downhill. */
  lemma ClampedRests(slope: real, n: real, r: real, t: real, p: real, upper: real, z: real)
    requires n > 0.0 && r == n * t && slope == n * p - r && p == Clamp(t, upper) && 0.0 <= z <= upper
    ensures slope * (z - p) >= 0.0
  {
    ClampSlope(t, upper, z);
    ProductSign(n, (p - t) * (z - p));
    Regroup(slope, n, r, t, p, z - p);
  }

  lemma Regroup(slope: real, n: real, r: real, t: real, p: real, d: real)
    requires r == n * t && slope == n * p - r
    ensures slope * d == n * ((p - t) * d)
  {
    assert slope == n * (p - t);
    assert slope * d == (n * (p - t)) * d;
  }

  lemma RestsAt(slope: real, n: real, r: real, p: real, upper: real, z: real)
    requires n > 0.0 && Balances(slope, n, p, r) && p == Clamp(r / n, upper) && 0.0 <= z <= upper
    ensures Uphill(slope, z - p)
  {
    var t := r / n;
    Quotient(n, r, t);
    ClampedRests(slope, n, r, t, p, upper, z);
  }

  lemma PositiveSquare(a: real, q: real)
    requires q == a * a && a != 0.0
    ensures q > 0.0
  {
    if a > 0.0 { ProductAbove(a, a, q); } else { NegatedProduct(a, q); }
  }

  lemma ProductAbove(a: real, b: real, q: real)
    requires q == a * b && a > 0.0 && b > 0.0
    ensures q > 0.0
  {
  }

  lemma NegatedProduct(a: real, q: real)
    requires q == a * a && a < 0.0
    ensures q > 0.0
  {
    var b := -a;
    assert q == b * b;
    ProductAbove(b, b, q);
  }

  lemma ZeroSum(g: real, x: real, q: real)
    requires g >= 0.0 && q == x * x && g + q == 0.0
    ensures g == 0.0 && x == 0.0
  {
    if x != 0.0 { PositiveSquare(x, q); }
  }

  lemma DiagonalIsNonNegative(rows: seq<Row>, row: nat)
    requires row < FEATURES
    ensures Diagonal(rows, row) >= 0.0
  {
    GramDiagonal(rows, row);
  }

  lemma UnusedFeature(rest: seq<Row>, s: Row, row: nat)
    requires row < FEATURES && Diagonal(rest + [s], row) == 0.0
    ensures Diagonal(rest, row) == 0.0 && s.x[row] == 0.0
  {
    DiagonalIsNonNegative(rest, row);
    DiagonalSnoc(rest, s, row);
    ZeroSum(Diagonal(rest, row), s.x[row], s.x[row] * s.x[row]);
  }

  lemma AddsNothing(after: real, before: real, e: real, x: real)
    requires Adds(after, before, e, x) && x == 0.0
    ensures after == before
  {
  }

  /** Where the descent skips a coordinate the objective does not depend on it. */
  lemma {:induction false} FlatWhereUnused(rows: seq<Row>, w: Weights, row: nat)
    requires row < FEATURES && Diagonal(rows, row) == 0.0
    ensures Slopes(rows, w)[row] == 0.0
  {
    if rows != [] {
      var s, rest := rows[|rows| - 1], rows[..|rows| - 1];
      assert rows == rest + [s];
      UnusedFeature(rest, s, row);
      FlatWhereUnused(rest, w, row);
      SlopeSnoc(rest, s, w, row);
      AddsNothing(Slopes(rows, w)[row], Slopes(rest, w)[row], Dot(w, s.x, FEATURES) - s.y, s.x[row]);
    }
  }

  lemma StepValue(rows: seq<Row>, w: Weights, row: nat)
    requires row < FEATURES && Step(rows, w, row) == w && Diagonal(rows, row) != 0.0
    ensures w[row] == Clamp(Residual(rows, w, row) / Diagonal(rows, row), UpperBound(row))
  {
    assert Step(rows, w, row)[row] == Clamp(Residual(rows, w, row) / Diagonal(rows, row), UpperBound(row));
  }

  /** At a coordinate that its update leaves alone, no move inside the box goes downhill. */
  lemma RestingCoordinate(rows: seq<Row>, w: Weights, row: nat, z: real)
    requires row < FEATURES && Step(rows, w, row) == w && 0.0 <= z <= UpperBound(row)
    ensures Uphill(Slopes(rows, w)[row], z - w[row])
  {
    if Diagonal(rows, row) == 0.0 {
      FlatWhereUnused(rows, w, row);
      FlatRests(Slopes(rows, w)[row], z - w[row]);
    } else {
      DiagonalIsNonNegative(rows, row);
      StepValue(rows, w, row);
      SlopeIs(rows, w, row);
      RestsAt(Slopes(rows, w)[row], Diagonal(rows, row), Residual(rows, w, row), w[row], UpperBound(row), z);
    }
  }

  lemma FlatRests(slope: real, d: real)
    requires slope == 0.0
    ensures Uphill(slope, d)
  {
  }

  /** The first-order change of half the objective along d, row by row. */
  function FirstOrder(rows: seq<Row>, w: Weights, d: Vector): real {
    if rows == [] then RIDGE * (w[1] * d[1] + w[2] * d[2] + w[3] * d[3] + w[4] * d[4])
    else
      var s := rows[|rows| - 1];
      FirstOrder(rows[..|rows| - 1], w, d) + (Dot(w, s.x, FEATURES) - s.y) * Dot(d, s.x, FEATURES)
  }

  lemma FirstOrderSnoc(rest: seq<Row>, s: Row, w: Weights, d: Vector, e: real)
    requires e == Dot(w, s.x, FEATURES) - s.y
    ensures Adds(FirstOrder(rest + [s], w, d), FirstOrder(rest, w, d), e, Dot(d, s.x, FEATURES))
  {
    assert (rest + [s])[..|rest + [s]| - 1] == rest;
  }

  /** Coordinate by coordinate it is the product with the slopes. */
  lemma {:induction false} FirstOrderIs(rows: seq<Row>, w: Weights, d: Vector)
    ensures FirstOrder(rows, w, d) == Dot(d, Slopes(rows, w), FEATURES)
  {
    if rows == [] {
      FirstOrderBase(w, d, Slopes([], w));
    } else {
      var s, rest := rows[|rows| - 1], rows[..|rows| - 1];
      FirstOrderIs(rest, w, d);
      FirstOrderNext(rest, s, w, d);
      assert rows == rest + [s];
    }
  }

  lemma FirstOrderNext(rest: seq<Row>, s: Row, w: Weights, d: Vector)
    requires FirstOrder(rest, w, d) == Dot(d, Slopes(rest, w), FEATURES)
    ensures FirstOrder(rest + [s], w, d) == Dot(d, Slopes(rest + [s], w), FEATURES)
  {
    var e, g := Dot(w, s.x, FEATURES) - s.y, Slopes(rest, w);
    FirstOrderSnoc(rest, s, w, d, e);
    assert Slopes(rest + [s], w) == AddScaled(g, e, s.x) by { SlopesSnoc(rest, s, w); }
    DotAdds(d, g, e, s.x);
    SameSum(FirstOrder(rest + [s], w, d), Dot(d, Slopes(rest + [s], w), FEATURES), Dot(d, g, FEATURES), e,
            Dot(d, s.x, FEATURES));
  }

  lemma SameSum(a: real, b: real, before: real, e: real, x: real)
    requires Adds(a, before, e, x) && Adds(b, before, e, x)
    ensures a == b
  {
  }

  lemma FirstOrderBase(w: Weights, d: Vector, g: Vector)
    requires g == Slopes([], w)
    ensures FirstOrder([], w, d) == Dot(d, g, FEATURES)
  {
    assert Dot(d, g, 1) == 0.0;
    assert Dot(d, g, 2) == w[1] * d[1];
    assert Dot(d, g, 3) == w[1] * d[1] + w[2] * d[2];
    assert Dot(d, g, 4) == w[1] * d[1] + w[2] * d[2] + w[3] * d[3];
  }

  lemma {:induction false} DotSum(w: Weights, d: Vector, v: Weights, x: Vector, k: nat)
    requires k <= FEATURES && forall i :: 0 <= i < FEATURES ==> v[i] == w[i] + d[i]
    ensures Dot(v, x, k) == Dot(w, x, k) + Dot(d, x, k)
  {
    if k > 0 {
      DotSum(w, d, v, x, k - 1);
      assert x[k - 1] * v[k - 1] == x[k - 1] * w[k - 1] + x[k - 1] * d[k - 1] by {
        assert v[k - 1] == w[k - 1] + d[k - 1];
      }
    }
  }

  lemma SquareAbove(p: real, q: real)
    ensures Square(p + q) >= Square(p) + 2.0 * (p * q)
  {
    ProductSign(q, q);
    assert Square(p + q) == Square(p) + 2.0 * (p * q) + q * q;
  }

  lemma AddUp(a1: real, a2: real, a3: real, a4: real, b1: real, b2: real, b3: real, b4: real,
              c1: real, c2: real, c3: real, c4: real)
    requires a1 >= b1 + 2.0 * c1 && a2 >= b2 + 2.0 * c2 && a3 >= b3 + 2.0 * c3 && a4 >= b4 + 2.0 * c4
    ensures RIDGE * (a1 + a2 + a3 + a4) >= RIDGE * (b1 + b2 + b3 + b4) + 2.0 * (RIDGE * (c1 + c2 + c3 + c4))
  {
  }

  lemma PenaltyAbove(w: Weights, d: Vector, v: Weights)
    requires forall i :: 0 <= i < FEATURES ==> v[i] == w[i] + d[i]
    ensures Penalty(v) >= Penalty(w) + 2.0 * FirstOrder([], w, d)
  {
    MovedSquare(w[1], d[1], v[1]);
    MovedSquare(w[2], d[2], v[2]);
    MovedSquare(w[3], d[3], v[3]);
    MovedSquare(w[4], d[4], v[4]);
    AddUp(Square(v[1]), Square(v[2]), Square(v[3]), Square(v[4]),
          Square(w[1]), Square(w[2]), Square(w[3]), Square(w[4]),
          w[1] * d[1], w[2] * d[2], w[3] * d[3], w[4] * d[4]);
  }

  lemma MovedSquare(p: real, q: real, m: real)
    requires m == p + q
    ensures Square(m) >= Square(p) + 2.0 * (p * q)
  {
    SquareAbove(p, q);
  }

  /** a lies above the tangent value b with half the slope term c. */
  predicate Above(a: real, b: real, c: real) { a >= b + 2.0 * c }

  predicate AboveBy(a: real, b: real, e: real, x: real) { Above(a, b, e * x) }

  predicate Sums(after: real, before: real, part: real) { after == before + part }

  lemma ErrorAbove(s: Row, w: Weights, d: Vector, v: Weights, after: real, e: real)
    requires forall i :: 0 <= i < FEATURES ==> v[i] == w[i] + d[i]
    requires after == Dot(v, s.x, FEATURES) - s.y && e == Dot(w, s.x, FEATURES) - s.y
    ensures AboveBy(Square(after), Square(e), e, Dot(d, s.x, FEATURES))
  {
    assert Sums(Dot(v, s.x, FEATURES), Dot(w, s.x, FEATURES), Dot(d, s.x, FEATURES)) by {
      DotSum(w, d, v, s.x, FEATURES);
    }
    MovedError(Dot(v, s.x, FEATURES), Dot(w, s.x, FEATURES), Dot(d, s.x, FEATURES), s.y, after, e);
  }

  lemma MovedError(after: real, before: real, moved: real, y: real, p: real, e: real)
    requires Sums(after, before, moved) && p == after - y && e == before - y
    ensures AboveBy(Square(p), Square(e), e, moved)
  {
    MovedSquare(e, moved, p);
  }

  lemma LossSnoc(rest: seq<Row>, s: Row, w: Weights, e: real)
    requires e == Dot(w, s.x, FEATURES) - s.y
    ensures Sums(Loss(rest + [s], w), Loss(rest, w), Square(e))
  {
    assert (rest + [s])[..|rest + [s]| - 1] == rest;
  }

  lemma AddAbove(a: real, b: real, c: real, p: real, q: real, e: real, x: real, a': real, b': real, c': real)
    requires Above(a, b, c) && AboveBy(p, q, e, x) && Sums(a', a, p) && Sums(b', b, q) && Adds(c', c, e, x)
    ensures Above(a', b', c')
  {
  }

  lemma LossAboveNext(rest: seq<Row>, s: Row, w: Weights, d: Vector, v: Weights)
    requires forall i :: 0 <= i < FEATURES ==> v[i] == w[i] + d[i]
    requires Above(Loss(rest, v), Loss(rest, w), FirstOrder(rest, w, d))
    ensures Above(Loss(rest + [s], v), Loss(rest + [s], w), FirstOrder(rest + [s], w, d))
  {
    var after, e := Dot(v, s.x, FEATURES) - s.y, Dot(w, s.x, FEATURES) - s.y;
    LossSnoc(rest, s, v, after);
    LossSnoc(rest, s, w, e);
    FirstOrderSnoc(rest, s, w, d, e);
    ErrorAbove(s, w, d, v, after, e);
    AddAbove(Loss(rest, v), Loss(rest, w), FirstOrder(rest, w, d),
             Square(after), Square(e), e, Dot(d, s.x, FEATURES),
             Loss(rest + [s], v), Loss(rest + [s], w), FirstOrder(rest + [s], w, d));
  }

  /** The objective is convex: it lies above each of its tangents. */
  lemma {:induction false} LossAbove(rows: seq<Row>, w: Weights, d: Vector, v: Weights)
    requires forall i :: 0 <= i < FEATURES ==> v[i] == w[i] + d[i]
    ensures Above(Loss(rows, v), Loss(rows, w), FirstOrder(rows, w, d))
  {
    if rows == [] {
      PenaltyAbove(w, d, v);
    } else {
      var s, rest := rows[|rows| - 1], rows[..|rows| - 1];
      LossAbove(rest, w, d, v);
      LossAboveNext(rest, s, w, d, v);
      assert rows == rest + [s];
    }
  }

  lemma {:induction false} SweepLeavesLater(rows: seq<Row>, w: Weights, row: nat, k: nat)
    requires row <= FEATURES && k < FEATURES && k >= row
    ensures Sweep(rows, w, row)[k] == w[k]
  {
    if row > 0 { SweepLeavesLater(rows, w, row - 1, k); }
  }

  lemma {:induction false} SweepKeepsEarlier(rows: seq<Row>, w: Weights, row: nat, more: nat, k: nat)
    requires k < row <= more <= FEATURES
    ensures Sweep(rows, w, more)[k] == Sweep(rows, w, row)[k]
  {
    if row < more { SweepKeepsEarlier(rows, w, row, more - 1, k); }
  }

  /** A whole sweep that changes nothing has changed nothing on the way. */
  lemma {:induction false} RestingSweep(rows: seq<Row>, w: Weights, row: nat)
    requires row <= FEATURES && Sweep(rows, w, FEATURES) == w
    ensures Sweep(rows, w, row) == w
  {
    var v := Sweep(rows, w, row);
    forall k | 0 <= k < FEATURES ensures v[k] == w[k] {
      if k < row { SweepKeepsEarlier(rows, w, row, FEATURES, k); } else { SweepLeavesLater(rows, w, row, k); }
    }
  }

  lemma RestingStep(rows: seq<Row>, w: Weights, row: nat)
    requires row < FEATURES && Sweep(rows, w, FEATURES) == w
    ensures Step(rows, w, row) == w
  {
    RestingSweep(rows, w, row);
    RestingSweep(rows, w, row + 1);
  }

  lemma {:induction false} UphillSum(d: Vector, g: Vector, k: nat)
    requires k <= FEATURES && forall i :: 0 <= i < FEATURES ==> Uphill(g[i], d[i])
    ensures Dot(d, g, k) >= 0.0
  {
    if k > 0 {
      UphillSum(d, g, k - 1);
      assert Uphill(g[k - 1], d[k - 1]);
    }
  }

  lemma NoDescentLeft(rows: seq<Row>, w: Weights, d: Vector, v: Weights, row: nat)
    requires row < FEATURES && InBox(v) && Sweep(rows, w, FEATURES) == w && d[row] == v[row] - w[row]
    ensures Uphill(Slopes(rows, w)[row], d[row])
  {
    RestingStep(rows, w, row);
    RestingCoordinate(rows, w, row, v[row]);
  }

  /** For any sample list, coefficients that a whole pass leaves unchanged have the smallest ridge loss of
      all coefficients in the box. */
  lemma FixedPointIsOptimal(rows: seq<Row>, w: Weights, v: Weights)
    requires Sweep(rows, w, FEATURES) == w && InBox(v)
    ensures Loss(rows, w) <= Loss(rows, v)
  {
    var d: Vector := seq(FEATURES, i requires 0 <= i < FEATURES => v[i] - w[i]);
    var g := Slopes(rows, w);
    forall i | 0 <= i < FEATURES ensures Uphill(g[i], d[i]) { NoDescentLeft(rows, w, d, v, i); }
    UphillSum(d, g, FEATURES);
    FirstOrderIs(rows, w, d);
    LossAbove(rows, w, d, v);
  }

  /** A descent whose next pass would change nothing has reached the best coefficients in the box. */
  lemma DescentAtRestIsOptimal(rows: seq<Row>, passes: nat, v: Weights)
    requires Descended(rows, passes + 1) == Descended(rows, passes) && InBox(v)
    ensures Loss(rows, Descended(rows, passes)) <= Loss(rows, v)
  {
    FixedPointIsOptimal(rows, Descended(rows, passes), v);
  }

  // ---------------------------------------------------------------- strict progress

  /** Q(z) - Q(p) = n ((z - p)^2 + 2 (p - t)(z - p)) for the quadratic with its minimum at t. */
  lemma QuadraticGap(n: real, r: real, t: real, z: real, p: real, near: real, slope: real)
    requires r == n * t && near == (z - p) * (z - p) && slope == (p - t) * (z - p)
    ensures Quadratic(n, r, z) - Quadratic(n, r, p) == n * (near + 2.0 * slope)
  {
    Factor(n, r, t, z, p);
    assert (z - p) * (z + p - 2.0 * t) == near + 2.0 * slope by {
      assert z + p - 2.0 * t == (z - p) + 2.0 * (p - t);
      assert (z - p) * ((z - p) + 2.0 * (p - t)) == (z - p) * (z - p) + 2.0 * ((z - p) * (p - t));
    }
  }

  lemma PositiveTimes(n: real, a: real)
    requires n > 0.0 && a > 0.0
    ensures n * a > 0.0
  {
  }

  lemma ClampIsStrict(n: real, r: real, t: real, upper: real, z: real)
    requires n > 0.0 && r == n * t && 0.0 <= z <= upper && z != Clamp(t, upper)
    ensures Quadratic(n, r, Clamp(t, upper)) < Quadratic(n, r, z)
  {
    var p := Clamp(t, upper);
    var near, slope := (z - p) * (z - p), (p - t) * (z - p);
    ClampSlope(t, upper, z);
    PositiveSquare(z - p, near);
    PositiveTimes(n, near + 2.0 * slope);
    QuadraticGap(n, r, t, z, p, near, slope);
  }

  /** A coordinate update that changes anything lowers the objective strictly. */
  lemma StepIsStrict(rows: seq<Row>, w: Weights, row: nat)
    requires row < FEATURES && InBox(w) && Step(rows, w, row) != w
    ensures Loss(rows, Step(rows, w, row)) < Loss(rows, w)
  {
    var n, r := Diagonal(rows, row), Residual(rows, w, row);
    DiagonalIsNonNegative(rows, row);
    var t := r / n;
    Quotient(n, r, t);
    var p := Clamp(t, UpperBound(row));
    assert Step(rows, w, row) == w[row := p];
    assert w[row := w[row]] == w;
    assert w[row] != p;
    ClampIsStrict(n, r, t, UpperBound(row), w[row]);
    LossAlongCoordinate(rows, w, row, p);
    LossAlongCoordinate(rows, w, row, w[row]);
  }

  lemma {:induction false} SweepIsStrict(rows: seq<Row>, w: Weights, row: nat)
    requires row <= FEATURES && InBox(w)
    ensures Sweep(rows, w, row) == w || Loss(rows, Sweep(rows, w, row)) < Loss(rows, w)
  {
    if row > 0 {
      SweepIsStrict(rows, w, row - 1);
      SweepNeverRaisesLoss(rows, w, row - 1);
      var v := Sweep(rows, w, row - 1);
      StepNeverRaisesLoss(rows, v, row - 1);
      if Step(rows, v, row - 1) != v { StepIsStrict(rows, v, row - 1); }
    }
  }

  /** Any positive number of passes does strictly better than zero coefficients, unless these are already
      the best in the box. */
  lemma DescentImproves(rows: seq<Row>, passes: nat)
    requires passes > 0
    ensures || Loss(rows, Descended(rows, passes)) < Loss(rows, ZERO)
            || forall v :: InBox(v) ==> Loss(rows, ZERO) <= Loss(rows, v)
  {
    var first := Sweep(rows, ZERO, FEATURES);
    assert Descended(rows, 1) == first;
    SweepIsStrict(rows, ZERO, FEATURES);
    if first == ZERO {
      forall v | InBox(v) ensures Loss(rows, ZERO) <= Loss(rows, v) { FixedPointIsOptimal(rows, ZERO, v); }
    } else {
      DescentNeverRaisesLoss(rows, 1, passes);
    }
  }

  // ---------------------------------------------------------------- the objective over samples

  /** Milliseconds predicted for a request, minus those observed. */
  function Miss(s: Sample, w: Weights): real {
    w[0] + w[1] * s.features.uncached as real + w[2] * s.features.queue as real + w[3] * s.features.running as real
    + w[4] * s.features.inflight as real - s.ttft as real / 1000000.0
  }

  /** A positive TTFT under a valid load, all counts non-negative. */
  predicate Counts(s: Sample) {
    var f := s.features;
    s.ttft > 0 && f.loadValid && f.uncached >= 0 && f.queue >= 0 && f.running >= 0 && f.inflight >= 0
  }

  function CountOf(samples: seq<Sample>): nat {
    if samples == [] then 0
    else CountOf(samples[..|samples| - 1]) + if Counts(samples[|samples| - 1]) then 1 else 0
  }

  /** The ridge least-squares objective of the samples themselves. */
  function Objective(samples: seq<Sample>, w: Weights): real {
    if samples == [] then w[1] * w[1] + w[2] * w[2] + w[3] * w[3] + w[4] * w[4]
    else
      var s := samples[|samples| - 1];
      Objective(samples[..|samples| - 1], w) + if Counts(s) then Miss(s, w) * Miss(s, w) else 0.0
  }

  lemma DotOfFeatures(s: Sample, w: Weights, x: Vector)
    requires x == FeatureVector(s.features)
    ensures Dot(w, x, FEATURES) - RowOf(s).y == Miss(s, w)
  {
    assert Dot(w, x, 1) == w[0];
    assert Dot(w, x, 2) == w[0] + w[1] * s.features.uncached as real;
    assert Dot(w, x, 3) == Dot(w, x, 2) + w[2] * s.features.queue as real;
    assert Dot(w, x, 4) == Dot(w, x, 3) + w[3] * s.features.running as real;
    assert Dot(w, x, 5) == Dot(w, x, 4) + w[4] * s.features.inflight as real;
  }

  lemma SquareOfMiss(s: Sample, w: Weights)
    ensures Square(Dot(w, RowOf(s).x, FEATURES) - RowOf(s).y) == Miss(s, w) * Miss(s, w)
  {
    DotOfFeatures(s, w, RowOf(s).x);
  }

  /** The loss over the accumulated rows is the objective of the samples, and all usable ones are there. */
  lemma {:induction false} LossIsObjective(samples: seq<Sample>, w: Weights)
    ensures Loss(Rows(samples), w) == Objective(samples, w) && |Rows(samples)| == CountOf(samples)
  {
    if samples != [] {
      var s, rest := samples[|samples| - 1], samples[..|samples| - 1];
      LossIsObjective(rest, w);
      if Usable(s) {
        LossSnoc(Rows(rest), RowOf(s), w, Dot(w, RowOf(s).x, FEATURES) - RowOf(s).y);
        SquareOfMiss(s, w);
      } else {
        assert Rows(samples) == Rows(rest);
      }
    }
  }

  // ---------------------------------------------------------------- fit

  /** The arrays hold the sums over the rows, with the ridge added to the first `ridged` diagonals. */
  ghost predicate Holds(rows: seq<Row>, normal: array2<real>, target: array<real>, ridged: nat)
    reads normal, target
  {
    && normal.Length0 == FEATURES && normal.Length1 == FEATURES && target.Length == FEATURES
    && (forall r :: 0 <= r < FEATURES ==> target[r] == Target(rows, r))
    && (forall r, c :: 0 <= r < FEATURES && 0 <= c < FEATURES ==>
          normal[r, c] == Gram(rows, r)[c] + if r < ridged then Ridge(r, c) else 0.0)
  }

  /** Adds x[row] * x to row `row`, which holds g. */
  method AddColumns(ghost g: Vector, x: Vector, normal: array2<real>, row: nat)
    requires row < FEATURES && normal.Length0 == FEATURES && normal.Length1 == FEATURES
    requires forall c :: 0 <= c < FEATURES ==> normal[row, c] == g[c]
    modifies normal
    ensures forall c :: 0 <= c < FEATURES ==> normal[row, c] == AddScaled(g, x[row], x)[c]
    ensures forall r, c :: 0 <= r < FEATURES && r != row && 0 <= c < FEATURES ==> normal[r, c] == old(normal[r, c])
  {
    for column := 0 to FEATURES
      invariant forall c :: 0 <= c < column ==> normal[row, c] == AddScaled(g, x[row], x)[c]
      invariant forall c :: column <= c < FEATURES ==> normal[row, c] == g[c]
      invariant forall r, c :: 0 <= r < FEATURES && r != row && 0 <= c < FEATURES ==> normal[r, c] == old(normal[r, c])
    {
      normal[row, column] := normal[row, column] + x[row] * x[column];
    }
  }

  method AddRow(ghost before: seq<Row>, ghost after: seq<Row>, s: Row, normal: array2<real>, target: array<real>)
    requires Holds(before, normal, target, 0) && after == before + [s]
    modifies normal, target
    ensures Holds(after, normal, target, 0)
  {
    for row := 0 to FEATURES
      invariant forall r :: 0 <= r < row ==> target[r] == Target(after, r)
      invariant forall r :: row <= r < FEATURES ==> target[r] == Target(before, r)
      invariant forall r, c :: 0 <= r < row && 0 <= c < FEATURES ==> normal[r, c] == Gram(after, r)[c]
      invariant forall r, c :: row <= r < FEATURES && 0 <= c < FEATURES ==> normal[r, c] == Gram(before, r)[c]
    {
      TargetSnoc(before, s, row);
      GramSnoc(before, s, row);
      target[row] := target[row] + s.x[row] * s.y;
      AddColumns(Gram(before, row), s.x, normal, row);
    }
  }

  method Accumulate(samples: seq<Sample>) returns (normal: array2<real>, target: array<real>, count: nat)
    ensures Holds(Rows(samples), normal, target, 0) && count == |Rows(samples)|
    ensures fresh(normal) && fresh(target)
  {
    normal, target := new real[FEATURES, FEATURES]((i, j) => 0.0), new real[FEATURES](i => 0.0);
    count := 0;
    for i := 0 to |samples|
      invariant Holds(Rows(samples[..i]), normal, target, 0) && count == |Rows(samples[..i])|
    {
      assert samples[..i + 1][..i] == samples[..i] && samples[..i + 1][i] == samples[i];
      assert Rows(samples[..i + 1])
          == if Usable(samples[i]) then Rows(samples[..i]) + [RowOf(samples[i])] else Rows(samples[..i]);
      if Usable(samples[i]) {
        count := count + 1;
        AddRow(Rows(samples[..i]), Rows(samples[..i + 1]), RowOf(samples[i]), normal, target);
      }
    }
    assert samples[..|samples|] == samples;
  }

  lemma DotSkips(w: Weights, g: Vector, row: nat, column: nat)
    requires row < FEATURES && column < FEATURES
    ensures Dot(w[row := 0.0], g, column + 1)
         == Dot(w[row := 0.0], g, column) + if column == row then 0.0 else g[column] * w[column]
  {
  }

  /** Moves the other coordinates across. */
  method CoordinateResidual(ghost g: Vector, normal: array2<real>, start: real, w: Weights, row: nat)
    returns (residual: real)
    requires row < FEATURES && normal.Length0 == FEATURES && normal.Length1 == FEATURES
    requires forall c :: 0 <= c < FEATURES && c != row ==> normal[row, c] == g[c]
    ensures residual == start - Dot(w[row := 0.0], g, FEATURES)
  {
    residual := start;
    for column := 0 to FEATURES
      invariant residual == start - Dot(w[row := 0.0], g, column)
    {
      DotSkips(w, g, row, column);
      if column != row {
        residual := residual - normal[row, column] * w[column];
      }
    }
  }

  /** One row of one pass over the coefficients. */
  method Descend(ghost rows: seq<Row>, normal: array2<real>, target: array<real>, w: Weights, row: nat)
    returns (v: Weights)
    requires row < FEATURES && Holds(rows, normal, target, FEATURES)
    ensures v == Step(rows, w, row)
  {
    if normal[row, row] == 0.0 {
      return w;
    }
    var residual := CoordinateResidual(Gram(rows, row), normal, target[row], w, row);
    assert residual == Residual(rows, w, row);
    v := w[row := Clamp(residual / normal[row, row], UpperBound(row))];
  }

  /** One pass over all coefficients. */
  method OnePass(ghost rows: seq<Row>, normal: array2<real>, target: array<real>, w: Weights) returns (v: Weights)
    requires Holds(rows, normal, target, FEATURES)
    ensures v == Sweep(rows, w, FEATURES)
  {
    v := w;
    for row := 0 to FEATURES
      invariant v == Sweep(rows, w, row)
    {
      v := Descend(rows, normal, target, v, row);
    }
  }

  method AddRidge(ghost rows: seq<Row>, normal: array2<real>, target: array<real>)
    requires Holds(rows, normal, target, 0)
    modifies normal
    ensures Holds(rows, normal, target, FEATURES)
  {
    for index := 1 to FEATURES
      invariant Holds(rows, normal, target, index)
    {
      normal[index, index] := normal[index, index] + RIDGE;
    }
  }

  lemma FitMeans(samples: seq<Sample>, w: Weights)
    requires w == Descended(Rows(samples), 64)
    ensures InBox(w)
    ensures forall k :: 0 <= k <= 64 ==> Objective(samples, w) <= Objective(samples, Descended(Rows(samples), k))
    ensures Objective(samples, w) < Objective(samples, ZERO)
            || forall v :: InBox(v) ==> Objective(samples, ZERO) <= Objective(samples, v)
  {
    var rows := Rows(samples);
    forall k | 0 <= k <= 64 ensures InBox(w) && Objective(samples, w) <= Objective(samples, Descended(rows, k)) {
      DescentNeverRaisesLoss(rows, k, 64);
      LossIsObjective(samples, w);
      LossIsObjective(samples, Descended(rows, k));
    }
    assert InBox(w) by { DescentNeverRaisesLoss(rows, 0, 64); }
    forall v ensures Loss(rows, v) == Objective(samples, v) { LossIsObjective(samples, v); }
    DescentImproves(rows, 64);
  }

  /** Refused exactly below the minimum of usable samples. Otherwise every coefficient is in its box, no
      earlier pass had a smaller objective, and it is strictly smaller than with zero coefficients unless
      these are the best in the box. */
  method Fit(samples: seq<Sample>, minimum: nat) returns (ok: bool, w: Weights)
    ensures ok <==> CountOf(samples) >= minimum
    ensures !ok ==> w == [0.0, 0.0, 0.0, 0.0, 0.0]
    ensures 0.0 <= w[0] <= 10000.0 && 0.0 <= w[1] <= 10.0
    ensures 0.0 <= w[2] <= 10000.0 && 0.0 <= w[3] <= 10000.0 && 0.0 <= w[4] <= 10000.0
    ensures ok ==> w == Descended(Rows(samples), 64)
    ensures ok ==> forall k :: 0 <= k <= 64 ==> Objective(samples, w) <= Objective(samples, Descended(Rows(samples), k))
    ensures ok ==> Objective(samples, w) < Objective(samples, ZERO)
                   || forall v :: InBox(v) ==> Objective(samples, ZERO) <= Objective(samples, v)
  {
    LossIsObjective(samples, ZERO);
    w := ZERO;
    var normal, target, count := Accumulate(samples);
    if count < minimum {
      return false, w;
    }
    ghost var rows := Rows(samples);
    AddRidge(rows, normal, target);
    for pass := 0 to PASSES
      invariant Holds(rows, normal, target, FEATURES) && w == Descended(rows, pass)
    {
      w := OnePass(rows, normal, target, w);
    }
    FitMeans(samples, w);
    ok := true;
  }
}
