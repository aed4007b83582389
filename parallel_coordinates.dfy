/** The data side of the parallel-coordinates plot (`CoordinateStates` in
    `Labs/5-Visualization/tasks.cpp`): per-axis ranges over the cars,
    normalisation of a car into [0, 1] per axis, the placement of a value on
    its axis, and the choice of the polyline nearest to the mouse. */
module ParallelCoordinates {
  import opened Common

  const AxisCount: int := 7

  /** Ranges narrower than this count as degenerate. */
  const DegenerateRange: real := 0.0001

  /** Segments shorter than this (squared length) count as a point. */
  const PointSegment: real := 0.00000001

  /** The hover threshold 0.018; distances are compared squared. */
  const HoverThreshold: real := 0.018

  datatype Car = Car(mileage: real, cylinders: int, displacement: real, horsepower: real,
                     weight: real, acceleration: real, year: int)

  datatype Vec2 = Vec2(x: real, y: real)

  /** `ReadAttribute(car, axis)`: axes 0-6 are fixed fields; any other axis reads 0. */
  function ReadAttribute(car: Car, axis: int): (v: real)
    ensures !(0 <= axis < AxisCount) ==> v == 0.0
  {
    match axis
    case 0 => car.mileage
    case 1 => car.cylinders as real
    case 2 => car.displacement
    case 3 => car.horsepower
    case 4 => car.weight
    case 5 => car.acceleration
    case 6 => car.year as real
    case _ => 0.0
  }

  /** A float value that is neither infinite nor NaN; reals stand for floats,
      so only magnitude can make one non-finite. */
  predicate IsFinite(v: real)
  {
    -FltMax <= v <= FltMax
  }

  /** The running minimum of the loop over cars: starts at `FLT_MAX`. */
  function ColumnMin(cars: seq<Car>, axis: int): (m: real)
    ensures m <= FltMax
    ensures forall i :: 0 <= i < |cars| ==> m <= ReadAttribute(cars[i], axis)
  {
    if |cars| == 0 then FltMax
    else MinReal(ColumnMin(cars[..|cars| - 1], axis), ReadAttribute(cars[|cars| - 1], axis))
  }

  /** The running maximum of the loop over cars: starts at `lowest()`. */
  function ColumnMax(cars: seq<Car>, axis: int): (m: real)
    ensures m >= -FltMax
    ensures forall i :: 0 <= i < |cars| ==> ReadAttribute(cars[i], axis) <= m
  {
    if |cars| == 0 then -FltMax
    else MaxReal(ColumnMax(cars[..|cars| - 1], axis), ReadAttribute(cars[|cars| - 1], axis))
  }

  /** The minimum over a non-empty column is one of its values. */
  lemma {:induction false} ColumnMinAttained(cars: seq<Car>, axis: int)
    requires |cars| > 0 && forall i :: 0 <= i < |cars| ==> ReadAttribute(cars[i], axis) <= FltMax
    ensures exists i :: 0 <= i < |cars| && ColumnMin(cars, axis) == ReadAttribute(cars[i], axis)
  {
    var n := |cars|;
    if n > 1 {
      var front := cars[..n - 1];
      ColumnMinAttained(front, axis);
      var i :| 0 <= i < |front| && ColumnMin(front, axis) == ReadAttribute(front[i], axis);
      assert front[i] == cars[i];
    } else {
      assert ColumnMin(cars, axis) == ReadAttribute(cars[0], axis);
    }
  }

  /** The maximum over a non-empty column is one of its values. */
  lemma {:induction false} ColumnMaxAttained(cars: seq<Car>, axis: int)
    requires |cars| > 0 && forall i :: 0 <= i < |cars| ==> ReadAttribute(cars[i], axis) >= -FltMax
    ensures exists i :: 0 <= i < |cars| && ColumnMax(cars, axis) == ReadAttribute(cars[i], axis)
  {
    var n := |cars|;
    if n > 1 {
      var front := cars[..n - 1];
      ColumnMaxAttained(front, axis);
      var i :| 0 <= i < |front| && ColumnMax(front, axis) == ReadAttribute(front[i], axis);
      assert front[i] == cars[i];
    } else {
      assert ColumnMax(cars, axis) == ReadAttribute(cars[0], axis);
    }
  }

  /** The range an axis ends with: (min, max) after the finiteness check and
      the widening of a degenerate axis. */
  function AxisRange(cars: seq<Car>, axis: int): (r: (real, real))
    ensures |cars| == 0 ==> r == (0.0, 1.0)
    ensures r.1 - r.0 >= DegenerateRange
  {
    if |cars| == 0 then (0.0, 1.0)
    else
      var lo, hi := ColumnMin(cars, axis), ColumnMax(cars, axis);
      if !IsFinite(lo) || !IsFinite(hi) then (0.0, 1.0)
      else if AbsReal(hi - lo) < DegenerateRange then (lo, lo + 1.0)
      else (lo, hi)
  }

  /** Every axis of every car lies in its range; an empty data set gives
      [0, 1]; a degenerate axis is widened to [min, min + 1]; and the range
      is never narrower than the threshold below which it would count as
      degenerate. */
  lemma RangesContainData(cars: seq<Car>, axis: int)
    requires forall i :: 0 <= i < |cars| ==> IsFinite(ReadAttribute(cars[i], axis))
    ensures |cars| == 0 ==> AxisRange(cars, axis) == (0.0, 1.0)
    ensures forall i :: 0 <= i < |cars| ==>
      AxisRange(cars, axis).0 <= ReadAttribute(cars[i], axis) <= AxisRange(cars, axis).1
    ensures |cars| > 0 && AbsReal(ColumnMax(cars, axis) - ColumnMin(cars, axis)) < DegenerateRange ==>
      AxisRange(cars, axis).1 == AxisRange(cars, axis).0 + 1.0
    ensures AxisRange(cars, axis).1 - AxisRange(cars, axis).0 >= DegenerateRange
  {
    if |cars| > 0 {
      ColumnMinAttained(cars, axis);
      ColumnMaxAttained(cars, axis);
    }
  }

  /** `NormalizeCar` for one axis: a narrow range puts the value at the middle. */
  function Normalized(lo: real, hi: real, v: real): (r: real)
    ensures 0.0 <= r <= 1.0
  {
    var range := hi - lo;
    var factor := if range < DegenerateRange then 0.5 else (v - lo) / range;
    Clamp(factor, 0.0, 1.0)
  }

  /** Normalisation keeps the order of values, sends the ends of the range
      to 0 and 1, and inside the range is the exact proportion. */
  lemma NormalizedIsMonotone(lo: real, hi: real, v: real, w: real)
    requires hi - lo >= DegenerateRange && v <= w
    ensures Normalized(lo, hi, v) <= Normalized(lo, hi, w)
    ensures Normalized(lo, hi, lo) == 0.0 && Normalized(lo, hi, hi) == 1.0
    ensures lo <= v <= hi ==> Normalized(lo, hi, v) * (hi - lo) == v - lo
  {
    var range := hi - lo;
    assert (v - lo) / range <= (w - lo) / range by {
      MulLe(v - lo, w - lo, 1.0 / range);
    }
    if lo <= v <= hi {
      RatioInUnit(v - lo, range);
    }
  }

  /** `AxisPoint`: axis index across, value up the axis (1 at the top). */
  function AxisPoint(axisIndex: int, normalizedValue: real, origin: Vec2, axisSpacing: real, axisHeight: real): (p: Vec2)
    ensures p.x - origin.x == axisSpacing * axisIndex as real
    ensures normalizedValue == 1.0 ==> p.y == origin.y
    ensures normalizedValue == 0.0 ==> p.y == origin.y + axisHeight
  {
    Vec2(origin.x + axisSpacing * axisIndex as real, origin.y + (1.0 - normalizedValue) * axisHeight)
  }

  /** A normalised value lands on its axis, between the top and the bottom,
      and a larger value lands higher (a smaller y). */
  lemma AxisPointOnAxis(axisIndex: int, v: real, w: real, origin: Vec2, axisSpacing: real, axisHeight: real)
    requires 0.0 <= v <= w <= 1.0 && axisHeight >= 0.0
    ensures origin.y <= AxisPoint(axisIndex, w, origin, axisSpacing, axisHeight).y
                     <= AxisPoint(axisIndex, v, origin, axisSpacing, axisHeight).y
                     <= origin.y + axisHeight
  {
    MulLe(0.0, 1.0 - w, axisHeight);
    MulLe(1.0 - w, 1.0 - v, axisHeight);
    MulLe(1.0 - v, 1.0, axisHeight);
  }

  function Sub(a: Vec2, b: Vec2): Vec2 { Vec2(a.x - b.x, a.y - b.y) }
  function Add(a: Vec2, b: Vec2): Vec2 { Vec2(a.x + b.x, a.y + b.y) }
  function Scale(t: real, a: Vec2): Vec2 { Vec2(t * a.x, t * a.y) }
  function Dot(a: Vec2, b: Vec2): real { a.x * b.x + a.y * b.y }

  /** The squared length of a vector. */
  function Norm2(a: Vec2): (r: real)
    ensures r >= 0.0
  {
    SquareNonneg(a.x);
    SquareNonneg(a.y);
    a.x * a.x + a.y * a.y
  }

  lemma SquareNonneg(x: real)
    ensures x * x >= 0.0
  {
    if x < 0.0 {
      MulNonneg(-x, -x);
    } else {
      MulNonneg(x, x);
    }
  }

  /** The projection parameter of `SegmentDistance`, clamped to the segment. */
  function Projection(p: Vec2, a: Vec2, b: Vec2): (t: real)
    requires Norm2(Sub(b, a)) >= PointSegment
    ensures 0.0 <= t <= 1.0
  {
    Clamp(Dot(Sub(p, a), Sub(b, a)) / Norm2(Sub(b, a)), 0.0, 1.0)
  }

  /** `SegmentDistance(p, a, b)`, squared (the model compares squared
      distances; the square root is monotone). */
  function SegmentDistance2(p: Vec2, a: Vec2, b: Vec2): (d: real)
    ensures d >= 0.0
  {
    var ab := Sub(b, a);
    if Norm2(ab) < PointSegment then Norm2(Sub(p, a))
    else Norm2(Sub(p, Add(a, Scale(Projection(p, a, b), ab))))
  }

  /** A zero-length segment measures the distance to its start. */
  lemma PointSegmentDistance(p: Vec2, a: Vec2)
    ensures SegmentDistance2(p, a, a) == Norm2(Sub(p, a))
  {
    assert Norm2(Sub(a, a)) == 0.0;
  }

  /** |pa - s*ab|^2 expanded as a quadratic in s. */
  lemma Expand(pa: Vec2, ab: Vec2, s: real)
    ensures Norm2(Sub(pa, Scale(s, ab))) == Norm2(pa) + (s * s * Norm2(ab) - 2.0 * s * Dot(pa, ab))
  {
    SquareOfDifference(pa.x, ab.x, s);
    SquareOfDifference(pa.y, ab.y, s);
  }

  lemma SquareOfDifference(p: real, q: real, s: real)
    ensures (p - s * q) * (p - s * q) == p * p - 2.0 * s * (p * q) + s * s * (q * q)
  {
  }

  /** The clamped stationary point minimises the quadratic on [0, 1]. */
  lemma QuadraticMinimum(dot: real, len2: real, s: real, t: real)
    requires len2 > 0.0 && 0.0 <= s <= 1.0 && t == Clamp(dot / len2, 0.0, 1.0)
    ensures t * t * len2 - 2.0 * t * dot <= s * s * len2 - 2.0 * s * dot
  {
    var diff := (s * s * len2 - 2.0 * s * dot) - (t * t * len2 - 2.0 * t * dot);
    assert diff == (s - t) * ((s + t) * len2 - 2.0 * dot);
    if dot / len2 < 0.0 {
      LtQuotient(dot, len2, 0.0);
      assert t == 0.0;
      MulNonneg(s, s * len2 - 2.0 * dot);
    } else if dot / len2 > 1.0 {
      GtQuotient(dot, len2, 1.0);
      assert t == 1.0;
      MulNonneg(1.0 - s, 2.0 * dot - (s + 1.0) * len2);
    } else {
      DivMulCancel(dot, len2);
      assert dot == t * len2;
      assert diff == (s - t) * (s - t) * len2;
      MulNonneg((s - t) * (s - t), len2);
    }
  }

  /** `SegmentDistance` is the distance to the nearest point of the segment:
      no point a + s*(b - a) with s in [0, 1] is closer. */
  lemma SegmentDistanceIsMinimal(p: Vec2, a: Vec2, b: Vec2, s: real)
    requires 0.0 <= s <= 1.0
    ensures Norm2(Sub(b, a)) >= PointSegment ==>
      SegmentDistance2(p, a, b) <= Norm2(Sub(p, Add(a, Scale(s, Sub(b, a)))))
  {
    var ab := Sub(b, a);
    if Norm2(ab) >= PointSegment {
      var pa := Sub(p, a);
      var t := Projection(p, a, b);
      assert SegmentDistance2(p, a, b) == Norm2(Sub(p, Add(a, Scale(t, ab))));
      assert Sub(p, Add(a, Scale(t, ab))) == Sub(pa, Scale(t, ab));
      assert Sub(p, Add(a, Scale(s, ab))) == Sub(pa, Scale(s, ab));
      CloserAtProjection(pa, ab, s, t);
    }
  }

  /** Along the line pa - s*ab, the clamped projection t is at least as
      close to the origin as any s in [0, 1]. */
  lemma CloserAtProjection(pa: Vec2, ab: Vec2, s: real, t: real)
    requires Norm2(ab) > 0.0 && 0.0 <= s <= 1.0 && t == Clamp(Dot(pa, ab) / Norm2(ab), 0.0, 1.0)
    ensures Norm2(Sub(pa, Scale(t, ab))) <= Norm2(Sub(pa, Scale(s, ab)))
  {
    var dot, len2 := Dot(pa, ab), Norm2(ab);
    Expand(pa, ab, t);
    Expand(pa, ab, s);
    QuadraticMinimum(dot, len2, s, t);
    ShiftedLe(Norm2(pa), t * t * len2 - 2.0 * t * dot, s * s * len2 - 2.0 * s * dot);
  }

  lemma ShiftedLe(base: real, x: real, y: real)
    requires x <= y
    ensures base + x <= base + y
  {
  }

  /** One row of normalised values: one per axis. */
  predicate IsRow(row: seq<real>)
  {
    |row| == AxisCount
  }

  /** The squared distance from the mouse to segment k of a row's polyline. */
  function SegmentOf(row: seq<real>, k: int, mouse: Vec2, origin: Vec2, axisSpacing: real, axisHeight: real): real
    requires IsRow(row) && 0 <= k < AxisCount - 1
  {
    SegmentDistance2(mouse,
      AxisPoint(k, row[k], origin, axisSpacing, axisHeight),
      AxisPoint(k + 1, row[k + 1], origin, axisSpacing, axisHeight))
  }

  /** The squared distance from the mouse to a row's whole polyline. */
  function RowDistance(row: seq<real>, mouse: Vec2, origin: Vec2, axisSpacing: real, axisHeight: real): (d: real)
    requires IsRow(row)
    ensures forall j :: 0 <= j < AxisCount - 1 ==> d <= SegmentOf(row, j, mouse, origin, axisSpacing, axisHeight)
  {
    MinSegment(row, AxisCount - 1, mouse, origin, axisSpacing, axisHeight)
  }

  /** The least of the first k segments (the first one when k is 1). */
  function MinSegment(row: seq<real>, k: int, mouse: Vec2, origin: Vec2, axisSpacing: real, axisHeight: real): (d: real)
    requires IsRow(row) && 1 <= k <= AxisCount - 1
    ensures forall j :: 0 <= j < k ==> d <= SegmentOf(row, j, mouse, origin, axisSpacing, axisHeight)
    ensures exists j :: 0 <= j < k && d == SegmentOf(row, j, mouse, origin, axisSpacing, axisHeight)
  {
    var last := SegmentOf(row, k - 1, mouse, origin, axisSpacing, axisHeight);
    if k == 1 then last
    else MinReal(MinSegment(row, k - 1, mouse, origin, axisSpacing, axisHeight), last)
  }

  /** One more segment: the running minimum takes it in. */
  lemma MinSegmentNext(row: seq<real>, k: int, mouse: Vec2, origin: Vec2, axisSpacing: real, axisHeight: real)
    requires IsRow(row) && 0 <= k < AxisCount - 1
    ensures var seg := SegmentOf(row, k, mouse, origin, axisSpacing, axisHeight);
      MinSegment(row, k + 1, mouse, origin, axisSpacing, axisHeight)
      == if k == 0 then seg else MinReal(MinSegment(row, k, mouse, origin, axisSpacing, axisHeight), seg)
  {
  }

  /** Appending a car extends the running minimum and maximum by one step. */
  lemma ColumnStep(cars: seq<Car>, k: int, axis: int)
    requires 0 <= k < |cars|
    ensures ColumnMin(cars[..k + 1], axis) == MinReal(ColumnMin(cars[..k], axis), ReadAttribute(cars[k], axis))
    ensures ColumnMax(cars[..k + 1], axis) == MaxReal(ColumnMax(cars[..k], axis), ReadAttribute(cars[k], axis))
  {
    assert cars[..k + 1][..k] == cars[..k];
  }

  /** The squared distance from the mouse to row r of the plot. */
  function RowDistanceAt(rows: seq<seq<real>>, r: int, mouse: Vec2, origin: Vec2, axisSpacing: real, axisHeight: real): real
    requires 0 <= r < |rows| && IsRow(rows[r])
  {
    RowDistance(rows[r], mouse, origin, axisSpacing, axisHeight)
  }

  class CoordinateStates {
    var minValues: array<real>
    var maxValues: array<real>
    var highlightedIndex: int

    ghost predicate Valid()
      reads this
    {
      minValues.Length == AxisCount && maxValues.Length == AxisCount && minValues != maxValues
    }

    /** Every axis holds the running minimum and maximum over the given cars. */
    ghost predicate HoldsColumns(cars: seq<Car>)
      requires Valid()
      reads this, minValues, maxValues
    {
      forall b :: 0 <= b < AxisCount ==>
        minValues[b] == ColumnMin(cars, b) && maxValues[b] == ColumnMax(cars, b)
    }

    /** A fresh state: every axis spans [0, 1] and nothing is highlighted. */
    constructor()
      ensures Valid() && fresh(minValues) && fresh(maxValues)
      ensures forall a :: 0 <= a < AxisCount ==> minValues[a] == 0.0 && maxValues[a] == 1.0
      ensures highlightedIndex == -1
    {
      minValues := new real[AxisCount](_ => 0.0);
      maxValues := new real[AxisCount](_ => 1.0);
      highlightedIndex := -1;
    }

    /** `UpdateRanges(data)`: the range of every axis over the data set. */
    method UpdateRanges(data: seq<Car>)
      requires Valid()
      modifies minValues, maxValues
      ensures Valid()
      ensures forall a :: 0 <= a < AxisCount ==> (minValues[a], maxValues[a]) == AxisRange(data, a)
    {
      if |data| == 0 {
        for a := 0 to AxisCount
          invariant forall b :: 0 <= b < a ==> minValues[b] == 0.0 && maxValues[b] == 1.0
        {
          minValues[a] := 0.0;
          maxValues[a] := 1.0;
        }
        return;
      }
      for a := 0 to AxisCount
        invariant forall b :: 0 <= b < a ==> minValues[b] == FltMax && maxValues[b] == -FltMax
      {
        minValues[a] := FltMax;
        maxValues[a] := -FltMax;
      }
      assert HoldsColumns(data[..0]);
      for k := 0 to |data|
        invariant HoldsColumns(data[..k])
      {
        FoldCar(data, k);
      }
      assert data[..|data|] == data;
      FinishRanges(data);
    }

    /** One pass of the loop over cars: every axis takes in car k. */
    method FoldCar(data: seq<Car>, k: int)
      requires Valid() && 0 <= k < |data| && HoldsColumns(data[..k])
      modifies minValues, maxValues
      ensures HoldsColumns(data[..k + 1])
    {
      for a := 0 to AxisCount
        invariant forall b :: 0 <= b < a ==>
          minValues[b] == ColumnMin(data[..k + 1], b) && maxValues[b] == ColumnMax(data[..k + 1], b)
        invariant forall b :: a <= b < AxisCount ==>
          minValues[b] == ColumnMin(data[..k], b) && maxValues[b] == ColumnMax(data[..k], b)
      {
        ColumnStep(data, k, a);
        var value := ReadAttribute(data[k], a);
        minValues[a] := MinReal(minValues[a], value);
        maxValues[a] := MaxReal(maxValues[a], value);
      }
    }

    /** The final loop of `UpdateRanges`: reset non-finite axes, widen
        degenerate ones. */
    method FinishRanges(data: seq<Car>)
      requires Valid() && |data| > 0 && HoldsColumns(data)
      modifies minValues, maxValues
      ensures forall a :: 0 <= a < AxisCount ==> (minValues[a], maxValues[a]) == AxisRange(data, a)
    {
      for a := 0 to AxisCount
        invariant forall b :: 0 <= b < a ==> (minValues[b], maxValues[b]) == AxisRange(data, b)
        invariant forall b :: a <= b < AxisCount ==>
          minValues[b] == ColumnMin(data, b) && maxValues[b] == ColumnMax(data, b)
      {
        if !IsFinite(minValues[a]) || !IsFinite(maxValues[a]) {
          minValues[a] := 0.0;
          maxValues[a] := 1.0;
        } else if AbsReal(maxValues[a] - minValues[a]) < DegenerateRange {
          maxValues[a] := minValues[a] + 1.0;
        }
      }
    }

    /** `NormalizeCar(car)`: every axis of the car mapped into [0, 1]. */
    method NormalizeCar(car: Car) returns (normalized: seq<real>)
      requires Valid()
      ensures IsRow(normalized)
      ensures forall a :: 0 <= a < AxisCount ==>
        normalized[a] == Normalized(minValues[a], maxValues[a], ReadAttribute(car, a))
      ensures forall a :: 0 <= a < AxisCount ==> 0.0 <= normalized[a] <= 1.0
    {
      normalized := [];
      for a := 0 to AxisCount
        invariant |normalized| == a
        invariant forall b :: 0 <= b < a ==>
          normalized[b] == Normalized(minValues[b], maxValues[b], ReadAttribute(car, b))
      {
        var value := ReadAttribute(car, a);
        var range := maxValues[a] - minValues[a];
        var factor := if range < DegenerateRange then 0.5 else (value - minValues[a]) / range;
        normalized := normalized + [Clamp(factor, 0.0, 1.0)];
      }
    }

    /** The inner loop of `UpdateHighlight` over one row's segments: the row
        becomes the best one exactly when its polyline is strictly nearer
        than the best so far. */
    static method ScanRow(row: seq<real>, rowIndex: int, mouse: Vec2, origin: Vec2, axisSpacing: real, axisHeight: real,
                          bestIndex0: int, bestDistance0: real)
      returns (bestIndex: int, bestDistance: real)
      requires IsRow(row)
      ensures RowDistance(row, mouse, origin, axisSpacing, axisHeight) < bestDistance0 ==>
        bestIndex == rowIndex && bestDistance == RowDistance(row, mouse, origin, axisSpacing, axisHeight)
      ensures RowDistance(row, mouse, origin, axisSpacing, axisHeight) >= bestDistance0 ==>
        bestIndex == bestIndex0 && bestDistance == bestDistance0
    {
      bestIndex, bestDistance := bestIndex0, bestDistance0;
      for axis := 0 to AxisCount - 1
        invariant axis == 0 ==> bestIndex == bestIndex0 && bestDistance == bestDistance0
        invariant axis > 0 && MinSegment(row, axis, mouse, origin, axisSpacing, axisHeight) < bestDistance0 ==>
          bestIndex == rowIndex && bestDistance == MinSegment(row, axis, mouse, origin, axisSpacing, axisHeight)
        invariant axis > 0 && MinSegment(row, axis, mouse, origin, axisSpacing, axisHeight) >= bestDistance0 ==>
          bestIndex == bestIndex0 && bestDistance == bestDistance0
      {
        var p0 := AxisPoint(axis, row[axis], origin, axisSpacing, axisHeight);
        var p1 := AxisPoint(axis + 1, row[axis + 1], origin, axisSpacing, axisHeight);
        var distance := SegmentDistance2(mouse, p0, p1);
        assert distance == SegmentOf(row, axis, mouse, origin, axisSpacing, axisHeight);
        MinSegmentNext(row, axis, mouse, origin, axisSpacing, axisHeight);
        if distance < bestDistance {
          bestDistance := distance;
          bestIndex := rowIndex;
        }
      }
    }

    /** The search loop of `UpdateHighlight`: the first row whose polyline
        comes strictly nearest to the mouse, with its squared distance
        (starting from `FLT_MAX`, so -1 if no segment is nearer than that). */
    static method NearestRow(mouse: Vec2, origin: Vec2, axisSpacing: real, axisHeight: real, normalized: seq<seq<real>>)
      returns (bestIndex: int, bestDistance: real)
      requires forall r :: 0 <= r < |normalized| ==> IsRow(normalized[r])
      ensures -1 <= bestIndex < |normalized|
      ensures bestIndex == -1 ==> bestDistance == FltMax * FltMax
      ensures bestIndex >= 0 ==> bestDistance == RowDistanceAt(normalized, bestIndex, mouse, origin, axisSpacing, axisHeight)
      ensures forall r :: 0 <= r < |normalized| ==>
        bestDistance <= RowDistanceAt(normalized, r, mouse, origin, axisSpacing, axisHeight)
      ensures forall r :: 0 <= r < bestIndex ==>
        RowDistanceAt(normalized, r, mouse, origin, axisSpacing, axisHeight) > bestDistance
    {
      bestDistance := FltMax * FltMax;
      bestIndex := -1;
      for row := 0 to |normalized|
        invariant -1 <= bestIndex < row || (bestIndex == -1 && row == 0)
        invariant bestIndex == -1 ==> bestDistance == FltMax * FltMax
        invariant bestIndex >= 0 ==> bestDistance == RowDistanceAt(normalized, bestIndex, mouse, origin, axisSpacing, axisHeight)
        invariant forall r :: 0 <= r < row ==>
          bestDistance <= RowDistanceAt(normalized, r, mouse, origin, axisSpacing, axisHeight)
        invariant forall r :: 0 <= r < bestIndex ==>
          RowDistanceAt(normalized, r, mouse, origin, axisSpacing, axisHeight) > bestDistance
      {
        ghost var d := RowDistanceAt(normalized, row, mouse, origin, axisSpacing, axisHeight);
        ghost var before := bestDistance;
        bestIndex, bestDistance := ScanRow(normalized[row], row, mouse, origin, axisSpacing, axisHeight, bestIndex, bestDistance);
        assert bestDistance <= before && bestDistance <= d;
      }
    }

    /** `UpdateHighlight`: the first nearest row when it is within the hover
        threshold, -1 otherwise (and -1 when not hovering or without rows). */
    method UpdateHighlight(hovering: bool, mouse: Vec2, origin: Vec2, axisSpacing: real, axisHeight: real,
                           normalized: seq<seq<real>>)
      requires forall r :: 0 <= r < |normalized| ==> IsRow(normalized[r])
      modifies this`highlightedIndex
      ensures !hovering || |normalized| == 0 ==> highlightedIndex == -1
      ensures -1 <= highlightedIndex < |normalized|
      ensures highlightedIndex >= 0 ==> hovering
      ensures highlightedIndex >= 0 ==>
        RowDistanceAt(normalized, highlightedIndex, mouse, origin, axisSpacing, axisHeight) <= HoverThreshold * HoverThreshold
      ensures highlightedIndex >= 0 ==> forall r :: 0 <= r < |normalized| ==>
        RowDistanceAt(normalized, highlightedIndex, mouse, origin, axisSpacing, axisHeight)
          <= RowDistanceAt(normalized, r, mouse, origin, axisSpacing, axisHeight)
      ensures highlightedIndex >= 0 ==> forall r :: 0 <= r < highlightedIndex ==>
        RowDistanceAt(normalized, r, mouse, origin, axisSpacing, axisHeight)
          > RowDistanceAt(normalized, highlightedIndex, mouse, origin, axisSpacing, axisHeight)
      ensures hovering && highlightedIndex == -1 ==> forall r :: 0 <= r < |normalized| ==>
        RowDistanceAt(normalized, r, mouse, origin, axisSpacing, axisHeight) > HoverThreshold * HoverThreshold
    {
      highlightedIndex := -1;
      if !hovering || |normalized| == 0 {
        return;
      }
      var bestIndex, bestDistance := NearestRow(mouse, origin, axisSpacing, axisHeight, normalized);
      if bestDistance <= HoverThreshold * HoverThreshold {
        highlightedIndex := bestIndex;
      }
    }
  }
}
