/** The two separately written interpolated percentiles. */
module Percentile {
  import opened Support
  import opened Sorting

  /** int(x): truncation toward zero. */
  function Truncate(x: real): int {
    if x >= 0.0 then x.Floor else -(-x).Floor
  }

  /** s[i]: a negative index counts from the end, and an index out of range is an error. */
  function At(s: seq<real>, i: int): Option<real> {
    if 0 <= i < |s| then Some(s[i])
    else if -|s| <= i < 0 then Some(s[|s| + i])
    else None
  }

  /** Interpolation between neighbours, as metrics.percentile writes it. */
  function Mix(a: real, b: real, w: real): real {
    a * (1.0 - w) + b * w
  }

  /** Interpolation between neighbours, as runners._percentile writes it. */
  function MixFromLower(a: real, b: real, w: real): real {
    a + (b - a) * w
  }

  /** The two neighbours of a position and the distance from the lower one; None is an index error. */
  function Neighbours(o: seq<real>, idx: real): Option<(real, real, real)> {
    var lower := Truncate(idx);
    var upper := if lower + 1 < |o| - 1 then lower + 1 else |o| - 1;
    match (At(o, lower), At(o, upper))
    case (Some(a), Some(b)) => Some((a, b, idx - lower as real))
    case _ => None
  }

  function InterpolateAt(o: seq<real>, idx: real): Option<real> {
    match Neighbours(o, idx)
    case Some((a, b, weight)) => Some(Mix(a, b, weight))
    case None => None
  }

  function InterpolateFromLowerAt(o: seq<real>, position: real): Option<real> {
    match Neighbours(o, position)
    case Some((a, b, fraction)) => Some(MixFromLower(a, b, fraction))
    case None => None
  }

  /** How far p reaches into n gaps between ordered values. */
  function Position(n: nat, p: real): real {
    n as real * p
  }

  /** metrics.percentile after sorting. */
  function InterpolatedSorted(o: seq<real>, p: real): Option<real> {
    if o == [] then Some(0.0)
    else if |o| == 1 then Some(o[0])
    else InterpolateAt(o, Position(|o| - 1, p))
  }

  /** metrics.percentile; None stands for the index error of a p far outside [0, 1]. */
  function Interpolated(values: seq<real>, p: real): Option<real> {
    InterpolatedSorted(Sorted(values), p)
  }

  /** runners._percentile after sorting. */
  function FromPercentSorted(o: seq<real>, percent: int): Option<real> {
    if o == [] then Some(0.0)
    else InterpolateFromLowerAt(o, ((|o| - 1) * percent) as real / 100.0)
  }

  /** runners._percentile, which takes whole percents. */
  function FromPercent(values: seq<real>, percent: int): Option<real> {
    FromPercentSorted(Sorted(values), percent)
  }

  lemma SameMix(a: real, b: real, w: real)
    ensures MixFromLower(a, b, w) == Mix(a, b, w)
  {
  }

  lemma MixBetween(a: real, b: real, w: real)
    requires a <= b && 0.0 <= w <= 1.0
    ensures a <= Mix(a, b, w) <= b
  {
    hide *;
    SameMix(a, b, w);
    FromLowerBetween(a, b, w);
  }

  lemma FromLowerBetween(a: real, b: real, w: real)
    requires a <= b && 0.0 <= w <= 1.0
    ensures a <= MixFromLower(a, b, w) <= b
  {
    var step := b - a;
    StepBetween(step, w);
    var part := step * w;
    assert MixFromLower(a, b, w) == a + part;
  }

  /** A part of a step lies between nothing and the whole of it. */
  lemma StepBetween(step: real, w: real)
    requires step >= 0.0 && 0.0 <= w <= 1.0
    ensures 0.0 <= step * w <= step
  {
    ProductMonotone(0.0, step, w);
    ProductMonotone(w, 1.0, step);
    assert w * step == step * w && 1.0 * step == step && 0.0 * w == 0.0;
  }

  lemma MixMonotone(a: real, b: real, v: real, w: real)
    requires a <= b && v <= w
    ensures Mix(a, b, v) <= Mix(a, b, w)
  {
    SameMix(a, b, v);
    SameMix(a, b, w);
    ProductMonotone(v, w, b - a);
  }

  lemma ScalePercent(n: nat, percent: int)
    ensures (n * percent) as real / 100.0 == Position(n, percent as real / 100.0)
  {
    assert (n * percent) as real == n as real * percent as real;
  }

  lemma SortedFormsAgree(o: seq<real>, percent: int)
    ensures FromPercentSorted(o, percent) == InterpolatedSorted(o, percent as real / 100.0)
  {
    hide InterpolateAt, InterpolateFromLowerAt, Position;
    if |o| > 1 {
      ScalePercent(|o| - 1, percent);
      SameReading(o, Position(|o| - 1, percent as real / 100.0));
    } else if |o| == 1 {
      SingleReading(o);
    }
  }

  lemma SameReading(o: seq<real>, x: real)
    ensures InterpolateFromLowerAt(o, x) == InterpolateAt(o, x)
  {
    match Neighbours(o, x)
    case Some((a, b, w)) => SameMix(a, b, w);
    case None =>
  }

  lemma SingleReading(o: seq<real>)
    requires |o| == 1
    ensures InterpolateFromLowerAt(o, 0.0) == Some(o[0])
  {
  }

  /** The two agree on every sample and every whole percent, error cases included. */
  lemma PercentilesAgree(values: seq<real>, percent: int)
    ensures FromPercent(values, percent) == Interpolated(values, percent as real / 100.0)
  {
    SortedFormsAgree(Sorted(values), percent);
  }

  /** What reading a position inside an ascending list finds. */
  lemma NeighboursInside(o: seq<real>, idx: real)
    requires Ascending(o) && 0.0 <= idx <= (|o| - 1) as real
    ensures 0 <= idx.Floor < |o| && Neighbours(o, idx).Some?
    ensures var (a, b, w) := Neighbours(o, idx).value;
      && a == o[idx.Floor] && a <= b && 0.0 <= w <= 1.0 && w == idx - idx.Floor as real
      && b == o[if idx.Floor + 1 < |o| then idx.Floor + 1 else idx.Floor]
  {
  }

  function Read(o: seq<real>, idx: real): real
    requires Neighbours(o, idx).Some?
  {
    var (a, b, w) := Neighbours(o, idx).value;
    Mix(a, b, w)
  }

  lemma ReadWithinCell(o: seq<real>, idx: real)
    requires Ascending(o) && 0.0 <= idx <= (|o| - 1) as real
    ensures 0 <= idx.Floor < |o| && Neighbours(o, idx).Some?
    ensures o[0] <= o[idx.Floor] <= Read(o, idx) <= o[|o| - 1]
    ensures idx.Floor + 1 < |o| ==> Read(o, idx) <= o[idx.Floor + 1]
  {
    NeighboursInside(o, idx);
    var (a, b, w) := Neighbours(o, idx).value;
    MixBetween(a, b, w);
  }

  lemma ReadMonotone(o: seq<real>, x: real, y: real)
    requires Ascending(o) && 0.0 <= x <= y <= (|o| - 1) as real
    ensures Neighbours(o, x).Some? && Neighbours(o, y).Some? && Read(o, x) <= Read(o, y)
  {
    ReadWithinCell(o, x);
    ReadWithinCell(o, y);
    if x.Floor == y.Floor {
      NeighboursInside(o, x);
      NeighboursInside(o, y);
      var (a, b, v) := Neighbours(o, x).value;
      MixMonotone(a, b, v, Neighbours(o, y).value.2);
    } else {
      assert o[x.Floor + 1] <= o[y.Floor];
    }
  }

  lemma PositionsOrdered(n: nat, p: real, q: real)
    requires 0.0 <= p <= q <= 1.0
    ensures 0.0 <= Position(n, p) <= Position(n, q) <= n as real
  {
    ProductMonotone(p, q, n as real);
    ProductMonotone(q, 1.0, n as real);
  }

  lemma ReadingsOrdered(o: seq<real>, x: real, y: real)
    requires Ascending(o) && 0.0 <= x <= y <= (|o| - 1) as real
    ensures InterpolateAt(o, x).Some? && InterpolateAt(o, y).Some?
    ensures o[0] <= InterpolateAt(o, x).value <= InterpolateAt(o, y).value <= o[|o| - 1]
  {
    ReadWithinCell(o, x);
    ReadWithinCell(o, y);
    ReadMonotone(o, x, y);
    assert InterpolateAt(o, x) == Some(Read(o, x));
    assert InterpolateAt(o, y) == Some(Read(o, y));
  }

  lemma SortedFormBounds(o: seq<real>, p: real, q: real)
    requires o != [] && Ascending(o) && 0.0 <= p <= q <= 1.0
    ensures InterpolatedSorted(o, p).Some? && InterpolatedSorted(o, q).Some?
    ensures o[0] <= InterpolatedSorted(o, p).value <= InterpolatedSorted(o, q).value <= o[|o| - 1]
  {
    hide InterpolateAt, Position;
    if |o| > 1 {
      PositionsOrdered(|o| - 1, p, q);
      ReadingsOrdered(o, Position(|o| - 1, p), Position(|o| - 1, q));
    }
  }

  /** A percentile of a non-empty sample exists and lies between its least and greatest value. */
  lemma PercentileBetweenExtremes(values: seq<real>, p: real)
    requires values != [] && 0.0 <= p <= 1.0
    ensures Interpolated(values, p).Some?
    ensures exists low, high :: (low in values && high in values &&
      (forall v :: v in values ==> low <= v <= high) && low <= Interpolated(values, p).value <= high)
  {
    hide InterpolatedSorted;
    SortedExtremes(values);
    var o := Sorted(values);
    SortedFormBounds(o, p, p);
    assert o[0] in values && o[|o| - 1] in values;
  }

  /** A larger p never gives a smaller percentile, within and across interpolation cells. */
  lemma PercentileMonotone(values: seq<real>, p: real, q: real)
    requires values != [] && 0.0 <= p <= q <= 1.0
    ensures Interpolated(values, p).Some? && Interpolated(values, q).Some?
    ensures Interpolated(values, p).value <= Interpolated(values, q).value
  {
    SortedFormBounds(Sorted(values), p, q);
  }

  /** A p outside [0, 1] is an index error exactly if its position is past the end of the sample, or more than its whole
      length before the start; less than one place before the start the first line is drawn on. */
  lemma PercentileOutside(values: seq<real>, p: real, x: real)
    requires |values| > 1 && (|values| - 1) as real * p == x
    ensures |Sorted(values)| == |values|
    ensures Interpolated(values, p).None? <==> x >= |values| as real || x <= -(|values| + 1) as real
    ensures -1.0 < x < 0.0 ==> Interpolated(values, p) == Some(Line(Sorted(values)[0], Sorted(values)[1], x))
  {
    hide *;
    AtPosition(values, p, x);
    ReadingOutside(Sorted(values), x);
  }

  lemma ReadingOutside(o: seq<real>, x: real)
    requires |o| > 1
    ensures InterpolateAt(o, x).None? <==> x >= |o| as real || x <= -(|o| + 1) as real
    ensures -1.0 < x < 0.0 ==> InterpolateAt(o, x) == Some(Line(o[0], o[1], x))
  {
    if -1.0 < x < 0.0 {
      assert Neighbours(o, x) == Some((o[0], o[1], x));
      SameMix(o[0], o[1], x);
    }
    hide Mix;
  }

  /** Between two neighbours of the sorted sample the percentile moves on a straight line, from the one to the other;
      at a whole position it is that element. */
  lemma PercentileIsLinear(values: seq<real>, p: real, i: nat, w: real)
    requires i + 1 < |values| && 0.0 <= w <= 1.0 && (|values| - 1) as real * p == i as real + w
    ensures |Sorted(values)| == |values|
    ensures Interpolated(values, p) == Some(Line(Sorted(values)[i], Sorted(values)[i + 1], w))
  {
    hide *;
    AtPosition(values, p, i as real + w);
    LineBetween(Sorted(values), i, w);
  }

  /** The point of a line that starts at a and reaches b at 1. */
  function Line(a: real, b: real, w: real): real {
    a + (b - a) * w
  }

  lemma AtPosition(values: seq<real>, p: real, x: real)
    requires |values| > 1 && (|values| - 1) as real * p == x
    ensures |Sorted(values)| == |values| && Interpolated(values, p) == InterpolateAt(Sorted(values), x)
  {
    assert Position(|values| - 1, p) == x;
    hide InterpolateAt, Sorted, Position;
  }

  lemma LineBetween(o: seq<real>, i: nat, w: real)
    requires i + 1 < |o| && 0.0 <= w <= 1.0
    ensures InterpolateAt(o, i as real + w) == Some(Line(o[i], o[i + 1], w))
  {
    var x := i as real + w;
    if w < 1.0 {
      assert x.Floor == i;
      assert Neighbours(o, x) == Some((o[i], o[i + 1], w));
      SameMix(o[i], o[i + 1], w);
    } else {
      var next := if i + 2 < |o| then i + 2 else i + 1;
      assert x.Floor == i + 1;
      assert Neighbours(o, x) == Some((o[i + 1], o[next], 0.0));
      SameMix(o[i + 1], o[next], 0.0);
    }
    hide Neighbours, Truncate;
  }

  /** A single value is every percentile of itself, and those of nothing are zero. */
  lemma SmallSamples(values: seq<real>, p: real)
    ensures |values| == 1 ==> Interpolated(values, p) == Some(values[0])
    ensures values == [] ==> Interpolated(values, p) == Some(0.0)
  {
    if |values| == 1 {
      SameMembers(Sorted(values), values, Sorted(values)[0]);
      assert Sorted(values)[0] == values[0];
    }
    hide Sorted;
  }

  /** The order in which the sample was collected does not matter. */
  lemma PercentileIgnoresOrder(a: seq<real>, b: seq<real>, p: real)
    requires multiset(a) == multiset(b)
    ensures Interpolated(a, p) == Interpolated(b, p)
  {
    SortedIgnoresOrder(a, b);
  }
}
