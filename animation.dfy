/**
 * The track ribbon of `create_plot` (the reference line moved half the track
 * width to either side along its unit normal) and, from `create_animation`,
 * the view limits around it and the number of frames rendered.
 */
module Animation {
  import opened Wrappers
  import opened Extrema
  import F1Data

  /** Width of the drawn track, in the units of the telemetry positions. */
  const TrackWidth: real := 500.0

  // ---------------------------------------------------------------------------
  // Tangents: np.gradient
  // ---------------------------------------------------------------------------

  /**
   * `np.gradient` of a one-dimensional array with unit spacing: central
   * differences inside, one-sided differences at the two ends.
   */
  function Gradient(p: seq<real>): (g: seq<real>)
    requires |p| >= 2
    ensures |g| == |p|
  {
    seq(|p|, i requires 0 <= i < |p| =>
      if i == 0 then p[1] - p[0]
      else if i == |p| - 1 then p[i] - p[i - 1]
      else (p[i + 1] - p[i - 1]) / 2.0)
  }

  /** On evenly spaced points of a straight line the gradient is the line's slope everywhere. */
  lemma GradientOfLine(p: seq<real>, a: real, b: real)
    requires |p| >= 2
    requires forall i :: 0 <= i < |p| ==> p[i] == a + b * i as real
    ensures forall i :: 0 <= i < |p| ==> Gradient(p)[i] == b
  {
    forall i | 0 <= i < |p|
      ensures Gradient(p)[i] == b
    {
      if i == 0 {
        assert p[1] - p[0] == b;
      } else if i == |p| - 1 {
        assert p[i] - p[i - 1] == b * i as real - b * (i - 1) as real == b;
      } else {
        assert p[i + 1] - p[i - 1] == b * (i + 1) as real - b * (i - 1) as real == 2.0 * b;
      }
    }
  }

  /** Moving the whole path by a constant leaves its gradient unchanged. */
  lemma GradientOfShifted(p: seq<real>, c: real)
    requires |p| >= 2
    ensures Gradient(seq(|p|, i requires 0 <= i < |p| => p[i] + c)) == Gradient(p)
  {
  }

  // ---------------------------------------------------------------------------
  // Normals: divide by the magnitude, rotate a quarter turn
  // ---------------------------------------------------------------------------

  /**
   * `norm[i]` is the length of the tangent `(dx[i], dy[i])`, and none is zero.
   * It stands for `np.sqrt(dx**2 + dy**2)`: the caller supplies the root.
   */
  predicate IsMagnitude(norm: seq<real>, dx: seq<real>, dy: seq<real>)
  {
    && |norm| == |dx| == |dy|
    && forall i :: 0 <= i < |norm| ==> norm[i] > 0.0 && norm[i] * norm[i] == dx[i] * dx[i] + dy[i] * dy[i]
  }

  /** Element-wise `d / norm`. */
  function Divide(d: seq<real>, norm: seq<real>): (u: seq<real>)
    requires |d| == |norm| && forall i :: 0 <= i < |norm| ==> norm[i] != 0.0
    ensures |u| == |d|
    ensures forall i :: 0 <= i < |u| ==> u[i] * norm[i] == d[i]
  {
    seq(|d|, i requires 0 <= i < |d| => d[i] / norm[i])
  }

  /** A tangent divided by its length and turned a quarter turn is a unit vector perpendicular to it. */
  lemma QuarterTurnOfUnit(dx: real, dy: real, m: real)
    requires m > 0.0 && m * m == dx * dx + dy * dy
    ensures var (nx, ny) := (-(dy / m), dx / m);
      nx * nx + ny * ny == 1.0 && nx * dx + ny * dy == 0.0 && ny * dx - nx * dy == m
  {
    var a, b := dx / m, dy / m;
    var e := a * a + b * b - 1.0;
    assert a * m == dx && b * m == dy;
    assert (e * m) * m == dx * dx + dy * dy - m * m;
    ZeroFactor(e * m, m);
    ZeroFactor(e, m);
    assert -b * dx + a * dy == -b * (a * m) + a * (b * m);
    assert a * dx + b * dy == (a * m) * a + (b * m) * b == (a * a + b * b) * m;
  }

  /** A product with a non-zero factor is zero only when the other factor is. */
  lemma ZeroFactor(a: real, b: real)
    requires b != 0.0 && a * b == 0.0
    ensures a == 0.0
  {
    assert a == (a * b) / b;
  }

  /** The normals `(nx, ny) = (-dy, dx)` of the tangents `(dx, dy)` after dividing them by their lengths. */
  function Normals(dx: seq<real>, dy: seq<real>, norm: seq<real>): (n: (seq<real>, seq<real>))
    requires IsMagnitude(norm, dx, dy)
    ensures |n.0| == |n.1| == |dx|
    ensures forall i :: 0 <= i < |dx| ==> n.0[i] * n.0[i] + n.1[i] * n.1[i] == 1.0
    ensures forall i :: 0 <= i < |dx| ==> n.0[i] * dx[i] + n.1[i] * dy[i] == 0.0
    ensures forall i :: 0 <= i < |dx| ==> n.1[i] * dx[i] - n.0[i] * dy[i] == norm[i]
  {
    var ux := Divide(dx, norm);
    var uy := Divide(dy, norm);
    var nx := seq(|uy|, i requires 0 <= i < |uy| => -uy[i]);
    forall i | 0 <= i < |dx|
      ensures nx[i] * nx[i] + ux[i] * ux[i] == 1.0
      ensures nx[i] * dx[i] + ux[i] * dy[i] == 0.0
      ensures ux[i] * dx[i] - nx[i] * dy[i] == norm[i]
    {
      QuarterTurnOfUnit(dx[i], dy[i], norm[i]);
    }
    (nx, ux)
  }

  // ---------------------------------------------------------------------------
  // The ribbon: create_plot
  // ---------------------------------------------------------------------------

  /** What `create_plot` hands back besides the figure: the reference line, inner and outer edge. */
  datatype Plot = Plot(xRef: seq<real>, yRef: seq<real>, xInner: seq<real>, yInner: seq<real>, xOuter: seq<real>, yOuter: seq<real>)

  /** `np.gradient` refuses arrays of fewer than two points. */
  datatype PlotError = TooFewPoints

  /**
   * The ribbon around the path `(xRef, yRef)` for normals `(nx, ny)`: the outer and
   * inner edges are the path moved by half the width along the normal and against it.
   */
  function Ribbon(xRef: seq<real>, yRef: seq<real>, nx: seq<real>, ny: seq<real>, width: real): (p: Plot)
    requires |xRef| == |yRef| == |nx| == |ny|
    ensures p.xRef == xRef && p.yRef == yRef
    ensures |p.xInner| == |p.yInner| == |p.xOuter| == |p.yOuter| == |xRef|
    ensures forall i :: 0 <= i < |xRef| ==>
      (p.xOuter[i] + p.xInner[i]) / 2.0 == xRef[i] && (p.yOuter[i] + p.yInner[i]) / 2.0 == yRef[i]
    ensures forall i :: 0 <= i < |xRef| ==>
      p.xOuter[i] - p.xInner[i] == nx[i] * width && p.yOuter[i] - p.yInner[i] == ny[i] * width
  {
    var half := width / 2.0;
    var n := |xRef|;
    var p := Plot(
      xRef, yRef,
      seq(n, i requires 0 <= i < n => xRef[i] - nx[i] * half),
      seq(n, i requires 0 <= i < n => yRef[i] - ny[i] * half),
      seq(n, i requires 0 <= i < n => xRef[i] + nx[i] * half),
      seq(n, i requires 0 <= i < n => yRef[i] + ny[i] * half));
    assert forall i :: 0 <= i < n ==> nx[i] * width == nx[i] * half + nx[i] * half;
    assert forall i :: 0 <= i < n ==> ny[i] * width == ny[i] * half + ny[i] * half;
    p
  }

  /**
   * The part of `create_plot` after `np.gradient`: for tangents `(dx, dy)` of lengths
   * `norm`, the ribbon of the track width along the unit normals. Both edges keep the
   * reference line halfway between them, lie the track width apart and are joined
   * across the path, perpendicular to its tangent, with the outer edge on the left of
   * the direction of travel.
   */
  function Offsets(xRef: seq<real>, yRef: seq<real>, dx: seq<real>, dy: seq<real>, norm: seq<real>): (p: Plot)
    requires |xRef| == |yRef| == |dx| && IsMagnitude(norm, dx, dy)
    ensures p.xRef == xRef && p.yRef == yRef
    ensures |p.xInner| == |p.yInner| == |p.xOuter| == |p.yOuter| == |xRef|
    ensures forall i :: 0 <= i < |xRef| ==>
      (p.xOuter[i] + p.xInner[i]) / 2.0 == xRef[i] && (p.yOuter[i] + p.yInner[i]) / 2.0 == yRef[i]
    ensures forall i :: 0 <= i < |xRef| ==>
      (p.xOuter[i] - p.xInner[i]) * (p.xOuter[i] - p.xInner[i]) + (p.yOuter[i] - p.yInner[i]) * (p.yOuter[i] - p.yInner[i])
        == TrackWidth * TrackWidth
    ensures forall i :: 0 <= i < |xRef| ==>
      (p.xOuter[i] - p.xInner[i]) * dx[i] + (p.yOuter[i] - p.yInner[i]) * dy[i] == 0.0
    ensures forall i :: 0 <= i < |xRef| ==>
      (p.yOuter[i] - p.yInner[i]) * dx[i] - (p.xOuter[i] - p.xInner[i]) * dy[i] == TrackWidth * norm[i]
  {
    var n := Normals(dx, dy, norm);
    var p := Ribbon(xRef, yRef, n.0, n.1, TrackWidth);
    forall i | 0 <= i < |xRef|
      ensures (p.xOuter[i] - p.xInner[i]) * (p.xOuter[i] - p.xInner[i]) + (p.yOuter[i] - p.yInner[i]) * (p.yOuter[i] - p.yInner[i])
        == TrackWidth * TrackWidth
      ensures (p.xOuter[i] - p.xInner[i]) * dx[i] + (p.yOuter[i] - p.yInner[i]) * dy[i] == 0.0
      ensures (p.yOuter[i] - p.yInner[i]) * dx[i] - (p.xOuter[i] - p.xInner[i]) * dy[i] == TrackWidth * norm[i]
    {
      ScaledUnit(p.xOuter[i] - p.xInner[i], p.yOuter[i] - p.yInner[i], n.0[i], n.1[i], TrackWidth);
      ScaledPerpendicular(p.xOuter[i] - p.xInner[i], p.yOuter[i] - p.yInner[i], n.0[i], n.1[i], dx[i], dy[i], TrackWidth);
      ScaledLeftTurn(p.xOuter[i] - p.xInner[i], p.yOuter[i] - p.yInner[i], n.0[i], n.1[i], dx[i], dy[i], norm[i], TrackWidth);
    }
    p
  }

  /**
   * `create_plot` without its drawing: `np.gradient` of both coordinates, which needs two
   * points, and the ribbon along the resulting tangents.
   */
  function CreatePlot(xRef: seq<real>, yRef: seq<real>, norm: seq<real>): (r: Result<Plot, PlotError>)
    requires |xRef| == |yRef|
    requires |xRef| >= 2 ==> IsMagnitude(norm, Gradient(xRef), Gradient(yRef))
    ensures r.Failure? <==> |xRef| < 2
    ensures r.Success? ==> r.value == Offsets(xRef, yRef, Gradient(xRef), Gradient(yRef), norm)
  {
    if |xRef| < 2 then Failure(TooFewPoints)
    else Success(Offsets(xRef, yRef, Gradient(xRef), Gradient(yRef), norm))
  }

  /** A unit vector scaled by `w` has length `w`. */
  lemma ScaledUnit(a: real, b: real, nx: real, ny: real, w: real)
    requires a == nx * w && b == ny * w && nx * nx + ny * ny == 1.0
    ensures a * a + b * b == w * w
  {
    assert a * a + b * b == (nx * nx + ny * ny) * (w * w);
  }

  /** Scaling a vector keeps it perpendicular to whatever it was perpendicular to. */
  lemma ScaledPerpendicular(a: real, b: real, nx: real, ny: real, dx: real, dy: real, w: real)
    requires a == nx * w && b == ny * w && nx * dx + ny * dy == 0.0
    ensures a * dx + b * dy == 0.0
  {
    assert a * dx + b * dy == (nx * dx + ny * dy) * w;
  }

  /** Scaling a vector scales its cross product with the tangent by the same factor. */
  lemma ScaledLeftTurn(a: real, b: real, nx: real, ny: real, dx: real, dy: real, m: real, w: real)
    requires a == nx * w && b == ny * w && ny * dx - nx * dy == m
    ensures b * dx - a * dy == w * m
  {
    assert b * dx - a * dy == (ny * dx - nx * dy) * w;
  }

  /**
   * A stretch driven along the x axis in the direction of increasing x: its edges
   * lie half the track width to the right and to the left of it, at the same x.
   */
  lemma OffsetsAlongXAxis(xRef: seq<real>, yRef: seq<real>, dx: seq<real>, dy: seq<real>)
    requires |xRef| == |yRef| == |dx| == |dy|
    requires forall i :: 0 <= i < |dx| ==> dx[i] > 0.0 && dy[i] == 0.0
    ensures IsMagnitude(dx, dx, dy)
    ensures var p := Offsets(xRef, yRef, dx, dy, dx);
      && p.xInner == xRef && p.xOuter == xRef
      && forall i :: 0 <= i < |yRef| ==> p.yInner[i] == yRef[i] - TrackWidth / 2.0 && p.yOuter[i] == yRef[i] + TrackWidth / 2.0
  {
    var n := Normals(dx, dy, dx);
    assert n.0 == seq(|dx|, i requires 0 <= i < |dx| => 0.0);
    assert n.1 == seq(|dx|, i requires 0 <= i < |dx| => 1.0);
  }

  /**
   * A lap sampled evenly along a line parallel to the x axis, in the direction of
   * increasing x: its tangent lengths are the gradient of x itself, and its edges run
   * parallel to it, half the track width to either side.
   */
  lemma StraightLap(xRef: seq<real>, yRef: seq<real>, a: real, b: real, c: real)
    requires |xRef| == |yRef| >= 2 && b > 0.0
    requires forall i :: 0 <= i < |xRef| ==> xRef[i] == a + b * i as real && yRef[i] == c
    ensures IsMagnitude(Gradient(xRef), Gradient(xRef), Gradient(yRef))
    ensures var p := CreatePlot(xRef, yRef, Gradient(xRef)).value;
      && p.xInner == xRef && p.xOuter == xRef
      && forall i :: 0 <= i < |yRef| ==> p.yInner[i] == c - TrackWidth / 2.0 && p.yOuter[i] == c + TrackWidth / 2.0
  {
    GradientOfLine(xRef, a, b);
    GradientOfLine(yRef, c, 0.0);
    OffsetsAlongXAxis(xRef, yRef, Gradient(xRef), Gradient(yRef));
  }

  // ---------------------------------------------------------------------------
  // create_animation: view limits and frame count
  // ---------------------------------------------------------------------------

  /** Axis-aligned limits of the drawing. */
  datatype Bounds = Bounds(xMin: real, xMax: real, yMin: real, yMax: real)

  /** Every element of `s` lies in [lo, hi]. */
  predicate Within(lo: real, hi: real, s: seq<real>)
  {
    forall i :: 0 <= i < |s| ==> lo <= s[i] <= hi
  }

  /**
   * `min(a.min(), b.min(), c.min())` and `max(a.max(), b.max(), c.max())`: the least
   * and the greatest value over three arrays.
   */
  function Extent(a: seq<real>, b: seq<real>, c: seq<real>): (r: (real, real))
    requires |a| > 0 && |b| > 0 && |c| > 0
    ensures r.0 <= r.1
    ensures Within(r.0, r.1, a) && Within(r.0, r.1, b) && Within(r.0, r.1, c)
    ensures r.0 in a + b + c && r.1 in a + b + c
  {
    var mins := [Min(a), Min(b), Min(c)];
    var maxs := [Max(a), Max(b), Max(c)];
    var lo, hi := Min(mins), Max(maxs);
    assert lo <= mins[0] && lo <= mins[1] && lo <= mins[2];
    assert maxs[0] <= hi && maxs[1] <= hi && maxs[2] <= hi;
    assert Min(a) in a + b + c && Min(b) in a + b + c && Min(c) in a + b + c;
    assert Max(a) in a + b + c && Max(b) in a + b + c && Max(c) in a + b + c;
    (lo, hi)
  }

  /**
   * The limits `create_animation` precomputes: the least and the greatest x and y
   * over the reference line and both edges.
   */
  function ViewLimits(p: Plot): (b: Bounds)
    requires |p.xRef| > 0 && |p.xInner| > 0 && |p.xOuter| > 0
    requires |p.yRef| > 0 && |p.yInner| > 0 && |p.yOuter| > 0
    ensures b.xMin <= b.xMax && b.yMin <= b.yMax
    ensures Within(b.xMin, b.xMax, p.xRef) && Within(b.xMin, b.xMax, p.xInner) && Within(b.xMin, b.xMax, p.xOuter)
    ensures Within(b.yMin, b.yMax, p.yRef) && Within(b.yMin, b.yMax, p.yInner) && Within(b.yMin, b.yMax, p.yOuter)
    ensures b.xMin in p.xRef + p.xInner + p.xOuter && b.xMax in p.xRef + p.xInner + p.xOuter
    ensures b.yMin in p.yRef + p.yInner + p.yOuter && b.yMax in p.yRef + p.yInner + p.yOuter
  {
    var (xMin, xMax) := Extent(p.xRef, p.xInner, p.xOuter);
    var (yMin, yMax) := Extent(p.yRef, p.yInner, p.yOuter);
    Bounds(xMin, xMax, yMin, yMax)
  }

  /** Bounds that hold every element and are both attained are the extent itself. */
  lemma ExtentUnique(a: seq<real>, b: seq<real>, c: seq<real>, lo: real, hi: real)
    requires |a| > 0 && |b| > 0 && |c| > 0
    requires Within(lo, hi, a) && Within(lo, hi, b) && Within(lo, hi, c)
    requires lo in a + b + c && hi in a + b + c
    ensures Extent(a, b, c) == (lo, hi)
  {
    var r := Extent(a, b, c);
    BoundedByWithin(lo, hi, a, b, c, r.0);
    BoundedByWithin(lo, hi, a, b, c, r.1);
    BoundedByWithin(r.0, r.1, a, b, c, lo);
    BoundedByWithin(r.0, r.1, a, b, c, hi);
  }

  /** An element of three concatenated arrays that all lie in [lo, hi] lies in [lo, hi]. */
  lemma BoundedByWithin(lo: real, hi: real, a: seq<real>, b: seq<real>, c: seq<real>, v: real)
    requires Within(lo, hi, a) && Within(lo, hi, b) && Within(lo, hi, c)
    requires v in a + b + c
    ensures lo <= v <= hi
  {
    var s := a + b + c;
    var k :| 0 <= k < |s| && s[k] == v;
    if k < |a| {
      assert s[k] == a[k];
    } else if k < |a| + |b| {
      assert s[k] == b[k - |a|];
    } else {
      assert s[k] == c[k - |a| - |b|];
    }
  }

  /** The limits of the straight example: the lap's x range and the two edges' y values. */
  lemma StraightTrackLimits()
    ensures ViewLimits(Plot([0.0, 10.0, 20.0], [0.0, 0.0, 0.0],
                            [0.0, 10.0, 20.0], [-250.0, -250.0, -250.0],
                            [0.0, 10.0, 20.0], [250.0, 250.0, 250.0])) == Bounds(0.0, 20.0, -250.0, 250.0)
  {
    var x, y, lo, hi := [0.0, 10.0, 20.0], [0.0, 0.0, 0.0], [-250.0, -250.0, -250.0], [250.0, 250.0, 250.0];
    assert (x + x + x)[0] == 0.0 && (x + x + x)[2] == 20.0;
    ExtentUnique(x, x, x, 0.0, 20.0);
    assert (y + lo + hi)[3] == -250.0 && (y + lo + hi)[6] == 250.0;
    ExtentUnique(y, lo, hi, -250.0, 250.0);
  }

  /**
   * `n_frames`: a still image renders one frame, an animation every frame of the list.
   */
  function FrameCount(frames: seq<F1Data.Frame>, stillFrame: bool): (n: nat)
    ensures stillFrame ==> n == 1
    ensures !stillFrame ==> n == |frames|
  {
    if stillFrame then 1 else |frames|
  }
}
