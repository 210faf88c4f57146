/**
 * Telemetry synchronisation of `get_race_telemetry`: the per-driver sample
 * arrays are scanned for the common time span, a uniform timeline is laid
 * over that span, every driver is resampled onto it by piecewise-linear
 * interpolation and the result is transposed into one frame per tick.
 */
module F1Data {
  import opened Wrappers
  import opened Extrema

  /** Frames per second of the synchronised timeline. */
  const FPS: nat := 10
  /** Step of the synchronised timeline, in seconds. */
  const DT: real := 1.0 / FPS as real

  type DriverCode = string

  /** One driver's telemetry: sample times in seconds and the X/Y position columns. */
  datatype Telemetry = Telemetry(t: seq<real>, x: seq<real>, y: seq<real>)
  {
    /** The data frame has no rows. */
    predicate IsEmpty()
    {
      |t| == 0
    }
  }

  /** A driver of the session, by abbreviation, with the telemetry of all their laps. */
  datatype Entry = Entry(code: DriverCode, tel: Telemetry)

  datatype Position = Position(x: real, y: real)

  /** One tick of the timeline with every driver's position at that tick. */
  datatype Frame = Frame(t: real, drivers: map<DriverCode, Position>)

  /** No driver had telemetry, so no timeline can be built. */
  datatype TelemetryError = NoTelemetry

  predicate StrictlyIncreasing(s: seq<real>)
  {
    forall i, j :: 0 <= i < j < |s| ==> s[i] < s[j]
  }

  /** Some driver of the session has at least one sample. */
  predicate HasData(ds: seq<Entry>)
  {
    exists i :: 0 <= i < |ds| && !ds[i].tel.IsEmpty()
  }

  // ---------------------------------------------------------------------------
  // The span scan and the driver table (the first loop of get_race_telemetry)
  // ---------------------------------------------------------------------------

  /** `driver_data` after the drivers `ds` have been visited in order. */
  function Collected(ds: seq<Entry>): (m: map<DriverCode, Telemetry>)
    ensures forall c :: c in m ==> !m[c].IsEmpty() && exists i :: 0 <= i < |ds| && ds[i] == Entry(c, m[c])
  {
    if ds == [] then map[]
    else
      var prev := Collected(ds[..|ds| - 1]);
      var e := ds[|ds| - 1];
      assert forall i :: 0 <= i < |ds| - 1 ==> ds[..|ds| - 1][i] == ds[i];
      if e.tel.IsEmpty() then prev else prev[e.code := e.tel]
  }

  /** `global_t_min` after the drivers `ds` have been visited in order. */
  function SpanStart(ds: seq<Entry>): Option<real>
  {
    if ds == [] then None
    else
      var prev := SpanStart(ds[..|ds| - 1]);
      var e := ds[|ds| - 1];
      if e.tel.IsEmpty() then prev
      else if prev.None? || Min(e.tel.t) < prev.value then Some(Min(e.tel.t))
      else prev
  }

  /** `global_t_max` after the drivers `ds` have been visited in order. */
  function SpanEnd(ds: seq<Entry>): Option<real>
  {
    if ds == [] then None
    else
      var prev := SpanEnd(ds[..|ds| - 1]);
      var e := ds[|ds| - 1];
      if e.tel.IsEmpty() then prev
      else if prev.None? || Max(e.tel.t) > prev.value then Some(Max(e.tel.t))
      else prev
  }

  /** The codes of the drivers that have at least one sample. */
  function CodesWithData(ds: seq<Entry>): set<DriverCode>
  {
    set i | 0 <= i < |ds| && !ds[i].tel.IsEmpty() :: ds[i].code
  }

  /** Driver `j` has samples and no later driver with the same code has any. */
  predicate IsLatest(ds: seq<Entry>, j: int)
  {
    && 0 <= j < |ds| && !ds[j].tel.IsEmpty()
    && forall k :: j < k < |ds| && ds[k].code == ds[j].code ==> ds[k].tel.IsEmpty()
  }

  /** A driver code is in the table exactly when some driver with that code has samples. */
  lemma {:induction false} CollectedKeys(ds: seq<Entry>)
    ensures Collected(ds).Keys == CodesWithData(ds)
  {
    if ds != [] {
      var init := ds[..|ds| - 1];
      var e := ds[|ds| - 1];
      CollectedKeys(init);
      assert forall i :: 0 <= i < |init| ==> init[i] == ds[i];
      assert CodesWithData(ds) == CodesWithData(init) + (if e.tel.IsEmpty() then {} else {e.code});
    }
  }

  /** The table holds, for each code, the telemetry of the last driver with that code that has samples. */
  lemma {:induction false} CollectedLatest(ds: seq<Entry>, j: nat)
    requires IsLatest(ds, j)
    ensures ds[j].code in Collected(ds) && Collected(ds)[ds[j].code] == ds[j].tel
  {
    var init := ds[..|ds| - 1];
    if j < |ds| - 1 {
      assert forall i :: 0 <= i < |init| ==> init[i] == ds[i];
      CollectedLatest(init, j);
    }
  }

  /** `global_t_min` is the least first-sample time over the drivers that have samples. */
  lemma {:induction false} SpanStartIsMinimum(ds: seq<Entry>)
    ensures SpanStart(ds).Some? <==> HasData(ds)
    ensures SpanStart(ds).Some? ==>
      && (forall i :: 0 <= i < |ds| && !ds[i].tel.IsEmpty() ==> SpanStart(ds).value <= Min(ds[i].tel.t))
      && (exists i :: 0 <= i < |ds| && !ds[i].tel.IsEmpty() && SpanStart(ds).value == Min(ds[i].tel.t))
  {
    if ds != [] {
      var init := ds[..|ds| - 1];
      SpanStartIsMinimum(init);
      assert forall i :: 0 <= i < |init| ==> init[i] == ds[i];
      var last := |ds| - 1;
      if !ds[last].tel.IsEmpty() {
        assert HasData(ds) by { assert !ds[last].tel.IsEmpty(); }
      }
      if HasData(ds) && ds[last].tel.IsEmpty() {
        var i :| 0 <= i < |ds| && !ds[i].tel.IsEmpty();
        assert i < last && !init[i].tel.IsEmpty();
      }
    }
  }

  /** `global_t_max` is the greatest last-sample time over the drivers that have samples. */
  lemma {:induction false} SpanEndIsMaximum(ds: seq<Entry>)
    ensures SpanEnd(ds).Some? <==> HasData(ds)
    ensures SpanEnd(ds).Some? ==>
      && (forall i :: 0 <= i < |ds| && !ds[i].tel.IsEmpty() ==> Max(ds[i].tel.t) <= SpanEnd(ds).value)
      && (exists i :: 0 <= i < |ds| && !ds[i].tel.IsEmpty() && SpanEnd(ds).value == Max(ds[i].tel.t))
  {
    if ds != [] {
      var init := ds[..|ds| - 1];
      SpanEndIsMaximum(init);
      assert forall i :: 0 <= i < |init| ==> init[i] == ds[i];
      var last := |ds| - 1;
      if !ds[last].tel.IsEmpty() {
        assert HasData(ds) by { assert !ds[last].tel.IsEmpty(); }
      }
      if HasData(ds) && ds[last].tel.IsEmpty() {
        var i :| 0 <= i < |ds| && !ds[i].tel.IsEmpty();
        assert i < last && !init[i].tel.IsEmpty();
      }
    }
  }

  /** The span is never inverted. */
  lemma SpanOrdered(ds: seq<Entry>)
    requires HasData(ds)
    ensures SpanStart(ds).Some? && SpanEnd(ds).Some? && SpanStart(ds).value <= SpanEnd(ds).value
  {
    SpanStartIsMinimum(ds);
    SpanEndIsMaximum(ds);
    var i :| 0 <= i < |ds| && !ds[i].tel.IsEmpty() && SpanStart(ds).value == Min(ds[i].tel.t);
    assert Min(ds[i].tel.t) <= ds[i].tel.t[0] <= Max(ds[i].tel.t);
  }

  /** The first loop of get_race_telemetry: skip empty telemetry, fill the table, keep the running span. */
  method CollectTelemetry(drivers: seq<Entry>) returns (driverData: map<DriverCode, Telemetry>, tMin: Option<real>, tMax: Option<real>)
    ensures driverData == Collected(drivers)
    ensures tMin == SpanStart(drivers) && tMax == SpanEnd(drivers)
  {
    driverData, tMin, tMax := map[], None, None;
    for i := 0 to |drivers|
      invariant driverData == Collected(drivers[..i])
      invariant tMin == SpanStart(drivers[..i])
      invariant tMax == SpanEnd(drivers[..i])
    {
      assert drivers[..i + 1][..i] == drivers[..i];
      var tel := drivers[i].tel;
      if tel.IsEmpty() {
        continue;
      }
      driverData := driverData[drivers[i].code := tel];
      var lo := Min(tel.t);
      var hi := Max(tel.t);
      if tMin.None? || lo < tMin.value {
        tMin := Some(lo);
      }
      if tMax.None? || hi > tMax.value {
        tMax := Some(hi);
      }
    }
    assert drivers[..|drivers|] == drivers;
  }

  // ---------------------------------------------------------------------------
  // The timeline: np.arange(t_min, t_max, DT)
  // ---------------------------------------------------------------------------

  /** The least integer not below `r`. */
  function Ceil(r: real): (n: int)
    ensures r <= n as real < r + 1.0
  {
    -((-r).Floor)
  }

  /** Multiplying by a non-negative factor keeps an inequality. */
  lemma ScaleLeq(a: real, b: real, c: real)
    requires a <= b && c >= 0.0
    ensures a * c <= b * c
  {
    assert (b - a) * c >= 0.0;
  }

  /** Multiplying by a positive factor keeps a strict inequality. */
  lemma ScaleLess(a: real, b: real, c: real)
    requires a < b && c > 0.0
    ensures a * c < b * c
  {
    assert (b - a) * c > 0.0;
  }

  /** The length of `np.arange(start, stop, step)`: the least `n` with `start + n*step >= stop`. */
  function TickCount(start: real, stop: real, step: real): (n: nat)
    requires step > 0.0
    ensures stop <= start + n as real * step
    ensures n > 0 ==> start + (n - 1) as real * step < stop
  {
    if stop <= start then 0
    else
      var q := (stop - start) / step;
      var n := Ceil(q);
      var below := (n - 1) as real;
      assert q * step == stop - start;
      ScaleLeq(q, n as real, step);
      ScaleLess(below, q, step);
      assert below * step < stop - start;
      n
  }

  /** The `i`-th tick of a timeline that starts at `start` with step `step`. */
  function Tick(start: real, step: real, i: nat): real
  {
    start + i as real * step
  }

  /** Every tick below the tick count lies in [start, stop). */
  lemma TicksInSpan(start: real, stop: real, step: real, n: nat)
    requires step > 0.0
    requires n > 0 ==> start + (n - 1) as real * step < stop
    ensures forall i: nat :: i < n ==> start <= Tick(start, step, i) < stop
  {
    forall i: nat | i < n
      ensures start <= Tick(start, step, i) < stop
    {
      var k := i as real;
      var last := (n - 1) as real;
      ScaleLeq(0.0, k, step);
      ScaleLeq(k, last, step);
    }
  }

  /** `np.arange(start, stop, step)`: the half-open, evenly spaced range [start, stop). */
  function Arange(start: real, stop: real, step: real): (r: seq<real>)
    requires step > 0.0
    ensures |r| == TickCount(start, stop, step)
    ensures |r| > 0 ==> r[0] == start
    ensures forall i :: 0 <= i < |r| - 1 ==> r[i + 1] - r[i] == step
    ensures forall i :: 0 <= i < |r| ==> start <= r[i] < stop
  {
    var n := TickCount(start, stop, step);
    TicksInSpan(start, stop, step, n);
    seq(n, i requires 0 <= i < n => Tick(start, step, i))
  }

  /** Ticks strictly increase with their index. */
  lemma TicksIncrease(start: real, step: real, i: nat, j: nat)
    requires step > 0.0 && i < j
    ensures Tick(start, step, i) < Tick(start, step, j)
  {
    ScaleLess(i as real, j as real, step);
  }

  /** The timeline of two drivers whose samples span 0.0 s to 1.5 s, on a 0.5 s step. */
  lemma ArangeExample()
    ensures Arange(0.0, 1.5, 0.5) == [0.0, 0.5, 1.0]
  {
    assert TickCount(0.0, 1.5, 0.5) == 3;
  }

  // ---------------------------------------------------------------------------
  // Resampling: np.interp(timeline, t, v)
  // ---------------------------------------------------------------------------

  /**
   * The value at `q` of the straight segment through `(t0, v0)` and `(t1, v1)`,
   * evaluated as np.interp does: slope times the offset from the left sample,
   * plus the left value. Strictly inside the segment it lies between the two values.
   */
  function Lerp(t0: real, t1: real, v0: real, v1: real, q: real): (r: real)
    requires t0 < q < t1
    ensures v0 <= v1 ==> v0 <= r <= v1
    ensures v1 <= v0 ==> v1 <= r <= v0
  {
    var slope := (v1 - v0) / (t1 - t0);
    assert slope * (t1 - t0) == v1 - v0;
    if slope >= 0.0 then
      ScaleLeq(0.0, q - t0, slope);
      ScaleLeq(q - t0, t1 - t0, slope);
      slope * (q - t0) + v0
    else
      ScaleLeq(0.0, q - t0, -slope);
      ScaleLeq(q - t0, t1 - t0, -slope);
      slope * (q - t0) + v0
  }

  /**
   * `np.interp` at one query time: clamp to the first or the last sample outside
   * the sample span, interpolate linearly between the two bracketing samples inside it.
   */
  function Interp(t: seq<real>, v: seq<real>, q: real): (r: real)
    requires 0 < |t| == |v| && StrictlyIncreasing(t)
    ensures q <= t[0] ==> r == v[0]
    ensures t[|t| - 1] <= q ==> r == v[|v| - 1]
    ensures Min(v) <= r <= Max(v)
    decreases |t|
  {
    if q <= t[0] || |t| == 1 then v[0]
    else if q < t[1] then Lerp(t[0], t[1], v[0], v[1], q)
    else
      assert Min(v) <= Min(v[1..]) && Max(v[1..]) <= Max(v);
      Interp(t[1..], v[1..], q)
  }

  /** At a sample time the interpolant reproduces the sample. */
  lemma {:induction false} InterpAtSample(t: seq<real>, v: seq<real>, k: nat)
    requires 0 < |t| == |v| && StrictlyIncreasing(t) && k < |t|
    ensures Interp(t, v, t[k]) == v[k]
  {
    if k > 0 {
      assert t[0] < t[k];
      if k == 1 {
        assert Interp(t, v, t[1]) == Interp(t[1..], v[1..], t[1]);
      } else {
        assert t[1] < t[k];
        InterpAtSample(t[1..], v[1..], k - 1);
      }
    }
  }

  /** Strictly between two consecutive samples the interpolant is the segment through them. */
  lemma {:induction false} InterpBetween(t: seq<real>, v: seq<real>, k: nat, q: real)
    requires 0 < |t| == |v| && StrictlyIncreasing(t) && k + 1 < |t|
    requires t[k] < q < t[k + 1]
    ensures Interp(t, v, q) == Lerp(t[k], t[k + 1], v[k], v[k + 1], q)
  {
    if k > 0 {
      assert t[1] <= t[k];
      InterpBetween(t[1..], v[1..], k - 1, q);
    }
  }

  /** Resampling a trace onto its own sample times returns it unchanged. */
  lemma ResampleOwnTimes(t: seq<real>, v: seq<real>)
    requires 0 < |t| == |v| && StrictlyIncreasing(t)
    ensures seq(|t|, i requires 0 <= i < |t| => Interp(t, v, t[i])) == v
  {
    forall k | 0 <= k < |t|
      ensures Interp(t, v, t[k]) == v[k]
    {
      InterpAtSample(t, v, k);
    }
  }

  /**
   * Two drivers: A sampled at 0.0 s and 1.0 s moving from x = 0 to x = 10, B sampled at
   * 0.5 s and 1.5 s moving likewise. At 0.5 s A is half way and B sits on its first
   * sample; at 1.0 s A sits on its last sample and B is half way.
   */
  lemma InterpExample()
    ensures Interp([0.0, 1.0], [0.0, 10.0], 0.5) == 5.0
    ensures Interp([0.5, 1.5], [0.0, 10.0], 0.5) == 0.0
    ensures Interp([0.0, 1.0], [0.0, 10.0], 1.0) == 10.0
    ensures Interp([0.5, 1.5], [0.0, 10.0], 1.0) == 5.0
  {
  }

  /** The second loop of get_race_telemetry: every driver of the table resampled onto the timeline. */
  method ResampleAll(driverData: map<DriverCode, Telemetry>, timeline: seq<real>) returns (resampled: map<DriverCode, Telemetry>)
    requires forall c :: c in driverData ==>
      0 < |driverData[c].t| == |driverData[c].x| == |driverData[c].y| && StrictlyIncreasing(driverData[c].t)
    ensures resampled.Keys == driverData.Keys
    ensures forall c :: c in resampled ==>
      && resampled[c].t == timeline
      && |resampled[c].x| == |timeline| && |resampled[c].y| == |timeline|
      && (forall i :: 0 <= i < |timeline| ==> resampled[c].x[i] == Interp(driverData[c].t, driverData[c].x, timeline[i]))
      && (forall i :: 0 <= i < |timeline| ==> resampled[c].y[i] == Interp(driverData[c].t, driverData[c].y, timeline[i]))
  {
    resampled := map[];
    var todo := driverData.Keys;
    while todo != {}
      invariant todo <= driverData.Keys
      invariant resampled.Keys == driverData.Keys - todo
      invariant forall c :: c in resampled ==>
        && resampled[c].t == timeline
        && |resampled[c].x| == |timeline| && |resampled[c].y| == |timeline|
        && (forall i :: 0 <= i < |timeline| ==> resampled[c].x[i] == Interp(driverData[c].t, driverData[c].x, timeline[i]))
        && (forall i :: 0 <= i < |timeline| ==> resampled[c].y[i] == Interp(driverData[c].t, driverData[c].y, timeline[i]))
      decreases todo
    {
      var code :| code in todo;
      var data := driverData[code];
      var xResampled := seq(|timeline|, i requires 0 <= i < |timeline| => Interp(data.t, data.x, timeline[i]));
      var yResampled := seq(|timeline|, i requires 0 <= i < |timeline| => Interp(data.t, data.y, timeline[i]));
      resampled := resampled[code := Telemetry(timeline, xResampled, yResampled)];
      todo := todo - {code};
    }
  }

  // ---------------------------------------------------------------------------
  // Frames: the per-driver arrays transposed into one record per tick
  // ---------------------------------------------------------------------------

  /** The last loop of get_race_telemetry: one frame per tick, holding every resampled driver. */
  method BuildFrames(timeline: seq<real>, resampled: map<DriverCode, Telemetry>) returns (frames: seq<Frame>)
    requires forall c :: c in resampled ==> |resampled[c].x| == |timeline| && |resampled[c].y| == |timeline|
    ensures |frames| == |timeline|
    ensures forall i :: 0 <= i < |frames| ==> frames[i].t == timeline[i] && frames[i].drivers.Keys == resampled.Keys
    ensures forall i, c :: 0 <= i < |frames| && c in resampled ==>
      frames[i].drivers[c] == Position(resampled[c].x[i], resampled[c].y[i])
  {
    frames := [];
    for i := 0 to |timeline|
      invariant |frames| == i
      invariant forall j :: 0 <= j < i ==> frames[j].t == timeline[j] && frames[j].drivers.Keys == resampled.Keys
      invariant forall j, c :: 0 <= j < i && c in resampled ==>
        frames[j].drivers[c] == Position(resampled[c].x[j], resampled[c].y[j])
    {
      var frameData: map<DriverCode, Position> := map[];
      var todo := resampled.Keys;
      while todo != {}
        invariant todo <= resampled.Keys
        invariant frameData.Keys == resampled.Keys - todo
        invariant forall c :: c in frameData ==> frameData[c] == Position(resampled[c].x[i], resampled[c].y[i])
        decreases todo
      {
        var code :| code in todo;
        frameData := frameData[code := Position(resampled[code].x[i], resampled[code].y[i])];
        todo := todo - {code};
      }
      frames := frames + [Frame(timeline[i], frameData)];
    }
  }

  // ---------------------------------------------------------------------------
  // get_race_telemetry
  // ---------------------------------------------------------------------------

  /**
   * Everything after the span scan: the timeline [tMin, tMax) at step DT, every
   * driver of the table resampled onto it, and the frames built from the result.
   */
  method Synchronise(driverData: map<DriverCode, Telemetry>, tMin: real, tMax: real) returns (frames: seq<Frame>)
    requires forall c :: c in driverData ==>
      0 < |driverData[c].t| == |driverData[c].x| == |driverData[c].y| && StrictlyIncreasing(driverData[c].t)
    ensures |frames| == TickCount(tMin, tMax, DT)
    ensures forall i :: 0 <= i < |frames| ==> frames[i].t == Tick(tMin, DT, i) && tMin <= frames[i].t < tMax
    ensures forall i, j :: 0 <= i < j < |frames| ==> frames[i].t < frames[j].t
    ensures forall i :: 0 <= i < |frames| ==> frames[i].drivers.Keys == driverData.Keys
    ensures forall i, c :: 0 <= i < |frames| && c in driverData ==>
      frames[i].drivers[c] == Position(Interp(driverData[c].t, driverData[c].x, frames[i].t), Interp(driverData[c].t, driverData[c].y, frames[i].t))
  {
    var timeline := Arange(tMin, tMax, DT);
    var resampled := ResampleAll(driverData, timeline);
    frames := BuildFrames(timeline, resampled);
    forall i, j | 0 <= i < j < |frames|
      ensures frames[i].t < frames[j].t
    {
      TicksIncrease(tMin, DT, i, j);
    }
  }

  /**
   * The whole synchronisation. Fails exactly when no driver has samples; otherwise
   * there is one frame per tick of [t_min, t_max) at step DT, each holding every
   * driver with samples at its interpolated position.
   */
  method GetRaceTelemetry(drivers: seq<Entry>) returns (r: Result<seq<Frame>, TelemetryError>)
    requires forall i :: 0 <= i < |drivers| ==>
      |drivers[i].tel.t| == |drivers[i].tel.x| == |drivers[i].tel.y| && StrictlyIncreasing(drivers[i].tel.t)
    ensures r.Failure? <==> !HasData(drivers)
    ensures r.Success? ==> SpanStart(drivers).Some? && SpanEnd(drivers).Some?
    ensures r.Success? ==>
      var tMin := SpanStart(drivers).value;
      var tMax := SpanEnd(drivers).value;
      && |r.value| == TickCount(tMin, tMax, DT)
      && (forall i :: 0 <= i < |r.value| ==> r.value[i].t == Tick(tMin, DT, i) && r.value[i].t < tMax)
    ensures r.Success? ==> forall i, j :: 0 <= i < j < |r.value| ==> r.value[i].t < r.value[j].t
    ensures r.Success? ==> forall i :: 0 <= i < |r.value| ==> r.value[i].drivers.Keys == CodesWithData(drivers)
    ensures r.Success? ==> forall i, j :: 0 <= i < |r.value| && IsLatest(drivers, j) ==>
      drivers[j].code in r.value[i].drivers &&
      r.value[i].drivers[drivers[j].code] ==
        Position(Interp(drivers[j].tel.t, drivers[j].tel.x, r.value[i].t), Interp(drivers[j].tel.t, drivers[j].tel.y, r.value[i].t))
  {
    var driverData, tMin, tMax := CollectTelemetry(drivers);
    SpanStartIsMinimum(drivers);
    SpanEndIsMaximum(drivers);
    if tMin.None? || tMax.None? {
      return Failure(NoTelemetry);
    }
    var frames := Synchronise(driverData, tMin.value, tMax.value);
    CollectedKeys(drivers);
    forall j | IsLatest(drivers, j)
      ensures drivers[j].code in driverData && driverData[drivers[j].code] == drivers[j].tel
    {
      CollectedLatest(drivers, j);
    }
    r := Success(frames);
  }
}
