# F1 race replay: telemetry synchronisation and track ribbon

This project models the computational core of a Formula 1 race-replay tool in Dafny. The tool takes per-driver
position telemetry and animates every car on a drawing of the circuit. Two parts are modelled.

- **Synchronisation** (`get_race_telemetry` in `src/f1_data.py`, module `F1Data`).
  - Each driver arrives with irregular samples `(t, x, y)`. Drivers without telemetry are skipped.
  - A running minimum and maximum of the sample times gives the session span.
  - The timeline `np.arange(t_min, t_max, DT)` is laid over that span at `DT = 1/FPS = 0.1` s.
  - Every driver's `x` and `y` are resampled onto the timeline with `np.interp`.
  - The per-driver arrays are transposed into one frame per tick, each mapping a driver code to a position.
  - The scan, the resampling and the transposition are methods with loops proved against specification functions:
    - `Collected`, `SpanStart` and `SpanEnd` are prefix folds over the driver list;
    - `Arange` is the closed form of the timeline;
    - `Interp` is linear interpolation with clamping.
- **Track ribbon and view** (`create_plot` and the start of `create_animation` in `src/animation.py`, module
  `Animation`).
  - The reference lap's tangents come from `np.gradient`.
  - Each tangent is normalised and turned a quarter turn into a unit normal.
  - The inner and outer edges are the lap moved half the 500-unit track width against and along the normal.
  - The view limits are the least and greatest coordinate over the three polylines. The code computes them but
    never applies them: the padding and the `set_xlim`/`set_ylim` calls after them are commented out.
  - The number of frames rendered is computed.
  - These are pure functions.
- **Shared minimum and maximum.** `Extrema` holds the minimum and maximum of a non-empty array, used by both parts.

Numbers are exact `real`s throughout. The square root in `np.sqrt(dx**2 + dy**2)` is not computed. The caller
passes the magnitudes `norm`, and the model requires `norm[i] > 0` with `norm[i]*norm[i] == dx[i]*dx[i] + dy[i]*dy[i]`.

Behaviour of note that the model follows:
- When no driver has telemetry, the code calls `np.arange(None, None, DT)`, which raises a `TypeError`. The model
  returns `Failure(NoTelemetry)`.
- The span uses `t.min()` and `t.max()` of each driver's whole array. `Extrema.MinMaxOfSorted` shows these are the
  first and last sample for sorted times.
- `np.gradient` needs at least two points, so `CreatePlot` fails exactly when the lap has fewer than two.
- The frames are built eagerly as a finished list, as the code builds them.
- Driver codes are map keys, so two drivers with the same code keep only the later non-empty one's telemetry. Both
  still take part in the span scan, as in the code.

## Model

| member | source | states |
|---|---|---|
| Extrema.Min | src/f1_data.py:52 | the result is an element of the array and no element is smaller |
| Extrema.Max | src/f1_data.py:53 | the result is an element of the array and no element is larger |
| Extrema.MinMaxOfSorted | src/f1_data.py:52-53 | for non-decreasing sample times the minimum is the first sample and the maximum the last |
| F1Data.Telemetry.IsEmpty | src/f1_data.py:39 | `driver_tel.empty`: the driver's telemetry has no rows |
| F1Data.Collected | src/f1_data.py:39-50 | the driver table holds only non-empty telemetry, each entry exactly as some driver supplied it |
| F1Data.CollectedKeys | src/f1_data.py:39-50 | the table's keys are exactly the codes of drivers with at least one sample |
| F1Data.CollectedLatest | src/f1_data.py:46-50 | the last non-empty driver with a given code is the one the table keeps for that code |
| F1Data.SpanStart | src/f1_data.py:55-56 | `global_t_min` after visiting the drivers in order; its properties are proved in `SpanStartIsMinimum` |
| F1Data.SpanEnd | src/f1_data.py:58-59 | `global_t_max` after visiting the drivers in order; its properties are proved in `SpanEndIsMaximum` |
| F1Data.SpanStartIsMinimum | src/f1_data.py:27-59 | the running minimum is set exactly when some driver has data; it is at most every such driver's least time and equals one of them |
| F1Data.SpanEndIsMaximum | src/f1_data.py:27-59 | the running maximum is set exactly when some driver has data; it is at least every such driver's greatest time and equals one of them |
| F1Data.SpanOrdered | src/f1_data.py:52-59 | when some driver has data the span start is not after its end |
| F1Data.CollectTelemetry | src/f1_data.py:25-59 | the loop builds the driver table and the running minimum and maximum given by the prefix folds over all drivers |
| F1Data.Ceil | src/f1_data.py:66 | the least integer not below `r`: `r <= n < r + 1` |
| F1Data.TickCount | src/f1_data.py:66 | the timeline length is the least `n` with `start + n*step >= stop`, and 0 for an empty span |
| F1Data.Tick | src/f1_data.py:66 | the `i`-th element of the timeline, `start + i*step`; `Arange` and `TicksInSpan` state its properties |
| F1Data.TicksInSpan | src/f1_data.py:66 | every one of the first `TickCount` ticks lies in the half-open span `[start, stop)` |
| F1Data.Arange | src/f1_data.py:66 | the timeline has `TickCount` elements, starts at `start`, steps by exactly `step` and stays inside `[start, stop)` |
| F1Data.TicksIncrease | src/f1_data.py:66 | later ticks are strictly later in time |
| F1Data.ArangeExample | src/f1_data.py:66 | `np.arange(0, 1.5, 0.5)` is `[0, 0.5, 1]`: the stop value is excluded |
| F1Data.Lerp | src/f1_data.py:78-79 | strictly between two sample times the interpolated value lies between the two sample values |
| F1Data.Interp | src/f1_data.py:78-79 | `np.interp` clamps to the first value at or before the first time and to the last value at or after the last time, and never leaves the range of the values |
| F1Data.InterpAtSample | src/f1_data.py:78-79 | at an exact sample time the interpolation returns that sample's value |
| F1Data.InterpBetween | src/f1_data.py:78-79 | strictly between samples `k` and `k+1`, the interpolation is the straight line through those two samples |
| F1Data.ResampleOwnTimes | src/f1_data.py:78-79 | resampling a driver at their own sample times gives back their values |
| F1Data.InterpExample | src/f1_data.py:78-79 | worked values: clamping on both sides, a sample hit and a midpoint |
| F1Data.ResampleAll | src/f1_data.py:70-85 | the resampled table has the same drivers; each shares the timeline as its times, and its x and y are `Interp` at every tick |
| F1Data.BuildFrames | src/f1_data.py:89-101 | one frame per tick, carrying that tick's time; every frame holds every resampled driver at that tick's position |
| F1Data.Synchronise | src/f1_data.py:64-101 | `TickCount` frames at times `tMin + i*DT` inside `[tMin, tMax)`, strictly increasing; every frame holds exactly the table's drivers at their interpolated positions |
| F1Data.GetRaceTelemetry | src/f1_data.py:25-103 | fails exactly when no driver has samples; otherwise the frames cover the span at step `DT`, strictly increasing; each frame's drivers are exactly those with samples, at the interpolation of the telemetry kept for their code |
| Animation.Gradient | src/animation.py:17-18 | `np.gradient` keeps the length of the array |
| Animation.GradientOfLine | src/animation.py:17-18 | on evenly spaced points of a line, every gradient entry, the two one-sided end entries included, is the slope |
| Animation.GradientOfShifted | src/animation.py:17-18 | moving the whole lap by a constant leaves the tangents unchanged |
| Animation.Divide | src/animation.py:21-23 | each normalised component times its magnitude gives back the tangent component |
| Animation.QuarterTurnOfUnit | src/animation.py:21-26 | a tangent divided by its length and turned to `(-dy, dx)` is a unit vector perpendicular to the tangent, on its left |
| Animation.Normals | src/animation.py:21-26 | one normal per point, each of unit length, perpendicular to its tangent and turned to its left, so that `ny*dx - nx*dy` is the tangent's length |
| Animation.Ribbon | src/animation.py:28-33 | the edges have the reference's length, the reference is their midpoint, and outer minus inner is the normal times the width |
| Animation.Offsets | src/animation.py:21-33 | the edges keep the reference halfway between them, are exactly the track width apart at every point, the segment joining them is perpendicular to the tangent, and the outer edge lies on the left of the direction of travel |
| Animation.CreatePlot | src/animation.py:13-33 | fails exactly for fewer than two points; otherwise the ribbon is the offsets along the lap's own `np.gradient` tangents |
| Animation.OffsetsAlongXAxis | src/animation.py:21-33 | for tangents along the positive x axis, both edges keep the reference's x and lie half the track width below and above it |
| Animation.StraightLap | src/animation.py:13-33 | an evenly sampled lap parallel to the x axis: its gradient lengths are valid magnitudes, and the edges run parallel to the lap, 250 units to either side |
| Animation.Extent | src/animation.py:61-64 | the least and greatest value over three arrays are ordered, bound every element and are attained |
| Animation.ViewLimits | src/animation.py:61-64 | the limits, computed but not applied to the axes, are ordered, contain every point of the reference and both edges, and each limit is attained by one of them |
| Animation.ExtentUnique | src/animation.py:61-64 | bounds that contain the three arrays and are both attained are exactly the computed extent |
| Animation.StraightTrackLimits | src/animation.py:61-64 | the view of the straight example spans x from 0 to 20 and y from -250 to 250 |
| Animation.FrameCount | src/animation.py:54 | a still image renders one frame, an animation every frame |

## Left out

- Session loading, the FastF1 cache and the driver number to code lookup (`src/f1_data.py:1-23`, `34-37`): library and
  network calls. The model takes the drivers as a list of (code, telemetry).
- Conversion of `SessionTime` to seconds and the column extraction (`src/f1_data.py:42-44`): library calls. Telemetry
  arrives as real seconds and coordinates.
- All matplotlib drawing, the background-image check, the `update`/`init` closures, `FuncAnimation` and saving to file
  (`src/animation.py:10-11`, `35-50`, `67-127`): rendering and file I/O. `CreatePlot` returns only the six coordinate
  arrays.
- The `interval` and `fps` computations for the video writer: display timing with no logic of note.
- `main.py`: command-line glue.
- IEEE-754 rounding. Times, the step `DT = 0.1`, the length of `np.arange`, divisions and the square root are exact
  reals, so frame counts that depend on float rounding of `(t_max - t_min) / DT` are not modelled.
- Animation.Normals: `np.sqrt` is not computed. The magnitude is a caller-supplied positive root, and a zero tangent
  (at an end, two equal end points; inside, equal neighbours `p[i-1] == p[i+1]` in both coordinates), where numpy would divide by zero and produce NaN, is excluded by precondition.
- The insertion order of Python's dicts: each frame's drivers are a Dafny `map`, which has no order. Only the drawing
  order and the marker colours in the excluded rendering code depend on that order.
- F1Data.Interp: requires strictly increasing sample times, as `np.interp` documents. numpy's result for repeated
  times is not modelled.
- F1Data.GetRaceTelemetry: requires each driver's `t`, `x` and `y` to have equal lengths and strictly increasing
  times. The loader guarantees the equal lengths, and `np.interp` needs the increasing times.
- Animation.CreatePlot: states its geometry through `Offsets` of the `np.gradient` tangents rather than repeating
  it per point, because each point's width and perpendicularity is proved once, on `Offsets`, for any tangents.
