/** Sine-sweep test (sin_tester.py): the sampled sine wave, the run that
    applies it point by point, the peak-current filter, the guarded linear
    fit and the memristor-type classification by the signs of two slopes. */
module Sine {
  import opened Common
  import opened Instrument
  import opened Samples

  /** numpy.pi */
  const Pi: real := 3.141592653589793

  // ---------------------------------------------------------------------
  // Sine points

  /** The phase i*pi/points_per_half. */
  function Phase(i: int, pph: int): real
    requires pph > 0
  {
    i as real * Pi / pph as real
  }

  /** [sin(i*pi/pph) for i in range(lo, lo + pph)] */
  function HalfCycle(sin: real -> real, pph: int, lo: int): seq<real>
  {
    if pph <= 0 then [] else seq(pph, k requires 0 <= k < pph => sin(Phase(lo + k, pph)))
  }

  /** [amplitude * v for v in vs] */
  function Scale(amplitude: real, vs: seq<real>): seq<real>
  {
    seq(|vs|, k requires 0 <= k < |vs| => amplitude * vs[k])
  }

  /** The unscaled wave: the positive half-cycles, the negative ones, 0. */
  function Unscaled(pph: int, cycles: int, sin: real -> real): seq<real>
  {
    RepeatSeq(HalfCycle(sin, pph, 0), cycles) + RepeatSeq(HalfCycle(sin, pph, pph), cycles) + [0.0]
  }

  /** generate_custom_sine_points: `cycles` positive half-cycles, `cycles`
      negative half-cycles, a closing 0, all scaled by the amplitude. The
      wave has 2*pph*cycles + 1 points and ends at 0. */
  function SinePoints(amplitude: real, pph: int, cycles: int, sin: real -> real): (r: seq<real>)
    ensures |r| == 2 * (Max0(pph) * Max0(cycles)) + 1 && r[|r| - 1] == 0.0
  {
    RepeatSeqLength(HalfCycle(sin, pph, 0), cycles);
    RepeatSeqLength(HalfCycle(sin, pph, pph), cycles);
    Scale(amplitude, Unscaled(pph, cycles, sin))
  }

  /** Point k of the first pph*cycles is amplitude*sin(i*pi/pph) for
      i = k mod pph: the positive half-cycle, repeated. */
  lemma SinePointsPositive(amplitude: real, pph: int, cycles: int, sin: real -> real, k: int)
    requires 0 <= k < Max0(pph) * Max0(cycles)
    ensures pph > 0 && k < |SinePoints(amplitude, pph, cycles, sin)| &&
            SinePoints(amplitude, pph, cycles, sin)[k] == amplitude * sin(Phase(k % pph, pph))
  {
    var p1, p2 := HalfCycle(sin, pph, 0), HalfCycle(sin, pph, pph);
    RepeatSeqLength(p1, cycles);
    RepeatSeqLength(p2, cycles);
    RepeatSeqAt(p1, cycles, k);
    assert Unscaled(pph, cycles, sin)[k] == RepeatSeq(p1, cycles)[k];
  }

  /** Point half + k, for k below pph*cycles, is amplitude*sin(i*pi/pph) for
      i = pph + k mod pph: the negative half-cycle, repeated. */
  lemma SinePointsNegative(amplitude: real, pph: int, cycles: int, sin: real -> real, k: int)
    requires 0 <= k < Max0(pph) * Max0(cycles)
    ensures var half := Max0(pph) * Max0(cycles);
            pph > 0 && half + k < |SinePoints(amplitude, pph, cycles, sin)| &&
            SinePoints(amplitude, pph, cycles, sin)[half + k] == amplitude * sin(Phase(pph + k % pph, pph))
  {
    var p1, p2 := HalfCycle(sin, pph, 0), HalfCycle(sin, pph, pph);
    RepeatSeqLength(p1, cycles);
    RepeatSeqLength(p2, cycles);
    RepeatSeqAt(p2, cycles, k);
    var half := Max0(pph) * Max0(cycles);
    assert Unscaled(pph, cycles, sin)[half + k] == RepeatSeq(p2, cycles)[k];
  }

  // ---------------------------------------------------------------------
  // The run

  /** One recorded row: the measured voltage and the current. */
  datatype SineSample = SineSample(voltage: real, current: real)

  /** The row of point k: measurement k and the time read after it. */
  function SineRows(count: nat, port: Port): seq<Stamped<SineSample>>
  {
    seq(count, k requires 0 <= k < count => Stamped(port(k).time, SineSample(port(k).voltage, port(k).current)))
  }

  /** Per point: set the level, wait pw, measure, wait off_time. */
  function PointCmds(v: real, pw: real, offTime: real): seq<Command>
  {
    Pulse(ChanA, v, pw) + [Sleep(offTime)]
  }

  function PointsCmds(points: seq<real>, pw: real, offTime: real): seq<Command>
  {
    if points == [] then []
    else PointsCmds(points[..|points| - 1], pw, offTime) + PointCmds(points[|points| - 1], pw, offTime)
  }

  /** Output on, the points, output off. */
  function SineLog(points: seq<real>, pw: real, offTime: real): seq<Command>
  {
    [SetOutput(ChanA, true)] + PointsCmds(points, pw, offTime) + [SetOutput(ChanA, false)]
  }

  /** run_sine_test: one row per voltage point, in order, then the times
      are normalised. */
  method RunSineTest(voltagePoints: seq<real>, pw: real, offTime: real, port: Port)
    returns (data: seq<Stamped<SineSample>>, log: seq<Command>)
    ensures data == Normalized(SineRows(|voltagePoints|, port))
    ensures log == SineLog(voltagePoints, pw, offTime)
    ensures |data| == |voltagePoints|
    ensures data != [] ==> data[0].time == 0.0
  {
    log := [SetOutput(ChanA, true)];
    var raw: seq<Stamped<SineSample>> := [];
    for k := 0 to |voltagePoints|
      invariant raw == SineRows(k, port)
      invariant log == [SetOutput(ChanA, true)] + PointsCmds(voltagePoints[..k], pw, offTime)
    {
      var v := voltagePoints[k];
      log := log + [SetLevel(ChanA, v), Sleep(pw), Measure(ChanA)];
      var r := port(k);
      raw := raw + [Stamped(r.time, SineSample(r.voltage, r.current))];
      log := log + [Sleep(offTime)];
      assert voltagePoints[..k + 1][..k] == voltagePoints[..k];
    }
    log := log + [SetOutput(ChanA, false)];
    assert voltagePoints[..|voltagePoints|] == voltagePoints;
    data := Normalize(raw);
  }

  lemma PointEffect(v: real, pw: real, offTime: real)
    ensures Replay(PointCmds(v, pw, offTime), {ChanA}) == Effect({ChanA}, true, 1, pw + offTime)
  {
    PulseEffect(ChanA, v, pw, {ChanA});
    SingleEffect(Sleep(offTime), {ChanA});
    ReplayAppend(Pulse(ChanA, v, pw), [Sleep(offTime)], {ChanA});
  }

  lemma {:induction false} PointsEffect(points: seq<real>, pw: real, offTime: real)
    ensures Replay(PointsCmds(points, pw, offTime), {ChanA}) ==
            Effect({ChanA}, true, |points|, Times(|points|, pw + offTime))
  {
    if points != [] {
      var init := points[..|points| - 1];
      var ei := Replay(PointsCmds(init, pw, offTime), {ChanA});
      assert ei == Effect({ChanA}, true, |init|, Times(|init|, pw + offTime)) by {
        PointsEffect(init, pw, offTime);
      }
      assert Replay(PointCmds(points[|points| - 1], pw, offTime), {ChanA}) == Effect({ChanA}, true, 1, pw + offTime) by {
        PointEffect(points[|points| - 1], pw, offTime);
      }
      ReplayAppend(PointsCmds(init, pw, offTime), PointCmds(points[|points| - 1], pw, offTime), {ChanA});
    }
  }

  /** The run measures once per point, only while the output is on, waits
      pw + off_time per point and leaves the output off. */
  lemma SineLogEffect(points: seq<real>, pw: real, offTime: real)
    ensures Replay(SineLog(points, pw, offTime), {}) ==
            Effect({}, true, |points|, Times(|points|, pw + offTime))
  {
    SingleEffect(SetOutput(ChanA, true), {});
    assert {} + {ChanA} == {ChanA};
    PointsEffect(points, pw, offTime);
    SingleEffect(SetOutput(ChanA, false), {ChanA});
    assert {ChanA} - {ChanA} == {};
    ReplayConcat3([SetOutput(ChanA, true)], PointsCmds(points, pw, offTime), [SetOutput(ChanA, false)], {});
  }

  // ---------------------------------------------------------------------
  // Peak currents

  /** |voltage - v_target| < tol, strictly. */
  predicate NearTarget(r: Stamped<SineSample>, vTarget: real, tol: real)
  {
    Abs(r.value.voltage - vTarget) < tol
  }

  function Currents(rows: seq<Stamped<SineSample>>): seq<real>
  {
    seq(|rows|, k requires 0 <= k < |rows| => rows[k].value.current)
  }

  /** extract_peak_currents (tol is 0.05 unless given): the currents of the
      rows near v_target, in order. It is empty exactly when no row is near. */
  function ExtractPeakCurrents(data: seq<Stamped<SineSample>>, vTarget: real, tol: real): (r: seq<real>)
    ensures |r| <= |data|
    ensures r == [] <==> forall k :: 0 <= k < |data| ==> !NearTarget(data[k], vTarget, tol)
  {
    var keep := (r: Stamped<SineSample>) => NearTarget(r, vTarget, tol);
    var near := Filter(data, keep);
    assert near == [] ==> forall k :: 0 <= k < |data| ==> !keep(data[k]) by {
      forall k | 0 <= k < |data| && keep(data[k])
        ensures data[k] in near
      {
        FilterComplete(data, keep, data[k]);
      }
    }
    assert near != [] ==> near[0] in data && keep(near[0]);
    Currents(near)
  }

  /** The filter keeps exactly the rows strictly within tol of the target. */
  lemma PeakRowsExact(data: seq<Stamped<SineSample>>, vTarget: real, tol: real)
    ensures var near := Filter(data, (r: Stamped<SineSample>) => NearTarget(r, vTarget, tol));
            forall r :: r in data ==> (r in near <==> NearTarget(r, vTarget, tol))
  {
    var keep := (r: Stamped<SineSample>) => NearTarget(r, vTarget, tol);
    forall r | r in data && keep(r)
      ensures r in Filter(data, keep)
    {
      FilterComplete(data, keep, r);
    }
  }

  /** Extracting from a concatenation extracts from each part, in order. */
  lemma PeakCurrentsAppend(data: seq<Stamped<SineSample>>, more: seq<Stamped<SineSample>>, vTarget: real, tol: real)
    ensures ExtractPeakCurrents(data + more, vTarget, tol) ==
            ExtractPeakCurrents(data, vTarget, tol) + ExtractPeakCurrents(more, vTarget, tol)
  {
    var keep := (r: Stamped<SineSample>) => NearTarget(r, vTarget, tol);
    FilterAppend(data, more, keep);
    var a, b := Filter(data, keep), Filter(more, keep);
    assert Currents(a + b) == Currents(a) + Currents(b);
  }

  /** A single row gives its current exactly when its voltage is strictly
      within tol of the target. */
  lemma PeakCurrentsSingle(r: Stamped<SineSample>, vTarget: real, tol: real)
    ensures ExtractPeakCurrents([r], vTarget, tol) ==
            if Abs(r.value.voltage - vTarget) < tol then [r.value.current] else []
  {
    assert [r][1..] == [];
  }

  // ---------------------------------------------------------------------
  // Linear fit and classification

  /** numpy.polyfit(x, y, 1) and sklearn's r2_score, as given functions. */
  datatype Numerics = Numerics(polyfit: (seq<real>, seq<real>) -> (real, real), r2Score: (seq<real>, seq<real>) -> real)

  datatype Fit = Fit(slope: real, intercept: real, r2: real)

  /** slope * x + intercept for every x. */
  function Predicted(x: seq<real>, slope: real, intercept: real): seq<real>
  {
    seq(|x|, k requires 0 <= k < |x| => slope * x[k] + intercept)
  }

  /** fit_linear: (0, 0, 0) for fewer than two points, otherwise the least
      squares line and its r^2. */
  function FitLinear(x: seq<real>, y: seq<real>, num: Numerics): (r: Fit)
    ensures |x| < 2 ==> r == Fit(0.0, 0.0, 0.0)
    ensures |x| >= 2 ==> (r.slope, r.intercept) == num.polyfit(x, y) &&
                         r.r2 == num.r2Score(y, Predicted(x, r.slope, r.intercept))
  {
    if |x| < 2 then Fit(0.0, 0.0, 0.0)
    else
      var (slope, intercept) := num.polyfit(x, y);
      Fit(slope, intercept, num.r2Score(y, Predicted(x, slope, intercept)))
  }

  datatype MType = M0 | M1 | M2 | M3 | M4

  /** The classification by the signs of the two slopes. */
  function Classify(k1: real, k2: real): (m: MType)
    ensures m == M1 <==> k1 < 0.0 && k2 > 0.0
    ensures m == M2 <==> k1 < 0.0 && k2 < 0.0
    ensures m == M3 <==> k1 > 0.0 && k2 < 0.0
    ensures m == M4 <==> k1 > 0.0 && k2 > 0.0
    ensures m == M0 <==> k1 == 0.0 || k2 == 0.0
  {
    if k1 < 0.0 && k2 > 0.0 then M1
    else if k1 < 0.0 && k2 < 0.0 then M2
    else if k1 > 0.0 && k2 > 0.0 then M4
    else if k1 > 0.0 && k2 < 0.0 then M3
    else M0
  }

  /** [1.0, 2.0, ..., n] */
  function OneTo(n: nat): (r: seq<real>)
    ensures |r| == n && forall k :: 0 <= k < n ==> r[k] == (k + 1) as real
  {
    seq(n, k requires 0 <= k < n => (k + 1) as real)
  }

  /** The two fits of determine_m_type get x and y of equal length, and
      both have at least two points exactly when there are four currents. */
  lemma HalvesFit(currents: seq<real>)
    ensures var half := |currents| / 2;
            |OneTo(half)| == |currents[..half]| &&
            |OneTo(|currents| - half)| == |currents[half..]| &&
            (|currents| >= 4 <==> half >= 2 && |currents| - half >= 2)
  {
  }

  /** determine_m_type: fit each half of the currents against 1, 2, ... and
      classify by the two slopes. With fewer than four currents the first
      half has fewer than two points, its slope is 0 and the type is M0;
      otherwise the type is given by the signs of the two polyfit slopes. */
  function DetermineMType(currents: seq<real>, num: Numerics): (m: MType)
    ensures |currents| < 4 ==> m == M0
    ensures var half := |currents| / 2;
            |currents| >= 4 ==>
              m == Classify(num.polyfit(OneTo(half), currents[..half]).0,
                            num.polyfit(OneTo(|currents| - half), currents[half..]).0)
  {
    var half := |currents| / 2;
    HalvesFit(currents);
    var k1 := FitLinear(OneTo(half), currents[..half], num).slope;
    var k2 := FitLinear(OneTo(|currents| - half), currents[half..], num).slope;
    Classify(k1, k2)
  }
}
