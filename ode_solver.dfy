/** The failure tracker: samples a pressure/temperature history, computes
    the thin-wall stress state and safety factor at every sample, and stops
    at the first downward crossing of safety factor 1.

    The interpolated pressure and temperature curves are abstract functions
    of time.  The line search of the original ODE event machinery is replaced
    by an explicit scan of the output time grid followed by a bisection of
    the bracketing interval.
 */
module FailureTracking {
  import opened Wrappers
  import opened Analytic
  import opened Materials
  import opened ThinWall

  /** Everything a run depends on besides the time grid. */
  datatype Scenario = Scenario(
    e: Elementary,
    pressureAt: real -> real,
    temperatureAt: real -> real,
    geometry: VesselGeometry,
    material: MaterialProperties,
    criterion: string,
    includeDeformation: bool)

  /** What the formulas need to be defined at all: lawful transcendentals,
      no division by a zero diameter, wall or Young's modulus. */
  ghost predicate Admissible(sc: Scenario)
  {
    Lawful(sc.e) && Nondegenerate(sc.geometry) && sc.material.elasticModulus != 0.0
  }

  /** The safety factor can be evaluated: thin wall and a known criterion. */
  predicate Runnable(sc: Scenario)
    requires Nondegenerate(sc.geometry)
  {
    Ratio(sc.geometry) <= ThinWallThreshold && ParseCriterion(sc.criterion).Success?
  }

  /** The error the safety-factor call raises when the scenario is not runnable. */
  function RaisedError(sc: Scenario): string
    requires Nondegenerate(sc.geometry) && !Runnable(sc)
  {
    if Ratio(sc.geometry) > ThinWallThreshold then ThickWallError
    else ParseCriterion(sc.criterion).error
  }

  /** The safety factor at time t. */
  function SafetyAt(sc: Scenario, t: real): Ext
    requires Admissible(sc) && Runnable(sc)
  {
    StressRatio(Allowable(sc.material, ParseCriterion(sc.criterion).value),
                StressStateOf(sc.e, sc.pressureAt(t), sc.geometry).value.vonMises)
  }

  /** On a runnable scenario the safety-factor call succeeds with this value. */
  lemma SafetyAtSucceeds(sc: Scenario, t: real)
    requires Admissible(sc) && Runnable(sc)
    ensures SafetyFactor(sc.e, sc.pressureAt(t), sc.geometry, sc.material, sc.criterion) == Success(SafetyAt(sc, t))
  {
  }

  /** The event function SF(P(t)) - 1; +inf stays +inf. */
  function Margin(sc: Scenario, t: real): (r: Ext)
    requires Admissible(sc) && Runnable(sc)
  {
    match SafetyAt(sc, t)
    case Inf => Inf
    case Fin(v) => Fin(v - 1.0)
  }

  /** The margin is at most zero exactly when the safety factor is at most one,
      and at least zero exactly when it is at least one. */
  lemma MarginMeaning(sc: Scenario, t: real)
    requires Admissible(sc) && Runnable(sc)
    ensures Margin(sc, t).AtMost(Fin(0.0)) <==> SafetyAt(sc, t).AtMost(Fin(1.0))
    ensures Fin(0.0).AtMost(Margin(sc, t)) <==> Fin(1.0).AtMost(SafetyAt(sc, t))
  {
  }

  /** A downward crossing of zero between two successive samples, as the
      event direction -1 asks: from at least zero to at most zero. */
  predicate DownCrossing(before: Ext, after: Ext)
  {
    Fin(0.0).AtMost(before) && after.AtMost(Fin(0.0))
  }

  /** The first index k >= from, k >= 1, whose step grid[k-1] -> grid[k] crosses downward. */
  function FirstCrossing(sc: Scenario, grid: seq<real>, from: nat): (r: Option<nat>)
    requires Admissible(sc) && Runnable(sc) && from >= 1
    decreases |grid| - from
    ensures r.Some? ==> (from <= r.value < |grid|
      && DownCrossing(Margin(sc, grid[r.value - 1]), Margin(sc, grid[r.value]))
      && forall j :: from <= j < r.value ==> !DownCrossing(Margin(sc, grid[j - 1]), Margin(sc, grid[j])))
    ensures r.None? ==>
      forall j :: from <= j < |grid| ==> !DownCrossing(Margin(sc, grid[j - 1]), Margin(sc, grid[j]))
  {
    if from >= |grid| then None
    else if DownCrossing(Margin(sc, grid[from - 1]), Margin(sc, grid[from])) then Some(from)
    else FirstCrossing(sc, grid, from + 1)
  }

  /** The output grid is sorted. */
  lemma TimeGridSorted(history: seq<real>, endTime: Option<real>, maxStep: real)
    requires endTime.Some? || |history| > 0
    requires maxStep > 0.0 && EndTime(history, endTime) >= 0.0
    ensures var grid := TimeGrid(history, endTime, maxStep);
      forall i, j :: 0 <= i <= j < |grid| ==> grid[i] <= grid[j]
  {
    forall i, j | 0 <= i <= j < |TimeGrid(history, endTime, maxStep)|
      ensures TimeGrid(history, endTime, maxStep)[i] <= TimeGrid(history, endTime, maxStep)[j]
    {
      TimeGridPair(history, endTime, maxStep, i, j);
    }
  }

  lemma TimeGridPair(history: seq<real>, endTime: Option<real>, maxStep: real, i: nat, j: nat)
    requires endTime.Some? || |history| > 0
    requires maxStep > 0.0 && EndTime(history, endTime) >= 0.0
    requires i <= j < |TimeGrid(history, endTime, maxStep)|
    ensures TimeGrid(history, endTime, maxStep)[i] <= TimeGrid(history, endTime, maxStep)[j]
  {
    var end := EndTime(history, endTime);
    var n := SampleCount(end, maxStep);
    if i < j {
      ProductSigns(n as real, maxStep);
      LinspaceIncreasing(0.0, end, n, i, j);
    }
  }

  /** `end_time`, defaulting to the last time of the combustion history. */
  function EndTime(history: seq<real>, endTime: Option<real>): (r: real)
    requires endTime.Some? || |history| > 0
  {
    match endTime
    case Some(t) => t
    case None => history[|history| - 1]
  }

  /** `int(end_time / max_step)` for a non-negative end time. */
  function SampleCount(end: real, maxStep: real): (r: nat)
    requires end >= 0.0 && maxStep > 0.0
    ensures (r as real) * maxStep <= end < (r as real) * maxStep + maxStep
  {
    FloorBounds(end, maxStep);
    (end / maxStep).Floor
  }

  lemma FloorBounds(end: real, maxStep: real)
    requires end >= 0.0 && maxStep > 0.0
    ensures (end / maxStep).Floor >= 0
    ensures var low := ((end / maxStep).Floor) as real;
      low * maxStep <= end < low * maxStep + maxStep
  {
    var q := end / maxStep;
    var low := (q.Floor) as real;
    assert q * maxStep == end;
    assert low <= q < low + 1.0;
    ScaleOrder(low, q, maxStep);
    ScaleOrder(q, low + 1.0, maxStep);
    assert (low + 1.0) * maxStep == low * maxStep + maxStep;
    assert end < low * maxStep + maxStep;
  }

  /** A run shorter than one step has no samples, and only such a run. */
  lemma NoSamples(duration: real, maxStep: real)
    requires duration >= 0.0 && maxStep > 0.0
    ensures SampleCount(duration, maxStep) == 0 <==> duration < maxStep
  {
    var n := SampleCount(duration, maxStep);
    WholeStepsBelow(n as real, maxStep, duration);
  }

  /** A whole number of steps below `end` and within one step of it is zero
      exactly when `end` is shorter than one step. */
  lemma WholeStepsBelow(low: real, maxStep: real, end: real)
    requires maxStep > 0.0 && (low == 0.0 || 1.0 <= low)
    requires low * maxStep <= end < low * maxStep + maxStep
    ensures low == 0.0 <==> end < maxStep
  {
    if 1.0 <= low {
      ScaleOrder(1.0, low, maxStep);
    }
  }

  /** The output time grid of a run. */
  function TimeGrid(history: seq<real>, endTime: Option<real>, maxStep: real): (r: seq<real>)
    requires endTime.Some? || |history| > 0
    requires maxStep > 0.0 && EndTime(history, endTime) >= 0.0
  {
    Linspace(0.0, EndTime(history, endTime), SampleCount(EndTime(history, endTime), maxStep))
  }

  /** The steps the event is watched on: those of the output grid when it has
      at least two points, else the one step from 0 to the end time, which
      the integrator always takes on a run of positive length. */
  function DetectionGrid(history: seq<real>, endTime: Option<real>, maxStep: real): (r: seq<real>)
    requires endTime.Some? || |history| > 0
    requires maxStep > 0.0 && EndTime(history, endTime) >= 0.0
    ensures |TimeGrid(history, endTime, maxStep)| >= 2 ==> r == TimeGrid(history, endTime, maxStep)
  {
    var grid := TimeGrid(history, endTime, maxStep);
    var end := EndTime(history, endTime);
    if |grid| >= 2 then grid else if end > 0.0 then [0.0, end] else []
  }

  /** The detection grid is sorted and, on a run of positive length, spans
      the whole run from 0 to the end time. */
  lemma DetectionGridSpans(history: seq<real>, endTime: Option<real>, maxStep: real)
    requires endTime.Some? || |history| > 0
    requires maxStep > 0.0 && EndTime(history, endTime) >= 0.0
    ensures var d := DetectionGrid(history, endTime, maxStep);
      forall i, j :: 0 <= i <= j < |d| ==> d[i] <= d[j]
    ensures var d := DetectionGrid(history, endTime, maxStep);
      EndTime(history, endTime) > 0.0 ==>
        |d| >= 2 && d[0] == 0.0 && d[|d| - 1] == EndTime(history, endTime)
  {
    TimeGridSorted(history, endTime, maxStep);
  }

  /** A run of positive length shorter than two steps has at most one output
      sample, yet a downward crossing between its start and its end is still
      detected, in the single step that spans it. */
  lemma ShortRunWatched(sc: Scenario, history: seq<real>, endTime: Option<real>, maxStep: real)
    requires Admissible(sc) && Runnable(sc)
    requires endTime.Some? || |history| > 0
    requires maxStep > 0.0 && 0.0 < EndTime(history, endTime) < 2.0 * maxStep
    requires DownCrossing(Margin(sc, 0.0), Margin(sc, EndTime(history, endTime)))
    ensures |TimeGrid(history, endTime, maxStep)| <= 1
    ensures FirstCrossing(sc, DetectionGrid(history, endTime, maxStep), 1) == Some(1)
  {
    var end := EndTime(history, endTime);
    FewSamples(end, maxStep);
    assert |TimeGrid(history, endTime, maxStep)| == SampleCount(end, maxStep);
    var d := DetectionGrid(history, endTime, maxStep);
    assert d == [0.0, end];
    assert DownCrossing(Margin(sc, d[0]), Margin(sc, d[1]));
  }

  /** A run shorter than two steps has at most one sample. */
  lemma FewSamples(end: real, maxStep: real)
    requires maxStep > 0.0 && 0.0 <= end < 2.0 * maxStep
    ensures SampleCount(end, maxStep) <= 1
  {
    var n := SampleCount(end, maxStep);
    if n >= 2 {
      ScaleOrder(2.0, n as real, maxStep);
    }
  }

  /** The grid samples at or before t, in grid order: the evaluation points the
      integrator keeps when it stops at t. */
  function UpTo(s: seq<real>, t: real): (r: seq<real>)
    ensures |r| <= |s|
    ensures forall i :: 0 <= i < |r| ==> r[i] <= t && r[i] in s
  {
    if s == [] then []
    else (if s[0] <= t then [s[0]] else []) + UpTo(s[1..], t)
  }

  /** On a sorted grid the kept samples are a prefix: the first m points when
      exactly those lie at or before t. */
  lemma {:induction false} UpToPrefix(s: seq<real>, t: real, m: nat)
    requires m <= |s|
    requires forall j :: 0 <= j < m ==> s[j] <= t
    requires forall j :: m <= j < |s| ==> s[j] > t
    ensures UpTo(s, t) == s[..m]
  {
    if s != [] {
      var rest := s[1..];
      var k: nat := if m == 0 then 0 else m - 1;
      forall j | 0 <= j < |rest|
        ensures (j < k ==> rest[j] <= t) && (k <= j ==> rest[j] > t)
      {
        assert rest[j] == s[j + 1];
      }
      UpToPrefix(rest, t, k);
      if m == 0 {
        assert s[0] > t;
      } else {
        assert s[..m] == [s[0]] + rest[..k];
      }
    }
  }

  /** 2^n as a real. */
  function Pow2(n: nat): (r: real)
    ensures r >= 1.0
  {
    if n == 0 then 1.0 else 2.0 * Pow2(n - 1)
  }

  /** A width halved n times. */
  function Halved(w: real, n: nat): real
  {
    if n == 0 then w else Halved(w, n - 1) / 2.0
  }

  /** Halving n times divides by 2^n. */
  lemma {:induction false} HalvedByPow2(w: real, n: nat)
    ensures Halved(w, n) * Pow2(n) == w
  {
    if n > 0 {
      HalvedByPow2(w, n - 1);
      var h, p := Halved(w, n - 1), Pow2(n - 1);
      assert Halved(w, n) * Pow2(n) == (h / 2.0) * (2.0 * p);
      assert (h / 2.0) * (2.0 * p) == h * p;
    }
  }

  /** Number of halvings of the bracketing interval. */
  const RefinementSteps: nat := 50

  /** `V0 = D^2 * pi / 4 * (length or 0.3)`: a missing or zero length counts as 0.3 m. */
  function InitialVolume(e: Elementary, g: VesselGeometry): real
  {
    var len := if g.length.None? || g.length.value == 0.0 then 0.3 else g.length.value;
    g.innerDiameter * g.innerDiameter * e.pi / 4.0 * len
  }

  /** A missing length gives the 0.3 m default volume, which is positive. */
  lemma InitialVolumeDefault(e: Elementary, g: VesselGeometry)
    requires Lawful(e) && g.innerDiameter != 0.0 && g.length.None?
    ensures InitialVolume(e, g) == g.innerDiameter * g.innerDiameter * e.pi / 4.0 * 0.3
    ensures InitialVolume(e, g) > 0.0
  {
    var a := Abs(g.innerDiameter);
    var dd := g.innerDiameter * g.innerDiameter;
    assert dd == a * a;
    SquareMonotone(0.0, a);
    var ddp := dd * e.pi;
    assert ddp > 0.0;
  }

  /** One retained sample, one entry of each of the nine output series. */
  datatype Sample = Sample(
    time: real, pressure: real, temperature: real, volume: real,
    hoop: real, axial: real, vonMises: real, safetyFactor: Ext, strainHoop: real)

  /** What the recording loop stores for time t. */
  function SampleAt(sc: Scenario, v0: real, t: real): (r: Sample)
    requires Admissible(sc) && Runnable(sc)
    ensures r.time == t && r.pressure == sc.pressureAt(t) && r.temperature == sc.temperatureAt(t)
    ensures r.safetyFactor == SafetyAt(sc, t)
    ensures Success(StressState(r.hoop, r.axial, 0.0, r.vonMises)) == StressStateOf(sc.e, r.pressure, sc.geometry)
  {
    var p := sc.pressureAt(t);
    var s := StressStateOf(sc.e, p, sc.geometry).value;
    var modulus := sc.material.elasticModulus;
    var strain := s.hoop / modulus;
    var volume := if sc.includeDeformation then v0 * (1.0 + (2.0 * strain + s.axial / modulus)) else v0;
    Sample(t, p, sc.temperatureAt(t), volume, s.hoop, s.axial, s.vonMises, SafetyAt(sc, t), strain)
  }

  /** Every sample's hoop strain is its hoop stress over Young's modulus, and
      its hoop stress is twice its axial stress. */
  lemma SampleStrain(sc: Scenario, v0: real, t: real)
    requires Admissible(sc) && Runnable(sc)
    ensures SampleAt(sc, v0, t).strainHoop * sc.material.elasticModulus == SampleAt(sc, v0, t).hoop
    ensures SampleAt(sc, v0, t).hoop == 2.0 * SampleAt(sc, v0, t).axial
  {
    HoopIsTwiceAxial(sc.pressureAt(t), sc.geometry);
  }

  /** Without deformation the volume is constant; with it, a non-negative
      pressure never shrinks a vessel of positive volume and stiffness. */
  lemma SampleVolume(sc: Scenario, v0: real, t: real)
    requires Admissible(sc) && Runnable(sc)
    ensures !sc.includeDeformation ==> SampleAt(sc, v0, t).volume == v0
    ensures sc.includeDeformation && v0 > 0.0 && sc.material.elasticModulus > 0.0
      && sc.pressureAt(t) >= 0.0 && sc.geometry.innerDiameter > 0.0 && sc.geometry.wallThickness > 0.0
      ==> SampleAt(sc, v0, t).volume >= v0
  {
    var s := SampleAt(sc, v0, t);
    var p, d, w, modulus := sc.pressureAt(t), sc.geometry.innerDiameter, sc.geometry.wallThickness, sc.material.elasticModulus;
    if sc.includeDeformation && v0 > 0.0 && modulus > 0.0 && p >= 0.0 && d > 0.0 && w > 0.0 {
      var pd := p * d;
      assert pd >= 0.0;
      assert s.axial * (4.0 * w) == pd;
      assert s.axial >= 0.0;
      assert s.hoop >= 0.0;
      var growth := 2.0 * (s.hoop / modulus) + s.axial / modulus;
      assert growth >= 0.0;
      assert s.volume == v0 * (1.0 + growth);
      assert v0 * growth >= 0.0;
    }
  }

  /** The verdict and the time series a run watched on `detect` and sampled
      on `grid` leaves behind: with no downward crossing every grid time is
      kept and nothing failed; with one, the failure time lies in the first
      crossing step, its safety factor is at most 1, and it is the last
      sample, after the grid times up to it. */
  ghost predicate Verdict(sc: Scenario, detect: seq<real>, grid: seq<real>, phase: Phase, failed: bool,
                          failureTime: Option<real>, failureMode: Option<string>, time: seq<real>)
    requires Admissible(sc) && Runnable(sc)
  {
    match FirstCrossing(sc, detect, 1)
    case None =>
      phase == Completed && !failed && failureTime.None? && failureMode.None? && time == grid
    case Some(k) =>
      && phase == FailureDetected && failed && failureMode == Some(YieldExceeded)
      && failureTime.Some? && detect[k - 1] <= failureTime.value <= detect[k]
      && Margin(sc, failureTime.value).AtMost(Fin(0.0))
      && time == UpTo(grid, failureTime.value) + [failureTime.value]
  }

  /** t lies in step k, the first downward-crossing step of the grid, and the
      margin there is at most zero. */
  ghost predicate RefinedCrossing(sc: Scenario, grid: seq<real>, k: nat, t: real)
    requires Admissible(sc) && Runnable(sc)
  {
    && FirstCrossing(sc, grid, 1) == Some(k) && k < |grid|
    && grid[k - 1] <= t <= grid[k] && Margin(sc, t).AtMost(Fin(0.0))
  }

  /** A crossing refined to t inside the first downward-crossing step yields
      the failure verdict, with the grid times up to t and then t recorded. */
  lemma FailureVerdict(sc: Scenario, detect: seq<real>, grid: seq<real>, k: nat, t: real)
    requires Admissible(sc) && Runnable(sc) && RefinedCrossing(sc, detect, k, t)
    ensures Verdict(sc, detect, grid, FailureDetected, true, Some(t), Some(YieldExceeded), UpTo(grid, t) + [t])
  {
  }

  /** The recorded times are empty exactly when the grid is and no failure
      is detected: a detected failure always records its failure time. */
  lemma VerdictEmpty(sc: Scenario, detect: seq<real>, grid: seq<real>, phase: Phase, failed: bool,
                     failureTime: Option<real>, failureMode: Option<string>, time: seq<real>)
    requires Admissible(sc) && Runnable(sc)
    requires Verdict(sc, detect, grid, phase, failed, failureTime, failureMode, time)
    ensures |time| == 0 <==> |grid| == 0 && FirstCrossing(sc, detect, 1).None?
  {
    match FirstCrossing(sc, detect, 1)
    case None =>
    case Some(k) =>
      assert |time| == |UpTo(grid, failureTime.value)| + 1;
  }

  /** The tracker's lifecycle. */
  datatype Phase = Integrating | FailureDetected | Completed | Raised(error: string)

  /** The literal failure mode stored whenever a failure is detected. */
  const YieldExceeded: string := "Yield exceeded"

  /** `simulate_system_dynamics` and the `SystemState` it fills. */
  class FailureTracker {
    const sc: Scenario
    var phase: Phase
    var lengthWarning: bool
    var time: seq<real>
    var pressure: seq<real>
    var temperature: seq<real>
    var volume: seq<real>
    var hoopStress: seq<real>
    var axialStress: seq<real>
    var vonMisesStress: seq<real>
    var safetyFactor: seq<Ext>
    var strainHoop: seq<real>
    var failed: bool
    var failureTime: Option<real>
    var failureMode: Option<string>

    /** The nine series have one entry per retained time. */
    predicate Aligned()
      reads this`time, this`pressure, this`temperature, this`volume, this`hoopStress
      reads this`axialStress, this`vonMisesStress, this`safetyFactor, this`strainHoop
    {
      |pressure| == |time| && |temperature| == |time| && |volume| == |time|
      && |hoopStress| == |time| && |axialStress| == |time| && |vonMisesStress| == |time|
      && |safetyFactor| == |time| && |strainHoop| == |time|
    }

    /** Entry i of the nine series, as one sample. */
    function Row(i: nat): Sample
      requires Aligned() && i < |time|
      reads this`time, this`pressure, this`temperature, this`volume, this`hoopStress
      reads this`axialStress, this`vonMisesStress, this`safetyFactor, this`strainHoop
    {
      Sample(time[i], pressure[i], temperature[i], volume[i], hoopStress[i], axialStress[i],
             vonMisesStress[i], safetyFactor[i], strainHoop[i])
    }

    /** Every row is what the recording loop computes for its time. */
    ghost predicate Recorded(v0: real)
      reads this`time, this`pressure, this`temperature, this`volume, this`hoopStress
      reads this`axialStress, this`vonMisesStress, this`safetyFactor, this`strainHoop
    {
      Admissible(sc) && Runnable(sc) && Aligned()
      && forall i :: 0 <= i < |time| ==> Row(i) == SampleAt(sc, v0, time[i])
    }

    constructor(scenario: Scenario)
      ensures sc == scenario && phase == Integrating
      ensures time == [] && Aligned() && !failed && failureTime.None? && failureMode.None?
    {
      sc := scenario;
      phase := Integrating;
      lengthWarning := false;
      time, pressure, temperature, volume := [], [], [], [];
      hoopStress, axialStress, vonMisesStress, safetyFactor, strainHoop := [], [], [], [], [];
      failed, failureTime, failureMode := false, None, None;
    }

    /** One pass of the recording loop: append the sample for t to each series. */
    method Record(v0: real, t: real)
      requires Admissible(sc) && Runnable(sc) && Aligned()
      modifies this
      ensures Aligned() && time == old(time) + [t]
      ensures forall i :: 0 <= i < |old(time)| ==> Row(i) == old(Row(i))
      ensures Row(|time| - 1) == SampleAt(sc, v0, t)
      ensures phase == old(phase) && lengthWarning == old(lengthWarning)
      ensures failed == old(failed) && failureTime == old(failureTime) && failureMode == old(failureMode)
    {
      var s := SampleAt(sc, v0, t);
      time := time + [t];
      pressure := pressure + [s.pressure];
      temperature := temperature + [s.temperature];
      volume := volume + [s.volume];
      hoopStress := hoopStress + [s.hoop];
      axialStress := axialStress + [s.axial];
      vonMisesStress := vonMisesStress + [s.vonMises];
      safetyFactor := safetyFactor + [s.safetyFactor];
      strainHoop := strainHoop + [s.strainHoop];
    }

    /** The scan that replaces the integrator's event detection: the first
        grid step whose margin crosses zero downward. */
    method Scan(grid: seq<real>) returns (found: Option<nat>)
      requires Admissible(sc) && Runnable(sc)
      ensures found == FirstCrossing(sc, grid, 1)
    {
      var k := 1;
      while k < |grid|
        invariant 1 <= k
        invariant FirstCrossing(sc, grid, k) == FirstCrossing(sc, grid, 1)
        decreases |grid| - k
      {
        if DownCrossing(Margin(sc, grid[k - 1]), Margin(sc, grid[k])) {
          return Some(k);
        }
        k := k + 1;
      }
      return None;
    }

    /** Bisection of a bracketing interval: the margin stays at least zero at
        the left end and at most zero at the right end while the width halves. */
    method Bisect(left: real, right: real, steps: nat) returns (lo: real, hi: real)
      requires Admissible(sc) && Runnable(sc) && left <= right
      requires DownCrossing(Margin(sc, left), Margin(sc, right))
      ensures left <= lo <= hi <= right
      ensures DownCrossing(Margin(sc, lo), Margin(sc, hi))
      ensures hi - lo == Halved(right - left, steps)
    {
      lo, hi := left, right;
      var i := 0;
      while i < steps
        invariant 0 <= i <= steps
        invariant left <= lo <= hi <= right
        invariant DownCrossing(Margin(sc, lo), Margin(sc, hi))
        invariant hi - lo == Halved(right - left, i)
      {
        var mid := (lo + hi) / 2.0;
        if Margin(sc, mid).AtMost(Fin(0.0)) {
          hi := mid;
        } else {
          lo := mid;
        }
        i := i + 1;
      }
    }

    /** The failure time the event machinery reports on a sorted grid: the
        refined right end of the first downward-crossing step, if any. */
    method Locate(grid: seq<real>) returns (crossing: Option<real>)
      requires Admissible(sc) && Runnable(sc)
      requires forall i, j :: 0 <= i <= j < |grid| ==> grid[i] <= grid[j]
      ensures crossing.None? <==> FirstCrossing(sc, grid, 1).None?
      ensures crossing.Some? ==>
        var k := FirstCrossing(sc, grid, 1).value;
        && grid[k - 1] <= crossing.value <= grid[k]
        && Margin(sc, crossing.value).AtMost(Fin(0.0))
    {
      var found := Scan(grid);
      if found.None? {
        return None;
      }
      var k := found.value;
      var lo, hi := Bisect(grid[k - 1], grid[k], RefinementSteps);
      return Some(hi);
    }

    /** The tracker holds the verdict and the times of a run watched on
        `detect` and sampled on `grid`. */
    ghost predicate Reports(detect: seq<real>, grid: seq<real>)
      requires Admissible(sc) && Runnable(sc)
      reads this`phase, this`failed, this`failureTime, this`failureMode, this`time
    {
      Verdict(sc, detect, grid, phase, failed, failureTime, failureMode, time)
    }

    /** The whole run: validation, then detection on the detection grid and
        recording on the output grid. */
    method Run(history: seq<real>, endTime: Option<real>, maxStep: real)
      requires Admissible(sc) && phase == Integrating && time == [] && Aligned()
      requires !failed && failureTime.None? && failureMode.None?
      requires endTime.Some? || |history| > 0
      requires maxStep > 0.0 && EndTime(history, endTime) >= 0.0
      modifies this
      ensures lengthWarning == sc.geometry.length.None?
      ensures !Runnable(sc) ==> phase == Raised(RaisedError(sc)) && time == [] && Aligned()
      ensures Runnable(sc) ==>
        && Reports(DetectionGrid(history, endTime, maxStep), TimeGrid(history, endTime, maxStep))
        && Recorded(InitialVolume(sc.e, sc.geometry))
    {
      lengthWarning := sc.geometry.length.None?;
      var v0 := InitialVolume(sc.e, sc.geometry);
      if !Runnable(sc) {
        phase := Raised(RaisedError(sc));
        return;
      }
      DetectionGridSpans(history, endTime, maxStep);
      Simulate(DetectionGrid(history, endTime, maxStep), TimeGrid(history, endTime, maxStep), v0);
    }

    /** Detection on a sorted grid, then recording on the output grid. */
    method Simulate(detect: seq<real>, grid: seq<real>, v0: real)
      requires Admissible(sc) && Runnable(sc) && phase == Integrating && time == [] && Aligned()
      requires !failed && failureTime.None? && failureMode.None?
      requires forall i, j :: 0 <= i <= j < |detect| ==> detect[i] <= detect[j]
      modifies this
      ensures Reports(detect, grid) && Recorded(v0)
      ensures lengthWarning == old(lengthWarning)
    {
      var crossing := Locate(detect);
      if crossing.Some? {
        Fail(detect, grid, v0, FirstCrossing(sc, detect, 1).value, crossing.value);
      } else {
        Complete(detect, grid, v0);
      }
    }

    /** No crossing: every grid time is recorded and the run completes. */
    method Complete(detect: seq<real>, grid: seq<real>, v0: real)
      requires Admissible(sc) && Runnable(sc) && time == [] && Aligned()
      requires !failed && failureTime.None? && failureMode.None?
      requires FirstCrossing(sc, detect, 1).None?
      modifies this
      ensures Reports(detect, grid) && Recorded(v0)
      ensures lengthWarning == old(lengthWarning)
    {
      phase := Completed;
      RecordAll(v0, grid);
    }

    /** A crossing refined to t: the grid times up to t and then t itself are
        recorded, and the failure verdict is set. */
    method Fail(detect: seq<real>, grid: seq<real>, v0: real, ghost k: nat, t: real)
      requires Admissible(sc) && Runnable(sc) && time == [] && Aligned()
      requires RefinedCrossing(sc, detect, k, t)
      modifies this
      ensures Reports(detect, grid) && Recorded(v0)
      ensures lengthWarning == old(lengthWarning)
    {
      var times := UpTo(grid, t) + [t];
      FailureVerdict(sc, detect, grid, k, t);
      phase, failed, failureTime, failureMode := FailureDetected, true, Some(t), Some(YieldExceeded);
      RecordAll(v0, times);
    }

    /** The recording loop over the retained times. */
    method RecordAll(v0: real, times: seq<real>)
      requires Admissible(sc) && Runnable(sc) && time == [] && Aligned()
      modifies this
      ensures time == times && Recorded(v0)
      ensures phase == old(phase) && lengthWarning == old(lengthWarning)
      ensures failed == old(failed) && failureTime == old(failureTime) && failureMode == old(failureMode)
    {
      var i := 0;
      while i < |times|
        invariant 0 <= i <= |times|
        invariant time == times[..i]
        invariant Recorded(v0)
        invariant phase == old(phase) && lengthWarning == old(lengthWarning)
        invariant failed == old(failed) && failureTime == old(failureTime) && failureMode == old(failureMode)
      {
        Record(v0, times[i]);
        assert times[..i + 1] == times[..i] + [times[i]];
        i := i + 1;
      }
      assert times[..|times|] == times;
    }
  }
}
