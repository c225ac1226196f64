/** The combustion front end: the input validator, the records of a run that
    fails validation or raises in the solver, the mixture set-up, and the
    sampling of the reactor with the derived peak and pressure rise rate.
    The kinetics solver itself is a parameter.
 */
module Combustion {
  import opened Wrappers
  import opened Analytic

  // ---------------------------------------------------------- input checks

  /** The input checks, in the order they are tried. */
  datatype InputIssue =
    | NonPositiveVolume
    | VolumeAboveBottleRange
    | NonPositiveMixRatio
    | MixRatioOutOfRange
    | TemperatureOutOfRange
    | PressureOutOfRange

  /** The position of a check in the order they are tried. */
  function Position(k: InputIssue): nat
  {
    match k
    case NonPositiveVolume => 0
    case VolumeAboveBottleRange => 1
    case NonPositiveMixRatio => 2
    case MixRatioOutOfRange => 3
    case TemperatureOutOfRange => 4
    case PressureOutOfRange => 5
  }

  /** Whether a check, taken on its own, rejects the inputs. */
  predicate Rejects(k: InputIssue, volume: real, mixRatio: real, t0: real, p0: real)
  {
    match k
    case NonPositiveVolume => volume <= 0.0
    case VolumeAboveBottleRange => volume > 0.01
    case NonPositiveMixRatio => mixRatio <= 0.0
    case MixRatioOutOfRange => mixRatio < 0.5 || mixRatio > 10.0
    case TemperatureOutOfRange => t0 < 200.0 || t0 > 500.0
    case PressureOutOfRange => p0 < 5000.0 || p0 > 500000.0
  }

  /** The accepted inputs: closed ranges, the volume up to a 10 litre bottle. */
  predicate InRange(volume: real, mixRatio: real, t0: real, p0: real)
  {
    && 0.0 < volume <= 0.01
    && 0.5 <= mixRatio <= 10.0
    && 200.0 <= t0 <= 500.0
    && 5000.0 <= p0 <= 500000.0
  }

  /** The check `validate_combustion_inputs` reports: the first one that
      rejects the inputs, or none exactly when they are in range. */
  function FirstIssue(volume: real, mixRatio: real, t0: real, p0: real): (r: Option<InputIssue>)
    ensures r.None? <==> InRange(volume, mixRatio, t0, p0)
    ensures r.Some? ==> Rejects(r.value, volume, mixRatio, t0, p0)
    ensures r.Some? ==> forall k :: Position(k) < Position(r.value) ==> !Rejects(k, volume, mixRatio, t0, p0)
  {
    if volume <= 0.0 then Some(NonPositiveVolume)
    else if volume > 0.01 then Some(VolumeAboveBottleRange)
    else if mixRatio <= 0.0 then Some(NonPositiveMixRatio)
    else if mixRatio < 0.5 || mixRatio > 10.0 then Some(MixRatioOutOfRange)
    else if t0 < 200.0 || t0 > 500.0 then Some(TemperatureOutOfRange)
    else if p0 < 5000.0 || p0 > 500000.0 then Some(PressureOutOfRange)
    else None
  }

  /** The message of a check, each naming the value it rejected as `show`
      prints it. */
  function IssueMessage(show: real -> string, k: InputIssue, volume: real, mixRatio: real, t0: real, p0: real)
    : string
  {
    match k
    case NonPositiveVolume => "Volume must be positive, got " + show(volume) + " m³"
    case VolumeAboveBottleRange => "Volume " + show(volume) + " m³ exceeds typical PET bottle range (< 0.01 m³)"
    case NonPositiveMixRatio => "Mix ratio must be positive, got " + show(mixRatio)
    case MixRatioOutOfRange => "Mix ratio " + show(mixRatio) + " outside reasonable range [0.5, 10.0]"
    case TemperatureOutOfRange => "Initial temperature " + show(t0) + " K outside range [200, 500] K"
    case PressureOutOfRange => "Initial pressure " + show(p0) + " Pa outside range [5000, 500000] Pa"
  }

  /** `validate_combustion_inputs`: valid exactly for inputs in range, with
      "Inputs valid", otherwise the message of the first rejecting check. */
  function ValidateCombustionInputs(show: real -> string, volume: real, mixRatio: real, t0: real, p0: real)
    : (r: (bool, string))
    ensures r.0 <==> InRange(volume, mixRatio, t0, p0)
    ensures r.0 ==> r.1 == "Inputs valid"
    ensures !r.0 ==> exists k ::
      && Rejects(k, volume, mixRatio, t0, p0)
      && (forall j :: Position(j) < Position(k) ==> !Rejects(j, volume, mixRatio, t0, p0))
      && r.1 == IssueMessage(show, k, volume, mixRatio, t0, p0)
  {
    match FirstIssue(volume, mixRatio, t0, p0)
    case None => (true, "Inputs valid")
    case Some(k) => (false, IssueMessage(show, k, volume, mixRatio, t0, p0))
  }

  // ------------------------------------------------------------ the mixture

  /** What Python raises for a float division by zero. */
  const DivisionByZero: string := "float division by zero"

  /** The mole fractions of an H2:O2 = r:1 mixture. */
  datatype Mixture = Mixture(xH2: real, xO2: real)

  /** X_H2 = r/(r+1) and X_O2 = 1/(r+1); r = -1 divides by zero. */
  function MoleFractions(mixRatio: real): (x: Result<Mixture>)
    ensures x.Failure? <==> mixRatio == -1.0
    ensures x.Failure? ==> x.error == DivisionByZero
    ensures x.Success? ==> x.value.xH2 + x.value.xO2 == 1.0 && x.value.xH2 == mixRatio * x.value.xO2
  {
    if mixRatio + 1.0 == 0.0 then Failure(DivisionByZero)
    else
      var d := mixRatio + 1.0;
      DivAdd(mixRatio, 1.0, d);
      DivSelf(1.0, d);
      DivMul(1.0, mixRatio, d);
      Success(Mixture(mixRatio / d, 1.0 / d))
  }

  /** For a positive ratio both fractions lie strictly between 0 and 1. */
  lemma MoleFractionsProper(mixRatio: real)
    requires mixRatio > 0.0
    ensures var x := MoleFractions(mixRatio).value; 0.0 < x.xH2 < 1.0 && 0.0 < x.xO2 < 1.0
  {
    var x := MoleFractions(mixRatio).value;
    var d := mixRatio + 1.0;
    QuotientSign(1.0, d);
    assert x.xO2 * d == 1.0;
    ScaleOrder(1.0, x.xO2, d);
  }

  /** The spark: the gas is raised to at least 1200 K. */
  function IgnitionTemperature(t0: real): (r: real)
    ensures r >= t0 && r >= 1200.0
    ensures r == t0 || r == 1200.0
  {
    Max(t0, 1200.0)
  }

  // ------------------------------------------------------------- the solver

  /** The state the reactor starts from. */
  datatype ReactorSetup = ReactorSetup(
    mixture: Mixture, t0: real, p0: real, ignitionTemperature: real, volume: real)

  /** The kinetics solver: loading a mechanism, setting up the gas, the
      reactor and its network, and advancing the network to a time, giving
      the pressure and temperature there; each gives the text of what it
      raises. */
  datatype Kinetics = Kinetics(
    load: string -> Option<string>,
    prepare: ReactorSetup -> Option<string>,
    advance: (ReactorSetup, real) -> Result<(real, real)>)

  /** Every advance over the grid succeeds. */
  ghost predicate Advances(k: Kinetics, setup: ReactorSetup, times: seq<real>)
  {
    forall j :: 0 <= j < |times| ==> k.advance(setup, times[j]).Success?
  }

  /** Advance j is the first over the grid that raises. */
  ghost predicate FirstRaise(k: Kinetics, setup: ReactorSetup, times: seq<real>, j: int)
  {
    && 0 <= j < |times| && k.advance(setup, times[j]).Failure?
    && forall l :: 0 <= l < j ==> k.advance(setup, times[l]).Success?
  }

  /** The time loop: advance to every sample time in turn and record the
      pressure and temperature; the first advance that raises ends it. */
  method Sample(k: Kinetics, setup: ReactorSetup, times: seq<real>) returns (r: Result<(seq<real>, seq<real>)>)
    ensures r.Success? <==> Advances(k, setup, times)
    ensures r.Success? ==> |r.value.0| == |times| && |r.value.1| == |times|
    ensures r.Success? ==> forall j :: 0 <= j < |times| ==>
      r.value.0[j] == k.advance(setup, times[j]).value.0 && r.value.1[j] == k.advance(setup, times[j]).value.1
    ensures r.Failure? ==> exists j :: FirstRaise(k, setup, times, j) && k.advance(setup, times[j]) == Failure(r.error)
  {
    var pressures := new real[|times|](_ => 0.0);
    var temperatures := new real[|times|](_ => 0.0);
    var i := 0;
    while i < |times|
      invariant 0 <= i <= |times|
      invariant forall j :: 0 <= j < i ==> k.advance(setup, times[j]).Success?
      invariant forall j :: 0 <= j < i ==>
        pressures[j] == k.advance(setup, times[j]).value.0 && temperatures[j] == k.advance(setup, times[j]).value.1
    {
      var state := k.advance(setup, times[i]);
      if state.Failure? {
        return Failure(state.error);
      }
      pressures[i] := state.value.0;
      temperatures[i] := state.value.1;
      i := i + 1;
    }
    return Success((pressures[..], temperatures[..]));
  }

  // ---------------------------------------------------------- derived values

  /** `np.gradient` with uniform spacing dt: one-sided differences at the
      ends, central differences inside. */
  function Gradient(p: seq<real>, dt: real): (g: seq<real>)
    requires |p| >= 2 && dt != 0.0
    ensures |g| == |p|
  {
    var n := |p|;
    seq(n, i requires 0 <= i < n =>
      if i == 0 then (p[1] - p[0]) / dt
      else if i == n - 1 then (p[n - 1] - p[n - 2]) / dt
      else (p[i + 1] - p[i - 1]) / (2.0 * dt))
  }

  /** On a series that rises by s·dt per sample the gradient is s everywhere. */
  lemma GradientOfLinear(p: seq<real>, dt: real, a: real, s: real)
    requires |p| >= 2 && dt != 0.0
    requires forall i :: 0 <= i < |p| ==> p[i] == a + s * (i as real) * dt
    ensures forall i :: 0 <= i < |p| ==> Gradient(p, dt)[i] == s
  {
    var n := |p|;
    var g := Gradient(p, dt);
    forall i | 0 <= i < n
      ensures g[i] == s
    {
      if i == 0 {
        OneStep(p, dt, a, s, 0);
        DivideBack(p[1] - p[0], dt, s);
      } else if i == n - 1 {
        OneStep(p, dt, a, s, n - 2);
        DivideBack(p[n - 1] - p[n - 2], dt, s);
      } else {
        OneStep(p, dt, a, s, i - 1);
        OneStep(p, dt, a, s, i);
        assert s * (2.0 * dt) == p[i + 1] - p[i - 1];
        DivideBack(p[i + 1] - p[i - 1], 2.0 * dt, s);
      }
    }
  }

  /** Consecutive samples of a linear series differ by s·dt. */
  lemma OneStep(p: seq<real>, dt: real, a: real, s: real, i: nat)
    requires i + 1 < |p|
    requires forall i :: 0 <= i < |p| ==> p[i] == a + s * (i as real) * dt
    ensures p[i + 1] - p[i] == s * dt
  {
    assert p[i] == a + s * (i as real) * dt;
    assert p[i + 1] == a + s * ((i + 1) as real) * dt;
  }

  /** The largest magnitude of a non-empty series (`np.max(np.abs(...))`). */
  function MaxAbs(g: seq<real>): (r: real)
    requires |g| > 0
    ensures r >= 0.0
    ensures forall i :: 0 <= i < |g| ==> Abs(g[i]) <= r
    ensures exists i :: 0 <= i < |g| && Abs(g[i]) == r
  {
    var a := seq(|g|, i requires 0 <= i < |g| => Abs(g[i]));
    var r := SeqMax(a);
    assert a[0] >= 0.0;
    assert forall i :: 0 <= i < |g| ==> a[i] == Abs(g[i]) && a[i] <= r;
    r
  }

  // ---------------------------------------------------------------- the run

  /** `CombustionResult` without its conversion to a dictionary. */
  datatype CombustionResult = CombustionResult(
    time: seq<real>, pressure: seq<real>, temperature: seq<real>,
    peakPressure: real, maxDPdt: real, success: bool, message: string)

  /** The record of a run that does not produce series. */
  function FailedRun(message: string): (r: CombustionResult)
    ensures !r.success && r.message == message
    ensures r.time == [] && r.pressure == [] && r.temperature == []
    ensures r.peakPressure == 0.0 && r.maxDPdt == 0.0
  {
    CombustionResult([], [], [], 0.0, 0.0, false, message)
  }

  /** What numpy raises for `times[1]` on a single sample. */
  const SingleSampleError: string := "index 1 is out of bounds for axis 0 with size 1"

  /** The reactor's starting state for the given inputs. */
  function SetupOf(x: Mixture, volume: real, t0: real, p0: real): ReactorSetup
  {
    ReactorSetup(x, t0, p0, IgnitionTemperature(t0), volume)
  }

  /** What a run whose inputs pass validation raises before sampling, if
      anything, in the order the source meets it. */
  function SetupError(k: Kinetics, volume: real, mixRatio: real, t0: real, p0: real, mechanism: string)
    : (r: Option<string>)
    ensures k.load(mechanism).Some? ==> r == k.load(mechanism)
    ensures k.load(mechanism).None? && mixRatio == -1.0 ==> r == Some(DivisionByZero)
    ensures r.None? <==>
      (k.load(mechanism).None? && mixRatio != -1.0
       && k.prepare(SetupOf(MoleFractions(mixRatio).value, volume, t0, p0)).None?)
  {
    if k.load(mechanism).Some? then k.load(mechanism)
    else
      match MoleFractions(mixRatio)
      case Failure(msg) => Some(msg)
      case Success(x) => k.prepare(SetupOf(x, volume, t0, p0))
  }

  /** The sample spacing `times[1] - times[0]` of a grid of at least two
      samples, non-zero for a non-zero duration. */
  function Spacing(endTime: real, n: nat): (dt: real)
    requires n >= 2
    ensures dt == Linspace(0.0, endTime, n)[1] - Linspace(0.0, endTime, n)[0]
    ensures endTime != 0.0 ==> dt != 0.0
  {
    var step := endTime / (n - 1) as real;
    assert ((n - 1) as real) * step == endTime;
    Linspace(0.0, endTime, n)[1] - Linspace(0.0, endTime, n)[0]
  }

  /** The outcome of a run whose set-up succeeded: the series of the
      advances over `nPoints` samples from 0 to `endTime`, their peak and
      largest rise rate; or the record of what raised first: an advance, the
      peak of no samples, or the spacing of a single one. */
  ghost predicate Completed(k: Kinetics, setup: ReactorSetup, endTime: real, nPoints: nat, r: CombustionResult)
    requires nPoints >= 2 ==> endTime != 0.0
  {
    var times := Linspace(0.0, endTime, nPoints);
    && (r.success <==> nPoints >= 2 && Advances(k, setup, times))
    && (!Advances(k, setup, times) ==>
          exists j :: FirstRaise(k, setup, times, j)
            && r == FailedRun("Simulation failed: " + k.advance(setup, times[j]).error))
    && (Advances(k, setup, times) && nPoints == 0 ==> r == FailedRun("Simulation failed: " + EmptyReductionError))
    && (Advances(k, setup, times) && nPoints == 1 ==> r == FailedRun("Simulation failed: " + SingleSampleError))
    && (r.success ==>
          && r.time == times && |r.pressure| == nPoints && |r.temperature| == nPoints
          && (forall j :: 0 <= j < nPoints ==>
                r.pressure[j] == k.advance(setup, times[j]).value.0
                && r.temperature[j] == k.advance(setup, times[j]).value.1)
          && r.peakPressure in r.pressure
          && (forall j :: 0 <= j < nPoints ==> r.pressure[j] <= r.peakPressure)
          && r.maxDPdt == MaxAbs(Gradient(r.pressure, Spacing(endTime, nPoints)))
          && r.message == "Simulation completed successfully")
  }

  /** `simulate_combustion` with validation on or off. */
  method SimulateCombustion(show: real -> string, k: Kinetics, volume: real, mixRatio: real, t0: real, p0: real,
                            mechanism: string, endTime: real, nPoints: nat, validate: bool)
    returns (r: CombustionResult)
    requires nPoints >= 2 ==> endTime != 0.0
    ensures !r.success ==> r == FailedRun(r.message)
    ensures validate && !InRange(volume, mixRatio, t0, p0) ==>
      r == FailedRun("Input validation failed: " + ValidateCombustionInputs(show, volume, mixRatio, t0, p0).1)
    ensures (!validate || InRange(volume, mixRatio, t0, p0)) ==>
      match SetupError(k, volume, mixRatio, t0, p0, mechanism)
      case Some(msg) => r == FailedRun("Simulation failed: " + msg)
      case None => Completed(k, SetupOf(MoleFractions(mixRatio).value, volume, t0, p0), endTime, nPoints, r)
  {
    if validate {
      var (valid, msg) := ValidateCombustionInputs(show, volume, mixRatio, t0, p0);
      if !valid {
        return FailedRun("Input validation failed: " + msg);
      }
    }
    var failure := SetupError(k, volume, mixRatio, t0, p0, mechanism);
    if failure.Some? {
      return FailedRun("Simulation failed: " + failure.value);
    }
    var setup := SetupOf(MoleFractions(mixRatio).value, volume, t0, p0);
    var times := Linspace(0.0, endTime, nPoints);
    var sampled := Sample(k, setup, times);
    if sampled.Failure? {
      return FailedRun("Simulation failed: " + sampled.error);
    }
    var pressures, temperatures := sampled.value.0, sampled.value.1;
    if nPoints == 0 {
      return FailedRun("Simulation failed: " + EmptyReductionError);
    }
    var peak := SeqMax(pressures);
    if nPoints == 1 {
      return FailedRun("Simulation failed: " + SingleSampleError);
    }
    var maxDPdt := MaxAbs(Gradient(pressures, Spacing(endTime, nPoints)));
    return CombustionResult(times, pressures, temperatures, peak, maxDPdt, true, "Simulation completed successfully");
  }
}
