/** The combustion-to-structure integration: one configuration drives the
    combustion run, the material lookup, the predicted burst pressure and
    the failure tracker; a parametric study repeats that for a list of
    values of one configuration field.

    The combustion run itself (a Cantera reactor) is not modelled: it is the
    parameter `combust`, a function from the request to the time series it
    produces.
 */
module SystemIntegration {
  import opened Wrappers
  import opened Analytic
  import opened Text
  import opened Materials
  import opened ThinWall
  import opened FailureTracking

  /** `vessel_material`: a catalogue name, or a record used as it is. */
  datatype MaterialChoice = Named(name: string) | Given(properties: MaterialProperties)

  /** `SimulationConfig`. */
  datatype SimulationConfig = SimulationConfig(
    vesselVolume: real,
    fuelOxidizerRatio: real,
    initialTemperature: real,
    initialPressure: real,
    vesselDiameter: real,
    vesselThickness: real,
    vesselLength: real,
    vesselMaterial: MaterialChoice,
    combustionTime: real,
    systemTime: Option<real>,
    maxStep: real,
    failureCriterion: string)

  /** A configuration with every field the source gives a default left at it. */
  function DefaultConfig(volume: real, ratio: real): (c: SimulationConfig)
    ensures c.vesselVolume == volume && c.fuelOxidizerRatio == ratio
    ensures c.initialTemperature == 300.0 && c.initialPressure == 101325.0
    ensures c.vesselDiameter == 0.095 && c.vesselThickness == 0.0003 && c.vesselLength == 0.30
    ensures c.vesselMaterial == Named("PET")
    ensures c.combustionTime == 0.01 && c.systemTime.None? && c.maxStep == 0.0001
    ensures c.failureCriterion == "yield"
  {
    SimulationConfig(volume, ratio, 300.0, 101325.0, 0.095, 0.0003, 0.30, Named("PET"),
                     0.01, None, 0.0001, "yield")
  }

  /** The arguments of the combustion call. */
  datatype CombustionRequest = CombustionRequest(
    volume: real, mixRatio: real, t0: real, p0: real, endTime: real, nPoints: nat)

  /** The combustion output the system run consumes: the samples, the
      pressure and temperature curves interpolated through them, and the
      largest pressure rise rate. */
  datatype CombustionSeries = CombustionSeries(
    time: seq<real>, pressure: seq<real>, temperature: seq<real>,
    pressureAt: real -> real, temperatureAt: real -> real, maxDPdt: real)

  /** The combustion request of a configuration: its gas state, its end time
      and `int(combustion_time / max_step)` points. */
  function RequestOf(c: SimulationConfig): (r: CombustionRequest)
    requires c.combustionTime >= 0.0 && c.maxStep > 0.0
  {
    CombustionRequest(c.vesselVolume, c.fuelOxidizerRatio, c.initialTemperature, c.initialPressure,
                      c.combustionTime, SampleCount(c.combustionTime, c.maxStep))
  }

  /** The vessel geometry of a configuration; the length is always given. */
  function GeometryOf(c: SimulationConfig): (g: VesselGeometry)
  {
    VesselGeometry(c.vesselDiameter, c.vesselThickness, Some(c.vesselLength))
  }

  /** A name is looked up in the catalogue; a record is used directly. */
  function ResolveMaterial(choice: MaterialChoice): (r: Result<MaterialProperties>)
    ensures choice.Given? ==> r == Success(choice.properties)
    ensures choice.Named? ==> r == GetMaterial(choice.name)
  {
    match choice
    case Named(name) => GetMaterial(name)
    case Given(m) => Success(m)
  }

  /** Every catalogue key resolves to its record, which is plausible, so in
      particular has a positive Young's modulus. */
  lemma NamedKeyResolves(i: nat)
    requires i < |ListAvailableMaterials()|
    ensures ResolveMaterial(Named(ListAvailableMaterials()[i])) == Success(Catalogue()[i].1)
    ensures Catalogue()[i].1.elasticModulus > 0.0
  {
    ListedKeysResolve(i);
  }

  /** The system run ends at `system_time`, or at `combustion_time` when none is given. */
  function SystemEndTime(c: SimulationConfig): (r: real)
  {
    if c.systemTime.Some? then c.systemTime.value else c.combustionTime
  }

  /** The scenario the failure tracker runs: the combustion curves, the
      configured geometry, material and criterion, and no deformation. */
  function ScenarioOf(e: Elementary, c: SimulationConfig, comb: CombustionSeries, m: MaterialProperties)
    : (sc: Scenario)
    ensures sc.e == e && sc.pressureAt == comb.pressureAt && sc.temperatureAt == comb.temperatureAt
    ensures sc.geometry == GeometryOf(c) && sc.material == m && sc.criterion == c.failureCriterion
    ensures !sc.includeDeformation
  {
    Scenario(e, comb.pressureAt, comb.temperatureAt, GeometryOf(c), m, c.failureCriterion, false)
  }

  /** What makes `run_full_simulation` raise, in the order it raises: an
      empty combustion series (its peak is printed), an unknown material
      name, a thick wall (from the burst-pressure prediction), an unknown
      failure criterion (from the system run), an empty system series (its
      peak is printed): a run shorter than one step in which no failure is
      detected. */
  function RunError(e: Elementary, c: SimulationConfig, comb: CombustionSeries): Option<string>
    requires Lawful(e) && Callable(c)
  {
    if |comb.pressure| == 0 || |comb.temperature| == 0 then Some(EmptyReductionError)
    else match ResolveMaterial(c.vesselMaterial)
    case Failure(msg) => Some(msg)
    case Success(m) =>
      match PredictFailurePressure(GeometryOf(c), m, c.failureCriterion)
      case Failure(msg) => Some(msg)
      case Success(_) =>
        if ParseCriterion(c.failureCriterion).Failure? then Some(ParseCriterion(c.failureCriterion).error)
        else if SystemEndTime(c) < c.maxStep
          && FirstCrossing(ScenarioOf(e, c, comb, m), SystemDetection(c, comb), 1).None?
        then Some(EmptyReductionError)
        else None
  }

  /** The call shapes the source needs: a lawful numerics bundle, a diameter
      and wall it can divide by, a positive step and non-negative run times,
      and a given material with a non-zero Young's modulus. */
  predicate Callable(c: SimulationConfig)
  {
    && c.vesselDiameter != 0.0 && c.vesselThickness != 0.0
    && c.maxStep > 0.0 && c.combustionTime >= 0.0 && SystemEndTime(c) >= 0.0
    && (c.vesselMaterial.Given? ==> c.vesselMaterial.properties.elasticModulus != 0.0)
  }

  /** The output grid of the system run of a configuration. */
  function SystemGrid(c: SimulationConfig, comb: CombustionSeries): seq<real>
    requires Callable(c)
  {
    TimeGrid(comb.time, Some(SystemEndTime(c)), c.maxStep)
  }

  /** The steps the failure event of the system run is watched on. */
  function SystemDetection(c: SimulationConfig, comb: CombustionSeries): seq<real>
    requires Callable(c)
  {
    DetectionGrid(comb.time, Some(SystemEndTime(c)), c.maxStep)
  }

  /** `run_full_simulation`: the combustion run, the material, the burst
      pressure check, then the failure tracker without deformation.  On
      success the tracker holds the verdict and the series of its scenario. */
  method RunFullSimulation(e: Elementary, c: SimulationConfig, combust: CombustionRequest -> CombustionSeries)
    returns (r: Result<(CombustionSeries, FailureTracker)>)
    requires Lawful(e) && Callable(c)
    ensures r.Failure? <==> RunError(e, c, combust(RequestOf(c))).Some?
    ensures r.Failure? ==> r.error == RunError(e, c, combust(RequestOf(c))).value
    ensures r.Success? ==>
      var (comb, sys) := r.value;
      && comb == combust(RequestOf(c))
      && |sys.time| > 0
      && ResolveMaterial(c.vesselMaterial).Success?
      && sys.sc == ScenarioOf(e, c, comb, ResolveMaterial(c.vesselMaterial).value)
      && Admissible(sys.sc) && Runnable(sys.sc)
      && sys.Reports(SystemDetection(c, comb), SystemGrid(c, comb))
      && sys.Recorded(InitialVolume(e, sys.sc.geometry))
      && !sys.lengthWarning
      && fresh(sys)
  {
    var comb := combust(RequestOf(c));
    if |comb.pressure| == 0 || |comb.temperature| == 0 {
      return Failure(EmptyReductionError);
    }
    var g := GeometryOf(c);
    var material := ResolveMaterial(c.vesselMaterial);
    if material.Failure? {
      return Failure(material.error);
    }
    var m := material.value;
    var burst := PredictFailurePressure(g, m, c.failureCriterion);
    if burst.Failure? {
      return Failure(burst.error);
    }
    var sc := ScenarioOf(e, c, comb, m);
    var sys := new FailureTracker(sc);
    sys.Run(comb.time, Some(SystemEndTime(c)), c.maxStep);
    if !Runnable(sc) {
      return Failure(RaisedError(sc));
    }
    VerdictEmpty(sc, SystemDetection(c, comb), SystemGrid(c, comb), sys.phase, sys.failed, sys.failureTime, sys.failureMode, sys.time);
    NoSamples(SystemEndTime(c), c.maxStep);
    if |sys.pressure| == 0 {
      return Failure(EmptyReductionError);
    }
    return Success((comb, sys));
  }

  /** The configuration fields a study may vary. */
  datatype Field =
    | VesselVolume | FuelOxidizerRatio | InitialTemperature | InitialPressure
    | VesselDiameter | VesselThickness | VesselLength | CombustionTime | SystemTime | MaxStep

  /** The source's attribute name of each field. */
  function FieldName(f: Field): string
  {
    match f
    case VesselVolume => "vessel_volume"
    case FuelOxidizerRatio => "fuel_oxidizer_ratio"
    case InitialTemperature => "initial_temperature"
    case InitialPressure => "initial_pressure"
    case VesselDiameter => "vessel_diameter"
    case VesselThickness => "vessel_thickness"
    case VesselLength => "vessel_length"
    case CombustionTime => "combustion_time"
    case SystemTime => "system_time"
    case MaxStep => "max_step"
  }

  /** The field an attribute name denotes, if any. */
  function FieldOf(name: string): (r: Option<Field>)
    ensures r.Some? ==> FieldName(r.value) == name
  {
    if name == "vessel_volume" then Some(VesselVolume)
    else if name == "fuel_oxidizer_ratio" then Some(FuelOxidizerRatio)
    else if name == "initial_temperature" then Some(InitialTemperature)
    else if name == "initial_pressure" then Some(InitialPressure)
    else if name == "vessel_diameter" then Some(VesselDiameter)
    else if name == "vessel_thickness" then Some(VesselThickness)
    else if name == "vessel_length" then Some(VesselLength)
    else if name == "combustion_time" then Some(CombustionTime)
    else if name == "system_time" then Some(SystemTime)
    else if name == "max_step" then Some(MaxStep)
    else None
  }

  /** Names and fields correspond one to one. */
  lemma FieldNamesParse(f: Field)
    ensures FieldOf(FieldName(f)) == Some(f)
  {
  }

  /** `getattr(config, name)` of one field. */
  function Get(c: SimulationConfig, f: Field): Option<real>
  {
    match f
    case VesselVolume => Some(c.vesselVolume)
    case FuelOxidizerRatio => Some(c.fuelOxidizerRatio)
    case InitialTemperature => Some(c.initialTemperature)
    case InitialPressure => Some(c.initialPressure)
    case VesselDiameter => Some(c.vesselDiameter)
    case VesselThickness => Some(c.vesselThickness)
    case VesselLength => Some(c.vesselLength)
    case CombustionTime => Some(c.combustionTime)
    case SystemTime => c.systemTime
    case MaxStep => Some(c.maxStep)
  }

  /** `setattr(config, name, value)` of one field. */
  function Set(c: SimulationConfig, f: Field, value: real): (r: SimulationConfig)
    ensures r.vesselMaterial == c.vesselMaterial && r.failureCriterion == c.failureCriterion
  {
    match f
    case VesselVolume => c.(vesselVolume := value)
    case FuelOxidizerRatio => c.(fuelOxidizerRatio := value)
    case InitialTemperature => c.(initialTemperature := value)
    case InitialPressure => c.(initialPressure := value)
    case VesselDiameter => c.(vesselDiameter := value)
    case VesselThickness => c.(vesselThickness := value)
    case VesselLength => c.(vesselLength := value)
    case CombustionTime => c.(combustionTime := value)
    case SystemTime => c.(systemTime := Some(value))
    case MaxStep => c.(maxStep := value)
  }

  /** Reading back the field just set gives the value set, and every other
      field keeps its value. */
  lemma GetSet(c: SimulationConfig, f: Field, g: Field, value: real)
    ensures Get(Set(c, f, value), f) == Some(value)
    ensures g != f ==> Get(Set(c, f, value), g) == Get(c, g)
  {
  }

  /** The copy a study runs: the named field replaced; a name that is no
      field only adds an attribute the run never reads, so the configuration
      is unchanged. */
  function WithField(c: SimulationConfig, name: string, value: real): (r: SimulationConfig)
    ensures r.vesselMaterial == c.vesselMaterial && r.failureCriterion == c.failureCriterion
    ensures FieldOf(name).None? ==> r == c
    ensures FieldOf(name).Some? ==> Get(r, FieldOf(name).value) == Some(value)
    ensures forall f :: Some(f) != FieldOf(name) ==> Get(r, f) == Get(c, f)
  {
    match FieldOf(name)
    case None => c
    case Some(f) => GetSet(c, f, f, value); Set(c, f, value)
  }

  /** One entry of the study: the value echoed and the outputs of its run. */
  datatype StudyRun = StudyRun(value: real, combustion: CombustionSeries, system: FailureTracker)

  /** The configurations of a study: the base with the named field set to
      each value in turn. */
  function Varied(base: SimulationConfig, name: string, values: seq<real>): (cs: seq<SimulationConfig>)
    ensures |cs| == |values|
    ensures forall i :: 0 <= i < |values| ==> cs[i] == WithField(base, name, values[i])
  {
    seq(|values|, i requires 0 <= i < |values| => WithField(base, name, values[i]))
  }

  /** Run i of a study, labelled with its value; `outs[i]` is the error it
      raises, if any. */
  method RunStudyEntry(e: Elementary, cs: seq<SimulationConfig>, values: seq<real>, i: nat,
                       combust: CombustionRequest -> CombustionSeries, ghost outs: seq<Option<string>>)
    returns (r: Result<StudyRun>)
    requires Lawful(e) && |cs| == |values| == |outs| && i < |cs|
    requires forall k :: 0 <= k < |cs| ==> Callable(cs[k]) && outs[k] == Outcome(e, cs[k], combust)
    ensures r.Failure? <==> outs[i].Some?
    ensures r.Failure? ==> r.error == outs[i].value
    ensures r.Success? ==> Echoes(r.value, values[i], cs[i], combust)
  {
    var run := RunFullSimulation(e, cs[i], combust);
    if run.Failure? {
      return Failure(run.error);
    }
    return Success(StudyRun(values[i], run.value.0, run.value.1));
  }

  /** `run_parametric_study`: one full run per value, in input order, each on
      a copy of the base configuration with only the named field changed.
      The first run that raises ends the study with its error. */
  method RunParametricStudy(e: Elementary, base: SimulationConfig, name: string, values: seq<real>,
                            combust: CombustionRequest -> CombustionSeries)
    returns (r: Result<seq<StudyRun>>)
    requires Lawful(e)
    requires forall i :: 0 <= i < |values| ==> Callable(Varied(base, name, values)[i])
    ensures StudyOutcome(r, Outcomes(e, Varied(base, name, values), combust), values, Varied(base, name, values), combust)
  {
    var cs := Varied(base, name, values);
    r := RunEach(e, cs, values, combust, Outcomes(e, cs, combust));
  }

  /** The error, if any, of the full run of one configuration. */
  function Outcome(e: Elementary, c: SimulationConfig, combust: CombustionRequest -> CombustionSeries): Option<string>
    requires Lawful(e) && Callable(c)
  {
    RunError(e, c, combust(RequestOf(c)))
  }

  /** The errors of the runs of a list of configurations. */
  function Outcomes(e: Elementary, cs: seq<SimulationConfig>, combust: CombustionRequest -> CombustionSeries)
    : (outs: seq<Option<string>>)
    requires Lawful(e) && forall i :: 0 <= i < |cs| ==> Callable(cs[i])
    ensures |outs| == |cs| && forall i :: 0 <= i < |cs| ==> outs[i] == Outcome(e, cs[i], combust)
  {
    seq(|cs|, i requires 0 <= i < |cs| => Outcome(e, cs[i], combust))
  }

  /** The outcome of running each configuration in turn: the error of the
      first one that raises, else one echoing entry per value, in order. */
  ghost predicate StudyOutcome(r: Result<seq<StudyRun>>, outs: seq<Option<string>>, values: seq<real>,
                               cs: seq<SimulationConfig>, combust: CombustionRequest -> CombustionSeries)
    requires |cs| == |values| == |outs| && forall i :: 0 <= i < |cs| ==> Callable(cs[i])
  {
    && (r.Success? ==> forall i :: 0 <= i < |outs| ==> outs[i].None?)
    && (r.Failure? ==>
          exists i :: 0 <= i < |outs|
            && (forall j :: 0 <= j < i ==> outs[j].None?)
            && outs[i] == Some(r.error))
    && (r.Success? ==> |r.value| == |values|)
    && (r.Success? ==> forall i :: 0 <= i < |values| ==> Echoes(r.value[i], values[i], cs[i], combust))
  }

  /** The loop of the study over its configurations. */
  method RunEach(e: Elementary, cs: seq<SimulationConfig>, values: seq<real>,
                 combust: CombustionRequest -> CombustionSeries, ghost outs: seq<Option<string>>)
    returns (r: Result<seq<StudyRun>>)
    requires Lawful(e) && |cs| == |values| == |outs|
    requires forall i :: 0 <= i < |cs| ==> Callable(cs[i]) && outs[i] == Outcome(e, cs[i], combust)
    ensures StudyOutcome(r, outs, values, cs, combust)
  {
    var results: seq<StudyRun> := [];
    var i := 0;
    while i < |values|
      invariant 0 <= i <= |values|
      invariant StudyPrefix(results, i, outs, values, cs, combust)
    {
      var run := RunStudyEntry(e, cs, values, i, combust, outs);
      if run.Failure? {
        StudyStops(results, i, outs, values, cs, combust, run.error);
        return Failure(run.error);
      }
      PrefixExtends(results, i, outs, values, cs, combust, run.value);
      results := results + [run.value];
      i := i + 1;
    }
    StudyCompletes(results, outs, values, cs, combust);
    return Success(results);
  }

  /** The first i runs succeeded and their entries, in order, are `results`. */
  ghost predicate StudyPrefix(results: seq<StudyRun>, i: nat, outs: seq<Option<string>>, values: seq<real>,
                              cs: seq<SimulationConfig>, combust: CombustionRequest -> CombustionSeries)
    requires i <= |cs| == |values| == |outs| && forall k :: 0 <= k < |cs| ==> Callable(cs[k])
  {
    && |results| == i
    && (forall j :: 0 <= j < i ==> outs[j].None?)
    && (forall j :: 0 <= j < i ==> Echoes(results[j], values[j], cs[j], combust))
  }

  /** A run that succeeds and echoes its entry extends the prefix by one. */
  lemma PrefixExtends(results: seq<StudyRun>, i: nat, outs: seq<Option<string>>, values: seq<real>,
                      cs: seq<SimulationConfig>, combust: CombustionRequest -> CombustionSeries, run: StudyRun)
    requires i < |cs| == |values| == |outs| && forall k :: 0 <= k < |cs| ==> Callable(cs[k])
    requires StudyPrefix(results, i, outs, values, cs, combust)
    requires outs[i].None? && Echoes(run, values[i], cs[i], combust)
    ensures StudyPrefix(results + [run], i + 1, outs, values, cs, combust)
  {
    var next := results + [run];
    assert forall j :: 0 <= j < i ==> next[j] == results[j];
  }

  /** A run that raises after a successful prefix is the study's outcome. */
  lemma StudyStops(results: seq<StudyRun>, i: nat, outs: seq<Option<string>>, values: seq<real>,
                   cs: seq<SimulationConfig>, combust: CombustionRequest -> CombustionSeries, error: string)
    requires i < |cs| == |values| == |outs| && forall k :: 0 <= k < |cs| ==> Callable(cs[k])
    requires StudyPrefix(results, i, outs, values, cs, combust)
    requires outs[i] == Some(error)
    ensures StudyOutcome(Failure(error), outs, values, cs, combust)
  {
  }

  /** A prefix covering every configuration is the study's outcome. */
  lemma StudyCompletes(results: seq<StudyRun>, outs: seq<Option<string>>, values: seq<real>,
                       cs: seq<SimulationConfig>, combust: CombustionRequest -> CombustionSeries)
    requires |cs| == |values| == |outs| && forall k :: 0 <= k < |cs| ==> Callable(cs[k])
    requires StudyPrefix(results, |cs|, outs, values, cs, combust)
    ensures StudyOutcome(Success(results), outs, values, cs, combust)
  {
  }

  /** A study entry echoes its value and holds the run of its configuration:
      the combustion series of its request, and a tracker on its geometry
      and criterion without deformation. */
  ghost predicate Echoes(run: StudyRun, value: real, c: SimulationConfig, combust: CombustionRequest -> CombustionSeries)
    requires Callable(c)
  {
    && run.value == value
    && run.combustion == combust(RequestOf(c))
    && run.system.sc.geometry == GeometryOf(c)
    && run.system.sc.criterion == c.failureCriterion
    && !run.system.sc.includeDeformation
  }

  /** Every configuration of a study keeps the base's material and
      criterion, and carries the value of its entry in the named field. */
  lemma VariedConfigs(base: SimulationConfig, f: Field, values: seq<real>, i: nat)
    requires i < |values|
    ensures Get(Varied(base, FieldName(f), values)[i], f) == Some(values[i])
    ensures Varied(base, FieldName(f), values)[i].failureCriterion == base.failureCriterion
    ensures Varied(base, FieldName(f), values)[i].vesselMaterial == base.vesselMaterial
  {
    FieldNamesParse(f);
  }

  /** The default target safety factor of the safe-pressure estimate. */
  const DefaultTargetSafetyFactor: real := 4.0

  /** `estimate_safe_operating_pressure`: the predicted failure pressure over
      the target safety factor. */
  function SafeOperatingPressure(g: VesselGeometry, m: MaterialProperties, target: real, criterion: string)
    : (r: Result<real>)
    requires g.innerDiameter != 0.0 && target != 0.0
    ensures r.Success? <==> PredictFailurePressure(g, m, criterion).Success?
    ensures r.Failure? ==> r.error == ThickWallError
    ensures r.Success? ==> r.value * target == PredictFailurePressure(g, m, criterion).value
  {
    match PredictFailurePressure(g, m, criterion)
    case Failure(msg) => Failure(msg)
    case Success(p) => Success(p / target)
  }

  /** With a target of at least 1 the safe pressure is at most the predicted
      failure pressure, and with the default target 4 it is a quarter of it. */
  lemma SafePressureBelowFailure(g: VesselGeometry, m: MaterialProperties, target: real, criterion: string)
    requires g.innerDiameter > 0.0 && g.wallThickness > 0.0 && Ratio(g) <= ThinWallThreshold
    requires Plausible(m) && target >= 1.0
    ensures SafeOperatingPressure(g, m, target, criterion).Success?
    ensures 0.0 < SafeOperatingPressure(g, m, target, criterion).value <= PredictFailurePressure(g, m, criterion).value
    ensures 4.0 * SafeOperatingPressure(g, m, DefaultTargetSafetyFactor, criterion).value
      == PredictFailurePressure(g, m, criterion).value
  {
    var p := PredictFailurePressure(g, m, criterion).value;
    var d := g.innerDiameter;
    var allow := if Lower(criterion) == "yield" then m.yieldStrength else m.tensileStrength;
    var x := 2.0 * allow * g.wallThickness;
    ProductSigns(2.0 * allow, g.wallThickness);
    DivideBack(x, d, p);
    QuotientSign(x, d);
    var s := SafeOperatingPressure(g, m, target, criterion).value;
    DivideBack(p, target, s);
    QuotientSign(p, target);
    ScaleOrder(1.0, target, s);
  }
}
