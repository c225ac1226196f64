/** The end-to-end pipeline: the combustion run and the failure tracker of
    the system integration, then the thick-wall (Lamé) solution at the peak
    pressure, the thick/thin comparison, the stress concentrations, the
    predicted failure location, the summary, the overall verdict and the
    warnings.
 */
module FullSimulation {
  import opened Wrappers
  import opened Analytic
  import opened Materials
  import opened ThinWall
  import opened Lame
  import opened Concentrations
  import opened FailureTracking
  import opened SystemIntegration

  /** `FullSimulationConfig`. */
  datatype FullSimulationConfig = FullSimulationConfig(
    volume: real,
    fuelOxidizerRatio: real,
    initialTemperature: real,
    initialPressure: real,
    combustionTime: real,
    vesselDiameter: real,
    vesselThickness: real,
    vesselLength: real,
    vesselMaterial: string,
    capType: string,
    includeThreads: bool,
    includeTransition: bool,
    failureCriterion: string,
    maxStep: real,
    nPointsFem: nat)

  /** A configuration with every field the source gives a default left at it. */
  function DefaultFullConfig(volume: real, ratio: real): (c: FullSimulationConfig)
    ensures c.volume == volume && c.fuelOxidizerRatio == ratio
    ensures c.initialTemperature == 300.0 && c.initialPressure == 101325.0 && c.combustionTime == 0.01
    ensures c.vesselDiameter == 0.095 && c.vesselThickness == 0.0003 && c.vesselLength == 0.30
    ensures c.vesselMaterial == "PET" && c.capType == "hemispherical"
    ensures c.includeThreads && !c.includeTransition
    ensures c.failureCriterion == "yield" && c.maxStep == 0.00001 && c.nPointsFem == 50
  {
    FullSimulationConfig(volume, ratio, 300.0, 101325.0, 0.01, 0.095, 0.0003, 0.30, "PET",
                         "hemispherical", true, false, "yield", 0.00001, 50)
  }

  /** The system-integration configuration built from a full one: the same
      gas, vessel and step, the material by name, and no separate system
      time. */
  function SystemConfigOf(c: FullSimulationConfig): (s: SimulationConfig)
  {
    SimulationConfig(c.volume, c.fuelOxidizerRatio, c.initialTemperature, c.initialPressure,
                     c.vesselDiameter, c.vesselThickness, c.vesselLength, Named(c.vesselMaterial),
                     c.combustionTime, None, c.maxStep, c.failureCriterion)
  }

  /** A vessel with positive radii, a positive step and a non-negative run time. */
  predicate Viable(c: FullSimulationConfig)
  {
    c.vesselDiameter > 0.0 && c.vesselThickness > 0.0 && c.maxStep > 0.0 && c.combustionTime >= 0.0
  }

  /** Every viable configuration can be handed to the system run. */
  lemma ViableIsCallable(c: FullSimulationConfig)
    requires Viable(c)
    ensures Callable(SystemConfigOf(c))
  {
  }

  // ---------------------------------------------------------------- warnings

  /** The warnings the pipeline can raise, with the numbers their texts show. */
  datatype Warning =
    | ThickWall(ratio: real, errorPercent: Option<real>)
    | FlatCap
    | Threads
    | LowMargin(margin: real)

  /** The position of each kind of warning in the list. */
  function Rank(w: Warning): nat
  {
    match w
    case ThickWall(_, _) => 0
    case FlatCap => 1
    case Threads => 2
    case LowMargin(_) => 3
  }

  /** The warnings of a run: a thick wall above t/D = 0.05, a cap spelt
      exactly "flat", threads included, and a safety margin below 2. */
  function Warnings(ratio: real, errorPercent: Option<real>, capType: string, includeThreads: bool, margin: Ext)
    : (ws: seq<Warning>)
    ensures ThickWall(ratio, errorPercent) in ws <==> ratio > MarginalRatio
    ensures FlatCap in ws <==> capType == "flat"
    ensures Threads in ws <==> includeThreads
    ensures margin.Below(2.0) <==> |ws| > 0 && ws[|ws| - 1].LowMargin?
    ensures forall i :: 0 <= i < |ws| && ws[i].LowMargin? ==> i == |ws| - 1 && Fin(ws[i].margin) == margin
    ensures forall i :: 0 <= i < |ws| && ws[i].ThickWall? ==> ws[i] == ThickWall(ratio, errorPercent)
  {
    (if ratio > MarginalRatio then [ThickWall(ratio, errorPercent)] else [])
    + (if capType == "flat" then [FlatCap] else [])
    + (if includeThreads then [Threads] else [])
    + (if margin.Below(2.0) then [LowMargin(margin.v)] else [])
  }

  /** The warnings come in the order thick wall, flat cap, threads, low
      margin, and none of them twice. */
  lemma WarningsOrdered(ratio: real, errorPercent: Option<real>, capType: string, includeThreads: bool,
                        margin: Ext, i: nat, j: nat)
    requires i < j < |Warnings(ratio, errorPercent, capType, includeThreads, margin)|
    ensures Rank(Warnings(ratio, errorPercent, capType, includeThreads, margin)[i])
          < Rank(Warnings(ratio, errorPercent, capType, includeThreads, margin)[j])
  {
    var a := if ratio > MarginalRatio then [ThickWall(ratio, errorPercent)] else [];
    var b := if capType == "flat" then [FlatCap] else [];
    var c := if includeThreads then [Threads] else [];
    var d := if margin.Below(2.0) then [LowMargin(margin.v)] else [];
    var ws := a + b + c + d;
    assert Warnings(ratio, errorPercent, capType, includeThreads, margin) == ws;
    assert forall k :: 0 <= k < |ws| ==> Rank(ws[k]) == RankAt(|a|, |b|, |c|, k);
    RankAtIncreasing(|a|, |b|, |c|, i, j);
  }

  /** The rank of entry k of a list made of blocks of sizes na, nb, nc and
      then the rest, each block holding one kind. */
  function RankAt(na: nat, nb: nat, nc: nat, k: nat): nat
  {
    if k < na then 0 else if k < na + nb then 1 else if k < na + nb + nc then 2 else 3
  }

  /** With blocks of at most one entry the ranks strictly increase. */
  lemma RankAtIncreasing(na: nat, nb: nat, nc: nat, i: nat, j: nat)
    requires na <= 1 && nb <= 1 && nc <= 1 && i < j
    requires j < na + nb + nc + 1
    ensures RankAt(na, nb, nc, i) < RankAt(na, nb, nc, j)
  {
  }

  // ------------------------------------------------------------- the verdict

  /** The safety factor with concentrations: the yield strength over the
      concentrated maximum stress; numpy's division by a zero stress gives
      +inf for the positive strengths of the catalogue. */
  function ConcentratedSafetyFactor(yieldStrength: real, sigmaMax: real): (r: Ext)
    ensures sigmaMax == 0.0 <==> r == Inf
    ensures sigmaMax != 0.0 ==> r.v * sigmaMax == yieldStrength
  {
    if sigmaMax == 0.0 then Inf else Fin(yieldStrength / sigmaMax)
  }

  /** For a positive strength and stress the factor is below 1 exactly when
      the concentrated stress exceeds the yield strength. */
  lemma ConcentratedFailureIffAboveYield(yieldStrength: real, sigmaMax: real)
    requires yieldStrength > 0.0 && sigmaMax > 0.0
    ensures ConcentratedSafetyFactor(yieldStrength, sigmaMax).Below(1.0) <==> sigmaMax > yieldStrength
  {
    var q := yieldStrength / sigmaMax;
    assert q * sigmaMax == yieldStrength;
    ScaleOrder(q, 1.0, sigmaMax);
    ScaleOrder(1.0, q, sigmaMax);
  }

  /** The overall verdict: failed, where, and the smallest safety factor. */
  datatype Assessment = Assessment(failed: bool, failureLocation: Option<string>, safetyMargin: Ext)

  /** Failure is the system run's failure or a concentrated safety factor
      below 1; the location is reported only on failure; the margin is the
      smaller of the two safety factors. */
  function Assess(systemFailed: bool, minSafetyFactor: Ext, concentrated: Ext, location: string)
    : (a: Assessment)
    ensures a.failed <==> systemFailed || concentrated.Below(1.0)
    ensures a.failureLocation.Some? <==> a.failed
    ensures a.failureLocation.Some? ==> a.failureLocation.value == location
    ensures a.safetyMargin.AtMost(minSafetyFactor) && a.safetyMargin.AtMost(concentrated)
    ensures a.safetyMargin == minSafetyFactor || a.safetyMargin == concentrated
  {
    var failed := systemFailed || concentrated.Below(1.0);
    Assessment(failed, if failed then Some(location) else None, MinExt(minSafetyFactor, concentrated))
  }

  /** A failure by concentration always comes with a low-margin warning. */
  lemma ConcentrationFailureWarns(systemFailed: bool, minSafetyFactor: Ext, concentrated: Ext, location: string,
                                  ratio: real, errorPercent: Option<real>, capType: string, includeThreads: bool)
    requires concentrated.Below(1.0)
    ensures Assess(systemFailed, minSafetyFactor, concentrated, location).failed
    ensures var margin := Assess(systemFailed, minSafetyFactor, concentrated, location).safetyMargin;
      var ws := Warnings(ratio, errorPercent, capType, includeThreads, margin);
      |ws| > 0 && ws[|ws| - 1].LowMargin? && ws[|ws| - 1].margin < 1.0
  {
    var margin := Assess(systemFailed, minSafetyFactor, concentrated, location).safetyMargin;
    assert margin.Fin? && margin.v <= concentrated.v;
    assert margin.Below(2.0);
  }

  // ------------------------------------------------------------ the analysis

  /** The summary statistics. */
  datatype Summary = Summary(
    peakPressure: real,
    peakTemperature: real,
    maxDPdt: real,
    minSafetyFactor: Ext,
    maxHoopStress: real,
    maxVonMisesStress: real,
    stressConcentrationFactor: real,
    maxStressWithConcentration: real,
    safetyFactorWithConcentration: Ext)

  /** What the FEM stage produces at the peak pressure. */
  datatype FemResult = FemResult(
    lame: LameProfile,
    comparison: Comparison,
    concentrations: MaxStress,
    failureLocationPredicted: string)

  /** What the FEM stage and the summary produce. */
  datatype Analysis = Analysis(fem: FemResult, summary: Summary, warnings: seq<Warning>, assessment: Assessment)

  /** The vessel of a full configuration. */
  function FullGeometry(c: FullSimulationConfig): (g: VesselGeometry)
    ensures g == GeometryOf(SystemConfigOf(c))
    ensures g.innerDiameter == c.vesselDiameter && g.wallThickness == c.vesselThickness
  {
    VesselGeometry(c.vesselDiameter, c.vesselThickness, Some(c.vesselLength))
  }

  /** The Lamé solution through the wall at a pressure, with the material's strains. */
  function WallProfile(e: Elementary, c: FullSimulationConfig, m: MaterialProperties, pressure: real)
    : (p: LameProfile)
    requires Lawful(e) && Viable(c) && m.elasticModulus != 0.0
    ensures Sized(p, c.nPointsFem)
  {
    var ri := c.vesselDiameter / 2.0;
    SolveLame(e, ri, ri + c.vesselThickness, pressure, 0.0, Some(m), c.nPointsFem)
  }

  /** The FEM stage at the peak pressure: the wall profile, the thick/thin
      comparison, the stress concentrations and the predicted location; an
      unknown cap type raises. */
  function FemStage(e: Elementary, c: FullSimulationConfig, m: MaterialProperties, peak: real)
    : (r: Result<FemResult>)
    requires Lawful(e) && Viable(c) && m.elasticModulus != 0.0
    requires Ratio(FullGeometry(c)) <= ThinWallThreshold
    ensures r.Failure? <==> EndCapFactor(c.capType).Failure?
    ensures r.Failure? ==> r.error == UnknownCapMessage(c.capType)
    ensures r.Success? ==>
      && r.value.lame == WallProfile(e, c, m, peak)
      && Success(r.value.comparison) == CompareThickThin(e, peak, FullGeometry(c), m)
      && Success(r.value.concentrations)
           == MaximumStress(e, peak, FullGeometry(c), c.capType, c.includeThreads, c.includeTransition)
      && Success(r.value.failureLocationPredicted) == EstimateFailureLocation(e, FullGeometry(c), c.capType)
  {
    var g := FullGeometry(c);
    var comparison := CompareThickThin(e, peak, g, m);
    match MaximumStress(e, peak, g, c.capType, c.includeThreads, c.includeTransition)
    case Failure(msg) => Failure(msg)
    case Success(conc) =>
      Success(FemResult(WallProfile(e, c, m, peak), comparison.value, conc,
                        EstimateFailureLocation(e, g, c.capType).value))
  }

  /** The summary: the peaks and the minimum of the system series, the
      maxima through the wall, the total factor and concentrated stress, and
      the safety factor with concentrations. */
  function Summarize(fem: FemResult, yieldStrength: real, pressure: seq<real>, temperature: seq<real>,
                     safety: seq<Ext>, maxDPdt: real)
    : (s: Summary)
    requires |pressure| > 0 && |temperature| > 0 && |safety| > 0
    requires |fem.lame.sigmaTheta| > 0 && |fem.lame.sigmaVm| > 0
    ensures s.peakPressure in pressure && forall i :: 0 <= i < |pressure| ==> pressure[i] <= s.peakPressure
    ensures s.peakTemperature in temperature
    ensures forall i :: 0 <= i < |temperature| ==> temperature[i] <= s.peakTemperature
    ensures s.minSafetyFactor in safety && forall i :: 0 <= i < |safety| ==> s.minSafetyFactor.AtMost(safety[i])
    ensures s.maxDPdt == maxDPdt
    ensures s.maxHoopStress in fem.lame.sigmaTheta
    ensures forall i :: 0 <= i < |fem.lame.sigmaTheta| ==> fem.lame.sigmaTheta[i] <= s.maxHoopStress
    ensures s.maxVonMisesStress in fem.lame.sigmaVm
    ensures forall i :: 0 <= i < |fem.lame.sigmaVm| ==> fem.lame.sigmaVm[i] <= s.maxVonMisesStress
    ensures s.stressConcentrationFactor == fem.concentrations.kTotal
    ensures s.maxStressWithConcentration == fem.concentrations.sigmaMax
    ensures s.safetyFactorWithConcentration == ConcentratedSafetyFactor(yieldStrength, fem.concentrations.sigmaMax)
  {
    Summary(SeqMax(pressure), SeqMax(temperature), maxDPdt, SeriesMinExt(safety),
            SeqMax(fem.lame.sigmaTheta), SeqMax(fem.lame.sigmaVm), fem.concentrations.kTotal,
            fem.concentrations.sigmaMax, ConcentratedSafetyFactor(yieldStrength, fem.concentrations.sigmaMax))
  }

  /** The FEM stage and the summary from the system run's series, then the
      verdict and the warnings; the maxima of an empty wall profile raise
      after the FEM stage. */
  function Analyse(e: Elementary, c: FullSimulationConfig, m: MaterialProperties, systemFailed: bool,
                   pressure: seq<real>, temperature: seq<real>, safety: seq<Ext>, maxDPdt: real)
    : (r: Result<Analysis>)
    requires Lawful(e) && Viable(c) && m.elasticModulus != 0.0
    requires Ratio(FullGeometry(c)) <= ThinWallThreshold
    requires |pressure| > 0 && |temperature| > 0 && |safety| > 0
    ensures r.Failure? <==> EndCapFactor(c.capType).Failure? || c.nPointsFem == 0
    ensures r.Failure? ==>
      r.error == if EndCapFactor(c.capType).Failure? then UnknownCapMessage(c.capType) else EmptyReductionError
    ensures r.Success? ==>
      var a := r.value;
      && FemStage(e, c, m, SeqMax(pressure)) == Success(a.fem)
      && a.summary == Summarize(a.fem, m.yieldStrength, pressure, temperature, safety, maxDPdt)
      && a.assessment == Assess(systemFailed, a.summary.minSafetyFactor, a.summary.safetyFactorWithConcentration,
                                a.fem.concentrations.location)
      && a.warnings == Warnings(c.vesselThickness / c.vesselDiameter, a.fem.comparison.errorPercent,
                                c.capType, c.includeThreads, a.assessment.safetyMargin)
  {
    match FemStage(e, c, m, SeqMax(pressure))
    case Failure(msg) => Failure(msg)
    case Success(fem) =>
      if c.nPointsFem == 0 then Failure(EmptyReductionError)
      else
        var summary := Summarize(fem, m.yieldStrength, pressure, temperature, safety, maxDPdt);
        var a := Assess(systemFailed, summary.minSafetyFactor, summary.safetyFactorWithConcentration,
                        fem.concentrations.location);
        Success(Analysis(fem, summary, Warnings(fem.comparison.thicknessRatio, fem.comparison.errorPercent,
                                                c.capType, c.includeThreads, a.safetyMargin), a))
  }

  /** Under a positive peak pressure the largest hoop stress through the wall
      is the bore value of the Lamé solution. */
  lemma PeakHoopAtBore(e: Elementary, c: FullSimulationConfig, m: MaterialProperties, peak: real)
    requires Lawful(e) && Viable(c) && m.elasticModulus != 0.0
    requires peak > 0.0 && c.nPointsFem > 0
    ensures SeqMax(WallProfile(e, c, m, peak).sigmaTheta) == WallProfile(e, c, m, peak).sigmaTheta[0]
  {
    var ri := c.vesselDiameter / 2.0;
    var ro := ri + c.vesselThickness;
    assert Radii(ri, ro) && ri < ro;
    assert WallProfile(e, c, m, peak) == SolveLame(e, ri, ro, peak, 0.0, Some(m), c.nPointsFem);
    BoreHoopIsMaximum(e, ri, ro, peak, 0.0, Some(m), c.nPointsFem);
  }

  /** With threads on a hemispherical cap and no neck transition the thread
      root carries the total factor 4.5, so any failure is reported there. */
  lemma ThreadedHemisphereFailsAtThreadRoot(e: Elementary, c: FullSimulationConfig, m: MaterialProperties,
                                            systemFailed: bool, pressure: seq<real>, temperature: seq<real>,
                                            safety: seq<Ext>, maxDPdt: real)
    requires Lawful(e) && Viable(c) && m.elasticModulus != 0.0
    requires Ratio(FullGeometry(c)) <= ThinWallThreshold
    requires |pressure| > 0 && |temperature| > 0 && |safety| > 0
    requires c.capType == "hemispherical" && c.includeThreads && !c.includeTransition && c.nPointsFem > 0
    ensures Analyse(e, c, m, systemFailed, pressure, temperature, safety, maxDPdt).Success?
    ensures var a := Analyse(e, c, m, systemFailed, pressure, temperature, safety, maxDPdt).value;
      a.summary.stressConcentrationFactor == 4.5
      && (a.assessment.failed ==> a.assessment.failureLocation == Some(ThreadLabel))
  {
    ThreadedHemisphere(e, SeqMax(pressure), FullGeometry(c));
  }

  // ------------------------------------------------------------ the pipeline

  /** A FEM-stage result together with the run that produced it. */
  datatype FullSimulationResult = FullSimulationResult(
    config: FullSimulationConfig,
    combustion: CombustionSeries,
    system: FailureTracker,
    analysis: Analysis)

  /** What makes `run_complete_simulation` raise, in order: anything the
      system run raises, an unknown cap type, an empty through-thickness
      profile. */
  function FullError(e: Elementary, c: FullSimulationConfig, comb: CombustionSeries): Option<string>
    requires Lawful(e) && Viable(c)
  {
    match RunError(e, SystemConfigOf(c), comb)
    case Some(msg) => Some(msg)
    case None =>
      if EndCapFactor(c.capType).Failure? then Some(UnknownCapMessage(c.capType))
      else if c.nPointsFem == 0 then Some(EmptyReductionError)
      else None
  }

  /** What a completed pipeline holds: the combustion series of its request;
      a fresh tracker on the scenario of the named material that holds the
      verdict and the series of the system run; and the analysis of those
      series. */
  ghost predicate Produced(e: Elementary, c: FullSimulationConfig, combust: CombustionRequest -> CombustionSeries,
                           res: FullSimulationResult)
    reads res.system
    requires Lawful(e) && Viable(c)
  {
    var sys := res.system;
    var s := SystemConfigOf(c);
    && res.config == c
    && res.combustion == combust(RequestOf(s))
    && GetMaterial(c.vesselMaterial).Success?
    && sys.sc == ScenarioOf(e, s, res.combustion, GetMaterial(c.vesselMaterial).value)
    && Admissible(sys.sc) && Runnable(sys.sc)
    && sys.Reports(SystemDetection(s, res.combustion), SystemGrid(s, res.combustion))
    && sys.Recorded(InitialVolume(e, sys.sc.geometry))
    && |sys.time| > 0
    && Analyse(e, c, GetMaterial(c.vesselMaterial).value, sys.failed, sys.pressure, sys.temperature,
               sys.safetyFactor, res.combustion.maxDPdt) == Success(res.analysis)
  }

  /** `run_complete_simulation` (without its progress output and timing). */
  method RunCompleteSimulation(e: Elementary, c: FullSimulationConfig, combust: CombustionRequest -> CombustionSeries)
    returns (r: Result<FullSimulationResult>)
    requires Lawful(e) && Viable(c)
    ensures r.Failure? <==> FullError(e, c, combust(RequestOf(SystemConfigOf(c)))).Some?
    ensures r.Failure? ==> r.error == FullError(e, c, combust(RequestOf(SystemConfigOf(c)))).value
    ensures r.Success? ==> fresh(r.value.system) && Produced(e, c, combust, r.value)
  {
    var sc := SystemConfigOf(c);
    ViableIsCallable(c);
    var run := RunFullSimulation(e, sc, combust);
    if run.Failure? {
      return Failure(run.error);
    }
    var comb, sys := run.value.0, run.value.1;
    assert RunError(e, sc, comb).None? && ResolveMaterial(sc.vesselMaterial) == GetMaterial(c.vesselMaterial);
    var m := GetMaterial(c.vesselMaterial).value;
    assert sys.sc.geometry == FullGeometry(c) && sys.sc.material == m;
    var analysis := Analyse(e, c, m, sys.failed, sys.pressure, sys.temperature, sys.safetyFactor, comb.maxDPdt);
    if analysis.Failure? {
      assert FullError(e, c, comb) == Some(analysis.error);
      return Failure(analysis.error);
    }
    assert FullError(e, c, comb).None?;
    return Success(FullSimulationResult(c, comb, sys, analysis.value));
  }
}
