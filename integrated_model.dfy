/** The integrated hydrogen-generator model.

    `HydrogenGeneratorModel` joins a chemical model and a physical model built
    from one catalogue design, analyses a whole operating point, rates it
    against fixed thresholds, searches the optimal current and compares the
    prediction with the figures reported for the design.  The model object is
    never changed after construction, so it is a value; the assessment and
    the current search, which the source writes as appends and a search loop,
    are methods proved against the functions that specify them.
 */
module Integrated {
  import opened Wrappers
  import opened Analytic
  import opened Chemical
  import opened Physical
  import opened GeneratorRecord

  datatype HydrogenGeneratorModel = HydrogenGeneratorModel(
    config: GeneratorConfig,
    chemicalModel: ChemicalModel,
    physicalModel: PhysicalModel)

  /** The pressure the chemical model is built at (atm). */
  const OperatingPressure: real := 1.0

  /** The electrode stack of a design, with the default active fraction. */
  function ElectrodesOf(config: GeneratorConfig): ElectrodeConfig
  {
    ElectrodeConfig(config.electrodeMaterial, config.numberOfPlates, config.plateWidthMm,
                    config.plateHeightMm, config.plateThicknessMm, config.plateSpacingMm,
                    DefaultActiveAreaPercentage)
  }

  /** Both sub-models describe the design at its operating temperature. */
  predicate Coherent(m: HydrogenGeneratorModel)
  {
    && m.chemicalModel.temperatureCelsius == m.config.operatingTemperatureCelsius
    && m.chemicalModel.temperatureKelvin == m.chemicalModel.temperatureCelsius + 273.15
    && m.chemicalModel.pressureAtm == OperatingPressure
    && m.physicalModel.temperatureCelsius == m.config.operatingTemperatureCelsius
    && m.physicalModel.config == ElectrodesOf(m.config)
  }

  /** The constructor: a chemical model at 1 atm and a physical model of the
      design's plates, both at the design's operating temperature. */
  function NewGeneratorModel(config: GeneratorConfig): (m: HydrogenGeneratorModel)
    ensures m.config == config
    ensures Coherent(m)
    ensures m.physicalModel.config.activeAreaPercentage == DefaultActiveAreaPercentage
    ensures m.physicalModel.config.numberOfPlates == config.numberOfPlates
  {
    HydrogenGeneratorModel(
      config,
      NewChemicalModel(config.operatingTemperatureCelsius, OperatingPressure),
      PhysicalModel(ElectrodesOf(config), config.operatingTemperatureCelsius))
  }

  /** Python's `argument or default`: a missing or zero argument falls back
      to the configured value. */
  function Fallback(arg: Option<real>, default: real): (r: real)
  {
    if arg.Some? && arg.value != 0.0 then arg.value else default
  }

  /** The electrolyte conductivity of the design at the model's temperature. */
  function Conductivity(e: Elementary, m: HydrogenGeneratorModel): real
  {
    ElectrolyteConductivity(e, m.chemicalModel, m.config.naohConcentrationMolar)
  }

  /** What the analysis demands of an operating point: no division by zero
      voltage, area or resistance, a conducting electrolyte, a non-zero
      required voltage and a non-negative current density (a negative one
      raised to the power 1.2 is complex). */
  ghost predicate Operable(e: Elementary, m: HydrogenGeneratorModel, voltage: real, current: real)
  {
    && Lawful(e)
    && voltage != 0.0
    && Analysable(m.physicalModel, Conductivity(e, m))
    && TheoreticalVoltage(m.chemicalModel)
       + VoltageLosses(e, m.physicalModel, current, Conductivity(e, m)).total != 0.0
    && 0.0 <= CurrentDensity(m.physicalModel.config, current).maCm2
  }

  // ---------------------------------------------------------------- analysis

  datatype ConfigurationSummary = ConfigurationSummary(
    name: string, voltageV: real, currentA: real, powerW: real)

  datatype ChemicalSummary = ChemicalSummary(
    theoreticalVoltageV: real,
    thermoneutralVoltageV: real,
    thermodynamicEfficiency: real,
    h2ProductionLpm: real,
    h2ProductionLph: real,
    h2ProductionGHr: real,
    energyPerLiterKwh: real,
    electrolyteConductivitySm: real)

  datatype PhysicalSummary = PhysicalSummary(
    electrodeAreaCm2: real,
    currentDensityMaCm2: real,
    currentDensityStatus: string,
    isOptimalCurrentDensity: bool,
    totalResistanceOhms: real,
    requiredVoltageV: real,
    voltageMarginV: real,
    ohmicLossPercentage: real,
    bubbleCoveragePct: real,
    estimatedTempCelsius: real)

  datatype EfficiencySummary = EfficiencySummary(
    voltageEfficiency: real,
    faradaicEfficiency: real,
    overallEfficiency: real,
    energyEfficiency: real,
    efficiencyPercentage: real)

  datatype ThermalSummary = ThermalSummary(
    heatGenerationW: real,
    coolingRequiredW: real,
    temperatureRiseEstimateC: real)

  datatype Assessment = Assessment(rating: string, issues: seq<string>, recommendations: seq<string>)

  datatype Analysis = Analysis(
    configuration: ConfigurationSummary,
    chemical: ChemicalSummary,
    physical: PhysicalSummary,
    efficiency: EfficiencySummary,
    thermal: ThermalSummary,
    assessment: Assessment)

  /** The faradaic efficiency the analysis assumes. */
  const AssumedFaradaicEfficiency: real := 0.95
  /** The lower heating value of hydrogen (kWh/kg). */
  const H2EnergyContentLhv: real := 33.33
  /** The ambient temperature of the heating estimate (degrees Celsius). */
  const AnalysisAmbient: real := 25.0

  /** The configuration part of `analyze_performance`: the design's name
      and the operating point with its electrical power. */
  function ConfigurationAnalysis(m: HydrogenGeneratorModel, voltage: real, current: real): (s: ConfigurationSummary)
  {
    ConfigurationSummary(m.config.name, voltage, current, voltage * current)
  }

  /** The chemical part of `analyze_performance`: thermodynamics, the
      production at 95 % faradaic efficiency, energy per litre and the
      electrolyte conductivity. */
  function ChemicalAnalysis(e: Elementary, m: HydrogenGeneratorModel, voltage: real, current: real): (s: ChemicalSummary)
    requires voltage != 0.0
    ensures s.theoreticalVoltageV == TheoreticalVoltage(m.chemicalModel)
    ensures s.thermoneutralVoltageV == ThermoneutralVoltage()
    ensures s.thermodynamicEfficiency == TheoreticalEfficiency(m.chemicalModel, voltage) <= 1.0
    ensures s.h2ProductionLpm == HydrogenProductionRateFaraday(AssumedFaradaicEfficiency * current).litersPerMinuteStp
    ensures s.h2ProductionLph == 60.0 * s.h2ProductionLpm
    ensures s.h2ProductionGHr == HydrogenProductionRateFaraday(AssumedFaradaicEfficiency * current).gramsPerHour
    ensures s.energyPerLiterKwh == PowerConsumption(voltage, current).energyKwhPerLiterH2
    ensures s.electrolyteConductivitySm == Conductivity(e, m)
  {
    var production := ActualProductionRate(current, AssumedFaradaicEfficiency);
    ChemicalSummary(
      TheoreticalVoltage(m.chemicalModel), ThermoneutralVoltage(),
      TheoreticalEfficiency(m.chemicalModel, voltage),
      production.litersPerMinuteStp, production.litersPerHourStp, production.gramsPerHour,
      PowerConsumption(voltage, current).energyKwhPerLiterH2, Conductivity(e, m))
  }

  /** The physical part of `analyze_performance`: area, density and its
      band, resistance, required voltage and margin, bubbles and heating. */
  function PhysicalAnalysis(e: Elementary, m: HydrogenGeneratorModel, voltage: real, current: real): (s: PhysicalSummary)
    requires Operable(e, m, voltage, current)
    ensures s.electrodeAreaCm2 == ElectrodeSurfaceArea(m.physicalModel.config).totalActiveAreaCm2
    ensures s.currentDensityMaCm2 == CurrentDensity(m.physicalModel.config, current).maCm2
    ensures s.isOptimalCurrentDensity <==> 100.0 <= s.currentDensityMaCm2 <= 500.0
    ensures s.currentDensityStatus == DensityStatus(s.currentDensityMaCm2)
    ensures s.totalResistanceOhms == OhmicResistance(m.physicalModel, Conductivity(e, m)).total.v
    ensures s.requiredVoltageV == TheoreticalVoltage(m.chemicalModel)
      + VoltageLosses(e, m.physicalModel, current, Conductivity(e, m)).total
    ensures s.voltageMarginV == voltage - s.requiredVoltageV
    ensures s.ohmicLossPercentage == RequiredVoltage(e, m.physicalModel, current, Conductivity(e, m),
                                                     TheoreticalVoltage(m.chemicalModel)).ohmicPercentage
    ensures s.bubbleCoveragePct == 100.0 * BubbleEffects(e, m.physicalModel.config, current).value.coverageFraction
    ensures s.bubbleCoveragePct <= 100.0 * MaxCoverage
    ensures s.estimatedTempCelsius == TemperatureEffects(current, voltage, AnalysisAmbient).estimatedOperatingTempCelsius
    ensures s.estimatedTempCelsius <= TemperatureLimit
  {
    var pm := m.physicalModel;
    var conductivity := Conductivity(e, m);
    var density := CurrentDensity(pm.config, current);
    var required := RequiredVoltage(e, pm, current, conductivity, TheoreticalVoltage(m.chemicalModel));
    PhysicalSummary(
      ElectrodeSurfaceArea(pm.config).totalActiveAreaCm2,
      density.maCm2, density.status, density.isOptimal,
      OhmicResistance(pm, conductivity).total.v,
      required.totalRequired, voltage - required.totalRequired, required.ohmicPercentage,
      BubbleEffects(e, pm.config, current).value.coverageFraction * 100.0,
      TemperatureEffects(current, voltage, AnalysisAmbient).estimatedOperatingTempCelsius)
  }

  /** The efficiency part of `analyze_performance`: voltage efficiency times
      the assumed faradaic efficiency, and the energy in the hydrogen (lower
      heating value) over the electrical input, divided by 1 when there is
      no input. */
  function EfficiencyAnalysis(m: HydrogenGeneratorModel, voltage: real, current: real): (s: EfficiencySummary)
    requires voltage != 0.0
    ensures s.voltageEfficiency * voltage == TheoreticalVoltage(m.chemicalModel)
    ensures s.faradaicEfficiency == AssumedFaradaicEfficiency
    ensures s.overallEfficiency == s.voltageEfficiency * AssumedFaradaicEfficiency
    ensures s.efficiencyPercentage == 100.0 * s.overallEfficiency
    ensures s.energyEfficiency
         == EnergyRatio(HydrogenProductionRateFaraday(AssumedFaradaicEfficiency * current).gramsPerHour
                        / 1000.0 * H2EnergyContentLhv,
                        PowerConsumption(voltage, current).powerKw)
  {
    var production := ActualProductionRate(current, AssumedFaradaicEfficiency);
    var produced := production.gramsPerHour / 1000.0 * H2EnergyContentLhv;
    var input := PowerConsumption(voltage, current).powerKw;
    var voltageEfficiency := TheoreticalVoltage(m.chemicalModel) / voltage;
    var overall := voltageEfficiency * AssumedFaradaicEfficiency;
    EfficiencySummary(
      voltageEfficiency, AssumedFaradaicEfficiency, overall,
      EnergyRatio(produced, input), overall * 100.0)
  }

  /** The energy efficiency: the power in the hydrogen over the electrical
      input, or over 1 when there is no positive input. */
  function EnergyRatio(produced: real, input: real): (r: real)
    ensures 0.0 < input ==> r * input == produced
    ensures input <= 0.0 ==> r == produced
  {
    produced / (if input > 0.0 then input else 1.0)
  }

  /** The thermal part of `analyze_performance`: heat above the
      thermoneutral voltage, the cooling it needs and the hourly rise. */
  function ThermalAnalysis(voltage: real, current: real): (s: ThermalSummary)
    ensures s.heatGenerationW + ThermoneutralVoltage() * current == voltage * current
    ensures s.coolingRequiredW == Max(0.0, s.heatGenerationW)
    ensures s.temperatureRiseEstimateC * SpecificHeatWater == 0.3 * voltage * current * 3600.0
  {
    var thermal := ThermalEffects(voltage, current);
    var heating := TemperatureEffects(current, voltage, AnalysisAmbient);
    ThermalSummary(thermal.heatGenerationWatts, thermal.coolingRequiredWatts, heating.tempRisePerHourCelsius)
  }

  /** `analyze_performance`: every part of the analysis at the given or the
      configured operating point, rated by the assessment. */
  function AnalyzePerformance(e: Elementary, m: HydrogenGeneratorModel, voltage: Option<real>, current: Option<real>): (a: Analysis)
    requires Operable(e, m, Fallback(voltage, m.config.voltageVolts), Fallback(current, m.config.currentAmperes))
    ensures var v, i := Fallback(voltage, m.config.voltageVolts), Fallback(current, m.config.currentAmperes);
      && a.configuration == ConfigurationAnalysis(m, v, i)
      && a.chemical == ChemicalAnalysis(e, m, v, i)
      && a.physical == PhysicalAnalysis(e, m, v, i)
      && a.efficiency == EfficiencyAnalysis(m, v, i)
      && a.thermal == ThermalAnalysis(v, i)
    ensures a.assessment == Assess(a.physical.isOptimalCurrentDensity, a.efficiency.overallEfficiency,
                                   a.physical.voltageMarginV, a.physical.estimatedTempCelsius)
  {
    var v, i := Fallback(voltage, m.config.voltageVolts), Fallback(current, m.config.currentAmperes);
    var physical := PhysicalAnalysis(e, m, v, i);
    var efficiency := EfficiencyAnalysis(m, v, i);
    Analysis(
      ConfigurationAnalysis(m, v, i),
      ChemicalAnalysis(e, m, v, i), physical, efficiency, ThermalAnalysis(v, i),
      Assess(physical.isOptimalCurrentDensity, efficiency.overallEfficiency,
             physical.voltageMarginV, physical.estimatedTempCelsius))
  }

  /** The overall efficiency is the thermodynamic one times the faradaic
      efficiency, unless the thermodynamic one is capped at 1. */
  lemma OverallMatchesThermodynamic(m: HydrogenGeneratorModel, voltage: real, current: real)
    requires voltage != 0.0
    ensures var thermodynamic := TheoreticalEfficiency(m.chemicalModel, voltage);
      || EfficiencyAnalysis(m, voltage, current).overallEfficiency == AssumedFaradaicEfficiency * thermodynamic
      || thermodynamic == 1.0
  {
    var s := EfficiencyAnalysis(m, voltage, current);
    var thermodynamic := TheoreticalEfficiency(m.chemicalModel, voltage);
    if thermodynamic != 1.0 {
      assert thermodynamic == TheoreticalVoltage(m.chemicalModel) / voltage;
      DivideBack(TheoreticalVoltage(m.chemicalModel), voltage, s.voltageEfficiency);
    }
  }

  /** The energy efficiency at a positive operating point depends on the
      voltage only: about 1.19 V divided by the applied voltage. */
  lemma EnergyEfficiencyByVoltage(m: HydrogenGeneratorModel, voltage: real, current: real)
    requires 0.0 < voltage && 0.0 < current
    ensures EfficiencyAnalysis(m, voltage, current).energyEfficiency * voltage
      == AssumedFaradaicEfficiency * 3600.0 * MolarMassH2 * H2EnergyContentLhv / (2.0 * FaradayConstant)
  {
    var s := EfficiencyAnalysis(m, voltage, current);
    var p := HydrogenProductionRateFaraday(AssumedFaradaicEfficiency * current);
    var k := AssumedFaradaicEfficiency * 3600.0 * MolarMassH2 * H2EnergyContentLhv / (2.0 * FaradayConstant);
    var input := PowerConsumption(voltage, current).powerKw;
    ProductSigns(voltage, current);
    var produced := p.gramsPerHour / 1000.0 * H2EnergyContentLhv;
    assert s.energyEfficiency * input == produced;
    HydrogenEnergy(p.molesPerSecond, p.gramsPerHour, produced, AssumedFaradaicEfficiency, current,
                   2.0 * FaradayConstant, MolarMassH2, H2EnergyContentLhv);
    CancelCurrent(s.energyEfficiency, voltage, current, input, produced, k);
  }

  /** The hydrogen energy per hour in kWh is k times the current over 1000,
      k = a 3600 M H / d, when the molar rate is a times the current over d. */
  lemma HydrogenEnergy(perSecond: real, grams: real, produced: real, a: real, current: real,
                       d: real, molar: real, heating: real)
    requires d != 0.0 && perSecond * d == a * current
    requires grams == 3600.0 * perSecond * molar && produced == grams / 1000.0 * heating
    ensures produced * 1000.0 == (a * 3600.0 * molar * heating / d) * current
  {
    var q := a * current / d;
    assert perSecond == q;
    assert (a * 3600.0 * molar * heating / d) * current == 3600.0 * molar * heating * q;
  }

  /** x v is k when x times the input power in kW is the produced energy and
      both are proportional to the same positive current. */
  lemma CancelCurrent(x: real, v: real, current: real, input: real, produced: real, k: real)
    requires 0.0 < current && x * input == produced
    requires input * 1000.0 == v * current && produced * 1000.0 == k * current
    ensures x * v == k
  {
    assert (x * v) * current == x * (input * 1000.0);
  }

  // ---------------------------------------------------------------- assessment

  /** The concerns `_assess_performance` may raise, in the order it checks them. */
  datatype Concern =
    | OffOptimalDensity
    | LowEfficiency
    | InsufficientVoltage
    | ExcessiveVoltage
    | HighTemperature
    | LowTemperature

  const OffOptimalDensityIssue: string := "Current density outside optimal range"
  const LowEfficiencyIssue: string := "Low efficiency"
  const InsufficientVoltageIssue: string := "Insufficient voltage"
  const ExcessiveVoltageIssue: string := "Excessive voltage"
  const HighTemperatureIssue: string := "High operating temperature"
  const LowTemperatureIssue: string := "Low temperature"

  const OffOptimalDensityAdvice: string := "Adjust current or electrode area"
  const LowEfficiencyAdvice: string := "Reduce voltage or improve electrolyte"
  const InsufficientVoltageAdvice: string := "Increase applied voltage"
  const ExcessiveVoltageAdvice: string := "Reduce voltage to improve efficiency"
  const HighTemperatureAdvice: string := "Add cooling or reduce power"
  const LowTemperatureAdvice: string := "Allow warmup for better efficiency"

  /** The issue text of a concern. */
  function Issue(c: Concern): string
  {
    match c
    case OffOptimalDensity => OffOptimalDensityIssue
    case LowEfficiency => LowEfficiencyIssue
    case InsufficientVoltage => InsufficientVoltageIssue
    case ExcessiveVoltage => ExcessiveVoltageIssue
    case HighTemperature => HighTemperatureIssue
    case LowTemperature => LowTemperatureIssue
  }

  /** The recommendation paired with a concern. */
  function Advice(c: Concern): string
  {
    match c
    case OffOptimalDensity => OffOptimalDensityAdvice
    case LowEfficiency => LowEfficiencyAdvice
    case InsufficientVoltage => InsufficientVoltageAdvice
    case ExcessiveVoltage => ExcessiveVoltageAdvice
    case HighTemperature => HighTemperatureAdvice
    case LowTemperature => LowTemperatureAdvice
  }

  /** The position of a concern in the order of the checks. */
  function Rank(c: Concern): nat
  {
    match c
    case OffOptimalDensity => 0
    case LowEfficiency => 1
    case InsufficientVoltage => 2
    case ExcessiveVoltage => 3
    case HighTemperature => 4
    case LowTemperature => 5
  }

  const LowEfficiencyThreshold: real := 0.4
  const ExcessiveMargin: real := 5.0
  const HotThreshold: real := 60.0
  const ColdThreshold: real := 30.0

  /** One check: its concern when the condition holds, nothing otherwise. */
  function Check(raised: bool, c: Concern): (cs: seq<Concern>)
    ensures |cs| <= 1
    ensures forall x :: x in cs <==> raised && x == c
  {
    if raised then [c] else []
  }

  /** An `if`/`elif` pair of checks: the first concern when its condition
      holds, else the second when its condition holds. */
  function CheckEither(first: bool, c1: Concern, second: bool, c2: Concern): (cs: seq<Concern>)
    ensures |cs| <= 1
    ensures forall x :: x in cs <==> (first && x == c1) || (!first && second && x == c2)
  {
    if first then [c1] else if second then [c2] else []
  }

  /** The condition under which `_assess_performance` raises a concern; the
      `elif` branches need no extra guard, since their conditions already
      exclude each other. */
  predicate Raised(c: Concern, optimalCd: bool, efficiency: real, voltageMargin: real, temperature: real)
  {
    match c
    case OffOptimalDensity => !optimalCd
    case LowEfficiency => efficiency < LowEfficiencyThreshold
    case InsufficientVoltage => voltageMargin < 0.0
    case ExcessiveVoltage => ExcessiveMargin < voltageMargin
    case HighTemperature => HotThreshold < temperature
    case LowTemperature => temperature < ColdThreshold
  }

  /** The concerns an operating point raises, in the order of the checks. */
  function Concerns(optimalCd: bool, efficiency: real, voltageMargin: real, temperature: real): (cs: seq<Concern>)
    ensures |cs| <= 4
  {
    Check(!optimalCd, OffOptimalDensity)
    + Check(efficiency < LowEfficiencyThreshold, LowEfficiency)
    + CheckEither(voltageMargin < 0.0, InsufficientVoltage, ExcessiveMargin < voltageMargin, ExcessiveVoltage)
    + CheckEither(HotThreshold < temperature, HighTemperature, temperature < ColdThreshold, LowTemperature)
  }

  /** Each concern is raised exactly under its own condition. */
  lemma ConcernsRaised(optimalCd: bool, efficiency: real, voltageMargin: real, temperature: real)
    ensures forall c ::
      (c in Concerns(optimalCd, efficiency, voltageMargin, temperature)
       <==> Raised(c, optimalCd, efficiency, voltageMargin, temperature))
  {
    var d := Check(!optimalCd, OffOptimalDensity);
    var l := Check(efficiency < LowEfficiencyThreshold, LowEfficiency);
    var v := CheckEither(voltageMargin < 0.0, InsufficientVoltage, ExcessiveMargin < voltageMargin, ExcessiveVoltage);
    var t := CheckEither(HotThreshold < temperature, HighTemperature, temperature < ColdThreshold, LowTemperature);
    forall c
      ensures c in d + l + v + t <==> c in d || c in l || c in v || c in t
    {
    }
  }

  /** Concerns listed in the order of the checks. */
  predicate Ordered(cs: seq<Concern>)
  {
    forall i, j :: 0 <= i < j < |cs| ==> Rank(cs[i]) < Rank(cs[j])
  }

  /** Two ordered lists, all of the first ranked below all of the second,
      join into an ordered list. */
  lemma OrderedJoin(a: seq<Concern>, b: seq<Concern>, bound: nat)
    requires Ordered(a) && Ordered(b)
    requires forall x :: x in a ==> Rank(x) < bound
    requires forall x :: x in b ==> bound <= Rank(x)
    ensures Ordered(a + b)
  {
    forall i, j | 0 <= i < j < |a + b|
      ensures Rank((a + b)[i]) < Rank((a + b)[j])
    {
      if j < |a| {
        assert (a + b)[i] == a[i] && (a + b)[j] == a[j];
      } else if i < |a| {
        assert (a + b)[i] in a && (a + b)[j] in b;
      } else {
        assert (a + b)[i] == b[i - |a|] && (a + b)[j] == b[j - |a|];
      }
    }
  }

  /** The concerns come in the order of the checks, so none is raised twice. */
  lemma ConcernsOrdered(optimalCd: bool, efficiency: real, voltageMargin: real, temperature: real)
    ensures Ordered(Concerns(optimalCd, efficiency, voltageMargin, temperature))
  {
    var d := Check(!optimalCd, OffOptimalDensity);
    var l := Check(efficiency < LowEfficiencyThreshold, LowEfficiency);
    var v := CheckEither(voltageMargin < 0.0, InsufficientVoltage, ExcessiveMargin < voltageMargin, ExcessiveVoltage);
    var t := CheckEither(HotThreshold < temperature, HighTemperature, temperature < ColdThreshold, LowTemperature);
    OrderedJoin(d, l, 1);
    OrderedJoin(d + l, v, 2);
    OrderedJoin(d + l + v, t, 4);
  }

  /** The issue texts of a list of concerns. */
  function IssueTexts(cs: seq<Concern>): (r: seq<string>)
  {
    seq(|cs|, i requires 0 <= i < |cs| => Issue(cs[i]))
  }

  /** The recommendation texts of a list of concerns. */
  function AdviceTexts(cs: seq<Concern>): (r: seq<string>)
  {
    seq(|cs|, i requires 0 <= i < |cs| => Advice(cs[i]))
  }

  const Excellent: string := "Excellent"
  const Good: string := "Good"
  const Fair: string := "Fair"
  const Poor: string := "Poor"

  /** The rating by the number of issues. */
  function Rating(issueCount: nat): (r: string)
    ensures issueCount == 0 ==> r == Excellent
    ensures issueCount == 1 ==> r == Good
    ensures issueCount == 2 ==> r == Fair
    ensures 3 <= issueCount ==> r == Poor
  {
    if issueCount == 0 then Excellent
    else if issueCount <= 1 then Good
    else if issueCount <= 2 then Fair
    else Poor
  }

  /** The assessment: one issue and one recommendation per concern, and the
      rating of their number. */
  function Assess(optimalCd: bool, efficiency: real, voltageMargin: real, temperature: real): (a: Assessment)
    ensures var cs := Concerns(optimalCd, efficiency, voltageMargin, temperature);
      && a.issues == IssueTexts(cs) && a.recommendations == AdviceTexts(cs)
      && a.rating == Rating(|cs|)
    ensures |a.issues| == |a.recommendations| <= 4
  {
    var cs := Concerns(optimalCd, efficiency, voltageMargin, temperature);
    Assessment(Rating(|cs|), IssueTexts(cs), AdviceTexts(cs))
  }

  /** The texts after a check: those before, then the check's own texts. */
  lemma TextsAfterCheck(cs: seq<Concern>, raised: bool, c: Concern)
    ensures IssueTexts(cs + Check(raised, c)) == IssueTexts(cs) + (if raised then [Issue(c)] else [])
    ensures AdviceTexts(cs + Check(raised, c)) == AdviceTexts(cs) + (if raised then [Advice(c)] else [])
  {
  }

  /** The texts after an `if`/`elif` pair of checks. */
  lemma TextsAfterCheckEither(cs: seq<Concern>, first: bool, c1: Concern, second: bool, c2: Concern)
    ensures IssueTexts(cs + CheckEither(first, c1, second, c2))
      == IssueTexts(cs) + (if first then [Issue(c1)] else if second then [Issue(c2)] else [])
    ensures AdviceTexts(cs + CheckEither(first, c1, second, c2))
      == AdviceTexts(cs) + (if first then [Advice(c1)] else if second then [Advice(c2)] else [])
  {
  }

  /** `_assess_performance`: the checks in order, each appending its issue
      and its recommendation. */
  method AssessPerformance(optimalCd: bool, efficiency: real, voltageMargin: real, temperature: real)
    returns (a: Assessment)
    ensures a == Assess(optimalCd, efficiency, voltageMargin, temperature)
  {
    // The concerns of the four checks.
    ghost var d := Check(!optimalCd, OffOptimalDensity);
    ghost var l := Check(efficiency < LowEfficiencyThreshold, LowEfficiency);
    ghost var v := CheckEither(voltageMargin < 0.0, InsufficientVoltage, ExcessiveMargin < voltageMargin, ExcessiveVoltage);
    ghost var t := CheckEither(HotThreshold < temperature, HighTemperature, temperature < ColdThreshold, LowTemperature);
    var issues: seq<string> := [];
    var recommendations: seq<string> := [];
    TextsAfterCheck([], !optimalCd, OffOptimalDensity);
    assert [] + d == d;
    if !optimalCd {
      issues := issues + [Issue(OffOptimalDensity)];
      recommendations := recommendations + [Advice(OffOptimalDensity)];
    }
    assert issues == IssueTexts(d) && recommendations == AdviceTexts(d);
    TextsAfterCheck(d, efficiency < LowEfficiencyThreshold, LowEfficiency);
    if efficiency < LowEfficiencyThreshold {
      issues := issues + [Issue(LowEfficiency)];
      recommendations := recommendations + [Advice(LowEfficiency)];
    }
    assert issues == IssueTexts(d + l) && recommendations == AdviceTexts(d + l);
    TextsAfterCheckEither(d + l, voltageMargin < 0.0, InsufficientVoltage,
                          ExcessiveMargin < voltageMargin, ExcessiveVoltage);
    if voltageMargin < 0.0 {
      issues := issues + [Issue(InsufficientVoltage)];
      recommendations := recommendations + [Advice(InsufficientVoltage)];
    } else if ExcessiveMargin < voltageMargin {
      issues := issues + [Issue(ExcessiveVoltage)];
      recommendations := recommendations + [Advice(ExcessiveVoltage)];
    }
    assert issues == IssueTexts(d + l + v) && recommendations == AdviceTexts(d + l + v);
    TextsAfterCheckEither(d + l + v, HotThreshold < temperature, HighTemperature,
                          temperature < ColdThreshold, LowTemperature);
    if HotThreshold < temperature {
      issues := issues + [Issue(HighTemperature)];
      recommendations := recommendations + [Advice(HighTemperature)];
    } else if temperature < ColdThreshold {
      issues := issues + [Issue(LowTemperature)];
      recommendations := recommendations + [Advice(LowTemperature)];
    }
    assert issues == IssueTexts(d + l + v + t) && recommendations == AdviceTexts(d + l + v + t);
    a := Assessment(Rating(|issues|), issues, recommendations);
  }

  // ---------------------------------------------------------------- optimisation

  /** The whole-ampere currents the search tries. */
  const SearchLimit: int := 50

  /** The density at a whole-ampere current lies in the optimal band. */
  predicate OptimalAt(c: ElectrodeConfig, k: int)
    requires HasArea(c)
  {
    CurrentDensity(c, k as real).isOptimal
  }

  /** The first current from `k` up to the search limit with an optimal density. */
  function FirstOptimal(c: ElectrodeConfig, k: int): (r: Option<int>)
    requires HasArea(c) && 1 <= k
    ensures r.Some? ==> k <= r.value <= SearchLimit && OptimalAt(c, r.value)
    ensures r.Some? ==> forall j :: k <= j < r.value ==> !OptimalAt(c, j)
    ensures r.None? ==> forall j :: k <= j <= SearchLimit ==> !OptimalAt(c, j)
    decreases SearchLimit + 1 - k
  {
    if SearchLimit < k then None
    else if OptimalAt(c, k) then Some(k)
    else FirstOptimal(c, k + 1)
  }

  /** One step of the search: an optimal current is the first from itself
      on, any other passes the search to the next ampere. */
  lemma FirstOptimalStep(c: ElectrodeConfig, k: int)
    requires HasArea(c) && 1 <= k <= SearchLimit
    ensures OptimalAt(c, k) ==> FirstOptimal(c, k) == Some(k)
    ensures !OptimalAt(c, k) ==> FirstOptimal(c, k) == FirstOptimal(c, k + 1)
  {
  }

  /** The current the optimiser settles on: the least whole ampere from 1 to
      50 with an optimal density, or the configured current when there is
      none. */
  function ChosenCurrent(c: ElectrodeConfig, configured: real): (r: real)
    requires HasArea(c)
    ensures (forall k :: 1 <= k <= SearchLimit ==> !OptimalAt(c, k)) ==> r == configured
    ensures (exists k :: 1 <= k <= SearchLimit && OptimalAt(c, k)) ==>
      exists k :: 1 <= k <= SearchLimit && OptimalAt(c, k) && r == k as real
        && forall j :: 1 <= j < k ==> !OptimalAt(c, j)
  {
    match FirstOptimal(c, 1)
    case Some(k) => k as real
    case None => configured
  }

  datatype Optimization = Optimization(
    optimalVoltageV: real,
    optimalCurrentA: real,
    expectedEfficiency: real,
    reason: string)

  /** The margin added above the required voltage (V). */
  const VoltageMargin: real := 0.5

  const OptimizationReason: string := "Voltage margin of 0.5V above minimum, current density in optimal range"

  /** What the optimiser demands: the voltage analysis at the chosen
      current, and a non-zero suggested voltage. */
  ghost predicate Tunable(e: Elementary, m: HydrogenGeneratorModel)
  {
    && Lawful(e)
    && Analysable(m.physicalModel, Conductivity(e, m))
    && var current := ChosenCurrent(m.physicalModel.config, m.config.currentAmperes);
       var theoretical := TheoreticalVoltage(m.chemicalModel);
       && theoretical + VoltageLosses(e, m.physicalModel, current, Conductivity(e, m)).total != 0.0
       && RequiredVoltage(e, m.physicalModel, current, Conductivity(e, m), theoretical).totalRequired
          + VoltageMargin != 0.0
  }


  /** The suggestion for a current and its required voltage: the voltage
      with the margin added, and the theoretical voltage over it as the
      expected efficiency. */
  function Suggestion(theoretical: real, required: real, current: real): (o: Optimization)
    requires required + VoltageMargin != 0.0
    ensures o.optimalVoltageV == required + VoltageMargin && o.optimalCurrentA == current
    ensures o.expectedEfficiency == theoretical / o.optimalVoltageV
    ensures o.expectedEfficiency * o.optimalVoltageV == theoretical
    ensures o.reason == OptimizationReason
  {
    var voltage := required + VoltageMargin;
    Optimization(voltage, current, theoretical / voltage, OptimizationReason)
  }

  /** The search loop of `optimize_for_efficiency`: the first whole ampere
      from 1 to 50 whose density is optimal, or the configured current. */
  method SearchOptimalCurrent(c: ElectrodeConfig, configured: real) returns (current: real)
    requires HasArea(c)
    ensures current == ChosenCurrent(c, configured)
  {
    var optimal: Option<int> := None;
    var k := 1;
    while k <= SearchLimit
      invariant 1 <= k <= SearchLimit + 1
      invariant FirstOptimal(c, 1) == FirstOptimal(c, k)
    {
      FirstOptimalStep(c, k);
      if OptimalAt(c, k) {
        optimal := Some(k);
        break;
      }
      k := k + 1;
    }
    assert optimal == FirstOptimal(c, 1);
    current := if optimal.Some? then optimal.value as real else configured;
  }

  /** `optimize_for_efficiency`: the searched current, and the required
      voltage there plus a margin. */
  method OptimizeForEfficiency(e: Elementary, m: HydrogenGeneratorModel) returns (o: Optimization)
    requires Tunable(e, m)
    ensures o.optimalCurrentA == ChosenCurrent(m.physicalModel.config, m.config.currentAmperes)
    ensures o.optimalVoltageV == VoltageMargin + RequiredVoltage(e, m.physicalModel, o.optimalCurrentA,
      Conductivity(e, m), TheoreticalVoltage(m.chemicalModel)).totalRequired
    ensures o.expectedEfficiency == TheoreticalVoltage(m.chemicalModel) / o.optimalVoltageV
    ensures o.reason == OptimizationReason
  {
    var conductivity := Conductivity(e, m);
    var theoretical := TheoreticalVoltage(m.chemicalModel);
    var current := SearchOptimalCurrent(m.physicalModel.config, m.config.currentAmperes);
    var required := RequiredVoltage(e, m.physicalModel, current, conductivity, theoretical);
    o := Suggestion(theoretical, required.totalRequired, current);
  }

  // ---------------------------------------------------------------- comparison

  datatype Comparison = Comparison(
    configuredVoltage: real,
    requiredVoltage: real,
    configuredCurrent: real,
    configuredPower: real,
    efficiency: real,
    productionRateLpm: real,
    reportedProductionLpm: Option<real>,
    productionMatchPercentage: Option<real>)

  /** The measured production as a percentage of the reported one, when
      one is reported. */
  function ProductionMatch(lpm: real, reported: real): (r: Option<real>)
    ensures r.Some? <==> 0.0 < reported
    ensures r.Some? ==> r.value * reported == 100.0 * lpm
  {
    if reported > 0.0 then Some(lpm / reported * 100.0) else None
  }

  /** `compare_with_config`: the analysis at the configured point beside the
      configured figures; the reported production and the match percentage
      are present exactly when the design reports a production. */
  function CompareWithConfig(e: Elementary, m: HydrogenGeneratorModel): (r: Comparison)
    requires Operable(e, m, m.config.voltageVolts, m.config.currentAmperes)
    ensures var a := AnalyzePerformance(e, m, None, None);
      && r.requiredVoltage == a.physical.requiredVoltageV
      && r.efficiency == a.efficiency.efficiencyPercentage
      && r.productionRateLpm == a.chemical.h2ProductionLpm
      && r.configuredPower == a.configuration.powerW
    ensures r.configuredVoltage == m.config.voltageVolts && r.configuredCurrent == m.config.currentAmperes
    ensures r.reportedProductionLpm.Some? <==> 0.0 < m.config.reportedProductionLpm
    ensures r.reportedProductionLpm.Some? ==> r.reportedProductionLpm.value == m.config.reportedProductionLpm
    ensures r.productionMatchPercentage == ProductionMatch(r.productionRateLpm, m.config.reportedProductionLpm)
  {
    var a := AnalyzePerformance(e, m, None, None);
    var reported := m.config.reportedProductionLpm;
    var lpm := a.chemical.h2ProductionLpm;
    Comparison(
      m.config.voltageVolts, a.physical.requiredVoltageV, m.config.currentAmperes,
      ConfigurationAnalysis(m, m.config.voltageVolts, m.config.currentAmperes).powerW,
      a.efficiency.efficiencyPercentage, lpm,
      if reported > 0.0 then Some(reported) else None,
      ProductionMatch(lpm, reported))
  }
}
