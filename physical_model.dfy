/** Physical model of a plate electrolyser.

    Electrode area, current density, ohmic resistance, overpotentials, gas
    bubbles and heating of `PhysicalModel`.  The model object is fixed when
    it is made and every method only computes, so the model is a value here
    and each method a function of it.  The resistivity of an electrolyte with
    no conductivity is `Inf`; divisions the source would make by zero are
    excluded by `requires`.
 */
module Physical {
  import opened Analytic
  import opened Wrappers

  /** Electrode stack geometry (millimetres); the active fraction accounts for edge effects. */
  datatype ElectrodeConfig = ElectrodeConfig(
    material: string,
    numberOfPlates: int,
    plateWidthMm: real,
    plateHeightMm: real,
    plateThicknessMm: real,
    plateSpacingMm: real,
    activeAreaPercentage: real)

  const DefaultActiveAreaPercentage: real := 0.85

  /** The model: an electrode stack at an operating temperature (degrees Celsius). */
  datatype PhysicalModel = PhysicalModel(config: ElectrodeConfig, temperatureCelsius: real)

  const DefaultTemperature: real := 25.0

  /** Electrode resistivities at 20 degrees Celsius (ohm metre). */
  const MaterialResistivity: map<string, real> := map[
    "stainless_steel_316" := 0.00000074,
    "stainless_steel_304" := 0.00000072,
    "graphite" := 0.000008,
    "platinum" := 0.000000106,
    "razor_blade" := 0.00000075]
  const DefaultResistivity: real := 0.00000075

  /** Temperature coefficients of the resistivities (per degree Celsius). */
  const TempCoefficient: map<string, real> := map[
    "stainless_steel_316" := 0.00094,
    "stainless_steel_304" := 0.00095,
    "graphite" := -0.0005,
    "platinum" := 0.00392,
    "razor_blade" := 0.00094]
  const DefaultTempCoefficient: real := 0.001

  /** `dict.get(key, default)`. */
  function Lookup(m: map<string, real>, key: string, default: real): (r: real)
  {
    if key in m then m[key] else default
  }

  // ---------------------------------------------------------------- area

  datatype SurfaceArea = SurfaceArea(
    areaPerPlateCm2: real,
    activeAreaPerPlateCm2: real,
    totalActiveAreaCm2: real,
    totalActiveAreaM2: real)

  /** `electrode_surface_area`: both faces of a plate count, except the outer
      faces of the two end plates, so n plates give n - 1 plates' worth of area. */
  function ElectrodeSurfaceArea(c: ElectrodeConfig): (a: SurfaceArea)
    ensures a.areaPerPlateCm2 * 50.0 == c.plateWidthMm * c.plateHeightMm
    ensures a.activeAreaPerPlateCm2 == a.areaPerPlateCm2 * c.activeAreaPercentage
    ensures a.totalActiveAreaCm2 == a.activeAreaPerPlateCm2 * (c.numberOfPlates - 1) as real
    ensures a.totalActiveAreaM2 * 10000.0 == a.totalActiveAreaCm2
  {
    var perPlate := (c.plateWidthMm / 10.0) * (c.plateHeightMm / 10.0) * 2.0;
    var active := perPlate * c.activeAreaPercentage;
    var activeSides := c.numberOfPlates * 2 - 2;
    var total := active * ((activeSides as real) / 2.0);
    SurfaceArea(perPlate, active, total, total / 10000.0)
  }

  /** A stack whose current density can be computed (the source divides by its area). */
  predicate HasArea(c: ElectrodeConfig)
  {
    ElectrodeSurfaceArea(c).totalActiveAreaCm2 != 0.0
  }

  /** Two or more real plates always give a positive active area. */
  lemma AreaPositive(c: ElectrodeConfig)
    requires 2 <= c.numberOfPlates
    requires 0.0 < c.plateWidthMm && 0.0 < c.plateHeightMm && 0.0 < c.activeAreaPercentage
    ensures 0.0 < ElectrodeSurfaceArea(c).totalActiveAreaCm2
  {
    var a := ElectrodeSurfaceArea(c);
    ProductSigns(c.plateWidthMm, c.plateHeightMm);
    assert 0.0 < a.areaPerPlateCm2;
    ProductSigns(a.areaPerPlateCm2, c.activeAreaPercentage);
    ProductSigns(a.activeAreaPerPlateCm2, (c.numberOfPlates - 1) as real);
  }

  // ---------------------------------------------------------------- current density

  const OptimalBand: string := "Optimal range"

  /** `_assess_current_density`: bands at 50, 100, 500 and 1000 mA/cm^2. */
  function DensityStatus(cd: real): (s: string)
    ensures s == "Too low - inefficient" <==> cd < 50.0
    ensures s == "Low - acceptable" <==> 50.0 <= cd < 100.0
    ensures s == OptimalBand <==> 100.0 <= cd <= 500.0
    ensures s == "High - increased heat" <==> 500.0 < cd <= 1000.0
    ensures s == "Very high - potential damage" <==> 1000.0 < cd
  {
    if cd < 50.0 then "Too low - inefficient"
    else if cd < 100.0 then "Low - acceptable"
    else if cd <= 500.0 then OptimalBand
    else if cd <= 1000.0 then "High - increased heat"
    else "Very high - potential damage"
  }

  datatype CurrentDensityReport = CurrentDensityReport(
    maCm2: real,
    aCm2: real,
    aM2: real,
    isOptimal: bool,
    status: string)

  /** `current_density`: the current spread over the active area, in three
      units; the optimal flag and the status band agree. */
  function CurrentDensity(c: ElectrodeConfig, current: real): (d: CurrentDensityReport)
    requires HasArea(c)
    ensures d.maCm2 * ElectrodeSurfaceArea(c).totalActiveAreaCm2 == 1000.0 * current
    ensures d.aCm2 * 1000.0 == d.maCm2
    ensures d.aM2 == 10.0 * d.maCm2
    ensures d.isOptimal <==> 100.0 <= d.maCm2 <= 500.0
    ensures d.isOptimal <==> d.status == OptimalBand
    ensures d.status == DensityStatus(d.maCm2)
  {
    var area := ElectrodeSurfaceArea(c);
    var total := area.totalActiveAreaCm2;
    var ma := (current * 1000.0) / total;
    var am2 := current / area.totalActiveAreaM2;
    assert am2 == 10.0 * ma by {
      assert area.totalActiveAreaM2 == total / 10000.0;
      DivideBack(current, area.totalActiveAreaM2, 10000.0 * current / total);
    }
    CurrentDensityReport(ma, current / total, am2, 100.0 <= ma <= 500.0, DensityStatus(ma))
  }

  /** Density is proportional to current. */
  lemma DensityScales(c: ElectrodeConfig, current: real, k: real)
    requires HasArea(c)
    ensures CurrentDensity(c, k * current).maCm2 == k * CurrentDensity(c, current).maCm2
  {
    var total := ElectrodeSurfaceArea(c).totalActiveAreaCm2;
    var d := CurrentDensity(c, current).maCm2;
    assert (k * d) * total == k * (d * total);
    DivideBack(1000.0 * (k * current), total, k * d);
  }

  /** On a positive area more current means a higher density. */
  lemma DensityIncreasing(c: ElectrodeConfig, i1: real, i2: real)
    requires 0.0 < ElectrodeSurfaceArea(c).totalActiveAreaCm2
    requires i1 < i2
    ensures CurrentDensity(c, i1).maCm2 < CurrentDensity(c, i2).maCm2
  {
    var total := ElectrodeSurfaceArea(c).totalActiveAreaCm2;
    var d1, d2 := CurrentDensity(c, i1).maCm2, CurrentDensity(c, i2).maCm2;
    assert (d2 - d1) * total == 1000.0 * (i2 - i1);
    if d2 <= d1 {
      ProductSigns(d1 - d2, total);
    }
  }

  // ---------------------------------------------------------------- resistance

  function PlateAreaM2(c: ElectrodeConfig): real
  {
    (c.plateWidthMm / 1000.0) * (c.plateHeightMm / 1000.0)
  }

  /** The inputs `ohmic_resistance` divides by are non-zero, and an infinite
      resistivity meets only positive factors (no infinity times zero). */
  predicate Resistive(c: ElectrodeConfig, conductivity: real)
  {
    && PlateAreaM2(c) != 0.0
    && c.plateHeightMm != 0.0 && c.plateThicknessMm != 0.0
    && (conductivity <= 0.0 ==>
          0.0 < c.plateSpacingMm && 0.0 < PlateAreaM2(c) && 2 <= c.numberOfPlates)
  }

  /** The material resistivity corrected linearly for temperature (reference 20 degrees Celsius). */
  function ElectrodeResistivity(pm: PhysicalModel): (rho: real)
  {
    var base := Lookup(MaterialResistivity, pm.config.material, DefaultResistivity);
    var coefficient := Lookup(TempCoefficient, pm.config.material, DefaultTempCoefficient);
    base * (1.0 + coefficient * (pm.temperatureCelsius - 20.0))
  }

  datatype Resistance = Resistance(
    electrolyte: Ext,
    electrode: real,
    total: Ext,
    perGap: Ext,
    numGaps: int)

  /** The plate thickness cancels from the electrode path resistance. */
  lemma ThicknessCancels(rho: real, t: real, h: real, n: real)
    requires t != 0.0 && h != 0.0
    ensures (rho * ((t / 1000.0) * n)) / ((h / 1000.0) * (t / 1000.0)) * h == rho * n * 1000.0
  {
    var cross := (h / 1000.0) * (t / 1000.0);
    var y := rho * n * 1000.0 / h;
    calc {
      y * cross;
      == (rho * n * 1000.0 / h) * (h / 1000.0) * (t / 1000.0);
      == { assert (rho * n * 1000.0 / h) * h == rho * n * 1000.0; }
      rho * n * (t / 1000.0);
      == rho * ((t / 1000.0) * n);
    }
    DivideBack(rho * ((t / 1000.0) * n), cross, y);
  }

  /** The electrode path: resistivity times n plate thicknesses over the
      plate's edge cross-section, which leaves the thickness out. */
  function ElectrodeResistance(pm: PhysicalModel): (r: real)
    requires pm.config.plateHeightMm != 0.0 && pm.config.plateThicknessMm != 0.0
    ensures r * pm.config.plateHeightMm
      == ElectrodeResistivity(pm) * (pm.config.numberOfPlates as real) * 1000.0
  {
    var c := pm.config;
    var rho := ElectrodeResistivity(pm);
    var path := (c.plateThicknessMm / 1000.0) * (c.numberOfPlates as real);
    var cross := (c.plateHeightMm / 1000.0) * (c.plateThicknessMm / 1000.0);
    ThicknessCancels(rho, c.plateThicknessMm, c.plateHeightMm, c.numberOfPlates as real);
    (rho * path) / cross
  }

  /** One electrolyte gap: R = rho L / A with rho = 1 / sigma. */
  function GapResistance(c: ElectrodeConfig, conductivity: real): (r: real)
    requires 0.0 < conductivity && PlateAreaM2(c) != 0.0
    ensures r * conductivity * PlateAreaM2(c) == c.plateSpacingMm / 1000.0
  {
    var spacing := c.plateSpacingMm / 1000.0;
    var area := PlateAreaM2(c);
    var r := ((1.0 / conductivity) * spacing) / area;
    assert r * area == (1.0 / conductivity) * spacing;
    r
  }

  /** `ohmic_resistance`: L/(sigma A) per gap, n - 1 gaps in series, plus the
      electrode path; infinite exactly when the conductivity is not positive. */
  function OhmicResistance(pm: PhysicalModel, conductivity: real): (r: Resistance)
    requires Resistive(pm.config, conductivity)
    ensures r.numGaps == pm.config.numberOfPlates - 1
    ensures r.electrode == ElectrodeResistance(pm)
    ensures r.perGap.Inf? <==> conductivity <= 0.0
    ensures r.electrolyte.Inf? <==> conductivity <= 0.0
    ensures r.total.Inf? <==> conductivity <= 0.0
    ensures 0.0 < conductivity ==> r.perGap.v == GapResistance(pm.config, conductivity)
    ensures 0.0 < conductivity ==> r.electrolyte.v == r.perGap.v * (r.numGaps as real)
    ensures 0.0 < conductivity ==> r.total.v == r.electrolyte.v + r.electrode
  {
    var gaps := pm.config.numberOfPlates - 1;
    var electrode := ElectrodeResistance(pm);
    if conductivity > 0.0 then
      var perGap := GapResistance(pm.config, conductivity);
      var electrolyte := perGap * (gaps as real);
      Resistance(Fin(electrolyte), electrode, Fin(electrolyte + electrode), Fin(perGap), gaps)
    else
      Resistance(Inf, electrode, Inf, Inf, gaps)
  }

  // ---------------------------------------------------------------- voltage losses

  const JLimiting: real := 2000.0

  /** A Tafel overpotential: slope (mV per decade) times the decades above the
      exchange density, clamped at zero decades. */
  function Tafel(e: Elementary, slopeMv: real, j: real, j0: real): (eta: real)
    requires Lawful(e) && 0.0 < slopeMv && 0.0 < j0
    ensures 0.0 <= eta
  {
    var decades := e.log10(Max(j / j0, 1.0));
    ProductSigns(decades, slopeMv / 1000.0);
    (slopeMv / 1000.0) * decades
  }

  datatype Losses = Losses(
    ohmic: real,
    activation: real,
    activationCathode: real,
    activationAnode: real,
    concentration: real,
    total: real)

  /** The source's preconditions for the voltage analysis: an area, the
      divisions of the resistance, and a finite resistance. */
  predicate Analysable(pm: PhysicalModel, conductivity: real)
  {
    0.0 < conductivity && Resistive(pm.config, conductivity) && HasArea(pm.config)
  }

  /** The concentration overpotential (RT/nF) ln(1/(1 - j/j_lim)), replaced
      by a fixed 50 mV from 80 % of the limiting density on. */
  function ConcentrationLoss(e: Elementary, j: real): (eta: real)
  {
    if j < 0.8 * JLimiting then 0.026 * e.ln(1.0 / (1.0 - j / JLimiting)) else 0.05
  }

  /** `voltage_losses`: ohmic I R, the two Tafel terms and the concentration
      term; the activation part is never negative. */
  function VoltageLosses(e: Elementary, pm: PhysicalModel, current: real, conductivity: real): (l: Losses)
    requires Lawful(e) && Analysable(pm, conductivity)
    ensures l.ohmic == current * OhmicResistance(pm, conductivity).total.v
    ensures var j := CurrentDensity(pm.config, current).maCm2;
      && l.activationCathode == Tafel(e, 120.0, j, 0.1)
      && l.activationAnode == Tafel(e, 60.0, j, 1.0)
      && l.concentration == ConcentrationLoss(e, j)
    ensures l.activation == l.activationCathode + l.activationAnode && 0.0 <= l.activation
    ensures l.total == l.ohmic + l.activation + l.concentration
  {
    var ohmic := current * OhmicResistance(pm, conductivity).total.v;
    var j := CurrentDensity(pm.config, current).maCm2;
    var cathode := Tafel(e, 120.0, j, 0.1);
    var anode := Tafel(e, 60.0, j, 1.0);
    var concentration := ConcentrationLoss(e, j);
    Losses(ohmic, cathode + anode, cathode, anode, concentration, ohmic + (cathode + anode) + concentration)
  }

  const DefaultTheoreticalVoltage: real := 1.23

  datatype VoltageBreakdown = VoltageBreakdown(
    theoreticalVoltage: real,
    overpotential: real,
    totalRequired: real,
    ohmicPercentage: real,
    activationPercentage: real,
    concentrationPercentage: real)

  /** Shares of a total: each part over the total in percent, adding up to
      the parts' sum in percent. */
  lemma Shares(x: real, y: real, z: real, total: real)
    requires total != 0.0
    ensures (x / total * 100.0) * total == 100.0 * x
    ensures (x / total * 100.0 + y / total * 100.0 + z / total * 100.0) * total == 100.0 * (x + y + z)
  {
    var px, py, pz := x / total * 100.0, y / total * 100.0, z / total * 100.0;
    assert px * total == 100.0 * x && py * total == 100.0 * y && pz * total == 100.0 * z;
    assert (px + py + pz) * total == px * total + py * total + pz * total;
  }

  /** The breakdown of a required voltage: each loss as a share of the
      theoretical voltage plus all losses. */
  function Breakdown(theoretical: real, l: Losses): (b: VoltageBreakdown)
    requires theoretical + l.total != 0.0
    requires l.total == l.ohmic + l.activation + l.concentration
    ensures b.theoreticalVoltage == theoretical && b.overpotential == l.total
    ensures b.totalRequired == theoretical + l.total
    ensures b.ohmicPercentage * b.totalRequired == 100.0 * l.ohmic
    ensures b.activationPercentage * b.totalRequired == 100.0 * l.activation
    ensures b.concentrationPercentage * b.totalRequired == 100.0 * l.concentration
    ensures (b.ohmicPercentage + b.activationPercentage + b.concentrationPercentage) * b.totalRequired
      == 100.0 * b.overpotential
  {
    var total := theoretical + l.total;
    Shares(l.ohmic, l.activation, l.concentration, total);
    Shares(l.activation, l.concentration, l.ohmic, total);
    Shares(l.concentration, l.ohmic, l.activation, total);
    VoltageBreakdown(
      theoretical, l.total, total,
      l.ohmic / total * 100.0, l.activation / total * 100.0, l.concentration / total * 100.0)
  }

  /** `required_voltage`: the theoretical voltage plus every overpotential,
      broken down into the shares of the losses. */
  function RequiredVoltage(e: Elementary, pm: PhysicalModel, current: real, conductivity: real,
                           theoretical: real): (b: VoltageBreakdown)
    requires Lawful(e) && Analysable(pm, conductivity)
    requires theoretical + VoltageLosses(e, pm, current, conductivity).total != 0.0
    ensures b == Breakdown(theoretical, VoltageLosses(e, pm, current, conductivity))
    ensures b.totalRequired == theoretical + VoltageLosses(e, pm, current, conductivity).total
  {
    Breakdown(theoretical, VoltageLosses(e, pm, current, conductivity))
  }

  // ---------------------------------------------------------------- bubbles

  const MaxCoverage: real := 0.3

  const MinimalBubbles: string := "Minimal bubble interference"
  const ModerateBubbles: string := "Moderate bubble formation - consider agitation"
  const SignificantBubbles: string := "Significant bubble coverage - add agitation or reduce current"

  /** `_bubble_recommendation`: bands at 5 % and 15 % coverage. */
  function BubbleRecommendation(coverage: real): (s: string)
    ensures coverage < 0.05 ==> s == MinimalBubbles
    ensures 0.05 <= coverage < 0.15 ==> s == ModerateBubbles
    ensures 0.15 <= coverage ==> s == SignificantBubbles
  {
    if coverage < 0.05 then MinimalBubbles
    else if coverage < 0.15 then ModerateBubbles
    else SignificantBubbles
  }

  datatype BubbleReport = BubbleReport(
    coverageFraction: real,
    areaReductionPercentage: real,
    resistanceIncreasePercentage: real,
    recommendation: string)

  /** What Python raises for a negative current density: `j ** 1.2` is then
      complex, and `min` cannot compare it with 0.3. */
  const ComplexCoverageError: string := "'<' not supported between instances of 'complex' and 'float'"

  /** `bubble_effects`: the empirical coverage 0.0001 j^1.2, capped at 30 %;
      the resistance rises 1.5 times as much as the area shrinks.  A
      negative current density raises. */
  function BubbleEffects(e: Elementary, c: ElectrodeConfig, current: real): (r: Result<BubbleReport>)
    requires HasArea(c)
    ensures r.Failure? <==> CurrentDensity(c, current).maCm2 < 0.0
    ensures r.Failure? ==> r.error == ComplexCoverageError
    ensures r.Success? ==>
      r.value.coverageFraction == Min(MaxCoverage, 0.0001 * e.pow(CurrentDensity(c, current).maCm2, 1.2))
    ensures r.Success? ==> r.value.coverageFraction <= MaxCoverage
    ensures r.Success? ==> r.value.areaReductionPercentage == 100.0 * r.value.coverageFraction
    ensures r.Success? ==> r.value.resistanceIncreasePercentage == 1.5 * r.value.areaReductionPercentage
    ensures r.Success? ==> r.value.resistanceIncreasePercentage <= 45.0
    ensures r.Success? ==> r.value.recommendation == BubbleRecommendation(r.value.coverageFraction)
  {
    var j := CurrentDensity(c, current).maCm2;
    if j < 0.0 then Failure(ComplexCoverageError)
    else
      var coverage := Min(MaxCoverage, 0.0001 * e.pow(j, 1.2));
      var reduction := coverage * 100.0;
      Success(BubbleReport(coverage, reduction, reduction * 1.5, BubbleRecommendation(coverage)))
  }

  /** Coverage at the cap is always reported as significant. */
  lemma CappedCoverageIsSignificant(e: Elementary, c: ElectrodeConfig, current: real)
    requires HasArea(c) && 0.0 <= CurrentDensity(c, current).maCm2
    requires MaxCoverage <= 0.0001 * e.pow(CurrentDensity(c, current).maCm2, 1.2)
    ensures BubbleEffects(e, c, current).Success?
    ensures BubbleEffects(e, c, current).value.coverageFraction == MaxCoverage
    ensures BubbleEffects(e, c, current).value.recommendation == SignificantBubbles
  {
  }

  // ---------------------------------------------------------------- temperature

  const SpecificHeatWater: real := 4186.0
  const TemperatureLimit: real := 70.0
  const CoolingThreshold: real := 55.0

  /** `_temp_status`: bands at 30, 50 and 70 degrees Celsius. */
  function TemperatureStatus(t: real): (s: string)
    ensures s == "Cool - suboptimal efficiency" <==> t < 30.0
    ensures s == "Optimal temperature range" <==> 30.0 <= t < 50.0
    ensures s == "Warm - good efficiency but monitor" <==> 50.0 <= t < 70.0
    ensures s == "Hot - cooling required" <==> 70.0 <= t
  {
    if t < 30.0 then "Cool - suboptimal efficiency"
    else if t < 50.0 then "Optimal temperature range"
    else if t < 70.0 then "Warm - good efficiency but monitor"
    else "Hot - cooling required"
  }

  datatype HeatingReport = HeatingReport(
    heatGenerationWatts: real,
    tempRisePerHourCelsius: real,
    estimatedOperatingTempCelsius: real,
    coolingRecommended: bool,
    temperatureStatus: string)

  /** `temperature_effects`: 30 % of the electrical power heats one litre of
      water; half the hourly rise is retained, up to the 70-degree limit. */
  function TemperatureEffects(current: real, voltage: real, ambient: real): (t: HeatingReport)
    ensures t.heatGenerationWatts == 0.3 * (voltage * current)
    ensures t.tempRisePerHourCelsius * SpecificHeatWater == t.heatGenerationWatts * 3600.0
    ensures t.estimatedOperatingTempCelsius == Min(ambient + 0.5 * t.tempRisePerHourCelsius, TemperatureLimit)
    ensures t.estimatedOperatingTempCelsius <= TemperatureLimit
    ensures t.coolingRecommended <==> t.estimatedOperatingTempCelsius > CoolingThreshold
    ensures t.temperatureStatus == TemperatureStatus(t.estimatedOperatingTempCelsius)
  {
    var heat := voltage * current * 0.3;
    var rise := (heat * 3600.0) / (1.0 * SpecificHeatWater);
    var estimated := Min(ambient + rise * 0.5, TemperatureLimit);
    HeatingReport(heat, rise, estimated, estimated > CoolingThreshold, TemperatureStatus(estimated))
  }

  /** The "hot" status is reported exactly when the estimate reaches the limit. */
  lemma HotExactlyAtLimit(current: real, voltage: real, ambient: real)
    ensures var t := TemperatureEffects(current, voltage, ambient);
      t.temperatureStatus == "Hot - cooling required" <==>
        (t.estimatedOperatingTempCelsius == TemperatureLimit
         && TemperatureLimit <= ambient + 0.5 * t.tempRisePerHourCelsius)
  {
  }

  /** Cooling is only ever recommended in the warm or hot band. */
  lemma CoolingOnlyWhenWarm(current: real, voltage: real, ambient: real)
    requires TemperatureEffects(current, voltage, ambient).coolingRecommended
    ensures TemperatureEffects(current, voltage, ambient).temperatureStatus
      in {"Warm - good efficiency but monitor", "Hot - cooling required"}
  {
  }

  // ---------------------------------------------------------------- cells

  /** `cell_voltage_per_gap`: the voltage shared by the n - 1 series gaps;
      a stack without gaps gets the whole voltage. */
  function CellVoltagePerGap(c: ElectrodeConfig, totalVoltage: real): (v: real)
    ensures 1 < c.numberOfPlates ==> v * (c.numberOfPlates - 1) as real == totalVoltage
    ensures c.numberOfPlates <= 1 ==> v == totalVoltage
  {
    var gaps := c.numberOfPlates - 1;
    if gaps > 0 then totalVoltage / gaps as real else totalVoltage
  }
}
