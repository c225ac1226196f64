/** Chemical model of water electrolysis.

    Faraday's law for the hydrogen rate, the thermodynamic voltages and
    efficiency, the empirical NaOH conductivity, and power and heat balances
    of `ChemicalModel`.  The model holds only its temperature and pressure,
    set at construction, so it is a value and every method a function.
 */
module Chemical {
  import opened Analytic

  const FaradayConstant: real := 96485.3329
  const MolarMassH2: real := 2.016
  const MolarVolumeH2Stp: real := 22.414
  const GibbsFreeEnergy25C: real := 237.2
  const EnthalpyChange: real := 285.8

  datatype ChemicalModel = ChemicalModel(temperatureCelsius: real, temperatureKelvin: real, pressureAtm: real)

  const DefaultTemperature: real := 25.0
  const DefaultPressure: real := 1.0

  /** The constructor: the Kelvin temperature is the Celsius one shifted by 273.15. */
  function NewChemicalModel(temperatureCelsius: real, pressureAtm: real): (m: ChemicalModel)
    ensures m.temperatureCelsius == temperatureCelsius && m.pressureAtm == pressureAtm
    ensures m.temperatureKelvin - m.temperatureCelsius == 273.15
  {
    ChemicalModel(temperatureCelsius, temperatureCelsius + 273.15, pressureAtm)
  }

  // ---------------------------------------------------------------- voltages

  /** The standard cell voltage dG/(2F), about 1.229 V. */
  function StandardVoltage(): (v: real)
    ensures v * (2.0 * FaradayConstant) == GibbsFreeEnergy25C * 1000.0
    ensures 1.2292 < v < 1.2293
  {
    GibbsFreeEnergy25C * 1000.0 / (2.0 * FaradayConstant)
  }

  /** `theoretical_voltage`: the standard voltage falling by 0.85 mV per
      degree above 25 degrees Celsius. */
  function TheoreticalVoltage(m: ChemicalModel): (v: real)
    ensures v + 0.00085 * (m.temperatureCelsius - 25.0) == StandardVoltage()
  {
    StandardVoltage() + -0.00085 * (m.temperatureCelsius - 25.0)
  }

  /** A warmer cell needs less voltage in theory. */
  lemma TheoreticalVoltageDecreasing(m1: ChemicalModel, m2: ChemicalModel)
    requires m1.temperatureCelsius < m2.temperatureCelsius
    ensures TheoreticalVoltage(m2) < TheoreticalVoltage(m1)
  {
    assert TheoreticalVoltage(m1) - TheoreticalVoltage(m2)
      == 0.00085 * (m2.temperatureCelsius - m1.temperatureCelsius);
  }

  /** `thermoneutral_voltage`: dH/(2F), about 1.481 V. */
  function ThermoneutralVoltage(): (v: real)
    ensures v * (2.0 * FaradayConstant) == EnthalpyChange * 1000.0
    ensures 1.4810 < v < 1.4811
  {
    EnthalpyChange * 1000.0 / (2.0 * FaradayConstant)
  }

  /** Above a few kelvin the theoretical voltage stays below the thermoneutral one. */
  lemma TheoreticalBelowThermoneutral(m: ChemicalModel)
    requires -270.0 <= m.temperatureCelsius
    ensures TheoreticalVoltage(m) < ThermoneutralVoltage()
  {
  }

  /** `theoretical_efficiency`: the theoretical over the applied voltage,
      capped at 1; the cap is reached exactly when the applied voltage is no
      more than the theoretical one. */
  function TheoreticalEfficiency(m: ChemicalModel, actualVoltage: real): (r: real)
    requires actualVoltage != 0.0
    ensures r == Min(TheoreticalVoltage(m) / actualVoltage, 1.0)
    ensures r <= 1.0
    ensures r < 1.0 ==> r * actualVoltage == TheoreticalVoltage(m)
    ensures 0.0 < actualVoltage ==> (r == 1.0 <==> actualVoltage <= TheoreticalVoltage(m))
  {
    var ratio := TheoreticalVoltage(m) / actualVoltage;
    if 0.0 < actualVoltage then
      RatioReachesOne(TheoreticalVoltage(m), actualVoltage);
      Min(ratio, 1.0)
    else Min(ratio, 1.0)
  }

  /** Over a positive denominator, a ratio reaches 1 exactly when the
      numerator reaches the denominator. */
  lemma RatioReachesOne(num: real, den: real)
    requires 0.0 < den
    ensures 1.0 <= num / den <==> den <= num
  {
    assert (num / den) * den == num;
    ScaleOrder(num / den, 1.0, den);
    ScaleOrder(1.0, num / den, den);
  }

  // ---------------------------------------------------------------- production

  datatype ProductionRate = ProductionRate(
    molesPerSecond: real,
    molesPerHour: real,
    gramsPerHour: real,
    litersPerHourStp: real,
    litersPerMinuteStp: real)

  /** Every rate multiplied by the same factor. */
  function Scaled(p: ProductionRate, k: real): ProductionRate
  {
    ProductionRate(p.molesPerSecond * k, p.molesPerHour * k, p.gramsPerHour * k,
                   p.litersPerHourStp * k, p.litersPerMinuteStp * k)
  }

  /** `hydrogen_production_rate_faraday`: I/(2F) mol/s, converted to hours,
      grams and litres at STP. */
  function HydrogenProductionRateFaraday(current: real): (p: ProductionRate)
    ensures p.molesPerSecond * (2.0 * FaradayConstant) == current
    ensures p.molesPerHour == 3600.0 * p.molesPerSecond
    ensures p.gramsPerHour == p.molesPerHour * MolarMassH2
    ensures p.litersPerHourStp == p.molesPerHour * MolarVolumeH2Stp
    ensures p.litersPerHourStp == 60.0 * p.litersPerMinuteStp
  {
    var perSecond := current / (2.0 * FaradayConstant);
    ProductionRate(perSecond, perSecond * 3600.0, perSecond * 3600.0 * MolarMassH2,
                   perSecond * 3600.0 * MolarVolumeH2Stp, perSecond * 60.0 * MolarVolumeH2Stp)
  }

  /** Every rate is linear in the current. */
  lemma FaradayLinear(current: real, k: real)
    ensures HydrogenProductionRateFaraday(k * current) == Scaled(HydrogenProductionRateFaraday(current), k)
  {
    var p := HydrogenProductionRateFaraday(current);
    var q := HydrogenProductionRateFaraday(k * current);
    assert q.molesPerSecond == p.molesPerSecond * k by {
      assert (p.molesPerSecond * k) * (2.0 * FaradayConstant) == k * current;
      DivideBack(k * current, 2.0 * FaradayConstant, p.molesPerSecond * k);
    }
  }

  const DefaultFaradaicEfficiency: real := 0.95

  /** `actual_production_rate`: the same rates, each scaled by the faradaic
      efficiency, which is the Faraday rate of the effective current. */
  function ActualProductionRate(current: real, faradaicEfficiency: real): (p: ProductionRate)
    ensures p == Scaled(HydrogenProductionRateFaraday(current), faradaicEfficiency)
    ensures p == HydrogenProductionRateFaraday(faradaicEfficiency * current)
  {
    FaradayLinear(current, faradaicEfficiency);
    Scaled(HydrogenProductionRateFaraday(current), faradaicEfficiency)
  }

  // ---------------------------------------------------------------- electrolyte

  const ConductivityPeak: real := 25.0
  const OptimalConcentration: real := 4.5

  /** The approximate temperature correction, 2 % per degree from 25 degrees Celsius. */
  function TemperatureFactor(m: ChemicalModel): real
  {
    1.0 + 0.02 * (m.temperatureCelsius - 25.0)
  }

  /** The rising branch: proportional to the concentration up to the peak. */
  function RisingBranch(m: ChemicalModel, c: real): real
  {
    (ConductivityPeak / OptimalConcentration) * c * TemperatureFactor(m)
  }

  /** The falling branch: exponential decay beyond the peak. */
  function FallingBranch(e: Elementary, m: ChemicalModel, c: real): real
  {
    ConductivityPeak * e.exp(-0.15 * (c - OptimalConcentration)) * TemperatureFactor(m)
  }

  /** `electrolyte_conductivity` (S/m): zero without hydroxide, rising to the
      peak at 4.5 mol/L, decaying beyond it. */
  function ElectrolyteConductivity(e: Elementary, m: ChemicalModel, c: real): (k: real)
    ensures c <= 0.0 ==> k == 0.0
    ensures 0.0 < c <= OptimalConcentration ==> k == RisingBranch(m, c)
    ensures OptimalConcentration < c ==> k == FallingBranch(e, m, c)
  {
    if c <= 0.0 then 0.0
    else
      var conductivity :=
        if c <= OptimalConcentration then (ConductivityPeak / OptimalConcentration) * c
        else ConductivityPeak * e.exp(-0.15 * (c - OptimalConcentration));
      conductivity * TemperatureFactor(m)
  }

  /** Both branches meet at the peak concentration, where the conductivity is
      25 S/m times the temperature factor; the rising branch starts at zero. */
  lemma ConductivityContinuous(e: Elementary, m: ChemicalModel)
    requires Lawful(e)
    ensures RisingBranch(m, OptimalConcentration) == FallingBranch(e, m, OptimalConcentration)
    ensures ElectrolyteConductivity(e, m, OptimalConcentration) == ConductivityPeak * TemperatureFactor(m)
    ensures RisingBranch(m, 0.0) == 0.0
  {
    assert e.exp(-0.15 * (OptimalConcentration - OptimalConcentration)) == 1.0;
  }

  /** Some hydroxide at a positive temperature factor conducts. */
  lemma ConductivityPositive(e: Elementary, m: ChemicalModel, c: real)
    requires Lawful(e)
    requires 0.0 < c && 0.0 < TemperatureFactor(m)
    ensures 0.0 < ElectrolyteConductivity(e, m, c)
  {
    if c <= OptimalConcentration {
      ProductSigns((ConductivityPeak / OptimalConcentration) * c, TemperatureFactor(m));
    } else {
      ProductSigns(ConductivityPeak * e.exp(-0.15 * (c - OptimalConcentration)), TemperatureFactor(m));
    }
  }

  /** On the rising branch the conductivity stays below its peak value. */
  lemma RisingBelowPeak(e: Elementary, m: ChemicalModel, c: real)
    requires 0.0 < c <= OptimalConcentration && 0.0 <= TemperatureFactor(m)
    ensures ElectrolyteConductivity(e, m, c) <= ConductivityPeak * TemperatureFactor(m)
  {
    var tf := TemperatureFactor(m);
    assert (ConductivityPeak / OptimalConcentration) * c <= ConductivityPeak;
    if tf > 0.0 {
      ScaleOrder((ConductivityPeak / OptimalConcentration) * c, ConductivityPeak, tf);
    }
  }

  const NaohMolarMass: real := 40.0

  /** `naoh_from_weight_ratio` (mol/L): the moles of NaOH (40 g/mol) per litre
      of water, and 0 for no water. */
  function NaohFromWeightRatio(waterMl: real, naohGrams: real): (c: real)
    ensures waterMl <= 0.0 ==> c == 0.0
    ensures 0.0 < waterMl ==> c * waterMl == 25.0 * naohGrams
  {
    var moles := naohGrams / NaohMolarMass;
    var liters := waterMl / 1000.0;
    if liters > 0.0 then
      assert (moles / liters) * waterMl == 1000.0 * moles by {
        assert (moles / liters) * liters == moles;
      }
      moles / liters
    else 0.0
  }

  // ---------------------------------------------------------------- energy

  datatype PowerReport = PowerReport(
    powerWatts: real,
    powerKw: real,
    energyKwhPerLiterH2: real,
    energyKwhPerKgH2: real)

  /** `power_consumption`: electrical power and the energy per litre and per
      kilogram of hydrogen (zero when nothing is produced). */
  function PowerConsumption(voltage: real, current: real): (p: PowerReport)
    ensures p.powerWatts == voltage * current && p.powerKw * 1000.0 == p.powerWatts
    ensures var lph := HydrogenProductionRateFaraday(current).litersPerHourStp;
      && (lph <= 0.0 ==> p.energyKwhPerLiterH2 == 0.0)
      && (0.0 < lph ==> p.energyKwhPerLiterH2 * lph == p.powerKw)
    ensures p.energyKwhPerKgH2 == p.energyKwhPerLiterH2 * (1000.0 / (MolarMassH2 * MolarVolumeH2Stp))
  {
    var watts := voltage * current;
    var lph := HydrogenProductionRateFaraday(current).litersPerHourStp;
    var perLiter := if lph > 0.0 then (watts / 1000.0) / lph else 0.0;
    PowerReport(watts, watts / 1000.0, perLiter, perLiter * (1000.0 / (MolarMassH2 * MolarVolumeH2Stp)))
  }

  /** The energy per litre depends on the voltage only: 2F V / (3.6e6 Vm)
      kWh for any positive current, and nothing is produced otherwise. */
  lemma EnergyPerLiterByVoltage(voltage: real, current: real)
    ensures 0.0 < current ==>
      (PowerConsumption(voltage, current).energyKwhPerLiterH2
       == voltage * (2.0 * FaradayConstant) / (3600000.0 * MolarVolumeH2Stp))
    ensures current <= 0.0 ==> PowerConsumption(voltage, current).energyKwhPerLiterH2 == 0.0
  {
    var p := HydrogenProductionRateFaraday(current);
    var lph := p.litersPerHourStp;
    var k := 3600.0 * MolarVolumeH2Stp / (2.0 * FaradayConstant);
    assert lph == k * current by {
      assert p.molesPerSecond == current / (2.0 * FaradayConstant);
    }
    if 0.0 < current {
      ProductSigns(current, k);
      var target := voltage * (2.0 * FaradayConstant) / (3600000.0 * MolarVolumeH2Stp);
      assert target * lph == (voltage * current) / 1000.0 by {
        calc {
          target * lph;
          == target * (k * current);
          == (voltage * (2.0 * FaradayConstant) / (3600000.0 * MolarVolumeH2Stp))
             * (3600.0 * MolarVolumeH2Stp / (2.0 * FaradayConstant)) * current;
          == voltage / 1000.0 * current;
        }
      }
      DivideBack((voltage * current) / 1000.0, lph, target);
    } else {
      ProductSigns(-current, k);
    }
  }

  datatype HeatBalance = HeatBalance(
    totalPowerWatts: real,
    thermoneutralPowerWatts: real,
    heatGenerationWatts: real,
    coolingRequiredWatts: real,
    heatGenerationPercentage: real)

  /** `thermal_effects`: the power above the thermoneutral voltage becomes
      heat; cooling removes it when positive, and its share of the input
      power is reported when there is input power. */
  function ThermalEffects(voltage: real, current: real): (h: HeatBalance)
    ensures h.totalPowerWatts == voltage * current
    ensures h.thermoneutralPowerWatts == ThermoneutralVoltage() * current
    ensures h.heatGenerationWatts + h.thermoneutralPowerWatts == h.totalPowerWatts
    ensures h.coolingRequiredWatts == Max(0.0, h.heatGenerationWatts)
    ensures 0.0 < h.totalPowerWatts ==> h.heatGenerationPercentage * h.totalPowerWatts == 100.0 * h.heatGenerationWatts
    ensures h.totalPowerWatts <= 0.0 ==> h.heatGenerationPercentage == 0.0
  {
    var total := voltage * current;
    var tn := ThermoneutralVoltage();
    var heat := (voltage - tn) * current;
    var percentage := if total > 0.0 then heat / total * 100.0 else 0.0;
    HeatBalance(total, tn * current, heat, Max(0.0, heat), percentage)
  }
}
