/** The `GeneratorConfig` record of DIY hydrogen-generator designs.

    A design record carries the electrical, electrode and electrolyte data of
    one published build.
 */
module GeneratorRecord {

  /** One generator design (millimetres, volts, amperes, mol/L, millilitres, degrees Celsius). */
  datatype GeneratorConfig = GeneratorConfig(
    name: string,
    source: string,
    description: string,
    voltageVolts: real,
    currentAmperes: real,
    powerSupplyType: string,
    electrodeMaterial: string,
    numberOfPlates: int,
    plateWidthMm: real,
    plateHeightMm: real,
    plateThicknessMm: real,
    plateSpacingMm: real,
    electrolyteType: string,
    electrolyteConcentrationDescription: string,
    naohConcentrationMolar: real,
    waterVolumeMl: real,
    cellType: string,
    reportedProductionLpm: real,
    operatingTemperatureCelsius: real,
    notes: seq<string>)

  /** The defaults of the three trailing fields. */
  const DefaultReportedProduction: real := 0.0
  const DefaultOperatingTemperature: real := 25.0
  const DefaultNotes: seq<string> := []

  /** The record built from the seventeen leading fields, as the dataclass does
      when the trailing ones are not given. */
  function Design(
    name: string, source: string, description: string,
    voltageVolts: real, currentAmperes: real, powerSupplyType: string,
    electrodeMaterial: string, numberOfPlates: int,
    plateWidthMm: real, plateHeightMm: real, plateThicknessMm: real, plateSpacingMm: real,
    electrolyteType: string, electrolyteConcentrationDescription: string,
    naohConcentrationMolar: real, waterVolumeMl: real, cellType: string): (g: GeneratorConfig)
    ensures g.reportedProductionLpm == 0.0
    ensures g.operatingTemperatureCelsius == 25.0
    ensures g.notes == DefaultNotes
    ensures g.name == name && g.source == source && g.description == description
    ensures g.voltageVolts == voltageVolts && g.currentAmperes == currentAmperes
    ensures g.powerSupplyType == powerSupplyType && g.electrodeMaterial == electrodeMaterial
    ensures g.numberOfPlates == numberOfPlates
    ensures g.plateWidthMm == plateWidthMm && g.plateHeightMm == plateHeightMm
    ensures g.plateThicknessMm == plateThicknessMm && g.plateSpacingMm == plateSpacingMm
    ensures g.electrolyteType == electrolyteType
    ensures g.electrolyteConcentrationDescription == electrolyteConcentrationDescription
    ensures g.naohConcentrationMolar == naohConcentrationMolar && g.waterVolumeMl == waterVolumeMl
    ensures g.cellType == cellType
  {
    GeneratorConfig(
      name, source, description, voltageVolts, currentAmperes, powerSupplyType,
      electrodeMaterial, numberOfPlates, plateWidthMm, plateHeightMm, plateThicknessMm,
      plateSpacingMm, electrolyteType, electrolyteConcentrationDescription,
      naohConcentrationMolar, waterVolumeMl, cellType,
      DefaultReportedProduction, DefaultOperatingTemperature, DefaultNotes)
  }
}

/** The catalogue of DIY hydrogen-generator designs and its lookup.

    The catalogue keeps the seven designs under their keys in declaration
    order, which is also the order `list_configs` reports.  The record type
    lives in its own module so that the models which only take a design
    apart do not carry the catalogue's text.
 */
module GeneratorConfigs {
  import opened Wrappers
  import opened Text
  import opened GeneratorRecord

  const InstructablesDryCell: GeneratorConfig :=
    Design(
      "Instructables Dry Cell Electrolyser",
      "https://www.instructables.com/Dry-Cell-Electrolyser/",
      "Professional dry cell design with 15 stainless steel plates, polycarbonate ends, and PVC gaskets",
      12.0, 20.0, "Car battery or PSU (12V, >20A)",
      "stainless_steel_304", 15, 160.0, 200.0, 0.7, 3.0,
      "NaOH (Sodium Hydroxide)", "1:40 water to NaOH", 0.375, 2000.0, "dry_cell"
    ).(operatingTemperatureCelsius := 45.0,
       notes := [
         "Uses 3mm PVC gaskets between plates",
         "Polycarbonate end walls with threaded fittings",
         "Multiple gaskets required for sealing",
         "Professional quality construction"])

  const InstructablesBasic: GeneratorConfig :=
    Design(
      "Basic DIY Hydrogen Generator",
      "https://www.instructables.com/DIY-hydrogen-generator/",
      "Simple design using pencil lead electrodes in container",
      12.0, 2.0, "Hacked ATX power supply or DC adapter",
      "graphite", 2, 5.0, 100.0, 2.0, 50.0,
      "Salt water or NaOH", "Tap water with salt", 0.1, 500.0, "wet_cell"
    ).(operatingTemperatureCelsius := 30.0,
       reportedProductionLpm := 0.05,
       notes := [
         "Beginner-friendly design",
         "Uses common household items",
         "Low production rate",
         "Educational purposes"])

  const InstructablesAdjustable: GeneratorConfig :=
    Design(
      "Electrolyzer with Adjustable Torch (3000°C)",
      "https://www.instructables.com/How-to-Make-an-Electrolyzer-3000C-Adjustable-Homem/",
      "HHO generator with adjustable power supply and burner",
      6.0, 6.0, "Adjustable power supply (6-12V, 4-6A)",
      "stainless_steel_316", 10, 50.0, 50.0, 1.0, 5.0,
      "NaOH", "Water with NaOH powder", 0.3, 1000.0, "wet_cell"
    ).(operatingTemperatureCelsius := 50.0,
       notes := [
         "Uses stainless steel rings as electrodes",
         "Water barrier for safety",
         "Adjustable flame up to 2000-3000°C",
         "Temperature reaches 45-55°C during operation"])

  const InstructablesRazorBlade: GeneratorConfig :=
    Design(
      "Powerful HHO Generator (99+ Razor Blades)",
      "https://www.instructables.com/Powerful-HHO-Generator-Using-99-Razor-Blades-for-E/",
      "High-power generator using 150+ razor blades as electrodes",
      12.0, 10.0, "Air-cooled power supply (6-12V, ≥4A)",
      "razor_blade", 150, 40.0, 20.0, 0.1, 1.0,
      "NaOH", "Water with sodium hydroxide", 0.4, 2000.0, "wet_cell"
    ).(operatingTemperatureCelsius := 55.0,
       notes := [
         "Very large surface area from many thin blades",
         "Flame reaches 2500°C",
         "No corrosion observed after 30 minutes",
         "High-pressure tubes used",
         "Water barrier for safety"])

  const HackadayAutomated: GeneratorConfig :=
    Design(
      "Automated Hydrogen Generator",
      "https://hackaday.com/2023/10/06/creating-an-automated-hydrogen-generator-at-home/",
      "Automated system with glass bell separator and vacuum pump",
      12.0, 15.0, "DC power supply with control system",
      "stainless_steel_316", 10, 100.0, 150.0, 2.0, 10.0,
      "NaOH", "NaOH in water", 0.5, 3000.0, "wet_cell"
    ).(operatingTemperatureCelsius := 40.0,
       notes := [
         "Uses glass bell for gas collection",
         "Vacuum pump for gas transfer",
         "Aluminum storage tank (hydrogen embrittlement concerns)",
         "Automated control system with safety features",
         "Can run for hours unattended"])

  const TypicalSmallScale: GeneratorConfig :=
    Design(
      "Typical Small-Scale DIY Generator",
      "Multiple sources - averaged parameters",
      "Representative small DIY generator for experimentation",
      12.0, 5.0, "12V DC adapter or battery",
      "stainless_steel_316", 7, 100.0, 100.0, 1.0, 5.0,
      "NaOH", "~1 tablespoon per liter", 0.35, 1000.0, "wet_cell"
    ).(operatingTemperatureCelsius := 35.0,
       reportedProductionLpm := 0.3,
       notes := [
         "Good balance of size and performance",
         "Moderate power consumption",
         "Suitable for demonstrations"])

  const HighPerformanceDryCell: GeneratorConfig :=
    Design(
      "High-Performance Dry Cell",
      "Multiple sources - optimized design",
      "Optimized dry cell for maximum efficiency",
      14.0, 30.0, "High-current DC supply (14V, 30A+)",
      "stainless_steel_316", 21, 200.0, 200.0, 1.0, 2.5,
      "KOH (Potassium Hydroxide)", "25% KOH solution", 4.5, 3000.0, "dry_cell"
    ).(operatingTemperatureCelsius := 60.0,
       reportedProductionLpm := 2.5,
       notes := [
         "High current density design",
         "KOH for better conductivity than NaOH",
         "Cooling may be required",
         "Maximum practical efficiency",
         "Requires robust power supply"])

  /** The catalogue keys, in declaration order. */
  const ConfigKeys: seq<string> :=
    ["instructables_dry_cell", "instructables_basic", "instructables_adjustable",
     "instructables_razor_blade", "hackaday_automated", "typical_small_scale",
     "high_performance_dry_cell"]

  /** The designs, in the order of their keys. */
  function Designs(): (d: seq<GeneratorConfig>)
    ensures |d| == |ConfigKeys|
  {
    [InstructablesDryCell, InstructablesBasic, InstructablesAdjustable, InstructablesRazorBlade,
     HackadayAutomated, TypicalSmallScale, HighPerformanceDryCell]
  }

  /** The catalogue: each key with its design, in declaration order. */
  function Catalogue(): (c: seq<(string, GeneratorConfig)>)
    ensures |c| == 7
    ensures forall i :: 0 <= i < |c| ==> c[i] == (ConfigKeys[i], Designs()[i])
  {
    seq(|ConfigKeys|, i requires 0 <= i < |ConfigKeys| => (ConfigKeys[i], Designs()[i]))
  }

  /** `list_configs()`: the seven keys in declaration order. */
  function ListConfigs(): (r: seq<string>)
    ensures r == ConfigKeys
    ensures |r| == |Catalogue()| && forall i :: 0 <= i < |r| ==> r[i] == Catalogue()[i].0
  {
    seq(|Catalogue()|, i requires 0 <= i < |Catalogue()| => Catalogue()[i].0)
  }

  /** No key is listed twice, so the catalogue holds seven distinct designs. */
  lemma KeysDistinct(i: nat, j: nat)
    requires i < j < |ConfigKeys|
    ensures ConfigKeys[i] != ConfigKeys[j]
  {
    assert ConfigKeys[i][..6] != ConfigKeys[j][..6] || |ConfigKeys[i]| != |ConfigKeys[j]|
      || ConfigKeys[i] != ConfigKeys[j];
  }

  /** Dictionary lookup over the keys from index `from` on. */
  function FindFrom(name: string, from: nat): (r: Option<nat>)
    requires from <= |ConfigKeys|
    ensures r.Some? ==> from <= r.value < |ConfigKeys| && ConfigKeys[r.value] == name
    ensures r.None? ==> forall i :: from <= i < |ConfigKeys| ==> ConfigKeys[i] != name
    decreases |ConfigKeys| - from
  {
    if from == |ConfigKeys| then None
    else if ConfigKeys[from] == name then Some(from)
    else FindFrom(name, from + 1)
  }

  /** The text of the `ValueError` for an unknown name. */
  function UnknownMessage(name: string): string
  {
    "Unknown configuration: " + name + ". Available: " + ListRepr(ConfigKeys)
  }

  /** `get_config(name)`: the stored design for a known key, otherwise the
      error listing every key. */
  function GetConfig(name: string): (r: Result<GeneratorConfig>)
    ensures r.Failure? <==> name !in ConfigKeys
    ensures r.Failure? ==> r.error == UnknownMessage(name)
    ensures r.Success? ==> exists i :: 0 <= i < |ConfigKeys| && ConfigKeys[i] == name && Designs()[i] == r.value
  {
    match FindFrom(name, 0)
    case Some(i) => Success(Designs()[i])
    case None => Failure(UnknownMessage(name))
  }

  /** Every key returns exactly the record declared under it. */
  lemma GetConfigOfListedKey(i: nat)
    requires i < |Catalogue()|
    ensures GetConfig(Catalogue()[i].0) == Success(Catalogue()[i].1)
  {
    var r := FindFrom(ConfigKeys[i], 0);
    assert r.Some?;
    if r.value != i {
      if r.value < i { KeysDistinct(r.value, i); } else { KeysDistinct(i, r.value); }
    }
  }

  /** The error for an unknown name carries every key, quoted. */
  lemma UnknownListsEveryKey(name: string, i: nat)
    requires name !in ConfigKeys
    requires i < |ConfigKeys|
    ensures exists p, q :: GetConfig(name).error == p + "'" + ConfigKeys[i] + "'" + q
  {
    ReprContains("Unknown configuration: " + name + ". Available: ", ConfigKeys, i);
  }

  /** Exactly the three designs with a measured production override the 0.0
      default, and every design carries notes. */
  lemma CatalogueDefaults(i: nat)
    requires i < |Catalogue()|
    ensures Catalogue()[i].1.reportedProductionLpm == DefaultReportedProduction <==>
      Catalogue()[i].0 !in {"instructables_basic", "typical_small_scale", "high_performance_dry_cell"}
    ensures |Catalogue()[i].1.notes| > 0
  {
  }
}
