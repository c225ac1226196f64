/** The vessel material catalogue and its name lookup. */
module Materials {
  import opened Wrappers
  import opened Text

  /** One catalogue record (SI units: Pa, kg/m^3, K). */
  datatype MaterialProperties = MaterialProperties(
    name: string,
    yieldStrength: real,
    tensileStrength: real,
    elasticModulus: real,
    poissonRatio: real,
    density: real,
    maxTemperature: real,
    source: string)

  /** The physical sanity every catalogue record satisfies. */
  predicate Plausible(m: MaterialProperties)
  {
    && 0.0 < m.yieldStrength <= m.tensileStrength
    && 0.0 < m.elasticModulus
    && 0.0 < m.poissonRatio < 0.5
    && 0.0 < m.density
    && 0.0 < m.maxTemperature
    && |m.source| > 0
  }

  const PET := MaterialProperties(
    "Polyethylene Terephthalate (PET)", 55000000.0, 70000000.0, 2800000000.0,
    0.38, 1380.0, 343.15, "Osswald et al., Materials Science of Polymers (2012)")
  const HDPE := MaterialProperties(
    "High-Density Polyethylene (HDPE)", 26000000.0, 37000000.0, 1100000000.0,
    0.42, 960.0, 353.15, "ASTM D638 standard testing data")
  const PP := MaterialProperties(
    "Polypropylene (PP)", 32000000.0, 38000000.0, 1600000000.0,
    0.40, 905.0, 373.15, "MatWeb polymer database")
  const Aluminum6061T6 := MaterialProperties(
    "Aluminum 6061-T6", 276000000.0, 310000000.0, 68900000000.0,
    0.33, 2700.0, 473.15, "ASM Metals Handbook")
  const Steel304 := MaterialProperties(
    "Stainless Steel 304", 215000000.0, 505000000.0, 193000000000.0,
    0.29, 8000.0, 923.15, "ASTM A240 specification")

  /** The catalogue, keys in declaration order. */
  function Catalogue(): (c: seq<(string, MaterialProperties)>)
    ensures |c| == 5
    ensures forall i :: 0 <= i < |c| ==> Plausible(c[i].1)
  {
    [("PET", PET), ("HDPE", HDPE), ("PP", PP),
     ("Aluminum_6061_T6", Aluminum6061T6), ("Steel_304", Steel304)]
  }

  /** `list_available_materials()`: the keys in declaration order. */
  function ListAvailableMaterials(): (r: seq<string>)
    ensures |r| == |Catalogue()|
    ensures forall i :: 0 <= i < |r| ==> r[i] == Catalogue()[i].0
    ensures r == ["PET", "HDPE", "PP", "Aluminum_6061_T6", "Steel_304"]
  {
    seq(|Catalogue()|, i requires 0 <= i < |Catalogue()| => Catalogue()[i].0)
  }

  /** The name normalisation: strip, then spaces and hyphens become underscores. */
  function Normalize(name: string): string
  {
    ReplaceChar(ReplaceChar(Strip(name), ' ', '_'), '-', '_')
  }

  /** Exact dictionary lookup over the entries from index `from` on. */
  function ExactFrom(key: string, from: nat): (r: Option<nat>)
    requires from <= |Catalogue()|
    ensures r.Some? ==> from <= r.value < |Catalogue()| && Catalogue()[r.value].0 == key
    ensures r.None? ==> forall i :: from <= i < |Catalogue()| ==> Catalogue()[i].0 != key
    decreases |Catalogue()| - from
  {
    if from == |Catalogue()| then None
    else if Catalogue()[from].0 == key then Some(from)
    else ExactFrom(key, from + 1)
  }

  /** The case-insensitive scan: the first entry from `from` on whose lower-cased key matches. */
  function ScanFrom(key: string, from: nat): (r: Option<nat>)
    requires from <= |Catalogue()|
    ensures r.Some? ==> from <= r.value < |Catalogue()| && Lower(Catalogue()[r.value].0) == Lower(key)
    ensures r.Some? ==> forall i :: from <= i < r.value ==> Lower(Catalogue()[i].0) != Lower(key)
    ensures r.None? ==> forall i :: from <= i < |Catalogue()| ==> Lower(Catalogue()[i].0) != Lower(key)
    decreases |Catalogue()| - from
  {
    if from == |Catalogue()| then None
    else if Lower(Catalogue()[from].0) == Lower(key) then Some(from)
    else ScanFrom(key, from + 1)
  }

  function NotFoundMessage(name: string): string
  {
    NotFoundHead(name) + Join(", ", ListAvailableMaterials())
  }

  function NotFoundHead(name: string): string
  {
    "Material '" + name + "' not found in database. Available materials: "
  }

  /** The index `get_material` settles on: exact key first, then the case-insensitive scan. */
  function FindMaterial(name: string): (r: Option<nat>)
    ensures r.Some? <==>
      exists i :: 0 <= i < |Catalogue()| && Lower(Catalogue()[i].0) == Lower(Normalize(name))
    ensures r.Some? ==> r.value < |Catalogue()| && Lower(Catalogue()[r.value].0) == Lower(Normalize(name))
  {
    var key := Normalize(name);
    match ExactFrom(key, 0)
    case Some(i) => Some(i)
    case None => ScanFrom(key, 0)
  }

  /** `get_material(name)`: the record found, or the error naming every key. */
  function GetMaterial(name: string): (r: Result<MaterialProperties>)
    ensures r.Success? <==> FindMaterial(name).Some?
    ensures r.Success? ==> r.value == Catalogue()[FindMaterial(name).value].1 && Plausible(r.value)
    ensures r.Failure? ==> r.error == NotFoundMessage(name)
  {
    match FindMaterial(name)
    case Some(i) => Success(Catalogue()[i].1)
    case None => Failure(NotFoundMessage(name))
  }

  /** No two catalogue keys differ only in letter case. */
  lemma KeysDistinctIgnoringCase(i: nat, j: nat)
    requires i < |Catalogue()| && j < |Catalogue()|
    requires Lower(Catalogue()[i].0) == Lower(Catalogue()[j].0)
    ensures i == j
  {
    // Lower-casing keeps the length, and the five keys have five different lengths.
    assert |Catalogue()[i].0| == |Lower(Catalogue()[i].0)| == |Catalogue()[j].0|;
  }

  /** The lookup returns entry `i` exactly when key `i` matches the normalised name up to case. */
  lemma GetMaterialFindsKey(name: string, i: nat)
    requires i < |Catalogue()|
    ensures GetMaterial(name) == Success(Catalogue()[i].1)
        <==> Lower(Catalogue()[i].0) == Lower(Normalize(name))
  {
    var f := FindMaterial(name);
    if Lower(Catalogue()[i].0) == Lower(Normalize(name)) {
      KeysDistinctIgnoringCase(i, f.value);
    } else if GetMaterial(name) == Success(Catalogue()[i].1) {
      CatalogueRecordsDistinct(i, f.value);
    }
  }

  /** Different catalogue entries hold different records. */
  lemma CatalogueRecordsDistinct(i: nat, j: nat)
    requires i < |Catalogue()| && j < |Catalogue()|
    requires Catalogue()[i].1 == Catalogue()[j].1
    ensures i == j
  {
    assert Catalogue()[i].1.yieldStrength == Catalogue()[j].1.yieldStrength;
  }

  /** An exact key match is found directly, before the case-insensitive scan. */
  lemma ExactKeyFirst(name: string, i: nat)
    requires i < |Catalogue()| && Normalize(name) == Catalogue()[i].0
    ensures ExactFrom(Normalize(name), 0) == Some(i)
    ensures GetMaterial(name) == Success(Catalogue()[i].1)
  {
    var r := ExactFrom(Normalize(name), 0);
    assert r.Some?;
    assert Catalogue()[r.value].0 == Catalogue()[i].0;
    KeysDistinctIgnoringCase(r.value, i);
  }

  /** Normalisation commutes with lower-casing. */
  lemma NormalizeLower(name: string)
    ensures Lower(Normalize(name)) == Normalize(Lower(name))
  {
    LowerStrip(name);
    LowerReplace(Strip(name), ' ', '_');
    LowerReplace(ReplaceChar(Strip(name), ' ', '_'), '-', '_');
  }

  /** Letter case does not matter to the lookup: same record, or both fail. */
  lemma GetMaterialIgnoresCase(a: string, b: string)
    requires Lower(a) == Lower(b)
    ensures GetMaterial(a).Success? == GetMaterial(b).Success?
    ensures GetMaterial(a).Success? ==> GetMaterial(a).value == GetMaterial(b).value
  {
    NormalizeLower(a);
    NormalizeLower(b);
    if GetMaterial(a).Success? {
      GetMaterialFindsKey(b, FindMaterial(a).value);
    }
  }

  /** The key "PET" itself finds the PET record. */
  lemma PetByKey()
    ensures GetMaterial("PET") == Success(PET)
  {
    NormalizePlain("PET");
    ExactKeyFirst("PET", 0);
  }

  lemma PetSpellings()
    ensures Lower("pet") == Lower("PET") && Lower("Pet") == Lower("PET")
  {
  }

  /** "pet", "Pet" and "PET" all give the PET record. */
  lemma PetAnyCase()
    ensures GetMaterial("pet") == Success(PET)
    ensures GetMaterial("Pet") == Success(PET)
  {
    PetByKey();
    PetSpellings();
    GetMaterialIgnoresCase("pet", "PET");
    GetMaterialIgnoresCase("Pet", "PET");
  }

  /** A name with no whitespace and no hyphen is its own normal form. */
  lemma NormalizePlain(k: string)
    requires forall j :: 0 <= j < |k| ==> !IsSpace(k[j]) && k[j] != '-'
    ensures Normalize(k) == k
  {
    assert Strip(k) == k by {
      StripTrimmed(k);
    }
    assert ReplaceChar(k, ' ', '_') == k by {
      assert IsSpace(' ');
      ReplaceAbsent(k, ' ', '_');
    }
    ReplaceAbsent(k, '-', '_');
  }

  lemma StripLeftPaddedAluminum()
    ensures StripLeft(" Aluminum 6061-T6 ") == "Aluminum 6061-T6 "
  {
    var padded := " Aluminum 6061-T6 ";
    assert padded == [' '] + "Aluminum 6061-T6 ";
    assert padded[0] == ' ';
    assert IsSpace(' ');
    assert padded[1..] == "Aluminum 6061-T6 ";
    assert !IsSpace('A');
  }

  lemma StripRightPaddedAluminum()
    ensures StripRight("Aluminum 6061-T6 ") == "Aluminum 6061-T6"
  {
    var tail := "Aluminum 6061-T6 ";
    assert tail == "Aluminum 6061-T6" + [' '];
    assert tail[|tail| - 1] == ' ';
    assert IsSpace(' ');
    assert tail[..|tail| - 1] == "Aluminum 6061-T6";
    assert !IsSpace('6');
  }

  lemma SeparatorsAluminum()
    ensures ReplaceChar(ReplaceChar("Aluminum 6061-T6", ' ', '_'), '-', '_') == "Aluminum_6061_T6"
  {
    assert ReplaceChar("Aluminum 6061-T6", ' ', '_') == "Aluminum_6061-T6";
  }

  /** The written-out name "Aluminum 6061-T6" (with stray blanks) resolves to Aluminum_6061_T6. */
  lemma AluminumByDisplayName()
    ensures Normalize(" Aluminum 6061-T6 ") == "Aluminum_6061_T6"
    ensures GetMaterial(" Aluminum 6061-T6 ") == Success(Aluminum6061T6)
  {
    StripLeftPaddedAluminum();
    StripRightPaddedAluminum();
    SeparatorsAluminum();
    ExactKeyFirst(" Aluminum 6061-T6 ", 3);
  }

  /** Every listed key resolves to its own record. */
  lemma ListedKeysResolve(i: nat)
    requires i < |ListAvailableMaterials()|
    ensures GetMaterial(ListAvailableMaterials()[i]) == Success(Catalogue()[i].1)
  {
    var k := ListAvailableMaterials()[i];
    NormalizePlain(k);
    ExactKeyFirst(k, i);
  }

  /** A name whose normal form has a length no key has is not found. */
  lemma UnmatchedLength(name: string)
    requires forall i :: 0 <= i < |Catalogue()| ==> |Catalogue()[i].0| != |Normalize(name)|
    ensures GetMaterial(name) == Failure(NotFoundMessage(name))
  {
    FoundKeyLength(name);
  }

  /** A key that matches up to case has the length of the normal form. */
  lemma FoundKeyLength(name: string)
    ensures FindMaterial(name).Some? ==>
      FindMaterial(name).value < |Catalogue()|
      && |Catalogue()[FindMaterial(name).value].0| == |Normalize(name)|
  {
    var k := Normalize(name);
    assert forall i :: 0 <= i < |Catalogue()| && Lower(Catalogue()[i].0) == Lower(k) ==>
      |Catalogue()[i].0| == |k|;
  }

  /** "InvalidMaterial" is not in the catalogue. */
  lemma InvalidMaterialNotFound()
    ensures GetMaterial("InvalidMaterial") == Failure(NotFoundMessage("InvalidMaterial"))
  {
    NormalizePlain("InvalidMaterial");
    UnmatchedLength("InvalidMaterial");
  }

  /** The error for an unknown name carries every catalogue key. */
  lemma NotFoundListsEveryKey(name: string, i: nat)
    requires GetMaterial(name).Failure?
    requires i < |ListAvailableMaterials()|
    ensures exists p, q :: GetMaterial(name).error == p + ListAvailableMaterials()[i] + q
  {
    JoinedTailContains(NotFoundHead(name), ", ", ListAvailableMaterials(), i);
  }

  /** The bottle types of the bottle table, in declaration order. */
  const BottleTypes: seq<string> := ["soda", "water", "cola", "milk", "detergent", "shampoo"]

  /** The bottle table: the material key for a (lower-case) bottle type. */
  function BottleMap(bottleType: string): (r: Option<string>)
    ensures r.Some? <==> bottleType in BottleTypes
    ensures r.Some? ==> r.value == "PET" || r.value == "HDPE"
  {
    if bottleType == "soda" || bottleType == "water" || bottleType == "cola" then Some("PET")
    else if bottleType == "milk" || bottleType == "detergent" || bottleType == "shampoo" then Some("HDPE")
    else None
  }

  function UnknownBottleMessage(bottleType: string): string
  {
    "Unknown bottle type '" + bottleType + "'. Available: " + Join(", ", BottleTypes)
  }

  /** `get_bottle_material(bottle_type)` (the source's default argument is "soda"). */
  function GetBottleMaterial(bottleType: string): (r: Result<MaterialProperties>)
    ensures r.Success? <==> Lower(bottleType) in BottleTypes
    ensures r.Success? ==> r.value == PET || r.value == HDPE
    ensures r.Failure? ==> r.error == UnknownBottleMessage(bottleType)
  {
    match BottleMap(Lower(bottleType))
    case None => Failure(UnknownBottleMessage(bottleType))
    case Some(m) =>
      if m == "PET" then
        PetByKey();
        GetMaterial(m)
      else
        HdpeByKey();
        GetMaterial(m)
  }

  /** soda, water and cola bottles, in any letter case, are PET. */
  lemma PetBottles(bottleType: string)
    requires Lower(bottleType) == "soda" || Lower(bottleType) == "water" || Lower(bottleType) == "cola"
    ensures GetBottleMaterial(bottleType) == Success(PET)
  {
    PetByKey();
  }

  /** milk, detergent and shampoo bottles, in any letter case, are HDPE. */
  lemma HdpeBottles(bottleType: string)
    requires Lower(bottleType) == "milk" || Lower(bottleType) == "detergent" || Lower(bottleType) == "shampoo"
    ensures GetBottleMaterial(bottleType) == Success(HDPE)
  {
    HdpeByKey();
  }

  /** Upper-case "SODA" is read as "soda". */
  lemma UpperCaseSoda()
    ensures GetBottleMaterial("SODA") == Success(PET)
  {
    assert Lower("SODA") == "soda";
    PetBottles("SODA");
  }

  /** An unknown bottle type is refused. */
  lemma UnknownBottle()
    ensures GetBottleMaterial("invalid_bottle").Failure?
  {
    assert |Lower("invalid_bottle")| == 14;
  }

  /** The key "HDPE" itself finds the HDPE record. */
  lemma HdpeByKey()
    ensures GetMaterial("HDPE") == Success(HDPE)
  {
    NormalizePlain("HDPE");
    ExactKeyFirst("HDPE", 1);
  }
}
