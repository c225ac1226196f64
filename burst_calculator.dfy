/** Thin-wall stress model of a capped cylindrical pressure vessel.

    Stresses follow thin-wall theory (hoop P*D/(2t), axial P*D/(4t), no
    radial stress); every stress calculation first checks that the wall is
    thin enough (t/D at most 0.1).  Where the source raises `ValueError`
    the functions return `Failure`; the marginal-geometry warning is a
    returned flag.
 */
module ThinWall {
  import opened Wrappers
  import opened Analytic
  import opened Text
  import opened Materials

  /** Cylinder geometry in metres; the length is optional. */
  datatype VesselGeometry = VesselGeometry(innerDiameter: real, wallThickness: real, length: Option<real>)

  /** The principal stresses at the wall and their von Mises equivalent, in Pa. */
  datatype StressState = StressState(hoop: real, axial: real, radial: real, vonMises: real)

  /** The default thin-wall limit on t/D. */
  const ThinWallThreshold: real := 0.1
  /** Above this t/D the thin-wall result is flagged as marginal. */
  const MarginalRatio: real := 0.05

  /** The wall ratio t/D (the source divides by the diameter). */
  function Ratio(g: VesselGeometry): real
    requires g.innerDiameter != 0.0
  {
    g.wallThickness / g.innerDiameter
  }

  /** Geometries the stress formulas can divide by: the source raises
      `ZeroDivisionError` for a zero diameter or a zero wall. */
  predicate Nondegenerate(g: VesselGeometry)
  {
    g.innerDiameter != 0.0 && g.wallThickness != 0.0
  }

  /** The text that opens the error raised for a thick wall. */
  const ThickWallError: string := "Thin-wall assumption violated"

  /** `validate_thin_wall_assumption`: fails above the threshold; otherwise
      reports whether the marginal warning is issued. */
  function ValidateThinWall(g: VesselGeometry, threshold: real): (r: Result<bool>)
    requires g.innerDiameter != 0.0
    ensures r.Failure? <==> Ratio(g) > threshold
    ensures r.Failure? ==> r.error == ThickWallError
    ensures r.Success? ==> (r.value <==> Ratio(g) > MarginalRatio)
  {
    var ratio := Ratio(g);
    if ratio > threshold then Failure(ThickWallError)
    else Success(ratio > MarginalRatio)
  }

  /** With the default threshold: an error above 0.1, a warning in (0.05, 0.1], silence below. */
  lemma ValidationBands(g: VesselGeometry)
    requires g.innerDiameter != 0.0
    ensures Ratio(g) > 0.1 ==> ValidateThinWall(g, ThinWallThreshold).Failure?
    ensures 0.05 < Ratio(g) <= 0.1 ==> ValidateThinWall(g, ThinWallThreshold) == Success(true)
    ensures Ratio(g) <= 0.05 ==> ValidateThinWall(g, ThinWallThreshold) == Success(false)
  {
  }

  /** `calculate_hoop_stress`. */
  function HoopStress(pressure: real, g: VesselGeometry): (r: Result<real>)
    requires Nondegenerate(g)
    ensures r.Success? <==> Ratio(g) <= ThinWallThreshold
    ensures r.Failure? ==> r.error == ThickWallError
    ensures r.Success? ==> r.value * (2.0 * g.wallThickness) == pressure * g.innerDiameter
  {
    match ValidateThinWall(g, ThinWallThreshold)
    case Failure(msg) => Failure(msg)
    case Success(_) => Success(pressure * g.innerDiameter / (2.0 * g.wallThickness))
  }

  /** `calculate_axial_stress` (closed ends). */
  function AxialStress(pressure: real, g: VesselGeometry): (r: Result<real>)
    requires Nondegenerate(g)
    ensures r.Success? <==> Ratio(g) <= ThinWallThreshold
    ensures r.Failure? ==> r.error == ThickWallError
    ensures r.Success? ==> r.value * (4.0 * g.wallThickness) == pressure * g.innerDiameter
  {
    match ValidateThinWall(g, ThinWallThreshold)
    case Failure(msg) => Failure(msg)
    case Success(_) => Success(pressure * g.innerDiameter / (4.0 * g.wallThickness))
  }

  /** The hoop stress is exactly twice the axial stress, and both fail together. */
  lemma HoopIsTwiceAxial(pressure: real, g: VesselGeometry)
    requires Nondegenerate(g)
    ensures HoopStress(pressure, g).Success? == AxialStress(pressure, g).Success?
    ensures HoopStress(pressure, g).Success? ==>
      HoopStress(pressure, g).value == 2.0 * AxialStress(pressure, g).value
  {
    if HoopStress(pressure, g).Success? {
      var h, a, t := HoopStress(pressure, g).value, AxialStress(pressure, g).value, g.wallThickness;
      assert h * (2.0 * t) == a * (4.0 * t);
      assert (h - 2.0 * a) * t == 0.0;
    }
  }

  /** The quantity under the root of the von Mises formula. */
  function VonMisesRadicand(hoop: real, axial: real, radial: real): real
  {
    ((hoop - axial) * (hoop - axial) + (axial - radial) * (axial - radial)
      + (radial - hoop) * (radial - hoop)) / 2.0
  }

  /** `calculate_von_mises_stress`. */
  function VonMises(e: Elementary, hoop: real, axial: real, radial: real): (r: real)
    requires Lawful(e)
    ensures r >= 0.0
    ensures r * r == VonMisesRadicand(hoop, axial, radial)
  {
    RadicandNonNegative(hoop, axial, radial);
    e.sqrt(VonMisesRadicand(hoop, axial, radial))
  }

  lemma RadicandNonNegative(hoop: real, axial: real, radial: real)
    ensures VonMisesRadicand(hoop, axial, radial) >= 0.0
  {
    var x, y, z := hoop - axial, axial - radial, radial - hoop;
    var xx, yy, zz := x * x, y * y, z * z;
    assert xx >= 0.0 && yy >= 0.0 && zz >= 0.0;
  }

  /** With no radial stress, von Mises is the root of h^2 - h*a + a^2. */
  lemma VonMisesPlaneStress(e: Elementary, hoop: real, axial: real)
    requires Lawful(e)
    ensures VonMises(e, hoop, axial, 0.0) == e.sqrt(hoop * hoop - hoop * axial + axial * axial)
  {
    assert VonMisesRadicand(hoop, axial, 0.0) == hoop * hoop - hoop * axial + axial * axial;
  }

  /** `calculate_stress_state`: hoop, axial, zero radial stress and their von Mises stress. */
  function StressStateOf(e: Elementary, pressure: real, g: VesselGeometry): (r: Result<StressState>)
    requires Lawful(e) && Nondegenerate(g)
    ensures r.Success? <==> Ratio(g) <= ThinWallThreshold
    ensures r.Failure? ==> r.error == ThickWallError
    ensures r.Success? ==>
      && Success(r.value.hoop) == HoopStress(pressure, g)
      && Success(r.value.axial) == AxialStress(pressure, g)
      && r.value.radial == 0.0
      && r.value.vonMises == VonMises(e, r.value.hoop, r.value.axial, 0.0)
  {
    match HoopStress(pressure, g)
    case Failure(msg) => Failure(msg)
    case Success(h) =>
      match AxialStress(pressure, g)
      case Failure(msg) => Failure(msg)
      case Success(a) => Success(StressState(h, a, 0.0, VonMises(e, h, a, 0.0)))
  }

  /** In the thin-wall stress state the von Mises stress is sqrt(3) times |axial|. */
  lemma VonMisesOfStressState(e: Elementary, pressure: real, g: VesselGeometry)
    requires Lawful(e) && Nondegenerate(g)
    requires StressStateOf(e, pressure, g).Success?
    ensures StressStateOf(e, pressure, g).value.vonMises
      == Abs(StressStateOf(e, pressure, g).value.axial) * e.sqrt(3.0)
  {
    var s := StressStateOf(e, pressure, g).value;
    HoopIsTwiceAxial(pressure, g);
    var a := s.axial;
    assert s.hoop == 2.0 * a;
    assert VonMisesRadicand(2.0 * a, a, 0.0) == Abs(a) * Abs(a) * 3.0;
    SqrtScale(e, Abs(a), 3.0);
  }

  /** The two failure criteria the source accepts. */
  datatype Criterion = Yield | Ultimate

  /** The criterion a name selects, compared after `criterion.lower()`. */
  function ParseCriterion(criterion: string): (r: Result<Criterion>)
    ensures r == Success(Yield) <==> Lower(criterion) == "yield"
    ensures r == Success(Ultimate) <==> Lower(criterion) == "ultimate"
    ensures r.Failure? ==> r.error == "Unknown criterion '" + criterion + "'. Use 'yield' or 'ultimate'."
  {
    if Lower(criterion) == "yield" then Success(Yield)
    else if Lower(criterion) == "ultimate" then Success(Ultimate)
    else Failure("Unknown criterion '" + criterion + "'. Use 'yield' or 'ultimate'.")
  }

  /** The allowable stress under a criterion. */
  function Allowable(m: MaterialProperties, c: Criterion): real
  {
    match c
    case Yield => m.yieldStrength
    case Ultimate => m.tensileStrength
  }

  /** `calculate_burst_pressure`: Barlow's 2*sigma*t/D divided by the safety factor. */
  function BurstPressure(g: VesselGeometry, m: MaterialProperties, useYield: bool, safetyFactor: real)
    : (r: Result<real>)
    requires g.innerDiameter != 0.0 && safetyFactor != 0.0
    ensures r.Success? <==> Ratio(g) <= ThinWallThreshold
    ensures r.Failure? ==> r.error == ThickWallError
    ensures r.Success? ==>
      r.value * g.innerDiameter * safetyFactor
        == 2.0 * (if useYield then m.yieldStrength else m.tensileStrength) * g.wallThickness
  {
    match ValidateThinWall(g, ThinWallThreshold)
    case Failure(msg) => Failure(msg)
    case Success(_) =>
      var allow := if useYield then m.yieldStrength else m.tensileStrength;
      Success(2.0 * allow * g.wallThickness / g.innerDiameter / safetyFactor)
  }

  /** Burst pressure is linear in the wall thickness while the wall stays thin. */
  lemma BurstLinearInThickness(g: VesselGeometry, m: MaterialProperties, useYield: bool, k: real)
    requires g.innerDiameter > 0.0
    requires Ratio(g) <= ThinWallThreshold && k * Ratio(g) <= ThinWallThreshold
    ensures var thick := g.(wallThickness := k * g.wallThickness);
      BurstPressure(g, m, useYield, 1.0).Success? && BurstPressure(thick, m, useYield, 1.0).Success?
      && BurstPressure(thick, m, useYield, 1.0).value == k * BurstPressure(g, m, useYield, 1.0).value
  {
    var thick := g.(wallThickness := k * g.wallThickness);
    assert Ratio(thick) == k * Ratio(g);
  }

  /** Doubling the diameter halves the burst pressure. */
  lemma BurstInverseInDiameter(g: VesselGeometry, m: MaterialProperties, useYield: bool)
    requires g.innerDiameter > 0.0
    requires Ratio(g) <= ThinWallThreshold
    ensures var wide := g.(innerDiameter := 2.0 * g.innerDiameter);
      BurstPressure(g, m, useYield, 1.0).Success? && BurstPressure(wide, m, useYield, 1.0).Success?
      && 2.0 * BurstPressure(wide, m, useYield, 1.0).value == BurstPressure(g, m, useYield, 1.0).value
  {
    var wide := g.(innerDiameter := 2.0 * g.innerDiameter);
    assert Ratio(wide) * 2.0 == Ratio(g);
  }

  /** The safety factor divides the burst pressure exactly. */
  lemma BurstDividedBySafetyFactor(g: VesselGeometry, m: MaterialProperties, useYield: bool, sf: real)
    requires g.innerDiameter != 0.0 && sf != 0.0
    requires Ratio(g) <= ThinWallThreshold
    ensures BurstPressure(g, m, useYield, sf).value * sf == BurstPressure(g, m, useYield, 1.0).value
  {
  }

  /** Allowable over actual stress, and +inf when the actual stress is not positive. */
  function StressRatio(allow: real, actual: real): (r: Ext)
    ensures actual > 0.0 ==> r.Fin? && r.v * actual == allow
    ensures actual <= 0.0 ==> r == Inf
  {
    if actual > 0.0 then Fin(allow / actual) else Inf
  }

  /** `calculate_safety_factor`. The stress state, and with it the thin-wall check,
      comes before the criterion check, so a thick wall reports the thin-wall error. */
  function SafetyFactor(e: Elementary, pressure: real, g: VesselGeometry, m: MaterialProperties, criterion: string)
    : (r: Result<Ext>)
    requires Lawful(e) && Nondegenerate(g)
    ensures Ratio(g) > ThinWallThreshold ==> r == Failure(ThickWallError)
    ensures Ratio(g) <= ThinWallThreshold && ParseCriterion(criterion).Failure? ==>
      r == Failure(ParseCriterion(criterion).error)
    ensures Ratio(g) <= ThinWallThreshold && ParseCriterion(criterion).Success? ==>
      r == Success(StressRatio(Allowable(m, ParseCriterion(criterion).value),
                               StressStateOf(e, pressure, g).value.vonMises))
  {
    match StressStateOf(e, pressure, g)
    case Failure(msg) => Failure(msg)
    case Success(s) =>
      match ParseCriterion(criterion)
      case Failure(msg) => Failure(msg)
      case Success(c) => Success(StressRatio(Allowable(m, c), s.vonMises))
  }

  /** The axial stress of a valid geometry is the pressure times D/(4t). */
  lemma AxialProportional(p: real, g: VesselGeometry)
    requires g.innerDiameter > 0.0 && g.wallThickness > 0.0 && Ratio(g) <= ThinWallThreshold
    ensures AxialStress(p, g).Success?
    ensures AxialStress(p, g).value == p * (g.innerDiameter / (4.0 * g.wallThickness))
  {
    var t, d := g.wallThickness, g.innerDiameter;
    assert AxialStress(p, g).value * (4.0 * t) == p * d;
  }

  /** In a valid geometry the von Mises stress is |P| * (D/(4t)) * sqrt(3). */
  lemma VonMisesClosedForm(e: Elementary, p: real, g: VesselGeometry)
    requires Lawful(e)
    requires g.innerDiameter > 0.0 && g.wallThickness > 0.0 && Ratio(g) <= ThinWallThreshold
    ensures StressStateOf(e, p, g).Success?
    ensures StressStateOf(e, p, g).value.vonMises
      == Abs(p) * (g.innerDiameter / (4.0 * g.wallThickness)) * e.sqrt(3.0)
  {
    AxialProportional(p, g);
    var c := g.innerDiameter / (4.0 * g.wallThickness);
    assert c > 0.0;
    assert Abs(p * c) == Abs(p) * c;
    VonMisesOfStressState(e, p, g);
  }

  /** Zero pressure gives an infinite safety factor. */
  lemma SafetyFactorAtZeroPressure(e: Elementary, g: VesselGeometry, m: MaterialProperties, criterion: string)
    requires Lawful(e)
    requires g.innerDiameter > 0.0 && g.wallThickness > 0.0 && Ratio(g) <= ThinWallThreshold
    requires ParseCriterion(criterion).Success?
    ensures SafetyFactor(e, 0.0, g, m, criterion) == Success(Inf)
  {
    VonMisesClosedForm(e, 0.0, g);
  }

  /** For positive pressures the safety factor strictly decreases as the pressure rises. */
  lemma SafetyFactorDecreasing(e: Elementary, p1: real, p2: real, g: VesselGeometry,
                               m: MaterialProperties, criterion: string)
    requires Lawful(e)
    requires g.innerDiameter > 0.0 && g.wallThickness > 0.0 && Ratio(g) <= ThinWallThreshold
    requires ParseCriterion(criterion).Success? && Allowable(m, ParseCriterion(criterion).value) > 0.0
    requires 0.0 < p1 < p2
    ensures SafetyFactor(e, p1, g, m, criterion).Success? && SafetyFactor(e, p1, g, m, criterion).value.Fin?
    ensures SafetyFactor(e, p2, g, m, criterion).Success? && SafetyFactor(e, p2, g, m, criterion).value.Fin?
    ensures SafetyFactor(e, p2, g, m, criterion).value.v < SafetyFactor(e, p1, g, m, criterion).value.v
  {
    VonMisesIncreasing(e, p1, p2, g);
    DivisionDecreasing(Allowable(m, ParseCriterion(criterion).value),
                       StressStateOf(e, p1, g).value.vonMises, StressStateOf(e, p2, g).value.vonMises);
  }

  /** For positive pressures the von Mises stress is positive and grows with the pressure. */
  lemma VonMisesIncreasing(e: Elementary, p1: real, p2: real, g: VesselGeometry)
    requires Lawful(e)
    requires g.innerDiameter > 0.0 && g.wallThickness > 0.0 && Ratio(g) <= ThinWallThreshold
    requires 0.0 < p1 < p2
    ensures StressStateOf(e, p1, g).Success? && StressStateOf(e, p2, g).Success?
    ensures 0.0 < StressStateOf(e, p1, g).value.vonMises < StressStateOf(e, p2, g).value.vonMises
  {
    VonMisesClosedForm(e, p1, g);
    VonMisesClosedForm(e, p2, g);
    var v1, v2 := StressStateOf(e, p1, g).value.vonMises, StressStateOf(e, p2, g).value.vonMises;
    SqrtPositive(e, 3.0);
    StressOrder(p1, p2, g.innerDiameter / (4.0 * g.wallThickness), e.sqrt(3.0), v1, v2);
  }

  /** |p| * c * root grows strictly with a positive p. */
  lemma StressOrder(p1: real, p2: real, c: real, root: real, v1: real, v2: real)
    requires 0.0 < p1 < p2 && c > 0.0 && root > 0.0
    requires v1 == Abs(p1) * c * root && v2 == Abs(p2) * c * root
    ensures 0.0 < v1 < v2
  {
    var a1, a2 := p1 * c, p2 * c;
    assert 0.0 < a1 < a2;
    assert v1 == a1 * root && v2 == a2 * root;
  }

  /** a/x > a/y for a > 0 and 0 < x < y. */
  lemma DivisionDecreasing(a: real, x: real, y: real)
    requires a > 0.0 && 0.0 < x < y
    ensures StressRatio(a, y).v < StressRatio(a, x).v
  {
    var qx, qy := a / x, a / y;
    assert qy * y == a == qx * x;
    assert qy * x < qy * y;
  }

  /** Scaling a positive pressure by k divides the safety factor by k. */
  lemma SafetyFactorScaling(e: Elementary, p: real, k: real, g: VesselGeometry,
                            m: MaterialProperties, criterion: string)
    requires Lawful(e)
    requires g.innerDiameter > 0.0 && g.wallThickness > 0.0 && Ratio(g) <= ThinWallThreshold
    requires ParseCriterion(criterion).Success?
    requires p > 0.0 && k > 0.0
    ensures SafetyFactor(e, p, g, m, criterion).Success? && SafetyFactor(e, p, g, m, criterion).value.Fin?
    ensures SafetyFactor(e, k * p, g, m, criterion).Success? && SafetyFactor(e, k * p, g, m, criterion).value.Fin?
    ensures SafetyFactor(e, k * p, g, m, criterion).value.v * k == SafetyFactor(e, p, g, m, criterion).value.v
  {
    VonMisesScaling(e, p, k, g);
    DivisionScaling(Allowable(m, ParseCriterion(criterion).value), k,
                    StressStateOf(e, p, g).value.vonMises, StressStateOf(e, k * p, g).value.vonMises);
  }

  /** Scaling a positive pressure by k > 0 scales the von Mises stress by k. */
  lemma VonMisesScaling(e: Elementary, p: real, k: real, g: VesselGeometry)
    requires Lawful(e)
    requires g.innerDiameter > 0.0 && g.wallThickness > 0.0 && Ratio(g) <= ThinWallThreshold
    requires p > 0.0 && k > 0.0
    ensures StressStateOf(e, p, g).Success? && StressStateOf(e, k * p, g).Success?
    ensures StressStateOf(e, p, g).value.vonMises > 0.0
    ensures StressStateOf(e, k * p, g).value.vonMises == k * StressStateOf(e, p, g).value.vonMises
  {
    VonMisesClosedForm(e, p, g);
    VonMisesClosedForm(e, k * p, g);
    var v1, v2 := StressStateOf(e, p, g).value.vonMises, StressStateOf(e, k * p, g).value.vonMises;
    SqrtPositive(e, 3.0);
    QuotientScaling(p, k, g.innerDiameter / (4.0 * g.wallThickness), e.sqrt(3.0), v1, v2);
  }

  /** a/(k*v) * k == a/v for positive k and v. */
  lemma DivisionScaling(a: real, k: real, v1: real, v2: real)
    requires k > 0.0 && v1 > 0.0 && v2 == k * v1
    ensures StressRatio(a, v2).Fin? && StressRatio(a, v2).v * k == StressRatio(a, v1).v
  {
    ProductSigns(k, v1);
    var q1, q2 := a / v1, a / v2;
    assert q2 * v2 == a;
    assert q1 * v1 == a;
  }

  /** With v1 = |p|*c*root and v2 = |k*p|*c*root, all factors positive, v2 = k*v1 > 0. */
  lemma QuotientScaling(p: real, k: real, c: real, root: real, v1: real, v2: real)
    requires p > 0.0 && k > 0.0 && c > 0.0 && root > 0.0
    requires v1 == Abs(p) * c * root && v2 == Abs(k * p) * c * root
    ensures v1 > 0.0 && v2 == k * v1
  {
    assert Abs(p) == p;
    assert Abs(k * p) == k * p by {
      ProductSigns(k, p);
    }
    assert v1 > 0.0 by {
      ProductSigns(p, c);
      ProductSigns(p * c, root);
    }
  }

  /** At the Barlow pressure (hoop stress = yield strength) the safety factor is
      2/sqrt(3), not 1: it squares to exactly 4/3, because the safety factor
      uses the von Mises stress and Barlow's formula the hoop stress. */
  lemma SafetyFactorAtBarlowPressure(e: Elementary, g: VesselGeometry, m: MaterialProperties)
    requires Lawful(e)
    requires g.innerDiameter > 0.0 && g.wallThickness > 0.0 && Ratio(g) <= ThinWallThreshold
    requires m.yieldStrength > 0.0
    ensures PredictFailurePressure(g, m, "yield").Success?
    ensures var p := PredictFailurePressure(g, m, "yield").value;
      SafetyFactor(e, p, g, m, "yield").Success? && SafetyFactor(e, p, g, m, "yield").value.Fin?
      && SafetyFactor(e, p, g, m, "yield").value.v * SafetyFactor(e, p, g, m, "yield").value.v == 4.0 / 3.0
  {
    assert Lower("yield") == "yield";
    var p := PredictFailurePressure(g, m, "yield").value;
    var y, t, d := m.yieldStrength, g.wallThickness, g.innerDiameter;
    var c := d / (4.0 * t);
    assert p * d == 2.0 * y * t;
    assert p * c == y / 2.0 by {
      assert p * c * (4.0 * t) == p * d;
    }
    VonMisesClosedForm(e, p, g);
    assert p > 0.0;
    SqrtPositive(e, 3.0);
    BarlowArithmetic(y, e.sqrt(3.0));
  }

  /** y / ((y/2)*root) squares to 4/3 when root*root == 3. */
  lemma BarlowArithmetic(y: real, root: real)
    requires y > 0.0 && root > 0.0 && root * root == 3.0
    ensures StressRatio(y, y / 2.0 * root).Fin?
    ensures StressRatio(y, y / 2.0 * root).v * StressRatio(y, y / 2.0 * root).v == 4.0 / 3.0
  {
    var vm := y / 2.0 * root;
    var sf := y / vm;
    assert sf * vm == y;
    assert sf * root == 2.0;
    assert sf * sf * 3.0 == sf * sf * (root * root) == (sf * root) * (sf * root);
  }

  /** `check_failure`: failed exactly when the safety factor is below 1. */
  function CheckFailure(e: Elementary, pressure: real, g: VesselGeometry, m: MaterialProperties, criterion: string)
    : (r: Result<(bool, Ext)>)
    requires Lawful(e) && Nondegenerate(g)
    ensures r.Success? <==> SafetyFactor(e, pressure, g, m, criterion).Success?
    ensures r.Failure? ==> r.error == SafetyFactor(e, pressure, g, m, criterion).error
    ensures r.Success? ==> r.value.1 == SafetyFactor(e, pressure, g, m, criterion).value
    ensures r.Success? ==> (r.value.0 <==> (r.value.1.Fin? && r.value.1.v < 1.0))
  {
    match SafetyFactor(e, pressure, g, m, criterion)
    case Failure(msg) => Failure(msg)
    case Success(sf) => Success((sf.Below(1.0), sf))
  }

  /** Zero pressure never fails; twice the yield-criterion failure pressure always fails. */
  lemma CheckFailureExamples(e: Elementary, g: VesselGeometry, m: MaterialProperties)
    requires Lawful(e)
    requires g.innerDiameter > 0.0 && g.wallThickness > 0.0 && Ratio(g) <= ThinWallThreshold
    requires m.yieldStrength > 0.0
    ensures CheckFailure(e, 0.0, g, m, "yield") == Success((false, Inf))
    ensures var p := PredictFailurePressure(g, m, "yield").value;
      CheckFailure(e, 2.0 * p, g, m, "yield").Success? && CheckFailure(e, 2.0 * p, g, m, "yield").value.0
  {
    assert Lower("yield") == "yield";
    SafetyFactorAtZeroPressure(e, g, m, "yield");
    SafetyFactorAtBarlowPressure(e, g, m);
    var p := PredictFailurePressure(g, m, "yield").value;
    assert p > 0.0 by {
      assert p * g.innerDiameter == 2.0 * m.yieldStrength * g.wallThickness;
    }
    SafetyFactorScaling(e, p, 2.0, g, m, "yield");
    var s1 := SafetyFactor(e, p, g, m, "yield").value.v;
    HalfBelowOne(s1);
  }

  /** A number whose square is 4/3 has half below 1. */
  lemma HalfBelowOne(s: real)
    requires s * s == 4.0 / 3.0
    ensures s / 2.0 < 1.0
  {
    if s >= 0.0 {
      SquareMonotone(2.0, s);
    }
  }

  /** `predict_failure_pressure`: the yield strength for criterion "yield" (any case),
      the tensile strength for every other criterion, with safety factor 1. */
  function PredictFailurePressure(g: VesselGeometry, m: MaterialProperties, criterion: string): (r: Result<real>)
    requires g.innerDiameter != 0.0
    ensures r.Success? <==> Ratio(g) <= ThinWallThreshold
    ensures r.Failure? ==> r.error == ThickWallError
    ensures r.Success? ==>
      r.value * g.innerDiameter
        == 2.0 * (if Lower(criterion) == "yield" then m.yieldStrength else m.tensileStrength) * g.wallThickness
  {
    BurstPressure(g, m, Lower(criterion) == "yield", 1.0)
  }

  /** Failure is predicted at a higher pressure under the ultimate criterion. */
  lemma UltimateAboveYield(g: VesselGeometry, m: MaterialProperties)
    requires g.innerDiameter > 0.0 && g.wallThickness > 0.0 && Ratio(g) <= ThinWallThreshold
    requires m.yieldStrength <= m.tensileStrength
    ensures PredictFailurePressure(g, m, "yield").value <= PredictFailurePressure(g, m, "ultimate").value
  {
    assert Lower("yield") == "yield";
    assert Lower("ultimate") != "yield";
    var d := g.innerDiameter;
    var py, pu := PredictFailurePressure(g, m, "yield").value, PredictFailurePressure(g, m, "ultimate").value;
    assert py * d <= pu * d;
  }
}
