/** Lamé's exact solution for a thick-walled cylinder under inner and outer
    pressure, its comparison with thin-wall theory, and the thick-wall burst
    pressure.

    With k = ro^2 - ri^2, A = (Pi*ri^2 - Po*ro^2)/k and B = (Pi - Po)*ri^2*ro^2/k,
    the radial stress is A - B/r^2 and the hoop stress A + B/r^2.
 */
module Lame {
  import opened Wrappers
  import opened Analytic
  import opened Materials
  import opened ThinWall

  /** Radii the formulas can divide by: both positive and distinct. */
  predicate Radii(ri: real, ro: real)
  {
    0.0 < ri && 0.0 < ro && ri != ro
  }

  /** The constant A. */
  function LameA(ri: real, ro: real, pIn: real, pOut: real): real
    requires Radii(ri, ro)
  {
    (pIn * Square(ri) - pOut * Square(ro)) / (Square(ro) - Square(ri))
  }

  /** The constant B. */
  function LameB(ri: real, ro: real, pIn: real, pOut: real): real
    requires Radii(ri, ro)
  {
    (pIn - pOut) * Square(ri) * Square(ro) / (Square(ro) - Square(ri))
  }

  /** Radial stress A - B/r^2 at radius r. */
  function RadialAt(ri: real, ro: real, pIn: real, pOut: real, r: real): real
    requires Radii(ri, ro) && r != 0.0
  {
    SquarePositive(r);
    LameA(ri, ro, pIn, pOut) - LameB(ri, ro, pIn, pOut) / Square(r)
  }

  /** Hoop stress A + B/r^2 at radius r. */
  function HoopAt(ri: real, ro: real, pIn: real, pOut: real, r: real): real
    requires Radii(ri, ro) && r != 0.0
  {
    SquarePositive(r);
    LameA(ri, ro, pIn, pOut) + LameB(ri, ro, pIn, pOut) / Square(r)
  }

  /** The closed-end axial stress Pi*ri^2/(ro^2 - ri^2): the outer pressure does not enter. */
  function AxialLame(ri: real, ro: real, pIn: real): real
    requires Radii(ri, ro)
  {
    pIn * Square(ri) / (Square(ro) - Square(ri))
  }

  /** Radial displacement (1/E)[(1 - nu)*A*r + (1 + nu)*B/r]. */
  function DisplacementAt(ri: real, ro: real, pIn: real, pOut: real, m: MaterialProperties, r: real): real
    requires Radii(ri, ro) && r != 0.0 && m.elasticModulus != 0.0
  {
    var a, b, nu := LameA(ri, ro, pIn, pOut), LameB(ri, ro, pIn, pOut), m.poissonRatio;
    (1.0 / m.elasticModulus) * ((1.0 - nu) * a * r + (1.0 + nu) * b / r)
  }

  /** Hooke's law for one strain component: (1/E)(s - nu*(o1 + o2)). */
  function Strain(m: MaterialProperties, s: real, o1: real, o2: real): real
    requires m.elasticModulus != 0.0
  {
    (1.0 / m.elasticModulus) * (s - m.poissonRatio * (o1 + o2))
  }

  /** `ThickWallResult`: the nine profiles through the wall. */
  datatype LameProfile = LameProfile(
    r: seq<real>, sigmaR: seq<real>, sigmaTheta: seq<real>, sigmaZ: seq<real>, sigmaVm: seq<real>,
    u: seq<real>, epsilonR: seq<real>, epsilonTheta: seq<real>, epsilonZ: seq<real>)

  /** Every profile has one entry per radius. */
  predicate Sized(p: LameProfile, n: nat)
  {
    |p.r| == n && |p.sigmaR| == n && |p.sigmaTheta| == n && |p.sigmaZ| == n && |p.sigmaVm| == n
    && |p.u| == n && |p.epsilonR| == n && |p.epsilonTheta| == n && |p.epsilonZ| == n
  }

  /** Every evaluation radius lies between the two surfaces, so none is zero. */
  lemma RadiiPositive(ri: real, ro: real, n: nat, i: nat)
    requires Radii(ri, ro) && i < n
    ensures Linspace(ri, ro, n)[i] > 0.0
  {
    LinspaceBetween(ri, ro, n, i);
  }

  /** The radial stress A - B/r^2 at each radius. */
  function RadialProfile(ri: real, ro: real, pIn: real, pOut: real, r: seq<real>): (s: seq<real>)
    requires Radii(ri, ro) && forall i :: 0 <= i < |r| ==> r[i] > 0.0
    ensures |s| == |r| && forall i :: 0 <= i < |r| ==> s[i] == RadialAt(ri, ro, pIn, pOut, r[i])
  {
    seq(|r|, i requires 0 <= i < |r| => RadialAt(ri, ro, pIn, pOut, r[i]))
  }

  /** The hoop stress A + B/r^2 at each radius. */
  function HoopProfile(ri: real, ro: real, pIn: real, pOut: real, r: seq<real>): (s: seq<real>)
    requires Radii(ri, ro) && forall i :: 0 <= i < |r| ==> r[i] > 0.0
    ensures |s| == |r| && forall i :: 0 <= i < |r| ==> s[i] == HoopAt(ri, ro, pIn, pOut, r[i])
  {
    seq(|r|, i requires 0 <= i < |r| => HoopAt(ri, ro, pIn, pOut, r[i]))
  }

  /** The von Mises stress of the three principal stresses at each radius. */
  function VonMisesProfile(e: Elementary, hoop: seq<real>, axial: seq<real>, radial: seq<real>): (s: seq<real>)
    requires Lawful(e) && |hoop| == |axial| == |radial|
    ensures |s| == |hoop|
    ensures forall i :: 0 <= i < |s| ==> s[i] == VonMises(e, hoop[i], axial[i], radial[i])
  {
    seq(|hoop|, i requires 0 <= i < |hoop| => VonMises(e, hoop[i], axial[i], radial[i]))
  }

  /** The radial displacement at each radius. */
  function DisplacementProfile(ri: real, ro: real, pIn: real, pOut: real, m: MaterialProperties, r: seq<real>)
    : (s: seq<real>)
    requires Radii(ri, ro) && m.elasticModulus != 0.0 && forall i :: 0 <= i < |r| ==> r[i] > 0.0
    ensures |s| == |r| && forall i :: 0 <= i < |r| ==> s[i] == DisplacementAt(ri, ro, pIn, pOut, m, r[i])
  {
    seq(|r|, i requires 0 <= i < |r| => DisplacementAt(ri, ro, pIn, pOut, m, r[i]))
  }

  /** One strain component at each radius, from its own stress and the two others. */
  function StrainProfile(m: MaterialProperties, own: seq<real>, o1: seq<real>, o2: seq<real>): (s: seq<real>)
    requires m.elasticModulus != 0.0 && |own| == |o1| == |o2|
    ensures |s| == |own| && forall i :: 0 <= i < |s| ==> s[i] == Strain(m, own[i], o1[i], o2[i])
  {
    seq(|own|, i requires 0 <= i < |own| => Strain(m, own[i], o1[i], o2[i]))
  }

  /** The displacement profile, zero without a material. */
  function DisplacementOf(ri: real, ro: real, pIn: real, pOut: real, material: Option<MaterialProperties>, r: seq<real>)
    : (s: seq<real>)
    requires Radii(ri, ro) && forall i :: 0 <= i < |r| ==> r[i] > 0.0
    requires material.Some? ==> material.value.elasticModulus != 0.0
    ensures |s| == |r|
    ensures material.None? ==> forall i :: 0 <= i < |r| ==> s[i] == 0.0
    ensures material.Some? ==> forall i :: 0 <= i < |r| ==> s[i] == DisplacementAt(ri, ro, pIn, pOut, material.value, r[i])
  {
    match material
    case None => seq(|r|, i => 0.0)
    case Some(m) => DisplacementProfile(ri, ro, pIn, pOut, m, r)
  }

  /** One strain profile, zero without a material. */
  function StrainOf(material: Option<MaterialProperties>, own: seq<real>, o1: seq<real>, o2: seq<real>): (s: seq<real>)
    requires material.Some? ==> material.value.elasticModulus != 0.0
    requires |own| == |o1| == |o2|
    ensures |s| == |own|
    ensures material.None? ==> forall i :: 0 <= i < |own| ==> s[i] == 0.0
    ensures material.Some? ==> forall i :: 0 <= i < |own| ==> s[i] == Strain(material.value, own[i], o1[i], o2[i])
  {
    match material
    case None => seq(|own|, i => 0.0)
    case Some(m) => StrainProfile(m, own, o1, o2)
  }

  /** The evaluation radii are all positive. */
  lemma GridPositive(ri: real, ro: real, n: nat)
    requires Radii(ri, ro)
    ensures forall i :: 0 <= i < n ==> Linspace(ri, ro, n)[i] > 0.0
  {
    forall i | 0 <= i < n ensures Linspace(ri, ro, n)[i] > 0.0 {
      LinspaceBetween(ri, ro, n, i);
    }
  }

  /** `solve_lame_equations`: the profiles over `n` radii from ri to ro.
      Without a material the displacement and strains are zero. */
  function SolveLame(e: Elementary, ri: real, ro: real, pIn: real, pOut: real,
                     material: Option<MaterialProperties>, n: nat): (p: LameProfile)
    requires Lawful(e) && Radii(ri, ro)
    requires material.Some? ==> material.value.elasticModulus != 0.0
    ensures Sized(p, n) && p.r == Linspace(ri, ro, n)
    ensures forall i :: 0 <= i < n ==> p.r[i] > 0.0
    ensures forall i :: 0 <= i < n ==> p.sigmaR[i] == RadialAt(ri, ro, pIn, pOut, p.r[i])
    ensures forall i :: 0 <= i < n ==> p.sigmaTheta[i] == HoopAt(ri, ro, pIn, pOut, p.r[i])
    ensures forall i :: 0 <= i < n ==> p.sigmaZ[i] == AxialLame(ri, ro, pIn)
    ensures forall i :: 0 <= i < n ==> p.sigmaVm[i] == VonMises(e, p.sigmaTheta[i], p.sigmaZ[i], p.sigmaR[i])
    ensures forall i :: 0 <= i < n ==> p.sigmaVm[i] >= 0.0
    ensures material.None? ==> forall i :: 0 <= i < n ==>
      p.u[i] == 0.0 && p.epsilonR[i] == 0.0 && p.epsilonTheta[i] == 0.0 && p.epsilonZ[i] == 0.0
    ensures material.Some? ==> forall i :: 0 <= i < n ==>
      p.u[i] == DisplacementAt(ri, ro, pIn, pOut, material.value, p.r[i])
    ensures material.Some? ==> forall i :: 0 <= i < n ==>
      p.epsilonR[i] == Strain(material.value, p.sigmaR[i], p.sigmaTheta[i], p.sigmaZ[i])
    ensures material.Some? ==> forall i :: 0 <= i < n ==>
      p.epsilonTheta[i] == Strain(material.value, p.sigmaTheta[i], p.sigmaR[i], p.sigmaZ[i])
    ensures material.Some? ==> forall i :: 0 <= i < n ==>
      p.epsilonZ[i] == Strain(material.value, p.sigmaZ[i], p.sigmaR[i], p.sigmaTheta[i])
  {
    var r := Linspace(ri, ro, n);
    GridPositive(ri, ro, n);
    var sr := RadialProfile(ri, ro, pIn, pOut, r);
    var st := HoopProfile(ri, ro, pIn, pOut, r);
    var sz := seq(n, i => AxialLame(ri, ro, pIn));
    LameProfile(r, sr, st, sz, VonMisesProfile(e, st, sz, sr),
      DisplacementOf(ri, ro, pIn, pOut, material, r),
      StrainOf(material, sr, st, sz), StrainOf(material, st, sr, sz), StrainOf(material, sz, sr, st))
  }

  /** The algebra behind the inner boundary condition, with a2 = ri^2 and b2 = ro^2. */
  lemma InnerBoundaryAlgebra(pIn: real, pOut: real, a2: real, b2: real)
    requires a2 > 0.0 && b2 != a2
    ensures (pIn * a2 - pOut * b2) / (b2 - a2) - (pIn - pOut) * a2 * b2 / (b2 - a2) / a2 == -pIn
  {
    var k := b2 - a2;
    var x := (pIn - pOut) * a2 * b2;
    var y := (pIn - pOut) * b2;
    assert x / a2 == y by {
      assert x == y * a2;
      DivSelf(y, a2);
    }
    assert x / k / a2 == y / k by {
      DivDiv(x, k, a2);
    }
    assert (pIn * a2 - pOut * b2) / k - y / k == (-pIn * k) / k by {
      DivSub(pIn * a2 - pOut * b2, y, k);
      assert (pIn * a2 - pOut * b2) - y == -pIn * k;
    }
    DivSelf(-pIn, k);
  }

  /** The algebra behind the outer boundary condition. */
  lemma OuterBoundaryAlgebra(pIn: real, pOut: real, a2: real, b2: real)
    requires b2 > 0.0 && b2 != a2
    ensures (pIn * a2 - pOut * b2) / (b2 - a2) - (pIn - pOut) * a2 * b2 / (b2 - a2) / b2 == -pOut
  {
    var k := b2 - a2;
    var x := (pIn - pOut) * a2 * b2;
    var y := (pIn - pOut) * a2;
    assert x / b2 == y by {
      assert x == y * b2;
      DivSelf(y, b2);
    }
    assert x / k / b2 == y / k by {
      DivDiv(x, k, b2);
    }
    assert (pIn * a2 - pOut * b2) / k - y / k == (-pOut * k) / k by {
      DivSub(pIn * a2 - pOut * b2, y, k);
      assert (pIn * a2 - pOut * b2) - y == -pOut * k;
    }
    DivSelf(-pOut, k);
  }

  /** The radial stress meets the applied pressure at the inner surface. */
  lemma RadialAtBore(ri: real, ro: real, pIn: real, pOut: real)
    requires Radii(ri, ro)
    ensures RadialAt(ri, ro, pIn, pOut, ri) == -pIn
  {
    SquarePositive(ri);
    SquarePositive(ro);
    InnerBoundaryAlgebra(pIn, pOut, Square(ri), Square(ro));
  }

  /** The radial stress meets the applied pressure at the outer surface. */
  lemma RadialAtOuterSurface(ri: real, ro: real, pIn: real, pOut: real)
    requires Radii(ri, ro)
    ensures RadialAt(ri, ro, pIn, pOut, ro) == -pOut
  {
    SquarePositive(ri);
    SquarePositive(ro);
    OuterBoundaryAlgebra(pIn, pOut, Square(ri), Square(ro));
  }

  /** Both boundary conditions hold on the solved profile (n >= 2). */
  lemma BoundaryConditions(e: Elementary, ri: real, ro: real, pIn: real, pOut: real,
                           material: Option<MaterialProperties>, n: nat)
    requires Lawful(e) && Radii(ri, ro) && n >= 2
    requires material.Some? ==> material.value.elasticModulus != 0.0
    ensures SolveLame(e, ri, ro, pIn, pOut, material, n).sigmaR[0] == -pIn
    ensures SolveLame(e, ri, ro, pIn, pOut, material, n).sigmaR[n - 1] == -pOut
  {
    RadialAtBore(ri, ro, pIn, pOut);
    RadialAtOuterSurface(ri, ro, pIn, pOut);
  }

  /** A product of three positive factors over a positive divisor is positive. */
  lemma PositiveFraction(d: real, a2: real, b2: real, k: real)
    requires d > 0.0 && a2 > 0.0 && b2 > 0.0 && k > 0.0
    ensures d * a2 * b2 / k > 0.0
  {
    ProductSigns(d, a2);
    ProductSigns(d * a2, b2);
    QuotientSign(d * a2 * b2, k);
  }

  /** Squares of ordered positive radii are positive and ordered. */
  lemma RadiiSquares(ri: real, ro: real)
    requires 0.0 < ri < ro
    ensures 0.0 < Square(ri) < Square(ro)
  {
    SquarePositive(ri);
    SquareIncreasing(ri, ro);
  }

  /** With Pi > Po and ri < ro, B is positive. */
  lemma PositiveB(ri: real, ro: real, pIn: real, pOut: real)
    requires Radii(ri, ro) && ri < ro && pIn > pOut
    ensures LameB(ri, ro, pIn, pOut) > 0.0
  {
    RadiiSquares(ri, ro);
    PositiveFraction(pIn - pOut, Square(ri), Square(ro), Square(ro) - Square(ri));
  }

  /** With Po = 0, Pi > 0 and ri < ro, A is positive. */
  lemma PositiveA(ri: real, ro: real, pIn: real)
    requires Radii(ri, ro) && ri < ro && pIn > 0.0
    ensures LameA(ri, ro, pIn, 0.0) > 0.0
  {
    RadiiSquares(ri, ro);
    ProductSigns(pIn, Square(ri));
    QuotientSign(pIn * Square(ri) - 0.0 * Square(ro), Square(ro) - Square(ri));
  }

  /** The hoop stress falls strictly with the radius when Pi > Po. */
  lemma HoopDecreasingInRadius(ri: real, ro: real, pIn: real, pOut: real, r1: real, r2: real)
    requires Radii(ri, ro) && ri < ro && pIn > pOut
    requires 0.0 < r1 < r2
    ensures HoopAt(ri, ro, pIn, pOut, r2) < HoopAt(ri, ro, pIn, pOut, r1)
  {
    PositiveB(ri, ro, pIn, pOut);
    RadiiSquares(r1, r2);
    QuotientDecreasing(LameB(ri, ro, pIn, pOut), Square(r1), Square(r2));
  }

  /** On the solved profile the hoop stress strictly decreases outward, so the
      bore holds the maximum and nothing else reaches it. */
  lemma HoopMaximalAtBore(e: Elementary, ri: real, ro: real, pIn: real, pOut: real,
                          material: Option<MaterialProperties>, n: nat, i: nat, j: nat)
    requires Lawful(e) && Radii(ri, ro) && ri < ro && pIn > pOut
    requires material.Some? ==> material.value.elasticModulus != 0.0
    requires i < j < n
    ensures SolveLame(e, ri, ro, pIn, pOut, material, n).sigmaTheta[j]
      < SolveLame(e, ri, ro, pIn, pOut, material, n).sigmaTheta[i]
  {
    var r := Linspace(ri, ro, n);
    LinspaceIncreasing(ri, ro, n, i, j);
    HoopDecreasingInRadius(ri, ro, pIn, pOut, r[i], r[j]);
  }

  /** So the largest hoop stress of the profile (`np.max`) is its bore value. */
  lemma BoreHoopIsMaximum(e: Elementary, ri: real, ro: real, pIn: real, pOut: real,
                          material: Option<MaterialProperties>, n: nat)
    requires Lawful(e) && Radii(ri, ro) && ri < ro && pIn > pOut
    requires material.Some? ==> material.value.elasticModulus != 0.0
    requires n > 0
    ensures SeqMax(SolveLame(e, ri, ro, pIn, pOut, material, n).sigmaTheta)
      == SolveLame(e, ri, ro, pIn, pOut, material, n).sigmaTheta[0]
  {
    var st := SolveLame(e, ri, ro, pIn, pOut, material, n).sigmaTheta;
    forall j | 0 < j < |st|
      ensures st[j] < st[0]
    {
      HoopMaximalAtBore(e, ri, ro, pIn, pOut, material, n, 0, j);
    }
    MaxAtHead(st);
  }

  /** The algebra of the bore hoop stress with no outer pressure. */
  lemma BoreHoopAlgebra(p: real, a2: real, b2: real)
    requires a2 > 0.0 && b2 != a2
    ensures (p * a2 - 0.0 * b2) / (b2 - a2) + (p - 0.0) * a2 * b2 / (b2 - a2) / a2 == p * (b2 + a2) / (b2 - a2)
  {
    var k := b2 - a2;
    var x := (p - 0.0) * a2 * b2;
    var y := p * b2;
    assert x / a2 == y by {
      assert x == y * a2;
      DivSelf(y, a2);
    }
    assert x / k / a2 == y / k by {
      DivDiv(x, k, a2);
    }
    assert (p * a2 - 0.0 * b2) / k + y / k == (p * a2 + y) / k by {
      DivAdd(p * a2 - 0.0 * b2, y, k);
    }
    assert p * a2 + y == p * (b2 + a2);
  }

  /** With no outer pressure the bore hoop stress is Pi*(ro^2 + ri^2)/(ro^2 - ri^2). */
  lemma HoopAtBore(ri: real, ro: real, pIn: real)
    requires Radii(ri, ro)
    ensures HoopAt(ri, ro, pIn, 0.0, ri) == pIn * (Square(ro) + Square(ri)) / (Square(ro) - Square(ri))
  {
    SquarePositive(ri);
    SquarePositive(ro);
    BoreHoopAlgebra(pIn, Square(ri), Square(ro));
  }

  /** Internal pressure alone gives a positive hoop stress at every radius. */
  lemma HoopPositive(ri: real, ro: real, pIn: real, r: real)
    requires Radii(ri, ro) && ri < ro && pIn > 0.0 && r > 0.0
    ensures HoopAt(ri, ro, pIn, 0.0, r) > 0.0
  {
    PositiveA(ri, ro, pIn);
    PositiveB(ri, ro, pIn, 0.0);
    SquarePositive(r);
    QuotientSign(LameB(ri, ro, pIn, 0.0), Square(r));
  }

  /** On the solved profile under internal pressure only, every hoop stress is positive. */
  lemma ProfileHoopPositive(e: Elementary, ri: real, ro: real, pIn: real,
                            material: Option<MaterialProperties>, n: nat, i: nat)
    requires Lawful(e) && Radii(ri, ro) && ri < ro && pIn > 0.0 && i < n
    requires material.Some? ==> material.value.elasticModulus != 0.0
    ensures SolveLame(e, ri, ro, pIn, 0.0, material, n).sigmaTheta[i] > 0.0
  {
    var p := SolveLame(e, ri, ro, pIn, 0.0, material, n);
    HoopPositive(ri, ro, pIn, p.r[i]);
  }

  /** The axial stress is one constant, whatever the outer pressure. */
  lemma AxialConstant(e: Elementary, ri: real, ro: real, pIn: real, pOut1: real, pOut2: real,
                      material: Option<MaterialProperties>, n: nat)
    requires Lawful(e) && Radii(ri, ro)
    requires material.Some? ==> material.value.elasticModulus != 0.0
    ensures SolveLame(e, ri, ro, pIn, pOut1, material, n).sigmaZ == SolveLame(e, ri, ro, pIn, pOut2, material, n).sigmaZ
  {
    var p1, p2 := SolveLame(e, ri, ro, pIn, pOut1, material, n), SolveLame(e, ri, ro, pIn, pOut2, material, n);
    assert forall i :: 0 <= i < n ==> p1.sigmaZ[i] == p2.sigmaZ[i];
  }

  /** The sign of (1/E)[(1 - nu)*a*r + (1 + nu)*b/r] for positive a, b, r and E. */
  lemma DisplacementSign(a: real, b: real, nu: real, r: real, modulus: real)
    requires a > 0.0 && b > 0.0 && r > 0.0 && modulus > 0.0 && -1.0 < nu < 1.0
    ensures (1.0 / modulus) * ((1.0 - nu) * a * r + (1.0 + nu) * b / r) > 0.0
  {
    ProductSigns(1.0 - nu, a);
    ProductSigns((1.0 - nu) * a, r);
    ProductSigns(1.0 + nu, b);
    QuotientSign((1.0 + nu) * b, r);
    QuotientSign(1.0, modulus);
    ProductSigns((1.0 - nu) * a * r + (1.0 + nu) * b / r, 1.0 / modulus);
  }

  /** Under internal pressure only, with E > 0 and -1 < nu < 1, the wall moves outward. */
  lemma DisplacementPositive(ri: real, ro: real, pIn: real, m: MaterialProperties, r: real)
    requires Radii(ri, ro) && ri < ro && pIn > 0.0 && r > 0.0
    requires m.elasticModulus > 0.0 && -1.0 < m.poissonRatio < 1.0
    ensures DisplacementAt(ri, ro, pIn, 0.0, m, r) > 0.0
  {
    PositiveA(ri, ro, pIn);
    PositiveB(ri, ro, pIn, 0.0);
    DisplacementSign(LameA(ri, ro, pIn, 0.0), LameB(ri, ro, pIn, 0.0), m.poissonRatio, r, m.elasticModulus);
  }

  /** On the solved profile with a material, every displacement is positive. */
  lemma ProfileDisplacementPositive(e: Elementary, ri: real, ro: real, pIn: real,
                                    m: MaterialProperties, n: nat, i: nat)
    requires Lawful(e) && Radii(ri, ro) && ri < ro && pIn > 0.0 && i < n
    requires m.elasticModulus > 0.0 && -1.0 < m.poissonRatio < 1.0
    ensures SolveLame(e, ri, ro, pIn, 0.0, Some(m), n).u[i] > 0.0
  {
    var p := SolveLame(e, ri, ro, pIn, 0.0, Some(m), n);
    DisplacementPositive(ri, ro, pIn, m, p.r[i]);
  }

  /** Bore and outer radius of a vessel: ri = D/2 and ro = ri + t. */
  function InnerRadius(g: VesselGeometry): real
  {
    g.innerDiameter / 2.0
  }

  function OuterRadius(g: VesselGeometry): real
  {
    InnerRadius(g) + g.wallThickness
  }

  /** `calculate_thick_wall_burst_pressure`: sigma_allow*(ro^2 - ri^2)/(ro^2 + ri^2). */
  function ThickWallBurst(g: VesselGeometry, m: MaterialProperties, useYield: bool): (r: real)
    requires Square(OuterRadius(g)) + Square(InnerRadius(g)) != 0.0
    ensures r * (Square(OuterRadius(g)) + Square(InnerRadius(g)))
      == (if useYield then m.yieldStrength else m.tensileStrength) * (Square(OuterRadius(g)) - Square(InnerRadius(g)))
    ensures g.innerDiameter > 0.0 && g.wallThickness >= 0.0 && (if useYield then m.yieldStrength else m.tensileStrength) > 0.0
      ==> 0.0 <= r < (if useYield then m.yieldStrength else m.tensileStrength)
  {
    var ri, ro := InnerRadius(g), OuterRadius(g);
    var allow := if useYield then m.yieldStrength else m.tensileStrength;
    var r := allow * (Square(ro) - Square(ri)) / (Square(ro) + Square(ri));
    assert r * (Square(ro) + Square(ri)) == allow * (Square(ro) - Square(ri));
    if g.innerDiameter > 0.0 && g.wallThickness >= 0.0 && allow > 0.0 then
      SquarePositive(ri);
      SquareMonotone(ri, ro);
      BurstBelowAllowable(allow, Square(ri), Square(ro), r);
      r
    else r
  }

  /** allow*(b - a)/(b + a) lies in [0, allow) for 0 < a <= b and allow > 0. */
  lemma BurstBelowAllowable(allow: real, a2: real, b2: real, r: real)
    requires allow > 0.0 && 0.0 < a2 <= b2
    requires r * (b2 + a2) == allow * (b2 - a2)
    ensures 0.0 <= r < allow
  {
    var s := b2 + a2;
    assert allow * (b2 - a2) + allow * (2.0 * a2) == allow * s;
    ProductSigns(2.0 * a2, allow);
    ProductSigns(b2 - a2, allow);
    if allow <= r {
      ScaleOrder(allow, r, s);
    }
    if r < 0.0 {
      ScaleOrder(r, 0.0, s);
    }
  }

  /** The algebra of the burst pressure: it undoes the bore hoop-stress factor. */
  lemma BurstAlgebra(allow: real, a2: real, b2: real)
    requires a2 > 0.0 && b2 > a2
    ensures (allow * (b2 - a2) / (b2 + a2)) * (b2 + a2) / (b2 - a2) == allow
  {
    var k, s := b2 - a2, b2 + a2;
    DivMul(allow * k, s, s);
    DivSelf(allow * k, s);
    DivSelf(allow, k);
  }

  /** At the thick-wall burst pressure (no outer pressure) the bore hoop stress
      is exactly the allowable stress. */
  lemma BurstReachesAllowable(g: VesselGeometry, m: MaterialProperties, useYield: bool)
    requires g.innerDiameter > 0.0 && g.wallThickness > 0.0
    ensures Radii(InnerRadius(g), OuterRadius(g))
    ensures Square(OuterRadius(g)) + Square(InnerRadius(g)) > 0.0
    ensures HoopAt(InnerRadius(g), OuterRadius(g), ThickWallBurst(g, m, useYield), 0.0, InnerRadius(g))
      == (if useYield then m.yieldStrength else m.tensileStrength)
  {
    var ri, ro := InnerRadius(g), OuterRadius(g);
    RadiiSquares(ri, ro);
    HoopAtBore(ri, ro, ThickWallBurst(g, m, useYield));
    BurstAlgebra(if useYield then m.yieldStrength else m.tensileStrength, Square(ri), Square(ro));
  }

  /** A thicker wall raises the thick-wall burst pressure (positive allowable stress). */
  lemma ThickerWallStronger(g: VesselGeometry, m: MaterialProperties, useYield: bool, t2: real)
    requires g.innerDiameter > 0.0 && 0.0 <= g.wallThickness < t2
    requires (if useYield then m.yieldStrength else m.tensileStrength) > 0.0
    ensures Square(OuterRadius(g)) + Square(InnerRadius(g)) > 0.0
    ensures Square(OuterRadius(g.(wallThickness := t2))) + Square(InnerRadius(g.(wallThickness := t2))) > 0.0
    ensures ThickWallBurst(g, m, useYield) < ThickWallBurst(g.(wallThickness := t2), m, useYield)
  {
    var ri := InnerRadius(g);
    var ro1, ro2 := ri + g.wallThickness, ri + t2;
    SquarePositive(ri);
    SquarePositive(ro1);
    SquareIncreasing(ro1, ro2);
    var a2, b1, b2 := Square(ri), Square(ro1), Square(ro2);
    BurstMonotone(if useYield then m.yieldStrength else m.tensileStrength, a2, b1, b2,
                  ThickWallBurst(g, m, useYield), ThickWallBurst(g.(wallThickness := t2), m, useYield));
  }

  /** Two burst pressures over the same bore: the larger outer square gives the larger one. */
  lemma BurstMonotone(allow: real, a2: real, b1: real, b2: real, r1: real, r2: real)
    requires allow > 0.0 && a2 > 0.0 && 0.0 <= b1 < b2
    requires r1 * (b1 + a2) == allow * (b1 - a2)
    requires r2 * (b2 + a2) == allow * (b2 - a2)
    ensures r1 < r2
  {
    BurstFraction(a2, b1, b2);
    var f1, f2 := (b1 - a2) / (b1 + a2), (b2 - a2) / (b2 + a2);
    ScaleOrder(f1, f2, allow);
    DivideBack(allow * (b1 - a2), b1 + a2, r1);
    DivideBack(allow * (b2 - a2), b2 + a2, r2);
    DivMul(b1 - a2, allow, b1 + a2);
    DivMul(b2 - a2, allow, b2 + a2);
  }

  /** (b - a)/(b + a) grows with b for a > 0. */
  lemma BurstFraction(a: real, b1: real, b2: real)
    requires a > 0.0 && 0.0 <= b1 < b2
    ensures (b1 - a) / (b1 + a) < (b2 - a) / (b2 + a)
  {
    var s1, s2 := b1 + a, b2 + a;
    var q1, q2 := 2.0 * a / s1, 2.0 * a / s2;
    assert q1 * s1 == 2.0 * a && q2 * s2 == 2.0 * a;
    DivideBack(b1 - a, s1, 1.0 - q1);
    DivideBack(b2 - a, s2, 1.0 - q2);
    QuotientDecreasing(2.0 * a, s1, s2);
  }

  /** `compare_thick_vs_thin_wall`. The error percentage is absent where the
      source divides by a zero thick-wall maximum. */
  datatype Comparison = Comparison(
    thicknessRatio: real, thinWallValid: bool, hoopStressThin: real,
    hoopStressThickMax: real, hoopStressThickInner: real, errorPercent: Option<real>)

  /** The number of radii the comparison evaluates. */
  const ComparisonPoints: nat := 50

  /** The Lamé profile the comparison evaluates: internal pressure only,
      `ComparisonPoints` radii from the bore to the outer surface. */
  function ComparisonProfile(e: Elementary, pressure: real, g: VesselGeometry, m: MaterialProperties)
    : (p: LameProfile)
    requires Lawful(e) && g.innerDiameter > 0.0 && g.wallThickness > 0.0
    requires m.elasticModulus != 0.0
    ensures |p.sigmaTheta| == ComparisonPoints
    ensures p.sigmaTheta[0] == HoopAt(InnerRadius(g), OuterRadius(g), pressure, 0.0, InnerRadius(g))
  {
    SolveLame(e, InnerRadius(g), OuterRadius(g), pressure, 0.0, Some(m), ComparisonPoints)
  }

  function CompareThickThin(e: Elementary, pressure: real, g: VesselGeometry, m: MaterialProperties)
    : (r: Result<Comparison>)
    requires Lawful(e) && g.innerDiameter > 0.0 && g.wallThickness > 0.0
    requires m.elasticModulus != 0.0
    ensures r.Failure? <==> Ratio(g) > ThinWallThreshold
    ensures r.Failure? ==> r.error == ThickWallError
    ensures r.Success? ==> r.value.thicknessRatio == g.wallThickness / g.innerDiameter
    ensures r.Success? ==> (r.value.thinWallValid <==> Ratio(g) < 0.1)
    ensures r.Success? ==> Success(r.value.hoopStressThin) == HoopStress(pressure, g)
    ensures r.Success? ==>
      r.value.hoopStressThickMax == SeqMax(ComparisonProfile(e, pressure, g, m).sigmaTheta)
    ensures r.Success? ==>
      r.value.hoopStressThickInner == ComparisonProfile(e, pressure, g, m).sigmaTheta[0]
    ensures r.Success? ==>
      r.value.errorPercent == ErrorPercent(r.value.hoopStressThickMax, r.value.hoopStressThin)
  {
    var ratio := g.wallThickness / g.innerDiameter;
    match HoopStress(pressure, g)
    case Failure(msg) => Failure(msg)
    case Success(thin) =>
      var profile := ComparisonProfile(e, pressure, g, m);
      var thickMax := SeqMax(profile.sigmaTheta);
      Success(Comparison(ratio, ratio < 0.1, thin, thickMax, profile.sigmaTheta[0], ErrorPercent(thickMax, thin)))
  }

  /** The thin-wall error |thick - thin|/thick*100, absent for a zero thick-wall stress. */
  function ErrorPercent(thick: real, thin: real): (r: Option<real>)
    ensures r.None? <==> thick == 0.0
    ensures r.Some? ==> r.value * thick == Abs(thick - thin) * 100.0
  {
    if thick == 0.0 then None else Some(Abs(thick - thin) / thick * 100.0)
  }

  /** Under internal pressure the compared maximum is the bore value and an
      error percentage is reported. */
  lemma ComparisonMaxAtBore(e: Elementary, pressure: real, g: VesselGeometry, m: MaterialProperties)
    requires Lawful(e) && g.innerDiameter > 0.0 && g.wallThickness > 0.0
    requires m.elasticModulus != 0.0 && pressure > 0.0
    requires Ratio(g) <= ThinWallThreshold
    ensures CompareThickThin(e, pressure, g, m).Success?
    ensures var c := CompareThickThin(e, pressure, g, m).value;
      c.hoopStressThickMax == c.hoopStressThickInner && c.errorPercent.Some?
  {
    var ri, ro := InnerRadius(g), OuterRadius(g);
    var p := ComparisonProfile(e, pressure, g, m);
    forall j | 0 < j < ComparisonPoints
      ensures p.sigmaTheta[j] < p.sigmaTheta[0]
    {
      HoopMaximalAtBore(e, ri, ro, pressure, 0.0, Some(m), ComparisonPoints, 0, j);
    }
    ProfileHoopPositive(e, ri, ro, pressure, Some(m), ComparisonPoints, 0);
    MaxAtHead(p.sigmaTheta);
  }

  /** Under internal pressure the thin-wall figure underestimates the
      thick-wall maximum. */
  lemma ThinWallUnderestimates(e: Elementary, pressure: real, g: VesselGeometry, m: MaterialProperties)
    requires Lawful(e) && g.innerDiameter > 0.0 && g.wallThickness > 0.0
    requires m.elasticModulus != 0.0 && pressure > 0.0
    requires Ratio(g) <= ThinWallThreshold
    ensures CompareThickThin(e, pressure, g, m).Success?
    ensures var c := CompareThickThin(e, pressure, g, m).value;
      c.hoopStressThin < c.hoopStressThickMax
  {
    ComparisonMaxAtBore(e, pressure, g, m);
    var c := CompareThickThin(e, pressure, g, m).value;
    var thin := HoopStress(pressure, g).value;
    assert c.hoopStressThin == thin;
    var bore := ComparisonProfile(e, pressure, g, m).sigmaTheta[0];
    assert c.hoopStressThickMax == bore;
    ThinBelowBore(pressure, g);
  }

  /** The thin-wall hoop stress of a thin wall lies below the Lamé hoop
      stress at the bore, P*(ro^2 + ri^2)/(ro^2 - ri^2). */
  lemma ThinBelowBore(pressure: real, g: VesselGeometry)
    requires g.innerDiameter > 0.0 && g.wallThickness > 0.0 && pressure > 0.0
    requires Ratio(g) <= ThinWallThreshold
    ensures HoopStress(pressure, g).Success?
    ensures HoopStress(pressure, g).value < HoopAt(InnerRadius(g), OuterRadius(g), pressure, 0.0, InnerRadius(g))
  {
    var ri, ro := InnerRadius(g), OuterRadius(g);
    RadiiSquares(ri, ro);
    HoopAtBore(ri, ro, pressure);
    var thin := HoopStress(pressure, g).value;
    ThinBelowThick(pressure, g.innerDiameter, g.wallThickness, ri, ro, thin,
                   pressure * (Square(ro) + Square(ri)) / (Square(ro) - Square(ri)));
  }

  /** The thin-wall hoop stress P*ri/(ro - ri) lies below the Lamé bore value
      P*(ro^2 + ri^2)/(ro^2 - ri^2): their difference is P*ro/(ro + ri). */
  lemma ThinBelowThick(p: real, d: real, t: real, ri: real, ro: real, thin: real, thick: real)
    requires p > 0.0 && d > 0.0 && t > 0.0 && ri == d / 2.0 && ro == ri + t
    requires thin * (2.0 * t) == p * d
    requires Square(ro) - Square(ri) > 0.0
    requires thick == p * (Square(ro) + Square(ri)) / (Square(ro) - Square(ri))
    ensures thin < thick
  {
    var k := Square(ro) - Square(ri);
    assert thick * k == p * (Square(ro) + Square(ri));
    assert k == t * (ro + ri);
    assert thin * t == p * ri;
    assert thin * k == p * ri * (ro + ri);
    assert (thick - thin) * k == p * ro * t;
    ProductSigns(p, ro);
    ProductSigns(p * ro, t);
    if thick <= thin {
      ScaleOrder(thick, thin, k);
    }
  }

  /** `validate_lame_solution`: the four checks, exact over the reals. */
  datatype LameChecks = LameChecks(bcInner: bool, bcOuter: bool, hoopMaxInner: bool, hoopPositive: bool)

  /** The errors numpy raises on an empty profile: indexing `sigma_r[0]`, and
      `np.argmax` of an empty hoop profile. */
  const EmptyIndexError: string := "index 0 is out of bounds for axis 0 with size 0"
  const EmptyArgMaxError: string := "attempt to get argmax of an empty sequence"

  function ValidateLame(p: LameProfile, pIn: real, pOut: real): (r: Result<LameChecks>)
    ensures r.Failure? <==> |p.sigmaR| == 0 || (pIn > pOut && |p.sigmaTheta| == 0)
    ensures r.Failure? ==> r.error == if |p.sigmaR| == 0 then EmptyIndexError else EmptyArgMaxError
    ensures r.Success? ==> (r.value.bcInner <==> p.sigmaR[0] == -pIn)
    ensures r.Success? ==> (r.value.bcOuter <==> p.sigmaR[|p.sigmaR| - 1] == -pOut)
    ensures r.Success? ==> (r.value.hoopMaxInner <==>
      (pIn > pOut ==> forall j :: 0 < j < |p.sigmaTheta| ==> p.sigmaTheta[j] <= p.sigmaTheta[0]))
    ensures r.Success? ==> (r.value.hoopPositive <==>
      (pIn > 0.0 && pOut == 0.0 ==> forall j :: 0 <= j < |p.sigmaTheta| ==> p.sigmaTheta[j] > 0.0))
  {
    if |p.sigmaR| == 0 then Failure(EmptyIndexError)
    else if pIn > pOut && |p.sigmaTheta| == 0 then Failure(EmptyArgMaxError)
    else
      var maxInner := if pIn > pOut then ArgMax(p.sigmaTheta) == 0 else true;
      assert maxInner <==>
        (pIn > pOut ==> forall j :: 0 < j < |p.sigmaTheta| ==> p.sigmaTheta[j] <= p.sigmaTheta[0]) by {
        if pIn > pOut {
          ArgMaxZero(p.sigmaTheta);
        }
      }
      var positive := if pIn > 0.0 && pOut == 0.0 then (forall j :: 0 <= j < |p.sigmaTheta| ==> p.sigmaTheta[j] > 0.0) else true;
      Success(LameChecks(p.sigmaR[0] == -pIn, p.sigmaR[|p.sigmaR| - 1] == -pOut, maxInner, positive))
  }

  /** The first maximum is at index 0 exactly when no later entry exceeds the first. */
  lemma ArgMaxZero(s: seq<real>)
    requires |s| > 0
    ensures ArgMax(s) == 0 <==> forall j :: 0 < j < |s| ==> s[j] <= s[0]
  {
    if ArgMax(s) != 0 {
      assert s[0] < s[ArgMax(s)];
    }
  }

  /** A profile with the four properties passes the four checks. */
  lemma ChecksPass(p: LameProfile, pIn: real, pOut: real)
    requires |p.sigmaR| > 0 && |p.sigmaTheta| > 0
    requires p.sigmaR[0] == -pIn && p.sigmaR[|p.sigmaR| - 1] == -pOut
    requires pIn > pOut ==> forall j :: 0 < j < |p.sigmaTheta| ==> p.sigmaTheta[j] <= p.sigmaTheta[0]
    requires pIn > 0.0 && pOut == 0.0 ==> forall j :: 0 <= j < |p.sigmaTheta| ==> p.sigmaTheta[j] > 0.0
    ensures ValidateLame(p, pIn, pOut) == Success(LameChecks(true, true, true, true))
  {
  }

  /** With Pi > Po no hoop stress of the solved profile exceeds the bore value. */
  lemma HoopBoreBound(e: Elementary, ri: real, ro: real, pIn: real, pOut: real,
                      material: Option<MaterialProperties>, n: nat)
    requires Lawful(e) && Radii(ri, ro) && ri < ro && n >= 1
    requires material.Some? ==> material.value.elasticModulus != 0.0
    ensures var p := SolveLame(e, ri, ro, pIn, pOut, material, n);
      pIn > pOut ==> forall j :: 0 < j < n ==> p.sigmaTheta[j] <= p.sigmaTheta[0]
  {
    if pIn > pOut {
      forall j | 0 < j < n
        ensures SolveLame(e, ri, ro, pIn, pOut, material, n).sigmaTheta[j]
          <= SolveLame(e, ri, ro, pIn, pOut, material, n).sigmaTheta[0]
      {
        HoopMaximalAtBore(e, ri, ro, pIn, pOut, material, n, 0, j);
      }
    }
  }

  /** Under internal pressure only every hoop stress of the solved profile is positive. */
  lemma HoopProfilePositive(e: Elementary, ri: real, ro: real, pIn: real, pOut: real,
                            material: Option<MaterialProperties>, n: nat)
    requires Lawful(e) && Radii(ri, ro) && ri < ro
    requires material.Some? ==> material.value.elasticModulus != 0.0
    ensures var p := SolveLame(e, ri, ro, pIn, pOut, material, n);
      pIn > 0.0 && pOut == 0.0 ==> forall j :: 0 <= j < n ==> p.sigmaTheta[j] > 0.0
  {
    if pIn > 0.0 && pOut == 0.0 {
      forall j | 0 <= j < n ensures SolveLame(e, ri, ro, pIn, pOut, material, n).sigmaTheta[j] > 0.0 {
        ProfileHoopPositive(e, ri, ro, pIn, material, n, j);
      }
    }
  }

  /** Every solved profile with at least two radii passes all four checks. */
  lemma SolvedProfilePasses(e: Elementary, ri: real, ro: real, pIn: real, pOut: real,
                            material: Option<MaterialProperties>, n: nat)
    requires Lawful(e) && Radii(ri, ro) && ri < ro && n >= 2
    requires material.Some? ==> material.value.elasticModulus != 0.0
    ensures ValidateLame(SolveLame(e, ri, ro, pIn, pOut, material, n), pIn, pOut)
      == Success(LameChecks(true, true, true, true))
  {
    BoundaryConditions(e, ri, ro, pIn, pOut, material, n);
    HoopBoreBound(e, ri, ro, pIn, pOut, material, n);
    HoopProfilePositive(e, ri, ro, pIn, pOut, material, n);
    ChecksPass(SolveLame(e, ri, ro, pIn, pOut, material, n), pIn, pOut);
  }
}
