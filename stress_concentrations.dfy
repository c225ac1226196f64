/** Stress-concentration factors at the geometric discontinuities of a
    bottle-shaped vessel: the end cap, the threaded neck and the
    neck-to-body transition.  The factors are combined by taking the
    largest one (the features sit at different places, so they neither add
    nor multiply), and the location reported is the first feature, in the
    order cap, thread, transition, that reaches that largest factor.
 */
module Concentrations {
  import opened Wrappers
  import opened Analytic
  import opened Text
  import opened ThinWall

  /** The cap factor table, in declaration order. */
  const CapTable: seq<(string, real)> := [
    ("hemispherical", 1.0),
    ("elliptical", 1.5),
    ("torispherical", 1.8),
    ("conical", 1.5),
    ("flat", 2.5)
  ]

  /** The table's keys, in the same order. */
  const CapNames: seq<string> := ["hemispherical", "elliptical", "torispherical", "conical", "flat"]

  /** The index of `key` in the cap table, scanning from `from`. */
  function CapIndexFrom(key: string, from: nat): (r: Option<nat>)
    decreases |CapTable| - from
    ensures r.Some? ==> from <= r.value < |CapTable| && CapTable[r.value].0 == key
    ensures r.None? ==> forall i :: from <= i < |CapTable| ==> CapTable[i].0 != key
  {
    if from >= |CapTable| then None
    else if CapTable[from].0 == key then Some(from)
    else CapIndexFrom(key, from + 1)
  }

  /** The factor of one cap and whether the flat-cap warning is issued. */
  datatype CapFactor = CapFactor(k: real, flatWarning: bool)

  /** The error raised for an unknown cap type: it names the type and every valid name. */
  function UnknownCapMessage(capType: string): string
  {
    "Unknown cap type '" + capType + "'. Available: " + Join(", ", CapNames)
  }

  /** `calculate_end_cap_stress_factor`: the table entry of the lower-cased
      name; an unknown name raises; a flat cap also issues a warning. */
  function EndCapFactor(capType: string): (r: Result<CapFactor>)
    ensures r.Success? <==> Lower(capType) in CapNames
    ensures r.Failure? ==> r.error == UnknownCapMessage(capType)
    ensures r.Success? ==> exists i :: 0 <= i < |CapTable| && CapTable[i] == (Lower(capType), r.value.k)
    ensures r.Success? ==> 1.0 <= r.value.k <= 2.5
    ensures r.Success? ==> (r.value.flatWarning <==> Lower(capType) == "flat")
  {
    var key := Lower(capType);
    assert forall i :: 0 <= i < |CapTable| ==> CapTable[i].0 == CapNames[i];
    match CapIndexFrom(key, 0)
    case None => Failure(UnknownCapMessage(capType))
    case Some(i) => Success(CapFactor(CapTable[i].1, key == "flat"))
  }

  /** The five factors of the table, and the warning only for the flat cap. */
  lemma CapFactorTable()
    ensures EndCapFactor("hemispherical") == Success(CapFactor(1.0, false))
    ensures EndCapFactor("elliptical") == Success(CapFactor(1.5, false))
    ensures EndCapFactor("torispherical") == Success(CapFactor(1.8, false))
    ensures EndCapFactor("conical") == Success(CapFactor(1.5, false))
    ensures EndCapFactor("flat") == Success(CapFactor(2.5, true))
  {
    LowerPlain("hemispherical");
    LowerPlain("elliptical");
    LowerPlain("torispherical");
    LowerPlain("conical");
    LowerPlain("flat");
  }

  /** A name without capitals is its own lower-case form. */
  lemma LowerPlain(s: string)
    requires forall i :: 0 <= i < |s| ==> !('A' <= s[i] <= 'Z')
    ensures Lower(s) == s
  {
  }

  /** Names that agree after lower-casing select the same factor and warning. */
  lemma CapFactorIgnoresCase(a: string, b: string)
    requires Lower(a) == Lower(b)
    ensures EndCapFactor(a).Success? == EndCapFactor(b).Success?
    ensures EndCapFactor(a).Success? ==> EndCapFactor(a).value == EndCapFactor(b).value
  {
  }

  /** "FLAT" and "Flat" are the flat cap, with its warning. */
  lemma FlatAnyCase()
    ensures EndCapFactor("FLAT") == Success(CapFactor(2.5, true))
    ensures EndCapFactor("Flat") == Success(CapFactor(2.5, true))
  {
    assert Lower("FLAT") == "flat";
    assert Lower("Flat") == "flat";
    CapFactorTable();
  }

  /** The error for an unknown cap names every valid cap type. */
  lemma UnknownCapListsNames(capType: string, i: nat)
    requires EndCapFactor(capType).Failure? && i < |CapNames|
    ensures exists p, q :: EndCapFactor(capType).error == p + CapNames[i] + q
  {
    JoinedTailContains("Unknown cap type '" + capType + "'. Available: ", ", ", CapNames, i);
  }

  /** `calculate_thread_stress_factor`: depth defaults to t/2 and root radius
      to depth/4; Peterson's 1 + 2*sqrt(h/r) for a positive root radius,
      4.0 otherwise, clamped to [2.0, 4.5]. */
  function ThreadFactor(e: Elementary, g: VesselGeometry, depth: Option<real>, radius: Option<real>): (r: real)
    ensures 2.0 <= r <= 4.5
  {
    var h := if depth.None? then g.wallThickness / 2.0 else depth.value;
    var rr := if radius.None? then h / 4.0 else radius.value;
    var raw := if rr > 0.0 then 1.0 + 2.0 * e.sqrt(h / rr) else 4.0;
    Clip(raw, 2.0, 4.5)
  }

  /** With the default thread geometry h/r = 4, so the raw factor is 5 and the
      clamp gives 4.5 for every positive wall; a wall that is not positive
      leaves no positive root radius and gives the sharp-corner 4.0. */
  lemma ThreadDefault(e: Elementary, g: VesselGeometry)
    requires Lawful(e)
    ensures g.wallThickness > 0.0 ==> ThreadFactor(e, g, None, None) == 4.5
    ensures g.wallThickness <= 0.0 ==> ThreadFactor(e, g, None, None) == 4.0
  {
    if g.wallThickness > 0.0 {
      var h := g.wallThickness / 2.0;
      assert h / (h / 4.0) == 2.0 * 2.0;
      SqrtOfSquare(e, 2.0);
    }
  }

  /** A sharper thread (smaller positive root radius) never lowers the factor. */
  lemma SharperThreadNotLower(e: Elementary, g: VesselGeometry, h: real, r1: real, r2: real)
    requires Lawful(e)
    requires h >= 0.0 && 0.0 < r2 <= r1
    ensures ThreadFactor(e, g, Some(h), Some(r2)) >= ThreadFactor(e, g, Some(h), Some(r1))
  {
    QuotientOrder(h, r2, r1);
    assert e.sqrt(h / r1) <= e.sqrt(h / r2);
  }

  /** h/r1 <= h/r2 for h >= 0 and 0 < r2 <= r1. */
  lemma QuotientOrder(h: real, r2: real, r1: real)
    requires h >= 0.0 && 0.0 < r2 <= r1
    ensures 0.0 <= h / r1 <= h / r2
  {
    QuotientSign(h, r1);
    if h > 0.0 && r2 < r1 {
      QuotientDecreasing(h, r2, r1);
    }
  }

  /** A non-positive root radius is the sharp-corner case: the factor is 4.0. */
  lemma SharpCornerThread(e: Elementary, g: VesselGeometry, h: real, r: real)
    requires r <= 0.0
    ensures ThreadFactor(e, g, Some(h), Some(r)) == 4.0
  {
  }

  /** `calculate_transition_radius_factor`: (1 + 0.5/sqrt(f/d)) for a positive
      fillet ratio, 3.0 otherwise, times (2 - d/D), clamped to [1.0, 3.5].
      The source divides by both diameters. */
  function TransitionFactor(e: Elementary, major: real, minor: real, fillet: real): (r: real)
    requires Lawful(e) && major != 0.0 && minor != 0.0
    ensures 1.0 <= r <= 3.5
  {
    var dRatio := minor / major;
    var rRatio := fillet / minor;
    var base := if rRatio > 0.0 then (SqrtPositive(e, rRatio); 1.0 + 0.5 / e.sqrt(rRatio)) else 3.0;
    Clip(base * (1.0 + (1.0 - dRatio)), 1.0, 3.5)
  }

  /** A sharp corner (fillet ratio not positive) gives 3.0 * (2 - d/D), clamped. */
  lemma SharpCornerTransition(e: Elementary, major: real, minor: real, fillet: real)
    requires Lawful(e) && major != 0.0 && minor != 0.0
    requires fillet / minor <= 0.0
    ensures TransitionFactor(e, major, minor, fillet) == Clip(3.0 * (2.0 - minor / major), 1.0, 3.5)
  {
  }

  /** The neck the combined stress assumes: 28 mm across with a 5 mm fillet. */
  const NeckDiameter: real := 0.028
  const NeckFillet: real := 0.005

  /** For a body of at least 95 mm the assumed neck saturates the clamp: 3.5. */
  lemma BottleNeckSaturates(e: Elementary, major: real)
    requires Lawful(e) && major >= 0.095
    ensures TransitionFactor(e, major, NeckDiameter, NeckFillet) == 3.5
  {
    var rRatio := NeckFillet / NeckDiameter;
    assert rRatio < 0.45 * 0.45;
    SqrtPositive(e, rRatio);
    SqrtStrictlyIncreasing(e, rRatio, 0.45 * 0.45);
    SqrtOfSquare(e, 0.45);
    var s := e.sqrt(rRatio);
    assert 0.0 < s < 0.45;
    QuotientDecreasing(0.5, s, 0.45);
    var base := 1.0 + 0.5 / s;
    assert base > 2.1;
    var d := NeckDiameter / major;
    if major > 0.095 {
      QuotientDecreasing(NeckDiameter, 0.095, major);
    }
    assert d <= 0.3;
    assert base * (2.0 - d) > 2.1 * 1.7;
  }

  /** Labels of the three features, in ranking order. */
  const CapLabel: string := "End cap"
  const ThreadLabel: string := "Thread root"
  const TransitionLabel: string := "Neck transition"

  /** Python's `max` over the keys cap, thread, transition ranked by factor:
      the first key whose factor is not beaten by a later one. */
  function FirstMaxLabel(kCap: real, kThread: real, kTransition: real): (r: string)
    ensures r == CapLabel <==> kCap >= kThread && kCap >= kTransition
    ensures r == ThreadLabel <==> kThread > kCap && kThread >= kTransition
    ensures r == TransitionLabel <==> kTransition > kCap && kTransition > kThread
  {
    if kCap >= kThread && kCap >= kTransition then CapLabel
    else if kThread >= kTransition then ThreadLabel
    else TransitionLabel
  }

  /** The result of `calculate_maximum_stress`. */
  datatype MaxStress = MaxStress(
    sigmaNominal: real,
    kCap: real,
    kThread: Option<real>,
    kTransition: Option<real>,
    kTotal: real,
    sigmaMax: real,
    location: string,
    flatWarning: bool)

  /** A feature's factor as it enters the combination: 1.0 when disabled. */
  function Effective(k: Option<real>): real
  {
    if k.Some? then k.value else 1.0
  }

  /** The combination step: disabled features count as 1.0, the total
      factor is the largest of the three (never a sum or a product), the
      location is the first feature that reaches it, and the maximum stress
      is the total factor times the nominal stress. */
  function Combine(sigmaNominal: real, cap: CapFactor, kThread: Option<real>, kTransition: Option<real>)
    : (s: MaxStress)
    ensures s.sigmaNominal == sigmaNominal && s.kCap == cap.k && s.flatWarning == cap.flatWarning
    ensures s.kThread == kThread && s.kTransition == kTransition
    ensures s.kTotal >= cap.k && s.kTotal >= Effective(kThread) && s.kTotal >= Effective(kTransition)
    ensures s.kTotal == cap.k || s.kTotal == Effective(kThread) || s.kTotal == Effective(kTransition)
    ensures s.sigmaMax == s.kTotal * sigmaNominal
    ensures s.location == FirstMaxLabel(cap.k, Effective(kThread), Effective(kTransition))
  {
    var kTotal := Max(Max(cap.k, Effective(kThread)), Effective(kTransition));
    var location := FirstMaxLabel(cap.k, Effective(kThread), Effective(kTransition));
    MaxStress(sigmaNominal, cap.k, kThread, kTransition, kTotal, kTotal * sigmaNominal, location, cap.flatWarning)
  }

  /** The reported location carries the total factor, and every feature ranked
      before it has a strictly smaller factor. */
  lemma LocationIsFirstMaximum(sigmaNominal: real, cap: CapFactor, kThread: Option<real>, kTransition: Option<real>)
    ensures var s := Combine(sigmaNominal, cap, kThread, kTransition);
      && (s.location == CapLabel ==> s.kTotal == cap.k)
      && (s.location == ThreadLabel ==> s.kTotal == Effective(kThread) && cap.k < s.kTotal)
      && (s.location == TransitionLabel ==>
            s.kTotal == Effective(kTransition) && cap.k < s.kTotal && Effective(kThread) < s.kTotal)
  {
  }

  /** With a cap factor of at least 1 the total factor is at least 1, so the
      maximum stress is at least a non-negative nominal stress, and above a
      positive one once some factor exceeds 1. */
  lemma CombineAtLeastNominal(sigmaNominal: real, cap: CapFactor, kThread: Option<real>, kTransition: Option<real>)
    requires cap.k >= 1.0
    ensures var s := Combine(sigmaNominal, cap, kThread, kTransition);
      && s.kTotal >= 1.0
      && (sigmaNominal >= 0.0 ==> s.sigmaMax >= sigmaNominal)
      && (sigmaNominal > 0.0 && s.kTotal > 1.0 ==> s.sigmaMax > sigmaNominal)
  {
    var s := Combine(sigmaNominal, cap, kThread, kTransition);
    if sigmaNominal > 0.0 {
      ScaleOrder(1.0, s.kTotal, sigmaNominal);
    }
  }

  /** A larger thread factor never lowers the total factor. */
  lemma CombineMonotoneInThread(sigmaNominal: real, cap: CapFactor, t1: Option<real>, t2: Option<real>,
                                kTransition: Option<real>)
    requires Effective(t1) <= Effective(t2)
    ensures Combine(sigmaNominal, cap, t1, kTransition).kTotal <= Combine(sigmaNominal, cap, t2, kTransition).kTotal
  {
  }

  /** `calculate_maximum_stress`: the thin-wall hoop stress combined with the
      cap factor, the default thread factor when threads are included and the
      assumed-neck transition factor when the transition is included.  The
      validated stress state is computed first, so a thick wall fails before
      an unknown cap type does; of that state only the hoop stress is used. */
  function MaximumStress(e: Elementary, pressure: real, g: VesselGeometry, capType: string,
                         includeThread: bool, includeTransition: bool): (r: Result<MaxStress>)
    requires Lawful(e) && Nondegenerate(g)
    ensures r.Success? <==> Ratio(g) <= ThinWallThreshold && EndCapFactor(capType).Success?
    ensures r.Failure? && Ratio(g) > ThinWallThreshold ==> r.error == ThickWallError
    ensures r.Failure? && Ratio(g) <= ThinWallThreshold ==> r.error == UnknownCapMessage(capType)
    ensures r.Success? ==>
      && Success(r.value.sigmaNominal) == HoopStress(pressure, g)
      && r.value.kCap == EndCapFactor(capType).value.k
      && r.value.flatWarning == EndCapFactor(capType).value.flatWarning
      && (r.value.kThread.Some? <==> includeThread)
      && (includeThread ==> r.value.kThread.value == ThreadFactor(e, g, None, None))
      && (r.value.kTransition.Some? <==> includeTransition)
      && (includeTransition ==>
            r.value.kTransition.value == TransitionFactor(e, g.innerDiameter, NeckDiameter, NeckFillet))
      && r.value == Combine(r.value.sigmaNominal, EndCapFactor(capType).value, r.value.kThread, r.value.kTransition)
  {
    match HoopStress(pressure, g)
    case Failure(msg) => Failure(msg)
    case Success(hoop) =>
      match EndCapFactor(capType)
      case Failure(msg) => Failure(msg)
      case Success(cap) =>
        var kThread := if includeThread then Some(ThreadFactor(e, g, None, None)) else None;
        var kTransition :=
          if includeTransition then Some(TransitionFactor(e, g.innerDiameter, NeckDiameter, NeckFillet)) else None;
        Success(Combine(hoop, cap, kThread, kTransition))
  }

  /** The maximum stress is at least the nominal hoop stress when that is
      non-negative, and above it when it is positive and a factor exceeds 1. */
  lemma MaximumAtLeastNominal(e: Elementary, pressure: real, g: VesselGeometry, capType: string,
                              includeThread: bool, includeTransition: bool)
    requires Lawful(e) && Nondegenerate(g)
    requires MaximumStress(e, pressure, g, capType, includeThread, includeTransition).Success?
    ensures var s := MaximumStress(e, pressure, g, capType, includeThread, includeTransition).value;
      && s.kTotal >= 1.0
      && (s.sigmaNominal >= 0.0 ==> s.sigmaMax >= s.sigmaNominal)
      && (s.sigmaNominal > 0.0 && s.kTotal > 1.0 ==> s.sigmaMax > s.sigmaNominal)
  {
    var s := MaximumStress(e, pressure, g, capType, includeThread, includeTransition).value;
    CombineAtLeastNominal(s.sigmaNominal, EndCapFactor(capType).value, s.kThread, s.kTransition);
  }

  /** Enabling the thread never lowers the combined factor. */
  lemma ThreadNeverLowers(e: Elementary, pressure: real, g: VesselGeometry, capType: string,
                          includeTransition: bool)
    requires Lawful(e) && Nondegenerate(g)
    requires MaximumStress(e, pressure, g, capType, false, includeTransition).Success?
    ensures MaximumStress(e, pressure, g, capType, true, includeTransition).Success?
    ensures MaximumStress(e, pressure, g, capType, true, includeTransition).value.kTotal
      >= MaximumStress(e, pressure, g, capType, false, includeTransition).value.kTotal
  {
    var off := MaximumStress(e, pressure, g, capType, false, includeTransition).value;
    var on := MaximumStress(e, pressure, g, capType, true, includeTransition).value;
    CombineMonotoneInThread(off.sigmaNominal, EndCapFactor(capType).value, off.kThread, on.kThread, off.kTransition);
  }

  /** With the other features off, a flat cap stresses a vessel under positive
      hoop stress more than a hemispherical one. */
  lemma FlatAboveHemispherical(e: Elementary, pressure: real, g: VesselGeometry)
    requires Lawful(e) && Nondegenerate(g) && Ratio(g) <= ThinWallThreshold
    requires HoopStress(pressure, g).value > 0.0
    ensures MaximumStress(e, pressure, g, "flat", false, false).Success?
    ensures MaximumStress(e, pressure, g, "hemispherical", false, false).Success?
    ensures MaximumStress(e, pressure, g, "flat", false, false).value.sigmaMax
      > MaximumStress(e, pressure, g, "hemispherical", false, false).value.sigmaMax
  {
    var flat, hemi := EndCapFactor("flat"), EndCapFactor("hemispherical");
    assert flat == Success(CapFactor(2.5, true)) && hemi == Success(CapFactor(1.0, false)) by {
      CapFactorTable();
    }
    ScaleOrder(1.0, 2.5, HoopStress(pressure, g).value);
  }

  /** A hemispherical cap with threads on a positive wall: the thread's 4.5
      dominates and the thread root is the critical location. */
  lemma ThreadedHemisphere(e: Elementary, pressure: real, g: VesselGeometry)
    requires Lawful(e) && Nondegenerate(g) && Ratio(g) <= ThinWallThreshold
    requires g.wallThickness > 0.0
    ensures MaximumStress(e, pressure, g, "hemispherical", true, false).Success?
    ensures MaximumStress(e, pressure, g, "hemispherical", true, false).value.kTotal == 4.5
    ensures MaximumStress(e, pressure, g, "hemispherical", true, false).value.location == ThreadLabel
  {
    CapFactorTable();
    ThreadDefault(e, g);
  }

  /** The label returned when the thread dominates. */
  const ThreadRootMessage: string := "Thread root (thread stress concentration)"
  const BodyMessage: string := "Cylindrical body (uniform stress)"

  /** `estimate_failure_location`: the cap, the default thread and the plain
      body (factor 1.0) are ranked; the thread wins whenever it reaches the
      maximum, the cap only when it is the maximum and above 1.5. */
  function EstimateFailureLocation(e: Elementary, g: VesselGeometry, capType: string): (r: Result<string>)
    ensures r.Failure? <==> EndCapFactor(capType).Failure?
    ensures r.Failure? ==> r.error == UnknownCapMessage(capType)
  {
    match EndCapFactor(capType)
    case Failure(msg) => Failure(msg)
    case Success(cap) =>
      var kThread := ThreadFactor(e, g, None, None);
      var maxK := Max(Max(cap.k, kThread), 1.0);
      if maxK == kThread then Success(ThreadRootMessage)
      else if maxK == cap.k && cap.k > 1.5 then Success("End cap (" + capType + ", stress concentration)")
      else Success(BodyMessage)
  }

  /** The default thread factor (4.5 or 4.0) exceeds every cap factor (at most
      2.5), so for every known cap the estimate is the thread root. */
  lemma EstimateIsThreadRoot(e: Elementary, g: VesselGeometry, capType: string)
    requires Lawful(e)
    requires EndCapFactor(capType).Success?
    ensures EstimateFailureLocation(e, g, capType) == Success(ThreadRootMessage)
  {
    ThreadDefault(e, g);
  }
}
