# Rocket pressure-vessel safety pipeline and electrolysis model, in Dafny

This project models two parts of the rocket-simulator repository.

The first is the structural-safety pipeline for a pressurised cylindrical
vessel, such as a PET bottle filled with a burning H2/O2 mixture:

- the material catalogue and its name lookup (`materials.dfy`, module `Materials`);
- the thin-wall model (`burst_calculator.dfy`, `ThinWall`): the validity gate on t/D,
  hoop, axial and von Mises stress, the Barlow burst pressure, the safety factor and
  the failure verdict;
- the failure tracker (`ode_solver.dfy`, `FailureTracking`): a class that samples a
  given pressure and temperature history on a time grid, records stresses, safety
  factor, strain and volume per sample, and stops at the first downward crossing of
  safety factor 1, refined by bisection and appended as the last sample;
- the Lamé thick-wall solver (`thick_wall_solver.dfy`, `Lame`): the stress,
  displacement and strain profiles, the boundary checks, the thick/thin comparison
  and the thick-wall burst pressure;
- the stress-concentration model (`stress_concentrations.dfy`, `Concentrations`):
  cap, thread and transition factors, the "maximum wins" combination and the
  failure-location estimate;
- the orchestration (`system_integrator.dfy`, `SystemIntegration`, and
  `full_simulation.dfy`, `FullSimulation`): configuration defaults, material
  resolution, the parametric study, the safe operating pressure, and the combined
  verdict with its failed flag, location, safety margin and ordered warnings;
- the combustion front end (`cantera_wrapper.dfy`, `Combustion`): the input validator,
  the mixture set-up, the failure records and the sampling loop around an abstract
  kinetics solver;
- the mesh generator (`geometry.dfy`, `Mesh`): node and element index structure,
  mesh quality and refinement.

The second is the independent hydrogen-generator model:

- the physical rules (`physical_model.dfy`, `Physical`);
- the chemical rules (`chemical_model.dfy`, `Chemical`);
- the design catalogue (`generator_configs.dfy`, `GeneratorRecord` and `GeneratorConfigs`);
- the integrated analysis, assessment and optimiser (`integrated_model.dfy`, `Integrated`).

Shared modules hold the `Result`/`Option` wrappers (`wrappers.dfy`), real-number
helpers and the transcendental functions (`analytic.dfy`), and ASCII text helpers
(`text.dfy`). Square root, log10, ln, exp, powers and pi are the fields of an
`Elementary` record, passed in as a parameter. `Lawful` states the only facts the
proofs use about them:

- the square root of a non-negative number is non-negative and squares back to it;
- the square root is monotone on the non-negative numbers;
- log10 is non-negative from 1 on;
- exp is positive, and exp(0) is 1;
- pi lies between 3.14159 and 3.14160.

Nothing is assumed about ln or about fractional powers.

The arithmetic is exact `real` arithmetic. A Python `raise`, including an
exception a library call would raise, becomes the `Failure` of a `Result`. A
warning that a modelled function returns with its result becomes a returned flag: the thin-wall band of `ThinWall.ValidateThinWall`, the flat-cap flag of `Concentrations.EndCapFactor` and `Concentrations.MaximumStress`, the length warning of the failure tracker and the warning list of the full pipeline. Warnings that other calls issue internally are dropped, as "## Left out" lists. +infinity becomes `Ext.Inf`.

Where the repository's tests expect something the code does not do, the model
follows the code:

- At the Barlow pressure the safety factor is 2/sqrt(3), not 1
  (`ThinWall.SafetyFactorAtBarlowPressure`). The safety factor uses the von Mises
  stress, and Barlow's formula uses the hoop stress. The tests expect 1 at
  rocket_sim/system_model/tests/test_burst_calculator.py:200-208 and 236-244.
- The burst pressure of the catalogue's PET bottle is about 347 kPa
  (rocket_sim/system_model/burst_calculator.py:256). The tests expect more than
  400 kPa.
- At t/D of about 0.126 the thick/thin comparison raises the thin-wall error
  (rocket_sim/fem/thick_wall_solver.py:185). It does not report
  `thin_wall_valid = false`, which is what rocket_sim/fem/tests/test_thick_wall.py:142-145
  expects.

## Model

| member | source | states |
|---|---|---|
| Materials.Catalogue | rocket_sim/system_model/materials.py:42-97 | the catalogue has five records, each with every numeric property positive and tensile strength at least yield strength |
| Materials.ListAvailableMaterials | rocket_sim/system_model/materials.py:139-151 | the listed names are exactly the catalogue keys in declaration order: PET, HDPE, PP, Aluminum_6061_T6, Steel_304 |
| Materials.ExactFrom | rocket_sim/system_model/materials.py:123-124 | the exact-key search finds an index whose key equals the name, or reports that no key does |
| Materials.ScanFrom | rocket_sim/system_model/materials.py:127-129 | the case-insensitive scan returns the first key equal to the name ignoring case, or reports that none is |
| Materials.FindMaterial | rocket_sim/system_model/materials.py:120-129 | a record is found exactly when some key equals the normalised name ignoring case, and the found key does |
| Materials.GetMaterial | rocket_sim/system_model/materials.py:100-136 | lookup succeeds exactly when the normalised name matches a key, returning that key's plausible record; otherwise it fails with the not-found message |
| Materials.KeysDistinctIgnoringCase | rocket_sim/system_model/materials.py:42-97 | no two catalogue keys are equal ignoring case, so the case-insensitive match is unambiguous |
| Materials.GetMaterialFindsKey | rocket_sim/system_model/materials.py:120-129 | a name resolves to record i exactly when its normalised form equals key i ignoring case |
| Materials.CatalogueRecordsDistinct | rocket_sim/system_model/materials.py:42-97 | distinct keys hold distinct records |
| Materials.ExactKeyFirst | rocket_sim/system_model/materials.py:123-124 | a name whose normalised form is a key is answered by the exact match, before the scan |
| Materials.NormalizeLower | rocket_sim/system_model/materials.py:120 | normalising and lower-casing commute |
| Materials.GetMaterialIgnoresCase | rocket_sim/system_model/materials.py:126-129 | two names equal ignoring case give the same outcome and the same record |
| Materials.PetByKey | rocket_sim/system_model/materials.py:123-124 | "PET" resolves to the PET record |
| Materials.PetAnyCase | rocket_sim/system_model/materials.py:126-129 | "pet" and "Pet" resolve to the PET record |
| Materials.NormalizePlain | rocket_sim/system_model/materials.py:120 | a name without blanks or hyphens is left unchanged by normalisation |
| Materials.AluminumByDisplayName | rocket_sim/system_model/materials.py:120-124 | " Aluminum 6061-T6 " normalises to Aluminum_6061_T6 and resolves to the aluminium record |
| Materials.ListedKeysResolve | rocket_sim/system_model/materials.py:139-151 | every listed name resolves to its own catalogue record |
| Materials.UnmatchedLength | rocket_sim/system_model/materials.py:131-136 | a name whose normalised length matches no key fails with the not-found message |
| Materials.FoundKeyLength | rocket_sim/system_model/materials.py:127-129 | a found key has the normalised name's length |
| Materials.InvalidMaterialNotFound | rocket_sim/system_model/materials.py:131-136 | "InvalidMaterial" is not found |
| Materials.NotFoundListsEveryKey | rocket_sim/system_model/materials.py:132-136 | the not-found message contains every catalogue key |
| Materials.BottleMap | rocket_sim/system_model/materials.py:198-205 | a bottle type is mapped exactly when it is one of the six types, always to PET or HDPE |
| Materials.GetBottleMaterial | rocket_sim/system_model/materials.py:183-215 | a bottle type resolves exactly when its lower-case form is a mapped type, to PET or HDPE, and otherwise fails with the unknown-type message |
| Materials.PetBottles | rocket_sim/system_model/materials.py:199-201 | soda, water and cola in any case give PET |
| Materials.HdpeBottles | rocket_sim/system_model/materials.py:202-204 | milk, detergent and shampoo in any case give HDPE |
| Materials.UpperCaseSoda | rocket_sim/system_model/materials.py:207 | "SODA" gives PET |
| Materials.UnknownBottle | rocket_sim/system_model/materials.py:208-213 | an unknown bottle type fails |
| Materials.HdpeByKey | rocket_sim/system_model/materials.py:123-124 | "HDPE" resolves to the HDPE record |
| Materials.PetSpellings | rocket_sim/system_model/materials.py:126-129 | "pet", "Pet" and "PET" lower-case to the same name |
| Materials.StripLeftPaddedAluminum | rocket_sim/system_model/materials.py:120 | stripping removes the leading padding of " Aluminum 6061-T6 " |
| Materials.StripRightPaddedAluminum | rocket_sim/system_model/materials.py:120 | stripping removes the trailing padding of "Aluminum 6061-T6 " |
| Materials.SeparatorsAluminum | rocket_sim/system_model/materials.py:120 | replacing spaces and then hyphens by underscores turns "Aluminum 6061-T6" into the key Aluminum_6061_T6 |
| ThinWall.ValidateThinWall | rocket_sim/system_model/burst_calculator.py:54-84 | validation fails with the thick-wall error exactly when t/D exceeds the threshold, and otherwise reports the marginal warning exactly when t/D > 0.05 |
| ThinWall.ValidationBands | rocket_sim/system_model/burst_calculator.py:71-84 | at the default threshold: t/D > 0.1 raises, 0.05 < t/D <= 0.1 only warns, t/D <= 0.05 does neither |
| ThinWall.HoopStress | rocket_sim/system_model/burst_calculator.py:87-114 | hoop stress is computed exactly when the wall is thin enough, and then hoop * 2t == P * D; otherwise the thick-wall error |
| ThinWall.AxialStress | rocket_sim/system_model/burst_calculator.py:117-144 | axial stress is computed exactly when the wall is thin enough, and then axial * 4t == P * D; otherwise the thick-wall error |
| ThinWall.HoopIsTwiceAxial | rocket_sim/system_model/burst_calculator.py:113-143 | hoop and axial stress succeed together, and hoop == 2 * axial |
| ThinWall.VonMises | rocket_sim/system_model/burst_calculator.py:147-179 | the von Mises stress is non-negative and its square is half the sum of the squared principal differences |
| ThinWall.RadicandNonNegative | rocket_sim/system_model/burst_calculator.py:173-177 | the quantity under the root is never negative |
| ThinWall.VonMisesPlaneStress | rocket_sim/system_model/burst_calculator.py:173-177 | with radial stress 0 the von Mises stress is sqrt(h^2 - h*a + a^2) |
| ThinWall.StressStateOf | rocket_sim/system_model/burst_calculator.py:182-210 | the stress state exists exactly when the wall is thin enough; it holds the hoop and axial stresses, radial 0 and their von Mises stress |
| ThinWall.VonMisesOfStressState | rocket_sim/system_model/burst_calculator.py:200-203 | in the stress state von Mises == abs(axial) * sqrt(3) |
| ThinWall.ParseCriterion | rocket_sim/system_model/burst_calculator.py:297-302 | the criterion is yield exactly when it is "yield" ignoring case, ultimate exactly when it is "ultimate" ignoring case, and anything else fails with the unknown-criterion message |
| ThinWall.BurstPressure | rocket_sim/system_model/burst_calculator.py:213-261 | burst pressure is computed exactly when the wall is thin enough, and then P * D * sf == 2 * sigma_allow * t with sigma_allow yield or tensile strength |
| ThinWall.BurstLinearInThickness | rocket_sim/system_model/burst_calculator.py:256 | scaling the wall by k scales the burst pressure by k |
| ThinWall.BurstInverseInDiameter | rocket_sim/system_model/burst_calculator.py:256 | doubling the diameter halves the burst pressure |
| ThinWall.BurstDividedBySafetyFactor | rocket_sim/system_model/burst_calculator.py:259 | the burst pressure for safety factor sf times sf is the burst pressure for 1 |
| ThinWall.StressRatio | rocket_sim/system_model/burst_calculator.py:305-308 | a positive actual stress gives allow/actual, any other gives +infinity |
| ThinWall.SafetyFactor | rocket_sim/system_model/burst_calculator.py:264-310 | a thick wall raises the thick-wall error, then an unknown criterion raises its message, otherwise the factor is the allowable stress over the von Mises stress |
| ThinWall.AxialProportional | rocket_sim/system_model/burst_calculator.py:143 | axial stress is P * D/(4t) |
| ThinWall.VonMisesClosedForm | rocket_sim/system_model/burst_calculator.py:200-203 | von Mises stress is abs(P) * D/(4t) * sqrt(3) |
| ThinWall.SafetyFactorAtZeroPressure | rocket_sim/system_model/burst_calculator.py:305-308 | at zero pressure the safety factor is +infinity |
| ThinWall.SafetyFactorDecreasing | rocket_sim/system_model/burst_calculator.py:293-306 | for positive pressures the safety factor strictly decreases as pressure rises |
| ThinWall.VonMisesIncreasing | rocket_sim/system_model/burst_calculator.py:200-203 | for positive pressures von Mises stress is positive and strictly increasing |
| ThinWall.SafetyFactorScaling | rocket_sim/system_model/burst_calculator.py:293-306 | multiplying the pressure by k divides the safety factor by k |
| ThinWall.VonMisesScaling | rocket_sim/system_model/burst_calculator.py:200-203 | von Mises stress is linear in a positive pressure |
| ThinWall.SafetyFactorAtBarlowPressure | rocket_sim/system_model/burst_calculator.py:293-359 | at the predicted yield failure pressure the safety factor is 2/sqrt(3) (its square is 4/3), not 1 |
| ThinWall.CheckFailure | rocket_sim/system_model/burst_calculator.py:313-339 | the check fails exactly when the safety factor does, reports that factor, and reports failure exactly when the factor is finite and below 1 |
| ThinWall.CheckFailureExamples | rocket_sim/system_model/burst_calculator.py:336-339 | zero pressure is not a failure with factor +infinity; twice the predicted failure pressure is a failure |
| ThinWall.PredictFailurePressure | rocket_sim/system_model/burst_calculator.py:342-359 | the predicted failure pressure is the burst pressure with safety factor 1, using the yield strength exactly when the criterion is "yield" ignoring case |
| ThinWall.UltimateAboveYield | rocket_sim/system_model/burst_calculator.py:358-359 | when tensile strength is at least yield strength, the ultimate failure pressure is at least the yield one |
| FailureTracking.SafetyAtSucceeds | rocket_sim/system_model/ode_solver.py:169-224 | for a runnable scenario the safety-factor call at any time succeeds, with the value the tracker uses |
| FailureTracking.MarginMeaning | rocket_sim/system_model/ode_solver.py:169-173 | the event margin SF - 1 is at most 0 exactly when SF is at most 1, and at least 0 exactly when SF is at least 1 |
| FailureTracking.FirstCrossing | rocket_sim/system_model/ode_solver.py:175-211 | the reported step is the first grid step where the margin goes from >= 0 to <= 0; with none reported, no step crosses downward |
| FailureTracking.TimeGridSorted | rocket_sim/system_model/ode_solver.py:193 | the output time grid is sorted |
| FailureTracking.SampleCount | rocket_sim/system_model/ode_solver.py:193 | the sample count is the whole number of steps in the run: count * step <= end < (count + 1) * step |
| FailureTracking.NoSamples | rocket_sim/system_model/ode_solver.py:193 | a run has no samples exactly when it is shorter than one step |
| FailureTracking.FewSamples | rocket_sim/system_model/ode_solver.py:193 | a run shorter than two steps has at most one sample |
| FailureTracking.UpToPrefix | rocket_sim/system_model/ode_solver.py:201-213 | on a sorted grid the samples kept up to the failure time are a prefix of the grid |
| FailureTracking.HalvedByPow2 | rocket_sim/system_model/ode_solver.py:196-206 | n bisection steps divide the bracket width by 2^n |
| FailureTracking.InitialVolumeDefault | rocket_sim/system_model/ode_solver.py:147-152 | a vessel without a length has V0 = pi * D^2/4 * 0.3, which is positive |
| FailureTracking.SampleAt | rocket_sim/system_model/ode_solver.py:218-247 | a sample stores its time, P(t), T(t), the safety factor at t and the thin-wall stress state at P(t) |
| FailureTracking.SampleStrain | rocket_sim/system_model/ode_solver.py:227 | the hoop strain times E is the hoop stress, and hoop stress is twice axial stress |
| FailureTracking.SampleVolume | rocket_sim/system_model/ode_solver.py:229-236 | without deformation the volume is V0; with it, under non-negative pressure, the volume never falls below V0 |
| FailureTracking.FailureVerdict | rocket_sim/system_model/ode_solver.py:209-262 | a crossing refined to t inside the first downward-crossing step of the detection grid gives failed, failure time t, mode "Yield exceeded", and times = the output grid up to t followed by t |
| FailureTracking.VerdictEmpty | rocket_sim/system_model/ode_solver.py:209-215 | the recorded times are empty exactly when the output grid is empty and no failure is detected |
| FailureTracking.FailureTracker.constructor | rocket_sim/system_model/ode_solver.py:154-167 | a new tracker is integrating, with empty aligned series and no failure |
| FailureTracking.FailureTracker.Record | rocket_sim/system_model/ode_solver.py:238-247 | one pass of the loop appends the sample for t to all nine series and leaves earlier rows and the verdict unchanged |
| FailureTracking.FailureTracker.Scan | rocket_sim/system_model/ode_solver.py:175-206 | the scan returns the first downward-crossing grid step |
| FailureTracking.FailureTracker.Bisect | rocket_sim/system_model/ode_solver.py:196-206 | bisection keeps a downward-crossing bracket inside the step and halves its width each step |
| FailureTracking.FailureTracker.Locate | rocket_sim/system_model/ode_solver.py:196-211 | a crossing is located exactly when the grid has one, inside that first step and with SF <= 1 there |
| FailureTracking.FailureTracker.Run | rocket_sim/system_model/ode_solver.py:87-265 | the length warning is set exactly when the length is missing; an unrunnable scenario raises the safety-factor error with nothing recorded; otherwise the verdict holds for detection on the detection grid and recording on the output grid, and every row is the sample at its time |
| FailureTracking.FailureTracker.Simulate | rocket_sim/system_model/ode_solver.py:196-247 | detection on a sorted grid, then recording on the output grid, leaves the verdict and the recorded rows |
| FailureTracking.FailureTracker.Complete | rocket_sim/system_model/ode_solver.py:214-215 | with no crossing on the detection grid every output-grid time is recorded and nothing failed |
| FailureTracking.FailureTracker.Fail | rocket_sim/system_model/ode_solver.py:209-213 | with a crossing the output-grid times up to it and then the failure time are recorded, with the failure verdict |
| FailureTracking.FailureTracker.RecordAll | rocket_sim/system_model/ode_solver.py:218-247 | the recording loop stores exactly the given times, each row the sample at its time, and changes nothing else |
| FailureTracking.UpTo | rocket_sim/system_model/ode_solver.py:201-213 | the retained samples are grid times, at most as many as the grid, none after the failure time |
| FailureTracking.TimeGridPair | rocket_sim/system_model/ode_solver.py:193 | the output grid is sorted: an earlier index never holds a later time |
| FailureTracking.DetectionGrid | rocket_sim/system_model/ode_solver.py:192-206 | the event is watched on the output grid whenever it has at least two points |
| FailureTracking.DetectionGridSpans | rocket_sim/system_model/ode_solver.py:192-206 | the detection grid is sorted and, on a run of positive length, starts at 0 and ends at the end time, so it covers the whole integration span |
| FailureTracking.ShortRunWatched | rocket_sim/system_model/ode_solver.py:192-215 | a run of positive length shorter than two steps has at most one output sample, and a downward crossing between its start and its end is still detected |
| Lame.RadiiPositive | rocket_sim/fem/thick_wall_solver.py:87 | every sampled radius is positive |
| Lame.RadialProfile | rocket_sim/fem/thick_wall_solver.py:102 | the radial stress profile has one entry per radius, sigma_r = A - B/r^2 at each |
| Lame.HoopProfile | rocket_sim/fem/thick_wall_solver.py:105 | the hoop stress profile has one entry per radius, sigma_theta = A + B/r^2 at each |
| Lame.VonMisesProfile | rocket_sim/fem/thick_wall_solver.py:113-118 | the von Mises profile is the von Mises stress of each radius' three stresses |
| Lame.DisplacementProfile | rocket_sim/fem/thick_wall_solver.py:126 | the displacement profile is u_r = (1/E)((1 - nu) A r + (1 + nu) B/r) at each radius |
| Lame.StrainProfile | rocket_sim/fem/thick_wall_solver.py:129-131 | each strain entry is (1/E)(own stress - nu * sum of the other two) |
| Lame.DisplacementOf | rocket_sim/fem/thick_wall_solver.py:120-137 | without a material the displacement is zero everywhere, with one it is the Lamé displacement |
| Lame.StrainOf | rocket_sim/fem/thick_wall_solver.py:120-137 | without a material the strains are zero everywhere, with one they are the Hooke strains |
| Lame.GridPositive | rocket_sim/fem/thick_wall_solver.py:87 | the radius grid lies in (0, r_o] |
| Lame.SolveLame | rocket_sim/fem/thick_wall_solver.py:46-149 | n radii from r_i to r_o; at each, the Lamé radial and hoop stresses, the constant axial stress P_i r_i^2/(r_o^2 - r_i^2) and a non-negative von Mises stress; without a material zero displacement and strains, with one the Lamé displacement and the Hooke hoop, radial and axial strains |
| Lame.RadialAtBore | rocket_sim/fem/thick_wall_solver.py:96-102 | sigma_r(r_i) == -P_i exactly |
| Lame.RadialAtOuterSurface | rocket_sim/fem/thick_wall_solver.py:96-102 | sigma_r(r_o) == -P_o exactly |
| Lame.BoundaryConditions | rocket_sim/fem/thick_wall_solver.py:268-274 | the first radial stress of the profile is -P_i and the last is -P_o |
| Lame.PositiveB | rocket_sim/fem/thick_wall_solver.py:98 | B > 0 when P_i > P_o |
| Lame.PositiveA | rocket_sim/fem/thick_wall_solver.py:97 | A > 0 under internal pressure alone |
| Lame.HoopDecreasingInRadius | rocket_sim/fem/thick_wall_solver.py:105 | when P_i > P_o hoop stress strictly decreases with the radius |
| Lame.HoopMaximalAtBore | rocket_sim/fem/thick_wall_solver.py:105-281 | when P_i > P_o an earlier profile entry has strictly larger hoop stress |
| Lame.BoreHoopIsMaximum | rocket_sim/fem/thick_wall_solver.py:189-190 | when P_i > P_o the largest hoop stress is the bore value |
| Lame.HoopAtBore | rocket_sim/fem/thick_wall_solver.py:105-287 | with P_o = 0, sigma_theta(r_i) = P_i (r_o^2 + r_i^2)/(r_o^2 - r_i^2) |
| Lame.HoopPositive | rocket_sim/fem/thick_wall_solver.py:105-287 | under internal pressure alone hoop stress is positive at every radius |
| Lame.ProfileHoopPositive | rocket_sim/fem/thick_wall_solver.py:284-287 | under internal pressure alone every profile hoop entry is positive |
| Lame.AxialConstant | rocket_sim/fem/thick_wall_solver.py:109-110 | the axial profile does not depend on the external pressure |
| Lame.DisplacementPositive | rocket_sim/fem/thick_wall_solver.py:126 | under internal pressure alone, with E > 0 and -1 < nu < 1, the displacement is positive |
| Lame.ProfileDisplacementPositive | rocket_sim/fem/thick_wall_solver.py:126 | every displacement entry of such a profile is positive |
| Lame.BurstReachesAllowable | rocket_sim/fem/thick_wall_solver.py:205-239 | at the thick-wall burst pressure with P_o = 0 the bore hoop stress equals the allowable stress |
| Lame.ThickerWallStronger | rocket_sim/fem/thick_wall_solver.py:237 | a thicker wall gives a strictly higher thick-wall burst pressure |
| Lame.ThickWallBurst | rocket_sim/fem/thick_wall_solver.py:205-239 | the burst pressure times r_o^2 + r_i^2 is the allowable stress times r_o^2 - r_i^2; for a real vessel it is non-negative and below the allowable stress |
| Lame.CompareThickThin | rocket_sim/fem/thick_wall_solver.py:152-202 | the comparison raises the thick-wall error exactly when t/D > 0.1; otherwise it reports t/D, validity exactly when t/D < 0.1, the thin-wall hoop stress, the maximum and the bore value of the Lamé hoop profile at P_o = 0, and the error percentage of the thin value against that maximum |
| Lame.ErrorPercent | rocket_sim/fem/thick_wall_solver.py:192-193 | the error percentage times the thick value is 100 times the absolute difference; it is missing exactly when the thick value is 0 |
| Lame.ComparisonProfile | rocket_sim/fem/thick_wall_solver.py:188-190 | the compared profile has the fixed number of radii, and its first hoop entry is the Lamé hoop stress at the bore under internal pressure alone |
| Lame.ThinWallUnderestimates | rocket_sim/fem/thick_wall_solver.py:184-193 | under positive pressure on a thin-enough wall the thin-wall hoop stress is strictly below the Lamé maximum |
| Lame.ComparisonMaxAtBore | rocket_sim/fem/thick_wall_solver.py:189-193 | under positive pressure the compared maximum is the bore value and an error percentage is reported |
| Lame.ValidateLame | rocket_sim/fem/thick_wall_solver.py:242-289 | an empty radial profile raises the index error, and one with P_i > P_o but an empty hoop profile the argmax error; otherwise each check holds exactly when its boundary condition, bore-maximum or positivity property holds, the last two only under their pressure conditions |
| Lame.ArgMaxZero | rocket_sim/fem/thick_wall_solver.py:277-281 | the first maximum is at index 0 exactly when no later entry is larger |
| Lame.ChecksPass | rocket_sim/fem/thick_wall_solver.py:263-289 | a non-empty profile with those properties passes all four checks |
| Lame.HoopBoreBound | rocket_sim/fem/thick_wall_solver.py:277-281 | when P_i > P_o no solved hoop entry exceeds the bore value |
| Lame.HoopProfilePositive | rocket_sim/fem/thick_wall_solver.py:284-287 | with P_i > 0 and P_o = 0 every solved hoop entry is positive |
| Lame.SolvedProfilePasses | rocket_sim/fem/thick_wall_solver.py:242-289 | every solved profile with at least two radii passes all four checks |
| Concentrations.CapIndexFrom | rocket_sim/fem/stress_concentrations.py:51-61 | the cap-table search finds an entry with the given name, or reports that none has it |
| Concentrations.EndCapFactor | rocket_sim/fem/stress_concentrations.py:19-78 | a cap type is known exactly when its lower-case form is a table name; its factor is that entry's, between 1 and 2.5, with the flat warning exactly for "flat"; an unknown type fails with the message listing the valid names |
| Concentrations.CapFactorTable | rocket_sim/fem/stress_concentrations.py:51-57 | hemispherical 1.0, elliptical 1.5, torispherical 1.8, conical 1.5, flat 2.5 with a warning |
| Concentrations.CapFactorIgnoresCase | rocket_sim/fem/stress_concentrations.py:59-61 | two cap names equal ignoring case give the same outcome |
| Concentrations.FlatAnyCase | rocket_sim/fem/stress_concentrations.py:59-76 | "FLAT" and "Flat" give 2.5 with the warning |
| Concentrations.UnknownCapListsNames | rocket_sim/fem/stress_concentrations.py:61-68 | the unknown-cap message contains every valid cap name |
| Concentrations.ThreadFactor | rocket_sim/fem/stress_concentrations.py:81-130 | the thread factor is always within [2.0, 4.5] |
| Concentrations.ThreadDefault | rocket_sim/fem/stress_concentrations.py:108-130 | with the default depth t/2 and radius depth/4 the factor is exactly 4.5 for a positive wall, and 4.0 when the default radius is not positive |
| Concentrations.SharperThreadNotLower | rocket_sim/fem/stress_concentrations.py:122-128 | a smaller positive root radius never lowers the thread factor |
| Concentrations.SharpCornerThread | rocket_sim/fem/stress_concentrations.py:124-128 | a non-positive root radius gives 4.0 |
| Concentrations.TransitionFactor | rocket_sim/fem/stress_concentrations.py:133-173 | the transition factor is always within [1.0, 3.5] |
| Concentrations.SharpCornerTransition | rocket_sim/fem/stress_concentrations.py:164-171 | with f/d <= 0 the factor is 3(2 - d/D) clipped to [1, 3.5] |
| Concentrations.BottleNeckSaturates | rocket_sim/fem/stress_concentrations.py:225-233 | with the fixed 28 mm neck and 2 mm fillet, any diameter of 95 mm or more saturates the factor at 3.5 |
| Concentrations.FirstMaxLabel | rocket_sim/fem/stress_concentrations.py:240-251 | the location is the cap when it is a maximum, else the thread when it beats the cap and is a maximum, else the transition: the first maximum in that order |
| Concentrations.Combine | rocket_sim/fem/stress_concentrations.py:217-262 | K_total is one of the three factors (disabled ones counting 1) and at least each, sigma_max = K_total * nominal, disabled factors are reported absent, and the location is the first maximum |
| Concentrations.LocationIsFirstMaximum | rocket_sim/fem/stress_concentrations.py:247-251 | the named location's factor is K_total and every earlier one is strictly below it |
| Concentrations.CombineAtLeastNominal | rocket_sim/fem/stress_concentrations.py:247-254 | K_total >= 1, so sigma_max is at least a non-negative nominal stress, strictly above a positive one when K_total > 1 |
| Concentrations.CombineMonotoneInThread | rocket_sim/fem/stress_concentrations.py:247 | a larger thread factor never lowers K_total |
| Concentrations.MaximumStress | rocket_sim/fem/stress_concentrations.py:176-264 | the result exists exactly when the wall is thin enough and the cap is known, else the hoop-stress or cap error in that order; it combines the nominal hoop stress, the cap factor and the enabled default thread and neck factors |
| Concentrations.MaximumAtLeastNominal | rocket_sim/fem/stress_concentrations.py:247-254 | the maximum stress is at least the nominal hoop stress when that is non-negative |
| Concentrations.ThreadNeverLowers | rocket_sim/fem/tests/test_stress_concentrations.py:96-105 | enabling threads never lowers K_total |
| Concentrations.FlatAboveHemispherical | rocket_sim/fem/tests/test_stress_concentrations.py:107-116 | under positive hoop stress a flat cap gives a larger sigma_max than a hemispherical one |
| Concentrations.ThreadedHemisphere | rocket_sim/fem/stress_concentrations.py:225-251 | a hemispherical cap with threads has K_total 4.5 located at the thread |
| Concentrations.EstimateFailureLocation | rocket_sim/fem/stress_concentrations.py:267-300 | the estimate fails exactly when the cap type is unknown, with the cap error |
| Concentrations.EstimateIsThreadRoot | rocket_sim/fem/stress_concentrations.py:288-296 | for every known cap the estimate is the thread-root label, since the default thread factor 4.5 exceeds every cap factor |
| FullSimulation.DefaultFullConfig | rocket_sim/integration/full_simulation.py:36-87 | a configuration built from volume and ratio carries the declared defaults: 300 K, 101325 Pa, 0.01 s, 95 mm by 0.3 mm by 0.30 m PET, hemispherical cap with threads and no transition, yield criterion, step 1e-5, 50 FEM points |
| FullSimulation.ViableIsCallable | rocket_sim/integration/full_simulation.py:202-217 | a viable full configuration gives a system configuration the system run can be called on |
| FullSimulation.Warnings | rocket_sim/integration/full_simulation.py:310-322 | the thick-wall warning appears exactly when t/D > 0.05, the flat-cap warning exactly for a flat cap, the threads warning exactly when threads are included, and the low-margin warning exactly when the margin is below 2, always last and carrying the margin |
| FullSimulation.WarningsOrdered | rocket_sim/integration/full_simulation.py:310-322 | the warnings appear in the fixed order thick wall, flat cap, threads, low margin, each at most once |
| FullSimulation.ConcentratedSafetyFactor | rocket_sim/integration/full_simulation.py:302 | the concentrated factor is the yield strength over sigma_max, +infinity when sigma_max is 0 |
| FullSimulation.ConcentratedFailureIffAboveYield | rocket_sim/integration/full_simulation.py:302-306 | for positive strength and stress the concentrated factor is below 1 exactly when sigma_max exceeds the yield strength |
| FullSimulation.Assess | rocket_sim/integration/full_simulation.py:306-308 | failed exactly when the system run failed or the concentrated factor is below 1; a location exactly when failed, the concentration location; the margin is the smaller of the two factors |
| FullSimulation.ConcentrationFailureWarns | rocket_sim/integration/full_simulation.py:306-322 | a concentrated factor below 1 makes the run failed and ends the warnings with a low-margin warning below 1 |
| FullSimulation.FullGeometry | rocket_sim/integration/full_simulation.py:231-235 | the FEM geometry is the system run's geometry, with the configured diameter and thickness |
| FullSimulation.WallProfile | rocket_sim/integration/full_simulation.py:243-252 | the Lamé profile has the configured number of radii |
| FullSimulation.FemStage | rocket_sim/integration/full_simulation.py:238-268 | the FEM stage fails exactly when the cap type is unknown; otherwise it holds the Lamé profile at r_i = D/2 and r_o = r_i + t, the thick/thin comparison, the maximum stress and the failure-location estimate at the peak pressure |
| FullSimulation.Summarize | rocket_sim/integration/full_simulation.py:293-303 | the summary holds the peak pressure and temperature and the minimum safety factor of the system series, the maxima of the Lamé hoop and von Mises profiles, K_total, sigma_max and the concentrated factor |
| FullSimulation.Analyse | rocket_sim/integration/full_simulation.py:238-322 | the analysis fails exactly on an unknown cap or an empty wall profile, with that error; otherwise it is the FEM stage at the peak pressure, the summary, the verdict and the warnings on the verdict's margin |
| FullSimulation.PeakHoopAtBore | rocket_sim/integration/full_simulation.py:298 | under a positive peak pressure the largest hoop stress through the wall is the bore value |
| FullSimulation.ThreadedHemisphereFailsAtThreadRoot | rocket_sim/integration/full_simulation.py:258-268 | with the default hemispherical threaded cap, K_total is 4.5 at the thread location |
| FullSimulation.RunCompleteSimulation | rocket_sim/integration/full_simulation.py:138-356 | the pipeline raises exactly when the system run, the cap lookup or the wall-profile maximum would, with that error; otherwise it returns the combustion series of its request, a fresh tracker holding the system run with its verdict on the detection grid, and the analysis of its series |
| SystemIntegration.DefaultConfig | rocket_sim/system_model/system_integrator.py:52-68 | a configuration built from volume and ratio carries the declared defaults: 300 K, 101325 Pa, 95 mm by 0.3 mm by 0.30 m of PET, 0.01 s, no system time, step 1e-4, yield criterion |
| SystemIntegration.ResolveMaterial | rocket_sim/system_model/system_integrator.py:116-119 | a material name is looked up in the catalogue, with its error on an unknown name; a record is used as it is |
| SystemIntegration.NamedKeyResolves | rocket_sim/system_model/system_integrator.py:116-119 | every catalogue key resolves to its record, which has a positive Young's modulus |
| SystemIntegration.ScenarioOf | rocket_sim/system_model/system_integrator.py:130-138 | the system run receives the combustion curves, the configured geometry, the material and the criterion, without deformation |
| SystemIntegration.RunFullSimulation | rocket_sim/system_model/system_integrator.py:71-149 | the run raises exactly when an empty combustion series, an unknown material, a thick wall, an unknown criterion or an empty system series makes it raise, with that error; the system series is empty exactly when the run is shorter than one step and no failure is detected in it; otherwise it returns the combustion series of its request and a fresh tracker on the configured scenario, with its verdict on the detection grid and the initial volume recorded |
| SystemIntegration.FieldOf | rocket_sim/system_model/system_integrator.py:184 | an attribute name that denotes a configuration field is that field's own name |
| SystemIntegration.FieldNamesParse | rocket_sim/system_model/system_integrator.py:184 | every field's own name denotes that field |
| SystemIntegration.Set | rocket_sim/system_model/system_integrator.py:184 | setting a numeric field leaves the material and criterion alone |
| SystemIntegration.GetSet | rocket_sim/system_model/system_integrator.py:183-184 | after setting a field, reading it gives the value set and every other field keeps its value |
| SystemIntegration.WithField | rocket_sim/system_model/system_integrator.py:183-184 | the study's copy has the named field set to the value and every other field unchanged; a name that is no field leaves the configuration as it was |
| SystemIntegration.Varied | rocket_sim/system_model/system_integrator.py:179-184 | a study has one configuration per value, the base with the named field set to that value |
| SystemIntegration.VariedConfigs | rocket_sim/system_model/system_integrator.py:179-184 | entry i of a study on a field carries value i in that field and keeps the base's material and criterion |
| SystemIntegration.RunStudyEntry | rocket_sim/system_model/system_integrator.py:179-190 | one entry raises exactly when its configuration's run raises, with that error; otherwise it echoes its value and holds its run's outputs |
| SystemIntegration.Outcomes | rocket_sim/system_model/system_integrator.py:179-190 | the error outcome of a study lists each configuration's own outcome in order |
| SystemIntegration.RunEach | rocket_sim/system_model/system_integrator.py:177-192 | the study raises the error of the first configuration that raises; when none raises, it returns one entry per value, in order, each echoing its value and holding its own run |
| SystemIntegration.RunParametricStudy | rocket_sim/system_model/system_integrator.py:152-192 | the study over the base with the named field varied through the values raises the first run's error, or returns one echoing entry per value, in order |
| SystemIntegration.PrefixExtends | rocket_sim/system_model/system_integrator.py:179-190 | appending an echoing entry for a configuration that does not raise extends the finished prefix of the study by one |
| SystemIntegration.StudyStops | rocket_sim/system_model/system_integrator.py:179-188 | when every configuration so far has run and the next one raises, the study's outcome is that error |
| SystemIntegration.StudyCompletes | rocket_sim/system_model/system_integrator.py:192 | a prefix that covers every configuration is the study's successful result |
| SystemIntegration.SafeOperatingPressure | rocket_sim/system_model/system_integrator.py:195-221 | the estimate exists exactly when the failure pressure prediction does, raising the thick-wall error otherwise; the estimate times the target is the predicted failure pressure |
| SystemIntegration.SafePressureBelowFailure | rocket_sim/system_model/system_integrator.py:195-221 | on a thin wall of a plausible material with target at least 1, the estimate is positive and at most the failure pressure; at the default target 4 it is a quarter of it |
| Combustion.FirstIssue | rocket_sim/combustion/cantera_wrapper.py:80-98 | no check rejects exactly when the inputs are in their closed ranges; otherwise the reported check rejects them and no earlier check does |
| Combustion.ValidateCombustionInputs | rocket_sim/combustion/cantera_wrapper.py:60-98 | the inputs are valid exactly when 0 < volume <= 0.01, 0.5 <= mix <= 10, 200 <= T0 <= 500 and 5000 <= P0 <= 500000, so the boundary values are accepted, with "Inputs valid"; otherwise the message is that of the first check in the fixed order to reject them |
| Combustion.MoleFractions | rocket_sim/combustion/cantera_wrapper.py:170-171 | X_H2 + X_O2 = 1 and X_H2 = r * X_O2; the division raises exactly at r = -1 |
| Combustion.MoleFractionsProper | rocket_sim/combustion/cantera_wrapper.py:170-171 | for a positive ratio both fractions lie strictly between 0 and 1 |
| Combustion.IgnitionTemperature | rocket_sim/combustion/cantera_wrapper.py:177 | the ignition temperature is at least T0 and at least 1200 K, and is one of the two |
| Combustion.Sample | rocket_sim/combustion/cantera_wrapper.py:188-196 | the sampling loop succeeds exactly when every advance does, with one pressure and temperature per time, those of the advance to that time; otherwise it reports the error of the first advance that raises |
| Combustion.Gradient | rocket_sim/combustion/cantera_wrapper.py:203 | the gradient has one entry per sample |
| Combustion.GradientOfLinear | rocket_sim/combustion/cantera_wrapper.py:203 | on samples of a linear pressure rise the one-sided and central differences all give its slope |
| Combustion.OneStep | rocket_sim/combustion/cantera_wrapper.py:203 | between neighbouring samples of a linear rise the pressure grows by slope times step |
| Combustion.MaxAbs | rocket_sim/combustion/cantera_wrapper.py:204 | the largest absolute rate is non-negative, bounds every entry and is attained |
| Combustion.FailedRun | rocket_sim/combustion/cantera_wrapper.py:154-162 | a failure record is unsuccessful, has empty series and zero peak pressure and rise rate, and carries its message |
| Combustion.SetupError | rocket_sim/combustion/cantera_wrapper.py:164-175 | the set-up raises the mechanism load error first, then the division by zero at r = -1, then the state set-up error, and does not raise exactly when none of them does |
| Combustion.Spacing | rocket_sim/combustion/cantera_wrapper.py:201 | the spacing is the difference of the first two grid times, non-zero for a non-zero end time |
| Combustion.SimulateCombustion | rocket_sim/combustion/cantera_wrapper.py:101-225 | every failure is the empty record; with validation on, invalid inputs give "Input validation failed: " and the validator's message; otherwise a set-up error, a raising advance, a series of no samples or of one sample gives "Simulation failed: " and that error, and a run that completes returns the grid, the sampled series, their peak and the largest absolute gradient |
| Mesh.RowBound | rocket_sim/fem/geometry.py:75-79 | a row-major index of a position inside the grid is below the grid size |
| Mesh.NodeIdInRange | rocket_sim/fem/geometry.py:72-79 | the id of every grid position is below (n_radial + 1)(n_axial + 1) |
| Mesh.NodeIdOrdered | rocket_sim/fem/geometry.py:75-79 | a node of a lower layer has a smaller id than every node of a higher layer |
| Mesh.NodeIdInjective | rocket_sim/fem/geometry.py:72-79 | two positions of the grid share an id exactly when they are the same position |
| Mesh.RowNodes | rocket_sim/fem/geometry.py:76-78 | one layer has a node per radius |
| Mesh.GridNodes | rocket_sim/fem/geometry.py:75-79 | the node list has one node per radius for each layer |
| Mesh.GridNodesAt | rocket_sim/fem/geometry.py:75-79 | node i * len(r) + j is (r[j], z[i], 0) |
| Mesh.GridNodesCovered | rocket_sim/fem/geometry.py:75-79 | every node of the list is (r[j], z[i], 0) for some grid position |
| Mesh.RowQuads | rocket_sim/fem/geometry.py:86-92 | one layer of the mesh has n_radial quads |
| Mesh.QuadRows | rocket_sim/fem/geometry.py:85-92 | the element list has n_radial quads per layer |
| Mesh.QuadRowsAt | rocket_sim/fem/geometry.py:85-92 | element i * n_radial + j is the quad n1, n2, n3, n4 of cell (i, j) |
| Mesh.QuadRowsInRange | rocket_sim/fem/geometry.py:85-92 | every node an element names is a node of the mesh |
| Mesh.AxisymmetricMeshCounts | rocket_sim/fem/geometry.py:41-111 | the mesh has (n_radial + 1)(n_axial + 1) nodes and n_radial n_axial quads naming only its nodes, no circumferential elements, and the four boundary sets with n_axial + 1, n_axial + 1, n_radial + 1 and n_radial + 1 nodes |
| Mesh.AxisymmetricMeshNodes | rocket_sim/fem/geometry.py:68-79 | the node of position (i, j) lies at the j-th evenly spaced radius and the i-th evenly spaced height, with theta 0 |
| Mesh.AxisymmetricMeshElements | rocket_sim/fem/geometry.py:85-92 | element i * n_radial + j is the quad of cell (i, j) |
| Mesh.PlaceNodes | rocket_sim/fem/geometry.py:72-79 | the nested loop appends the grid nodes layer by layer and records id i * len(r) + j for exactly the positions of the grid |
| Mesh.ConnectQuads | rocket_sim/fem/geometry.py:84-92 | the nested loop builds exactly the quads of every cell, in layer order |
| Mesh.CreateAxisymmetricMesh | rocket_sim/fem/geometry.py:41-111 | the loops build the mesh whose counts, nodes and elements the lemmas above describe |
| Mesh.RadialMesh | rocket_sim/fem/geometry.py:114-156 | the 1D mesh has n + 1 nodes on the axis z = 0 and n line elements [i, i + 1] that chain, starting at the inner radius and ending at the outer one |
| Mesh.MeasureBounds | rocket_sim/fem/geometry.py:183-203 | an element is measured exactly when it has 2 or 4 nodes; a size is non-negative, an aspect ratio at least 1, and that of a line exactly 1 |
| Mesh.DistanceNonNegative | rocket_sim/fem/geometry.py:188-199 | every edge length is non-negative |
| Mesh.RatioAtLeastOne | rocket_sim/fem/geometry.py:203 | the longest edge over a positive shortest one is at least 1 |
| Mesh.Measurements | rocket_sim/fem/geometry.py:183-203 | at most one measurement per element |
| Mesh.AllMeasured | rocket_sim/fem/geometry.py:183-203 | a mesh of lines and quads has one measurement per element |
| Mesh.MeasurementsBounds | rocket_sim/fem/geometry.py:183-203 | every measured size is non-negative and every aspect ratio at least 1 |
| Mesh.CalculateMeshQuality | rocket_sim/fem/geometry.py:159-214 | the loop over the elements gives the counts and the minimum and maximum size and mean aspect ratio of the measurements of all elements, or zeros when none is measured |
| Mesh.SizesRatiosAppend | rocket_sim/fem/geometry.py:189-190 | one more measurement appends its size and its ratio |
| Mesh.QualityBounds | rocket_sim/fem/geometry.py:159-214 | the metrics report the element and node counts, 0 <= minimum size <= maximum size, and an aspect ratio at least 1 |
| Mesh.LineMeshAspectOne | rocket_sim/fem/geometry.py:187-208 | a mesh of line elements has aspect ratio exactly 1 |
| Mesh.LinesRatioOne | rocket_sim/fem/geometry.py:187-190 | every line element measures an aspect ratio of 1 |
| Mesh.MeanAtLeastOne | rocket_sim/fem/geometry.py:208 | the mean of ratios all at least 1 is at least 1 |
| Mesh.SumAtLeastLength | rocket_sim/fem/geometry.py:208 | the sum of values all at least 1 is at least their number |
| Mesh.RefineMesh | rocket_sim/fem/geometry.py:217-247 | refinement raises "3D mesh refinement not yet implemented" for a 3D mesh and the empty-minimum error for a mesh without nodes; otherwise it remeshes from the smallest to the largest node radius over the largest height with both counts multiplied by the factor |
| Mesh.RefineCount | rocket_sim/fem/geometry.py:235-246 | a refined axisymmetric mesh has factor squared times as many elements |
| Mesh.RefineKeepsGeometry | rocket_sim/fem/geometry.py:217-247 | refining a generated mesh gives the mesh of the same radii and length with both counts multiplied by the factor |
| Physical.ElectrodeSurfaceArea | hydrogen-generator-model/src/physical_model.py:64-87 | the plate area in cm2 is width times height in mm over 50 (both faces), the active area is that times the active fraction, the total is the active area per plate times (plates - 1), and the m2 figure is the cm2 figure over 10000 |
| Physical.AreaPositive | hydrogen-generator-model/src/physical_model.py:64-87 | with two plates or more and positive dimensions and fraction, the total active area is positive |
| Physical.DensityStatus | hydrogen-generator-model/src/physical_model.py:118-129 | the five bands: below 50, [50, 100), [100, 500], (500, 1000] and above 1000 mA/cm2, each with its own label, both directions |
| Physical.CurrentDensity | hydrogen-generator-model/src/physical_model.py:89-116 | the density in mA/cm2 times the total active area is 1000 times the current; A/cm2 is a thousandth of it and A/m2 ten times it; it is optimal exactly when in [100, 500], exactly when the status is the optimal band |
| Physical.DensityScales | hydrogen-generator-model/src/physical_model.py:102-105 | the current density is linear in the current |
| Physical.DensityIncreasing | hydrogen-generator-model/src/physical_model.py:102-105 | on a positive active area a larger current gives a strictly larger density |
| Physical.ThicknessCancels | hydrogen-generator-model/src/physical_model.py:173-178 | the plate thickness cancels out of the electrode resistance |
| Physical.ElectrodeResistance | hydrogen-generator-model/src/physical_model.py:173-178 | the electrode resistance times the plate height in mm is the corrected resistivity times the number of plates times 1000 |
| Physical.GapResistance | hydrogen-generator-model/src/physical_model.py:150-156 | the resistance of one gap times the conductivity and the plate area is the spacing in metres |
| Physical.OhmicResistance | hydrogen-generator-model/src/physical_model.py:131-188 | there are plates - 1 gaps; the gap, electrolyte and total resistances are infinite exactly when the conductivity is not positive; otherwise the electrolyte resistance is the gap resistance times the number of gaps, and the total adds the electrode resistance |
| Physical.Tafel | hydrogen-generator-model/src/physical_model.py:222-223 | an activation overpotential is never negative, since j/j0 is taken at least 1 |
| Physical.VoltageLosses | hydrogen-generator-model/src/physical_model.py:190-243 | the ohmic loss is current times total resistance; the cathode and anode activations are the Tafel terms of slopes 120 and 60 mV and exchange densities 0.1 and 1 mA/cm2 at the current density; the activation is their non-negative sum; the total is ohmic + activation + concentration |
| Physical.Shares | hydrogen-generator-model/src/physical_model.py:266-268 | each percentage times the total is 100 times its part, and the percentages sum to 100 times the parts over the total |
| Physical.Breakdown | hydrogen-generator-model/src/physical_model.py:261-270 | the breakdown holds the theoretical voltage and the overpotential, the total required is their sum, and each percentage times the total is 100 times its loss |
| Physical.RequiredVoltage | hydrogen-generator-model/src/physical_model.py:245-270 | the required voltage is the theoretical voltage plus the total overpotential of the losses at that current and conductivity, with their breakdown |
| Physical.BubbleRecommendation | hydrogen-generator-model/src/physical_model.py:304-311 | coverage below 0.05 is minimal, below 0.15 moderate, otherwise significant |
| Physical.BubbleEffects | hydrogen-generator-model/src/physical_model.py:272-302 | a negative current density raises the complex-comparison TypeError; otherwise the coverage is 0.0001 j^1.2 capped at 0.3, the area reduction is 100 times it, the resistance increase 1.5 times that and so at most 45 %, and the recommendation is that of the coverage |
| Physical.CappedCoverageIsSignificant | hydrogen-generator-model/src/physical_model.py:289-311 | a coverage at the cap is reported as significant |
| Physical.TemperatureStatus | hydrogen-generator-model/src/physical_model.py:356-365 | the four bands: below 30, [30, 50), [50, 70) and 70 or more degrees, both directions |
| Physical.TemperatureEffects | hydrogen-generator-model/src/physical_model.py:313-354 | the heat is 30 % of voltage times current; the hourly rise times the specific heat of 1 kg of water is heat times 3600; the operating temperature is ambient plus half the rise, capped at 70 degrees; cooling is recommended exactly above 55 degrees |
| Physical.HotExactlyAtLimit | hydrogen-generator-model/src/physical_model.py:343-365 | the status is "Hot" exactly when the estimate reaches the 70 degree cap |
| Physical.CoolingOnlyWhenWarm | hydrogen-generator-model/src/physical_model.py:352-365 | cooling is recommended only with a warm or hot status |
| Physical.CellVoltagePerGap | hydrogen-generator-model/src/physical_model.py:367-378 | with two plates or more the per-gap voltage times the gap count is the total voltage; with fewer the total is returned |
| Chemical.NewChemicalModel | hydrogen-generator-model/src/chemical_model.py:24-34 | the model keeps the temperature and pressure given, and its Kelvin temperature is 273.15 above the Celsius one |
| Chemical.StandardVoltage | hydrogen-generator-model/src/chemical_model.py:47 | the standard voltage times 2F is the Gibbs free energy 237.2 kJ/mol in joules, which puts it between 1.2292 and 1.2293 V |
| Chemical.TheoreticalVoltage | hydrogen-generator-model/src/chemical_model.py:36-54 | the theoretical voltage is the standard voltage lowered by 0.85 mV per degree above 25 degrees Celsius |
| Chemical.TheoreticalVoltageDecreasing | hydrogen-generator-model/src/chemical_model.py:52-54 | a warmer cell has a strictly lower theoretical voltage |
| Chemical.ThermoneutralVoltage | hydrogen-generator-model/src/chemical_model.py:56-66 | the thermoneutral voltage times 2F is the enthalpy 285.8 kJ/mol in joules, between 1.4810 and 1.4811 V |
| Chemical.TheoreticalBelowThermoneutral | hydrogen-generator-model/src/chemical_model.py:36-66 | above -270 degrees Celsius the theoretical voltage is below the thermoneutral one |
| Chemical.TheoreticalEfficiency | hydrogen-generator-model/src/chemical_model.py:68-81 | the efficiency is the theoretical over the actual voltage capped at 1; below the cap it is exactly that ratio; for a positive actual voltage it reaches 1 exactly when the actual voltage is at most the theoretical one |
| Chemical.RatioReachesOne | hydrogen-generator-model/src/chemical_model.py:81 | over a positive denominator a ratio is at least 1 exactly when the numerator is at least the denominator |
| Chemical.HydrogenProductionRateFaraday | hydrogen-generator-model/src/chemical_model.py:83-106 | the moles per second times 2F is the current; per hour is 3600 times that; grams are moles times 2.016; litres at STP are moles times 22.414, and 60 times the litres per minute |
| Chemical.FaradayLinear | hydrogen-generator-model/src/chemical_model.py:97-106 | every production figure is linear in the current |
| Chemical.ActualProductionRate | hydrogen-generator-model/src/chemical_model.py:108-121 | the actual rate scales every figure by the faradaic efficiency, and equals the Faraday rate of the efficiency times the current |
| Chemical.ElectrolyteConductivity | hydrogen-generator-model/src/chemical_model.py:123-156 | no NaOH gives no conductivity; up to 4.5 M conductivity rises linearly, past it it decays exponentially, each times the temperature factor |
| Chemical.ConductivityContinuous | hydrogen-generator-model/src/chemical_model.py:142-156 | the two branches meet at 4.5 M at the 25 S/m peak times the temperature factor, and the rising one starts at 0 |
| Chemical.ConductivityPositive | hydrogen-generator-model/src/chemical_model.py:137-156 | a positive concentration at a positive temperature factor conducts |
| Chemical.RisingBelowPeak | hydrogen-generator-model/src/chemical_model.py:145-147 | up to the optimum the conductivity stays at most the peak times the temperature factor |
| Chemical.NaohFromWeightRatio | hydrogen-generator-model/src/chemical_model.py:158-175 | no water gives 0; otherwise the molarity times the water in ml is 25 times the grams of NaOH (molar mass 40 g/mol) |
| Chemical.PowerConsumption | hydrogen-generator-model/src/chemical_model.py:177-202 | the power is voltage times current and kW is W over 1000; no production gives 0 kWh per litre, otherwise that figure times the litres per hour is the power in kW; kWh per kg is kWh per litre times 1000 / (2.016 * 22.414) |
| Chemical.EnergyPerLiterByVoltage | hydrogen-generator-model/src/chemical_model.py:188-195 | for a positive current the energy per litre depends only on the voltage, V * 2F / (3.6e6 * 22.414); without current it is 0 |
| Chemical.ThermalEffects | hydrogen-generator-model/src/chemical_model.py:204-231 | the heat is the power above the thermoneutral power, the cooling need is that heat or 0, and the heat percentage times a positive power is 100 times the heat, 0 otherwise |
| GeneratorRecord.Design | hydrogen-generator-model/src/generator_configs.py:15-48 | a design record keeps every field given, with no reported production, 25 degrees Celsius and no notes by default |
| GeneratorConfigs.Designs | hydrogen-generator-model/src/generator_configs.py:53-248 | there is one design per catalogue key |
| GeneratorConfigs.Catalogue | hydrogen-generator-model/src/generator_configs.py:53-248 | the catalogue holds seven entries, the i-th key with the i-th design, in declaration order |
| GeneratorConfigs.ListConfigs | hydrogen-generator-model/src/generator_configs.py:354-356 | the listing gives the catalogue's keys in order |
| GeneratorConfigs.KeysDistinct | hydrogen-generator-model/src/generator_configs.py:53-248 | no key appears twice |
| GeneratorConfigs.FindFrom | hydrogen-generator-model/src/generator_configs.py:349 | the search from a position finds a later index holding the name, or none exactly when no later key is the name |
| GeneratorConfigs.GetConfig | hydrogen-generator-model/src/generator_configs.py:347-351 | the lookup raises exactly for a name that is no key, with the unknown-configuration message; otherwise it returns the design stored under that key |
| GeneratorConfigs.GetConfigOfListedKey | hydrogen-generator-model/src/generator_configs.py:347-356 | every listed key returns its own design |
| GeneratorConfigs.UnknownListsEveryKey | hydrogen-generator-model/src/generator_configs.py:350 | the error for an unknown name quotes every available key |
| GeneratorConfigs.CatalogueDefaults | hydrogen-generator-model/src/generator_configs.py:53-248 | the designs other than "instructables_basic", "typical_small_scale" and "high_performance_dry_cell" (four of the seven: "instructables_dry_cell", "instructables_adjustable", "instructables_razor_blade" and "hackaday_automated") keep the default reported production of 0, and every design carries notes |
| Integrated.NewGeneratorModel | hydrogen-generator-model/src/integrated_model.py:17-45 | the model keeps its design; its chemical model is at the operating temperature and 1 atm, and its physical model has the design's electrodes, the default 85 % active area and the same temperature |
| Integrated.ChemicalAnalysis | hydrogen-generator-model/src/integrated_model.py:62-118 | the chemical block holds the theoretical and thermoneutral voltages, the thermodynamic efficiency (at most 1), the production at 95 % faradaic efficiency in L/min, 60 times that in L/h and in g/h, the energy per litre and the electrolyte conductivity |
| Integrated.PhysicalAnalysis | hydrogen-generator-model/src/integrated_model.py:78-130 | the physical block holds the active area, the current density with its status and optimality, the total resistance, the required voltage, the margin of the applied voltage over it, the ohmic share, the bubble coverage (at most 30 %) and the operating temperature (at most 70 degrees) |
| Integrated.EfficiencyAnalysis | hydrogen-generator-model/src/integrated_model.py:90-137 | the voltage efficiency times the voltage is the theoretical voltage; the faradaic efficiency is 0.95; the overall efficiency is their product and its percentage 100 times it; the energy efficiency is the LHV power of the production over the input power, or over 1 when no power is drawn |
| Integrated.EnergyRatio | hydrogen-generator-model/src/integrated_model.py:100 | over a positive power the ratio times the power is the energy produced; over no power it is the energy produced itself |
| Integrated.ThermalAnalysis | hydrogen-generator-model/src/integrated_model.py:72-142 | the heat plus the thermoneutral power is the input power, the cooling is that heat or 0, and the temperature rise times the specific heat is 30 % of the power times 3600 |
| Integrated.AnalyzePerformance | hydrogen-generator-model/src/integrated_model.py:47-149 | with missing or zero arguments replaced by the design's, the analysis is made of the five blocks at that voltage and current and the assessment of its density optimality, overall efficiency, voltage margin and temperature |
| Integrated.OverallMatchesThermodynamic | hydrogen-generator-model/src/integrated_model.py:65-93 | the overall efficiency is 0.95 times the thermodynamic efficiency unless that one is capped at 1 |
| Integrated.EnergyEfficiencyByVoltage | hydrogen-generator-model/src/integrated_model.py:90-100 | for positive voltage and current the energy efficiency depends only on the voltage: times the voltage it is 0.95 * 3600 * 2.016 * 33.33 / 2F |
| Integrated.Check | hydrogen-generator-model/src/integrated_model.py:157-177 | a single check contributes its concern exactly when raised, at most once |
| Integrated.CheckEither | hydrogen-generator-model/src/integrated_model.py:165-177 | an if/elif pair contributes the first concern when it is raised, else the second when that is raised, and nothing else |
| Integrated.Concerns | hydrogen-generator-model/src/integrated_model.py:151-177 | at most four concerns are raised |
| Integrated.ConcernsRaised | hydrogen-generator-model/src/integrated_model.py:157-177 | a concern is listed exactly when its condition holds: density outside the optimum, efficiency below 0.4, margin below 0 or else above 5, temperature above 60 or else below 30 |
| Integrated.OrderedJoin | hydrogen-generator-model/src/integrated_model.py:157-177 | listing lower-ranked concerns before higher-ranked ones keeps the list in rank order |
| Integrated.ConcernsOrdered | hydrogen-generator-model/src/integrated_model.py:157-177 | the concerns come in the order the checks are made |
| Integrated.Rating | hydrogen-generator-model/src/integrated_model.py:179-181 | no issue rates "Excellent", one "Good", two "Fair", three or more "Poor" |
| Integrated.Assess | hydrogen-generator-model/src/integrated_model.py:151-187 | the assessment lists the issues and the recommendations of the raised concerns, in order, paired one to one (at most four), and a rating by their number |
| Integrated.TextsAfterCheck | hydrogen-generator-model/src/integrated_model.py:157-163 | a check appends its issue and its advice exactly when raised |
| Integrated.TextsAfterCheckEither | hydrogen-generator-model/src/integrated_model.py:165-177 | an if/elif pair appends the texts of the first raised branch, if any |
| Integrated.AssessPerformance | hydrogen-generator-model/src/integrated_model.py:151-187 | appending issues and recommendations check by check builds the assessment of the conditions |
| Integrated.FirstOptimal | hydrogen-generator-model/src/integrated_model.py:205-209 | the search from k finds the first current up to 50 A whose density is optimal, or none exactly when none of them is |
| Integrated.ChosenCurrent | hydrogen-generator-model/src/integrated_model.py:204-212 | the current is the smallest whole number of amperes from 1 to 50 with an optimal density, or the design's current when there is none |
| Integrated.SearchOptimalCurrent | hydrogen-generator-model/src/integrated_model.py:204-212 | the loop with its early exit finds the chosen current |
| Integrated.Suggestion | hydrogen-generator-model/src/integrated_model.py:218-225 | the suggested voltage is the required voltage plus the 0.5 V margin, and the expected efficiency times it is the theoretical voltage |
| Integrated.OptimizeForEfficiency | hydrogen-generator-model/src/integrated_model.py:189-225 | the suggestion runs at the chosen current, at 0.5 V above the voltage that current requires, with the theoretical voltage over that as the expected efficiency |
| Integrated.ProductionMatch | hydrogen-generator-model/src/integrated_model.py:240-245 | a match percentage exists exactly for a positive reported production, and times it is 100 times the modelled production |
| Integrated.CompareWithConfig | hydrogen-generator-model/src/integrated_model.py:227-247 | the comparison holds the design's voltage, current and power beside the required voltage, efficiency percentage and production of the default analysis; the reported production and match appear exactly when a production is reported |
| Analytic.Linspace | rocket_sim/fem/thick_wall_solver.py:87 | `num` evenly spaced points, starting at `start` and, from two points on, ending at `stop` |
| Analytic.LinspaceIncreasing | rocket_sim/system_model/ode_solver.py:193 | on an increasing interval the grid points strictly increase and stay within the interval |
| Analytic.LinspaceBetween | rocket_sim/fem/thick_wall_solver.py:87 | every grid point lies between the two ends |
| Analytic.SeqMax | rocket_sim/integration/full_simulation.py:295-299 | the maximum of a non-empty series bounds every entry and is one of them |
| Analytic.SeqMin | rocket_sim/fem/geometry.py:237 | the minimum of a non-empty series is at most every entry and is one of them |
| Analytic.ArgMax | rocket_sim/fem/thick_wall_solver.py:278 | the index of the first maximum: it holds the maximum and every earlier entry is strictly smaller |
| Analytic.Clip | rocket_sim/fem/stress_concentrations.py:128 | clipping lands in [lo, hi], leaves a value inside unchanged and sends one outside to the nearer end |
| Analytic.MinExt | rocket_sim/integration/full_simulation.py:308 | the smaller of two possibly infinite factors is at most both and is one of them |
| Analytic.SeriesMinExt | rocket_sim/integration/full_simulation.py:297 | the minimum of a non-empty series of possibly infinite factors is at most every entry and is one of them |

## Left out

- Cantera: the reactor network, mechanism loading and `get_equilibrium_properties` (rocket_sim/combustion/cantera_wrapper.py:164-196, 228-284) are foreign chemistry. The kinetics solver is the parameter `Kinetics` of `Combustion.SimulateCombustion`, and the system run takes the combustion series as the parameter `combust`.
- SciPy: the cubic interpolation of the pressure and temperature history is the pair of abstract curves `pressureAt`/`temperatureAt`. `solve_ivp`'s RK45 stepping and event location are replaced by a scan of the output grid for the first downward crossing, refined by 50 bisection steps. A run with fewer than two output samples is watched on the single step from 0 to its end. The model does not reproduce the solver's own steps or its exact event time. Cubic `interp1d` raises a `ValueError` for fewer than 4 combustion samples; the abstract `pressureAt` never raises.
- Floating point: IEEE rounding, NaN and numpy vectorisation are not modelled. Tolerance-based comparisons become exact identities over `real`.
- Transcendentals: sqrt, log10, ln, exp, fractional powers and pi are abstract and satisfy only `Analytic.Lawful`. Numeric values that depend on them, such as the von Mises magnitude of a given bottle, are not computed.
- Divisions by zero are preconditions of the members that divide, not failures. These are a zero diameter, wall, Young's modulus, plate width, height or thickness, active-area fraction, voltage, gap count, sample spacing or safety-factor target. Python raises for most of them. Some are numpy divisions that give inf or NaN instead, such as the gradient of a run that ends at time 0, or the `RequiredVoltage` denominator.
- SystemIntegration.Callable and FullSimulation.Viable demand a positive step and non-negative run times, and a non-zero (Viable: positive) diameter and wall. The radii of the thick-wall members are positive by their own preconditions. A zero diameter or wall is one of the divisions by zero of the line above. With a zero step the source raises `ZeroDivisionError` at rocket_sim/system_model/ode_solver.py:193. With a negative end time `np.linspace` raises `ValueError` for its negative count. The model does not have these error results.
- ThinWall.HoopStress does not report the marginal thin-wall warning that `validate_thin_wall_assumption` issues inside it for 0.05 < t/D <= threshold (rocket_sim/system_model/burst_calculator.py:80). The returned stress is the same; only `ThinWall.ValidateThinWall` returns the flag.
- ThinWall.AxialStress drops the same marginal warning.
- ThinWall.StressStateOf drops the same marginal warning, issued once per stress it computes.
- ThinWall.BurstPressure drops the same marginal warning, and so does `ThinWall.PredictFailurePressure`, which calls it.
- ThinWall.SafetyFactor drops the same marginal warning from its stress-state call.
- Concentrations.EstimateFailureLocation drops the flat-cap warning of its end-cap call (rocket_sim/fem/stress_concentrations.py:288); the returned location is unchanged.
- Lame.SolveLame takes the number of radii as a `nat`. A negative `n_points`, for which `np.linspace` raises `ValueError` (rocket_sim/fem/thick_wall_solver.py:87), is not representable. The same holds for `n_points_fem` in `FullSimulation.FullSimulationConfig` and for the mesh and combustion counts.
- Mesh.CalculateMeshQuality requires every element's node ids to be below the node count (`Mesh.Indexable`). For an element naming a missing node the source's `mesh.nodes[elem]` raises `IndexError` (rocket_sim/fem/geometry.py:185). The model has no such error result, and node ids, being `nat`, never wrap around as negative numpy indices do.
- Printing, verbose progress output, wall-clock timing and `execution_time`, `to_dict` serialisation, the GUI, plotting, the example and report scripts, and the `main` functions are interface code.
- `print_config_summary`, `PARAMETER_RANGES` and `ELECTRODE_MATERIALS` in hydrogen-generator-model/src/generator_configs.py are display data that no modelled rule reads.
- The `pressure_atm` of the chemical model is stored but no rule reads it, so it has no property.
- Formatted numbers inside messages come from an abstract `show: real -> string`. The model fixes where a value appears in a message, not its digits.
- Lame.CompareThickThin: the error percentage is exact, except that it is `None` when the thick-wall maximum hoop stress is 0. There the source divides by zero in numpy and gets NaN or inf.
- FullSimulation.ConcentratedSafetyFactor: a zero concentrated stress gives `Inf`, as numpy's division does.
- Physical.VoltageLosses: requires a positive electrolyte conductivity. For a non-positive one the source carries an infinite resistance into the losses and percentages as inf or NaN, which real arithmetic cannot represent. `Physical.OhmicResistance` still models that infinite resistance.
- Physical.RequiredVoltage: requires a positive conductivity, for the same reason as `Physical.VoltageLosses`.
- Integrated.AnalyzePerformance: requires a positive conductivity and a non-negative current density. For a negative density the source's `j ** 1.2` is a complex number, and its later comparison raises a `TypeError`.
- Integrated.CompareWithConfig: requires what `Integrated.AnalyzePerformance` requires, at the design's voltage and current.
- Integrated.OptimizeForEfficiency: requires a positive conductivity and a non-zero suggested voltage.
- SystemIntegration.RunFullSimulation: the combustion call's `n_points` is passed as `SampleCount`. The model does not relate it to the series the abstract `combust` returns.
- ThinWall.ThickWallError: the message is the fixed head of the source's f-string. The formatted ratio and threshold that follow it are not modelled.
- FullSimulation.Analyse: with `n_points_fem` 0 it reports the empty-maximum error. With `verbose` set, the source first raises an `IndexError` from `sigma_theta[0]` in a progress print (rocket_sim/integration/full_simulation.py:277). The model has no verbose output.
- Text.Lower: case folding covers ASCII letters only. Python's `str.lower` also folds other letters, so a bottle type such as "MIL\u212A" (Kelvin sign) is unknown here, while the source maps it to HDPE.
- Physical.BubbleEffects: the negative-density error assumes the density is a Python float. A numpy value would give NaN instead of raising.
- The hydrogen model's battery calculations and sweeps in hydrogen-generator-model/src/simulation.py only tabulate the modelled formulas for plots.

