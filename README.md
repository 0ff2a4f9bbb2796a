# Bolted-connection limit states of the steel library, in Dafny

This project models the bolted-connection core of a small structural-steel
library. The library checks steel members and their bolted connections
against ANSI/AISC 360-16. The model covers these calculators:

- tensile yielding and tensile rupture (section D2, with the shear-lag factor
  U = 1 - x/l of Table D3.1 case 2);
- bolt shear (section J3.6, eq. J3-1);
- block shear (section J4.3, eq. J4-5);
- bearing and tearout of the whole bolt group (section J3.10, eqs. J3-6a and
  J3-6c);
- the demand/capacity ratio.

It also models the records these calculators read, the registry of
materials, bolt grades and weld electrodes, the debug logger that collects
named values, and the factory that attaches gross areas to shape-database
members.

Every quantity is an exact `real` in kip, inch and ksi. The standard-hole
allowance is 1/8 in (0.125) and the clearance allowance 1/16 in (0.0625).

The modules follow the library's files:

- `Wrappers` (wrappers.dfy) defines `Option`, and `Result` with an `Error`.
  Each error is named after the Python exception it stands for:
  `AttributeError`, `ZeroDivisionError`, `KeyError` or `TypeError`.
- `DataModels` (data_models.dfy) holds the value records: `Material`,
  `BoltGrade`, `Plate` and `BoltConfiguration`.
- `Members` (members.dfy) turns the calculators' `Any`-typed member into a
  datatype: either a `Plate` or a shape-database `Section`. Which thickness
  attribute a section has is an explicit variant: an angle's `t`, a
  W-shape's `tw`, or none. A missing attribute reads as an `AttributeError`.
- `Materials` (materials.dfy) holds the three constant lookup tables.
- `Calculations` (calculations.dfy) models each calculator class as follows:
  - a datatype holding the fields its `__init__` caches;
  - a `New...` function for its constructor, returning a `Result` when the
    constructor can raise;
  - pure functions for `calculate_capacity` and the path helpers.
- `Debugging` (debugging.dfy) models the `DebugLogger` as a class. Its three
  dictionaries are insertion-ordered sequences of entries that its methods
  update in place. `display` returns the sequence of lines it would print.
- `MemberFactory` (member_factory.dfy) models `_create_geometric_properties`
  as a function. `enrich_steelpy_member` is a method that assigns the
  `geometry` field of a member object.

A `Plate` record has neither an `area` nor an `x` attribute
(steel_lib/data_models.py:14-25). So `TensileYieldingCalculator` raises
`AttributeError` at steel_lib/calculations.py:66 when it is given a plate; the
model does the same, since `Members.Area` fails for every plate. The rupture
calculator is built on a plate without error (steel_lib/calculations.py:94-98).
Its `calculate_capacity` then reads `x` at steel_lib/calculations.py:109,
before the area, and raises `AttributeError` there; `Members.Centroid` models
that read. `Calculations.TensileYieldingOfA36Bar` states the 64.8 kip strength
of a 0.5 in by 4 in A36 bar on a section of that size.

## Model

| member | source | states |
|---|---|---|
| DataModels.CreatePlateMember | steel_lib/data_models.py:27-32 | the factory's plate has the given t, material and loading condition, no length or width, and Type "Plate" |
| DataModels.NewPlate | steel_lib/data_models.py:14-25 | a plate built with the record's defaults is the factory's plate with loading condition 1 (both defaults agree) |
| Members.PlateDelegatesToMaterial | steel_lib/data_models.py:34-39 | a plate's Fy, Fu and E are those of its material; its thickness, loading condition and Type are its own fields |
| Members.CreatedPlateMember | steel_lib/data_models.py:20-39 | a factory plate, used as a member, has the material's stresses, thickness t, the given loading condition, Type "Plate" and no gross area |
| Members.Fy | steel_lib/data_models.py:34-35 | `Fy` of a member is its material's; `PlateDelegatesToMaterial` states it for plates |
| Members.Fu | steel_lib/data_models.py:36-37 | `Fu` of a member is its material's; `PlateDelegatesToMaterial` states it for plates |
| Members.E | steel_lib/data_models.py:38-39 | `E` of a member is its material's; `PlateDelegatesToMaterial` states it for plates |
| Members.LoadingCondition | steel_lib/calculations.py:67 | a section without a loading condition counts as loading condition 1 |
| Members.Area | steel_lib/calculations.py:66 | the gross area exists exactly for sections that list one; every other member raises AttributeError("area") |
| Members.Centroid | steel_lib/calculations.py:109 | `x` exists exactly for sections that list it, otherwise AttributeError("x") |
| Members.LegT | steel_lib/calculations.py:104 | `t` exists exactly for plates and angle sections, otherwise AttributeError("t") |
| Members.Thickness | steel_lib/calculations.py:168-181 | the thickness fails exactly for a section with neither `t` nor `tw`; a plate or angle gives its `t`, a W-shape its `tw` |
| Members.MemberType | steel_lib/calculations.py:163 | `Type` exists for every plate and for sections that carry it, otherwise AttributeError("Type") |
| Materials.LookupMaterial | steel_lib/materials.py:7-11 | the lookup succeeds exactly for a36, a572_gr50 and a992; any other key raises KeyError; every listed steel has Fy < Fu and E = 29000 ksi |
| Materials.LookupBoltGrade | steel_lib/materials.py:13-18 | the lookup succeeds exactly for the four A325/A490 keys, and other keys raise KeyError; every grade has 0 < Fnv < Fnt |
| Materials.LookupWeldElectrode | steel_lib/materials.py:20-24 | the lookup succeeds exactly for e60xx, e70xx and e80xx with Fexx 60, 70 and 80 ksi; other keys raise KeyError |
| Materials.A992MatchesA572Gr50 | steel_lib/materials.py:9-10 | A992 and A572 Gr. 50 are registered with identical properties |
| Materials.ThreadsExcludedRaiseShearStress | steel_lib/materials.py:13-18 | for A325 and for A490, the threads-excluded grade has a larger Fnv and the same Fnt |
| Materials.A490ExceedsA325InTension | steel_lib/materials.py:14-17 | both A490 grades have a larger Fnt than both A325 grades |
| Calculations.CheckDcr | steel_lib/calculations.py:8-9 | a zero capacity raises ZeroDivisionError; otherwise ratio x capacity = demand, and for positive capacity the ratio is at most 1 exactly when demand <= capacity |
| Calculations.BoltArea | steel_lib/calculations.py:25-27 | the gross bolt area pi d^2/4; `BoltAreaSign` states its sign and when it is zero |
| Calculations.BoltAreaSign | steel_lib/calculations.py:25-27 | the bolt area pi d^2/4 is never negative, and it is zero exactly when the diameter is zero |
| Calculations.NewBoltShearCalculator | steel_lib/calculations.py:15-23 | the calculator caches the configuration, its diameter, the bolt area of that diameter and Fnv of the configuration's grade |
| Calculations.BoltShearCapacity | steel_lib/calculations.py:29-57 | phi Fnv Ab Ns; `BoltShearStrength`, `BoltShearAdditiveInPlanes` and `BoltShearPositive` state its value, additivity and sign |
| Calculations.BoltShearStrength | steel_lib/calculations.py:29-42 | the design shear strength is Ns phi Fnv pi d^2/4 for the configuration's diameter and grade |
| Calculations.BoltShearAdditiveInPlanes | steel_lib/calculations.py:38-42 | the shear strength for a + b shear planes is the sum of the strengths for a planes and for b planes |
| Calculations.DoubleShearIsTwiceSingle | steel_lib/calculations.py:38-42 | double shear gives twice the strength of single shear |
| Calculations.BoltShearPositive | steel_lib/calculations.py:38-42 | a non-zero diameter, a positive Fnv, at least one shear plane and a positive phi give a positive strength |
| Calculations.ThreadsExcludedBoltIsStronger | steel_lib/calculations.py:38-42 | with the same bolt, an A325-X bolt is stronger in shear than an A325-N bolt |
| Calculations.NewTensileYieldingCalculator | steel_lib/calculations.py:63-67 | construction succeeds exactly when the member has an area (else AttributeError("area")); it caches Fy, Ag and the loading condition, which defaults to 1 |
| Calculations.TensileYieldingCapacity | steel_lib/calculations.py:69-88 | phi Fy Ag lc; `TensileYieldingLinearInLoadingCondition`, `TensileYieldingDefaultLoadingCondition` and `TensileYieldingOfA36Bar` state its properties |
| Calculations.TensileYieldingDefaultLoadingCondition | steel_lib/calculations.py:67-74 | a section without a loading condition has the yielding strength of the same section with loading condition 1 |
| Calculations.TensileYieldingLinearInLoadingCondition | steel_lib/calculations.py:69-74 | the yielding strength at loading condition k is k times the strength at loading condition 1 |
| Calculations.TensileYieldingOfA36Bar | steel_lib/calculations.py:69-74 | an A36 bar of 2 in^2 yields at 0.9 x 36 x 2 = 64.8 kip with the default phi |
| Calculations.NewTensileRuptureCalculator | steel_lib/calculations.py:94-98 | the calculator caches the member, the configuration, the member's Fu and its loading condition |
| Calculations.UbsAngle | steel_lib/calculations.py:100-101 | l = 0 raises ZeroDivisionError; otherwise U l = l - x; U < 1 for positive x and l; U >= 0 when x <= l |
| Calculations.NetAreaBelowGross | steel_lib/calculations.py:111-113 | holes of positive diameter in a positive thickness, with at least one row, make the net area smaller than the gross area |
| Calculations.EffectiveNetArea | steel_lib/calculations.py:103-114 | succeeds exactly when the member has `t`, `x` and an area and l != 0; U is the shear-lag factor for x and l = Sc (Nc - 1), and the effective area is (Ag - (d + 1/8) n_rows t) U |
| Calculations.TensileRuptureCapacity | steel_lib/calculations.py:116-122 | the rupture strength exists exactly when the effective net area does |
| Calculations.RuptureUndefinedForSingleColumn | steel_lib/calculations.py:105-110 | with a single column of bolts, a member that has `t` and `x` makes the rupture strength raise ZeroDivisionError |
| Calculations.ShearLagOnlyReduces | steel_lib/calculations.py:100-122 | with 0 < x <= l, a non-negative net area and phi Fu lc >= 0, the rupture strength is at most phi Fu An times the loading condition (the strength with U = 1) |
| Calculations.TensileRuptureLinearInLoadingCondition | steel_lib/calculations.py:116-122 | the rupture strength at loading condition k is k times the strength at loading condition 1 |
| Calculations.NewBlockShearCalculator | steel_lib/calculations.py:146-166 | construction succeeds exactly when a thickness is given or the member has one, and the load is Shear or the member has a Type. The pattern is L exactly when the load is Shear or the Type is "L". The hole is d + 1/8 and the thickness is the explicit one when given |
| Calculations.ShearLine | steel_lib/calculations.py:184-186 | the shear planes use the row spacing, n_rows and the vertical edge under Shear, and the column set under Axial |
| Calculations.TensionLine | steel_lib/calculations.py:197-204 | the L-pattern tension plane uses the bolt line the shear planes use under the other orientation |
| Calculations.LShearYieldPath | steel_lib/calculations.py:184-188 | Agv of one shear plane; `NetShearBelowGross` and `BlockShearOrientationSwap` state its properties |
| Calculations.LShearRupturePath | steel_lib/calculations.py:190-195 | Anv of one shear plane; `NetShearBelowGross` states that it is below Agv |
| Calculations.LTensionRupturePath | steel_lib/calculations.py:197-204 | Ant of the L pattern; `BlockShearOrientationSwap` states that it follows the tension line |
| Calculations.UTensionRupturePath | steel_lib/calculations.py:206-209 | Ant of the U pattern; `UPatternDoublesShearAreas` states its value |
| Calculations.BlockShearCapacity | steel_lib/calculations.py:211-250 | phi Rn of the calculator's pattern; `LesserCombination` states that it is the lesser J4-5 combination, and `BlockShearLinearInLoadingCondition` that it scales with the loading condition |
| Calculations.LesserCombination | steel_lib/calculations.py:211-232 | block shear strength phi Rn equals one of the two combinations of eq. J4-5 and, for phi >= 0, exceeds neither |
| Calculations.UPatternDoublesShearAreas | steel_lib/calculations.py:206-225 | the U pattern has twice the L pattern's gross and net shear areas; its net tension area is (n_rows - 1)(s - dh) t lc |
| Calculations.BlockShearAreasLinearInLoadingCondition | steel_lib/calculations.py:183-209 | every area (Agv, Anv with its hole deduction, Ant) at loading condition k is k times the same area at loading condition 1 |
| Calculations.BlockShearNominalScales | steel_lib/calculations.py:228-231 | scaling Agv, Anv and Ant by k >= 0 scales the nominal strength Ubs Fu Ant + 0.6 min(Fy Agv, Fu Anv) by k |
| Calculations.BlockShearLinearInLoadingCondition | steel_lib/calculations.py:183-232 | for k >= 0, the block-shear design strength at loading condition k is k times the strength at loading condition 1 |
| Calculations.NetShearBelowGross | steel_lib/calculations.py:190-195 | with a positive hole diameter, thickness and loading condition and at least one bolt, Anv < Agv |
| Calculations.BlockShearOrientationSwap | steel_lib/calculations.py:184-204 | an axially loaded angle has the same pattern, areas and strength as the transposed bolt group loaded in shear |
| Calculations.GussetBlockShearExample | steel_lib/calculations.py:146-232 | a 1 in A572 Gr. 50 gusset with two rows of seven bolts, loaded axially, fails in the U pattern with areas (39, 26, 2) at 858 kip |
| Calculations.NewConnectionCapacityCalculator | steel_lib/calculations.py:257-296 | construction fails exactly for a member without a thickness. Axial uses the column spacing, the horizontal edge, n_columns bolts per line and n_rows lines; Shear uses the transposed set. The nominal diameter is d + 1/16 and the hole d + 1/8 |
| Calculations.ClearDistanceInner | steel_lib/calculations.py:298-300 | lc of an inner bolt; `InnerBoltAtLeastEndBolt` and `GussetConnectionExample` state its properties |
| Calculations.ClearDistanceOuter | steel_lib/calculations.py:302-304 | lc of an end bolt; `InnerBoltAtLeastEndBolt` and `GussetConnectionExample` state its properties |
| Calculations.GoverningBoltStrengths | steel_lib/calculations.py:315-331 | the governing inner and end bolt strengths; `GoverningBoltStrengthsAreMinima` states that each is the least of shear, bearing and its tearout |
| Calculations.ConnectionCapacity | steel_lib/calculations.py:333-339 | the total design strength; `ConnectionBoundedByBoltShear`, `ConnectionOrientationSwap` and `ConnectionLinearInLoadingCondition` state its properties |
| Calculations.GoverningBoltStrengthsAreMinima | steel_lib/calculations.py:315-331 | each governing bolt strength is at most the single-bolt shear strength (always at phi = 0.75), the bearing limit and its own tearout, and equals one of them |
| Calculations.InnerBoltAtLeastEndBolt | steel_lib/calculations.py:298-331 | when lc_in >= lc_out and t Fu phi >= 0, an inner bolt is at least as strong as an end bolt |
| Calculations.GroupStrengthBounded | steel_lib/calculations.py:333-334 | with bolts_per_line >= 1 and num_lines >= 0, a group whose bolts are each at most V has a total of at most bolts_per_line x num_lines x V |
| Calculations.ConnectionBoundedByBoltShear | steel_lib/calculations.py:315-339 | with bolts_per_line >= 1, num_lines >= 0 and a loading condition >= 0, the connection is at most its number of bolts times the single-bolt shear strength times the loading condition |
| Calculations.ConnectionOrientationSwap | steel_lib/calculations.py:271-281 | an axially loaded connection has the same bolt strengths and total as the transposed bolt group loaded in shear |
| Calculations.ConnectionLinearInLoadingCondition | steel_lib/calculations.py:336-339 | for any member (a plate or a section such as a double angle), the connection strength is the member's loading condition times the strength of the same calculator over a member with loading condition 1 |
| Calculations.GussetConnectionExample | steel_lib/calculations.py:298-339 | for the example gusset in double shear: lc_in = 2.0625 and lc_out = 1.03125; inner bolts are governed by bolt shear, end bolts by tearout (60.328125 kip); total (6 r_in + r_out) x 2 |
| Debugging.Get | steel_lib/debugging.py:20-22 | looking a name up succeeds exactly when the dictionary holds that name, and the value found is stored under it |
| Debugging.Put | steel_lib/debugging.py:27 | assigning an existing name keeps the length and every name in place; assigning a new name appends it at the end |
| Debugging.PutThenGet | steel_lib/debugging.py:24-37 | after an assignment the name maps to the new value and every other name maps to what it did before |
| Debugging.PutKeys | steel_lib/debugging.py:24-37 | an assignment adds exactly its name to the keys and keeps the keys distinct |
| Debugging.DisplayLines | steel_lib/debugging.py:52-75 | the display prints nothing exactly when the logger is disabled |
| Debugging.DisplayShowsEntriesInOrder | steel_lib/debugging.py:57-75 | an enabled display shows the inputs, then the calculations, then the outputs, each in insertion order, and nothing else as items |
| Debugging.DisplayFrame | steel_lib/debugging.py:57-75 | an enabled display opens with the title banner and ends with the closing line; each section's heading appears exactly when that section is non-empty |
| Debugging.EmitSection | steel_lib/debugging.py:59-73 | the loop over a section appends exactly that section's lines: heading, optional rule, one item per entry |
| Debugging.DebugLogger.constructor | steel_lib/debugging.py:9-22 | a new logger has the given title and debug flag and three empty sections |
| Debugging.DebugLogger.AddInput | steel_lib/debugging.py:24-27 | when enabled, inputs[name] = value; when disabled, nothing changes; the other sections never change |
| Debugging.DebugLogger.AddCalculation | steel_lib/debugging.py:29-32 | when enabled, calculations[name] = value; when disabled, nothing changes; the other sections never change |
| Debugging.DebugLogger.AddOutput | steel_lib/debugging.py:34-37 | when enabled, outputs[name] = value; when disabled, nothing changes; the other sections never change |
| Debugging.DebugLogger.Display | steel_lib/debugging.py:52-75 | the lines emitted are exactly the display of the logger's title and sections, or none when disabled |
| Debugging.ReplayDisabled | steel_lib/debugging.py:18-37 | a logger created disabled stays empty under any sequence of add calls, and its display prints nothing |
| MemberFactory.PositiveOrNone | steel_lib/member_factory.py:41-42 | a component area is kept exactly when it is positive |
| MemberFactory.CreateGeometricProperties | steel_lib/member_factory.py:27-43 | succeeds exactly when the member has `d` and `bf`. A missing `d` raises TypeError first, then a missing `bf`. total is the member's area, or None. The web area d tw (tw 0 when absent) is attached exactly when it is positive, and so is the flange area bf tf (tf 0 when absent) |
| MemberFactory.MissingThicknessGivesNoArea | steel_lib/member_factory.py:34-35 | a member without `tw` gets no web area, and one without `tf` no flange area |
| MemberFactory.AttachedAreasArePositive | steel_lib/member_factory.py:39-43 | every web or flange area that is attached is positive |
| MemberFactory.WideFlangeGetsBothAreas | steel_lib/member_factory.py:33-43 | a W-shape with positive d, tw, bf and tf gets web area d tw and flange area bf tf |
| MemberFactory.EnrichSteelpyMember | steel_lib/member_factory.py:15-25 | a member without Type raises AttributeError and is left as it was; a failing computation is passed on and leaves the member as it was; otherwise the computed geometry is attached and the same member is returned |

## Left out

- Units: the unit-aware quantities are not modelled, and dimensions are not checked. Every quantity is a real in kip, inch and ksi. Without units, the `* si.inch` applied to a section's `t` or `tw` in block shear, and its absence in the connection calculator, are the same thing.
- `math.pi` is the constant 3.141592653589793 taken exactly. The positivity lemmas use only that it is positive; `Calculations.GussetConnectionExample` uses its value. Floating-point rounding is not modelled: all arithmetic is exact.
- The `if debug:` print blocks of the calculators and `DebugLogger._format_value` are console output and number formatting. `display` returns abstract lines instead of printed text.
- Debugging.DebugLogger: the Python attribute `debug` could be reassigned from outside the class. The model makes it a constant because the class itself never changes it.
- `SteelpyMemberFactory` (steel_lib/data_models.py:62-78) is not modelled. It looks classes up in the external shape database and mutates foreign objects.
- A section always has a material, so a member without `Fy` or `Fu` cannot be represented. The AttributeError such a member would raise when a calculator reads them (steel_lib/calculations.py:65, 97 and 263) is not modelled.
- `hasattr`/`isinstance` probing: only its outcome is kept. A section has `t`, `tw` or neither, so a section that exposes both `t` and `tw` cannot be represented.
- Orientation: only "Axial" and "Shear" are modelled. Any other string would fall through to different branches in the block-shear shear and tension paths, and is not represented.
- Calculations.NewConnectionCapacityCalculator: the hole diameter is cached but never used by the source's computation, so nothing is proved about it beyond its value.
- Calculations.TensileRuptureCapacity: its contract states only when it is defined. Its value is constrained by `EffectiveNetArea`, `ShearLagOnlyReduces`, `RuptureUndefinedForSingleColumn` and `TensileRuptureLinearInLoadingCondition`.
- Calculations.BlockShearCapacity has no contract of its own. `LesserCombination` states its governing-combination property for the nominal strength it multiplies by phi, and `BlockShearLinearInLoadingCondition` its scaling with the loading condition.
- Calculations.BlockShearLinearInLoadingCondition is stated for loading conditions k >= 0: for a negative k the lesser of the two shear forces changes sides, so the property does not hold there.
- MemberFactory: `GeometricProperties` is not defined in the library files modelled here. It is modelled as the record of the three keyword arguments the factory passes (total, web, flange). `WeldElectrode` is likewise only its `Fexx` field.
- MemberFactory.CreateGeometricProperties: only shape-database sections are modelled as inputs. A `Plate` passed to the factory (no `d`) would raise TypeError like any section without `d`.
- The Uniform Force Method solver, the applied/design load records, the connection factory, `Plate.set_dimensions`, and the Whitmore, buckling, shear-yielding, plate-yielding and web-local calculators are not part of this model. They are referenced by the library's tests and imports, but their source is not among the files modelled.
- main.py (script wiring and printing) and setup.py (packaging) are not modelled.
