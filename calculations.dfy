/**
 * Limit-state calculators for bolted connections after ANSI/AISC 360-16:
 * bolt shear (J3.6), tensile yielding and rupture (D2, with the shear-lag
 * factor of Table D3.1 case 2), block shear (J4.3) and bearing/tearout
 * (J3.10), plus the demand/capacity ratio. Each calculator class of the
 * library caches its constructor inputs and computes one value; here it is a
 * datatype of those cached fields, a `New...` function for its constructor and
 * pure functions for its computations.
 */
module Calculations {
  import opened Wrappers
  import opened DataModels
  import opened Members
  import Materials

  /**
   * `math.pi` as the double it is. The positivity lemmas use only that it is
   * positive; `GussetConnectionExample` uses its value.
   */
  const Pi: real := 3.141592653589793

  /** A standard hole is the bolt diameter plus 1/8 in. */
  const HoleAllowance: real := 0.125

  /** The clear distances subtract the bolt diameter plus 1/16 in. */
  const ClearanceAllowance: real := 0.0625

  /** Default resistance factors of the `calculate_capacity` methods. */
  const BoltShearPhi: real := 0.75
  const TensileYieldingPhi: real := 0.9
  const TensileRupturePhi: real := 0.75
  const BlockShearPhi: real := 0.75
  const ConnectionPhi: real := 0.75

  /** Block shear takes the tension-stress factor Ubs as 1. */
  const BlockShearUbs: real := 1.0

  /** The direction of the load relative to the bolt group. */
  datatype Orientation = Axial | Shear

  function Min(a: real, b: real): (m: real)
    ensures m <= a && m <= b && (m == a || m == b)
  {
    if b < a then b else a
  }

  function Min3(a: real, b: real, c: real): (m: real)
    ensures m <= a && m <= b && m <= c && (m == a || m == b || m == c)
  {
    Min(Min(a, b), c)
  }

  function HoleDiameter(boltDiameter: real): real {
    boltDiameter + HoleAllowance
  }

  /** The same bolt group turned by a quarter turn: rows and columns exchanged. */
  function Transposed(conn: BoltConfiguration): BoltConfiguration {
    conn.(rowSpacing := conn.columnSpacing, columnSpacing := conn.rowSpacing,
          nRows := conn.nColumns, nColumns := conn.nRows,
          edgeDistanceVertical := conn.edgeDistanceHorizontal,
          edgeDistanceHorizontal := conn.edgeDistanceVertical)
  }

  /** Non-negative factors keep an inequality. */
  lemma ScaleMonotone(a: real, b: real, k: real)
    ensures a <= b && 0.0 <= k ==> a * k <= b * k
  {
  }

  lemma ProductPositive(a: real, b: real)
    requires 0.0 < a && 0.0 < b
    ensures 0.0 < a * b && 0.0 < Product(a, b)
  {
  }

  // ---------------------------------------------------------------- check_dcr

  /** Demand over capacity; a zero capacity raises ZeroDivisionError. */
  function CheckDcr(capacity: real, demand: real): (r: Result<real>)
    ensures r.Ok? <==> capacity != 0.0
    ensures r.Err? ==> r.error == ZeroDivisionError
    ensures r.Ok? ==> r.value * capacity == demand
    ensures r.Ok? && 0.0 < capacity ==> (r.value <= 1.0 <==> demand <= capacity)
  {
    if capacity == 0.0 then Err(ZeroDivisionError) else Ok(demand / capacity)
  }

  // ---------------------------------------------------------- bolt shear, J3.6

  datatype BoltShearCalculator = BoltShearCalculator(
    connection: BoltConfiguration,
    boltDiameter: real,
    boltArea: real,
    fnv: real)

  /**
   * A product kept behind a function symbol, so that the square d^2 stays a
   * product of two factors for the solver rather than a power.
   */
  function Product(a: real, b: real): real {
    a * b
  }

  lemma SquarePositive(d: real)
    requires d != 0.0
    ensures 0.0 < Product(d, d)
  {
    if d < 0.0 {
      ProductPositive(-d, -d);
      assert Product(d, d) == Product(-d, -d);
    } else {
      ProductPositive(d, d);
    }
  }

  /** The gross bolt area pi d^2 / 4. */
  function BoltArea(d: real): real {
    (Product(d, d) / 4.0) * Pi
  }

  /** The bolt area is positive for every non-zero diameter and zero for a zero one. */
  lemma BoltAreaSign(d: real)
    ensures 0.0 <= BoltArea(d)
    ensures d != 0.0 ==> 0.0 < BoltArea(d)
    ensures d == 0.0 ==> BoltArea(d) == 0.0
  {
    if d != 0.0 {
      SquarePositive(d);
    }
  }

  /** The calculator takes the diameter from the configuration and Fnv from its bolt grade. */
  function NewBoltShearCalculator(conn: BoltConfiguration): (c: BoltShearCalculator)
    ensures c.connection == conn && c.boltDiameter == conn.boltDiameter
    ensures c.boltArea == BoltArea(conn.boltDiameter) && c.fnv == conn.boltGrade.Fnv
  {
    BoltShearCalculator(conn, conn.boltDiameter, BoltArea(conn.boltDiameter), conn.boltGrade.Fnv)
  }

  /** Design shear strength phi Rn with Rn = Fnv Ab Ns (eq. J3-1). */
  function BoltShearCapacity(c: BoltShearCalculator, planes: int, phi: real): real {
    var nominal := c.fnv * c.boltArea * (planes as real);
    phi * nominal
  }

  /** The strength of a configuration's bolt is Ns times phi Fnv pi d^2 / 4. */
  lemma BoltShearStrength(conn: BoltConfiguration, planes: int, phi: real)
    ensures BoltShearCapacity(NewBoltShearCalculator(conn), planes, phi)
      == (planes as real) * (phi * conn.boltGrade.Fnv * (Pi * conn.boltDiameter * conn.boltDiameter / 4.0))
  {
  }

  /** The strength is additive in the number of shear planes. */
  lemma BoltShearAdditiveInPlanes(c: BoltShearCalculator, a: int, b: int, phi: real)
    ensures BoltShearCapacity(c, a + b, phi) == BoltShearCapacity(c, a, phi) + BoltShearCapacity(c, b, phi)
  {
  }

  /** A bolt in double shear is twice as strong as in single shear. */
  lemma DoubleShearIsTwiceSingle(c: BoltShearCalculator, phi: real)
    ensures BoltShearCapacity(c, 2, phi) == 2.0 * BoltShearCapacity(c, 1, phi)
  {
    BoltShearAdditiveInPlanes(c, 1, 1, phi);
  }

  /** A real bolt of a real grade with at least one shear plane has positive strength. */
  lemma BoltShearPositive(conn: BoltConfiguration, planes: int, phi: real)
    requires conn.boltDiameter != 0.0 && 0.0 < conn.boltGrade.Fnv && 0 < planes && 0.0 < phi
    ensures 0.0 < BoltShearCapacity(NewBoltShearCalculator(conn), planes, phi)
  {
    var c := NewBoltShearCalculator(conn);
    BoltAreaSign(conn.boltDiameter);
    ProductPositive(c.fnv, c.boltArea);
    ProductPositive(c.fnv * c.boltArea, planes as real);
    ProductPositive(phi, c.fnv * c.boltArea * (planes as real));
  }

  /** Excluding the threads from the shear plane makes an A325 bolt stronger in shear. */
  lemma ThreadsExcludedBoltIsStronger(conn: BoltConfiguration, planes: int, phi: real)
    requires conn.boltDiameter != 0.0 && 0 < planes && 0.0 < phi
    ensures var n := conn.(boltGrade := Materials.LookupBoltGrade("a325_n").value);
            var x := conn.(boltGrade := Materials.LookupBoltGrade("a325_x").value);
      BoltShearCapacity(NewBoltShearCalculator(n), planes, phi)
        < BoltShearCapacity(NewBoltShearCalculator(x), planes, phi)
  {
    var n := conn.(boltGrade := Materials.LookupBoltGrade("a325_n").value);
    var x := conn.(boltGrade := Materials.LookupBoltGrade("a325_x").value);
    var k := BoltArea(conn.boltDiameter) * (planes as real) * phi;
    BoltAreaSign(conn.boltDiameter);
    ProductPositive(BoltArea(conn.boltDiameter), planes as real);
    ProductPositive(BoltArea(conn.boltDiameter) * (planes as real), phi);
    assert BoltShearCapacity(NewBoltShearCalculator(n), planes, phi) == 54.0 * k;
    assert BoltShearCapacity(NewBoltShearCalculator(x), planes, phi) == 68.0 * k;
  }

  // -------------------------------------------------- tensile yielding, D2(a)

  datatype TensileYieldingCalculator = TensileYieldingCalculator(
    member: Member,
    fy: real,
    ag: real,
    loadingCondition: int)

  /** Construction reads Fy, the gross area and the loading condition; a member without `area` raises. */
  function NewTensileYieldingCalculator(m: Member): (r: Result<TensileYieldingCalculator>)
    ensures r.Ok? <==> Area(m).Ok?
    ensures r.Err? ==> r.error == AttributeError("area")
    ensures r.Ok? ==> r.value == TensileYieldingCalculator(m, Fy(m), Area(m).value, LoadingCondition(m))
  {
    var ag :- Area(m);
    Ok(TensileYieldingCalculator(m, Fy(m), ag, LoadingCondition(m)))
  }

  /** phi Fy Ag times the loading condition (eq. D2-1). */
  function TensileYieldingCapacity(c: TensileYieldingCalculator, phi: real): real {
    var nominal := c.fy * c.ag;
    phi * nominal * (c.loadingCondition as real)
  }

  /** A section without a loading condition is checked as one with loading condition 1. */
  lemma TensileYieldingDefaultLoadingCondition(s: Section, phi: real)
    requires s.area.Some?
    ensures var a := NewTensileYieldingCalculator(SectionMember(s.(loadingCondition := None)));
            var b := NewTensileYieldingCalculator(SectionMember(s.(loadingCondition := Some(1))));
      a.Ok? && b.Ok? && TensileYieldingCapacity(a.value, phi) == TensileYieldingCapacity(b.value, phi)
  {
  }

  /** The yielding strength is proportional to the loading condition. */
  lemma TensileYieldingLinearInLoadingCondition(s: Section, k: int, phi: real)
    requires s.area.Some?
    ensures var a := NewTensileYieldingCalculator(SectionMember(s.(loadingCondition := Some(k))));
            var b := NewTensileYieldingCalculator(SectionMember(s.(loadingCondition := Some(1))));
      a.Ok? && b.Ok? && TensileYieldingCapacity(a.value, phi) == (k as real) * TensileYieldingCapacity(b.value, phi)
  {
  }

  /** An A36 section of 0.5 in by 4 in (2 in^2) yields at 0.9 x 36 x 2 = 64.8 kip. */
  lemma TensileYieldingOfA36Bar()
    ensures var s := Section(Some("Plate"), Materials.LookupMaterial("a36").value, None,
                             Some(0.5 * 4.0), None, LegThickness(0.5), None, None, None);
            var c := NewTensileYieldingCalculator(SectionMember(s));
      c.Ok? && TensileYieldingCapacity(c.value, TensileYieldingPhi) == 64.8
  {
  }

  // ------------------------------------------------- tensile rupture, D2(b)

  datatype TensileRuptureCalculator = TensileRuptureCalculator(
    member: Member,
    connection: BoltConfiguration,
    fu: real,
    loadingCondition: int)

  function NewTensileRuptureCalculator(m: Member, conn: BoltConfiguration): (c: TensileRuptureCalculator)
    ensures c.member == m && c.connection == conn
    ensures c.fu == Fu(m) && c.loadingCondition == LoadingCondition(m)
  {
    TensileRuptureCalculator(m, conn, Fu(m), LoadingCondition(m))
  }

  /** The shear-lag factor U = 1 - x/l (Table D3.1 case 2); l = 0 raises ZeroDivisionError. */
  function UbsAngle(xBar: real, l: real): (r: Result<real>)
    ensures r.Ok? <==> l != 0.0
    ensures r.Err? ==> r.error == ZeroDivisionError
    ensures r.Ok? ==> r.value * l == l - xBar
    ensures r.Ok? && 0.0 < l && 0.0 < xBar ==> r.value < 1.0
    ensures r.Ok? && 0.0 < l && xBar <= l ==> 0.0 <= r.value
  {
    if l == 0.0 then Err(ZeroDivisionError) else Ok(1.0 - xBar / l)
  }

  /** The connection length l = Sc (Nc - 1) along the load. */
  function ConnectionLength(conn: BoltConfiguration): real {
    conn.columnSpacing * ((conn.nColumns - 1) as real)
  }

  /** An = Ag - (d + 1/8) n_rows t. */
  function NetArea(ag: real, t: real, conn: BoltConfiguration): real {
    ag - HoleDiameter(conn.boltDiameter) * (conn.nRows as real) * t
  }

  /** Holes of positive diameter in a plate of positive thickness take area away. */
  lemma NetAreaBelowGross(ag: real, t: real, conn: BoltConfiguration)
    requires 0.0 < HoleDiameter(conn.boltDiameter) && 0 < conn.nRows && 0.0 < t
    ensures NetArea(ag, t, conn) < ag
  {
    ProductPositive(HoleDiameter(conn.boltDiameter), conn.nRows as real);
    ProductPositive(HoleDiameter(conn.boltDiameter) * (conn.nRows as real), t);
  }

  /**
   * The effective net area An U and U, in that order. The member's `t` is read
   * first, then `x`, then l is divided into x, then the gross area is read.
   */
  function EffectiveNetArea(c: TensileRuptureCalculator): (r: Result<(real, real)>)
    ensures r.Ok? <==> LegT(c.member).Ok? && Centroid(c.member).Ok?
                       && ConnectionLength(c.connection) != 0.0 && Area(c.member).Ok?
    ensures r.Ok? ==> r.value.1 == UbsAngle(Centroid(c.member).value, ConnectionLength(c.connection)).value
    ensures r.Ok? ==> r.value.0 == NetArea(Area(c.member).value, LegT(c.member).value, c.connection) * r.value.1
  {
    var t :- LegT(c.member);
    var l := ConnectionLength(c.connection);
    var xBar :- Centroid(c.member);
    var ubs :- UbsAngle(xBar, l);
    var ag :- Area(c.member);
    Ok((NetArea(ag, t, c.connection) * ubs, ubs))
  }

  /** phi Fu An U times the loading condition (eq. D2-2). */
  function TensileRuptureCapacity(c: TensileRuptureCalculator, phi: real): (r: Result<real>)
    ensures r.Ok? <==> EffectiveNetArea(c).Ok?
  {
    var a :- EffectiveNetArea(c);
    var nominal := c.fu * a.0;
    Ok(phi * nominal * (c.loadingCondition as real))
  }

  /** With a single column of bolts the connection length is zero and rupture is undefined. */
  lemma RuptureUndefinedForSingleColumn(m: Member, conn: BoltConfiguration, phi: real)
    requires conn.nColumns == 1
    requires LegT(m).Ok? && Centroid(m).Ok?
    ensures TensileRuptureCapacity(NewTensileRuptureCalculator(m, conn), phi) == Err(ZeroDivisionError)
  {
  }

  /** Shear lag only lowers the rupture strength: with 0 < x <= l it is at most phi Fu An lc. */
  lemma ShearLagOnlyReduces(m: Member, conn: BoltConfiguration, phi: real)
    requires LegT(m).Ok? && Centroid(m).Ok? && Area(m).Ok?
    requires 0.0 < Centroid(m).value <= ConnectionLength(conn)
    requires 0.0 <= NetArea(Area(m).value, LegT(m).value, conn)
    requires 0.0 <= phi * Fu(m) * (LoadingCondition(m) as real)
    ensures var r := TensileRuptureCapacity(NewTensileRuptureCalculator(m, conn), phi);
      r.Ok? && r.value <= phi * Fu(m) * NetArea(Area(m).value, LegT(m).value, conn) * (LoadingCondition(m) as real)
  {
    var c := NewTensileRuptureCalculator(m, conn);
    var an := NetArea(Area(m).value, LegT(m).value, conn);
    var u := UbsAngle(Centroid(m).value, ConnectionLength(conn)).value;
    var lc := LoadingCondition(m) as real;
    var e := EffectiveNetArea(c);
    assert e.Ok? && e.value.1 == u;
    assert e.value.0 == an * u;
    ShearLagBound(phi, Fu(m), an, u, lc);
  }

  /** phi Fu (An U) lc <= phi Fu An lc for U <= 1, An >= 0 and phi Fu lc >= 0. */
  lemma ShearLagBound(phi: real, fu: real, an: real, u: real, lc: real)
    requires u <= 1.0 && 0.0 <= an && 0.0 <= phi * fu * lc
    ensures phi * (fu * (an * u)) * lc <= phi * fu * an * lc
  {
    var k := phi * fu * lc;
    ScaleMonotone(u, 1.0, an);
    ScaleMonotone(an * u, an, k);
    assert phi * (fu * (an * u)) * lc == (an * u) * k;
    assert phi * fu * an * lc == an * k;
  }

  /** The rupture strength is proportional to the member's loading condition. */
  lemma TensileRuptureLinearInLoadingCondition(s: Section, conn: BoltConfiguration, k: int, phi: real)
    requires s.thickness.LegThickness? && s.x.Some? && s.area.Some? && ConnectionLength(conn) != 0.0
    ensures var a := TensileRuptureCapacity(NewTensileRuptureCalculator(SectionMember(s.(loadingCondition := Some(k))), conn), phi);
            var b := TensileRuptureCapacity(NewTensileRuptureCalculator(SectionMember(s.(loadingCondition := Some(1))), conn), phi);
      a.Ok? && b.Ok? && a.value == (k as real) * b.value
  {
  }

  // ------------------------------------------------------- block shear, J4.3

  /** "L": one shear plane and a tension plane to the edge; "U": two shear planes and the tension plane between them. */
  datatype FailurePattern = LPattern | UPattern

  datatype BlockShearCalculator = BlockShearCalculator(
    member: Member,
    connection: BoltConfiguration,
    orientation: Orientation,
    loadingCondition: int,
    thickness: real,
    boltHoleDiameter: real,
    failurePattern: FailurePattern)

  /**
   * Construction: the explicit thickness if given, else the member's; the
   * pattern is L when the load is Shear or the member is an angle, otherwise
   * U. Under Axial load the member's `Type` is read and may be missing.
   */
  function NewBlockShearCalculator(m: Member, conn: BoltConfiguration, orientation: Orientation,
                                   loadingCondition: int, thickness: Option<real>): (r: Result<BlockShearCalculator>)
    ensures r.Ok? <==> (thickness.Some? || Thickness(m).Ok?) && (orientation == Shear || MemberType(m).Ok?)
    ensures r.Ok? ==> (r.value.failurePattern == LPattern <==> orientation == Shear || MemberType(m) == Ok("L"))
    ensures r.Ok? ==> r.value.thickness == if thickness.Some? then thickness.value else Thickness(m).value
    ensures r.Ok? ==> r.value.boltHoleDiameter == conn.boltDiameter + 0.125
    ensures r.Ok? ==> r.value.member == m && r.value.connection == conn
                      && r.value.orientation == orientation && r.value.loadingCondition == loadingCondition
  {
    var t :- if thickness.Some? then Ok(thickness.value) else Thickness(m);
    var pattern :- if orientation == Shear then Ok(LPattern)
                   else var ty :- MemberType(m); Ok(if ty == "L" then LPattern else UPattern);
    Ok(BlockShearCalculator(m, conn, orientation, loadingCondition, t, HoleDiameter(conn.boltDiameter), pattern))
  }

  /** A bolt line of the group: its spacing, its number of bolts and its end distance. */
  datatype BoltLine = BoltLine(spacing: real, bolts: int, edge: real)

  /** The line the shear planes run along: the rows under Shear, the columns under Axial. */
  function ShearLine(c: BlockShearCalculator): (line: BoltLine)
    ensures c.orientation == Shear ==>
      line == BoltLine(c.connection.rowSpacing, c.connection.nRows, c.connection.edgeDistanceVertical)
    ensures c.orientation == Axial ==>
      line == BoltLine(c.connection.columnSpacing, c.connection.nColumns, c.connection.edgeDistanceHorizontal)
  {
    var conn := c.connection;
    if c.orientation == Shear then BoltLine(conn.rowSpacing, conn.nRows, conn.edgeDistanceVertical)
    else BoltLine(conn.columnSpacing, conn.nColumns, conn.edgeDistanceHorizontal)
  }

  /** The line the L-pattern tension plane runs along: the one the shear planes take under the other orientation. */
  function TensionLine(c: BlockShearCalculator): (line: BoltLine)
    ensures line == ShearLine(c.(orientation := if c.orientation == Axial then Shear else Axial))
  {
    var conn := c.connection;
    if c.orientation == Axial then BoltLine(conn.rowSpacing, conn.nRows, conn.edgeDistanceVertical)
    else BoltLine(conn.columnSpacing, conn.nColumns, conn.edgeDistanceHorizontal)
  }

  /** Gross length of a line: spacing (bolts - 1) + edge distance. */
  function GrossLength(line: BoltLine): real {
    line.spacing * ((line.bolts - 1) as real) + line.edge
  }

  /** Gross shear area Agv of one L-pattern shear plane. */
  function LShearYieldPath(c: BlockShearCalculator): real {
    GrossLength(ShearLine(c)) * c.thickness * (c.loadingCondition as real)
  }

  /** Net shear area Anv: Agv less (bolts - 0.5) holes. */
  function LShearRupturePath(c: BlockShearCalculator): real {
    var grossArea := LShearYieldPath(c);
    var holeDeduction := ((ShearLine(c).bolts as real) - 0.5) * c.boltHoleDiameter * c.thickness * (c.loadingCondition as real);
    grossArea - holeDeduction
  }

  /** Net tension area Ant of the L pattern: gross length less (bolts - 0.5) holes. */
  function LTensionRupturePath(c: BlockShearCalculator): real {
    var line := TensionLine(c);
    var netLength := GrossLength(line) - ((line.bolts as real) - 0.5) * c.boltHoleDiameter;
    netLength * c.thickness * (c.loadingCondition as real)
  }

  /** Net tension area Ant of the U pattern: between the outer rows, (n_rows - 1) spacings less (n_rows - 1) holes. */
  function UTensionRupturePath(c: BlockShearCalculator): real {
    var spacing, rows := c.connection.rowSpacing, c.connection.nRows;
    var netLength := spacing * ((rows - 1) as real) - ((rows - 1) as real) * c.boltHoleDiameter;
    netLength * c.thickness * (c.loadingCondition as real)
  }

  /** Gross shear, net shear and net tension areas of a block-shear pattern. */
  datatype BlockShearAreas = BlockShearAreas(agv: real, anv: real, ant: real)

  function Areas(c: BlockShearCalculator): BlockShearAreas {
    match c.failurePattern
    case LPattern => BlockShearAreas(LShearYieldPath(c), LShearRupturePath(c), LTensionRupturePath(c))
    case UPattern => BlockShearAreas(2.0 * LShearYieldPath(c), 2.0 * LShearRupturePath(c), UTensionRupturePath(c))
  }

  /** Nominal strength Rn = Ubs Fu Ant + 0.6 min(Fy Agv, Fu Anv) (eq. J4-5). */
  function BlockShearNominal(fu: real, fy: real, a: BlockShearAreas): real {
    var shearForce := 0.6 * Min(a.agv * fy, a.anv * fu);
    var tensionForce := BlockShearUbs * fu * a.ant;
    tensionForce + shearForce
  }

  /** Design strength phi Rn of the calculator's pattern. */
  function BlockShearCapacity(c: BlockShearCalculator, phi: real): real {
    phi * BlockShearNominal(Fu(c.member), Fy(c.member), Areas(c))
  }

  /**
   * Block shear takes the lesser of the two combinations of eq. J4-5 (shear
   * yielding with tension rupture, shear rupture with tension rupture): the
   * strength is one of them and, for phi >= 0, never more than either.
   */
  lemma LesserCombination(fu: real, fy: real, a: BlockShearAreas, phi: real)
    ensures var r := phi * BlockShearNominal(fu, fy, a);
      && (r == phi * (fu * a.ant + 0.6 * (a.agv * fy)) || r == phi * (fu * a.ant + 0.6 * (a.anv * fu)))
      && (0.0 <= phi ==> r <= phi * (fu * a.ant + 0.6 * (a.agv * fy)) && r <= phi * (fu * a.ant + 0.6 * (a.anv * fu)))
  {
    var t, x, y := fu * a.ant, a.agv * fy, a.anv * fu;
    assert BlockShearNominal(fu, fy, a) == t + 0.6 * Min(x, y);
    ScaleMonotone(t + 0.6 * Min(x, y), t + 0.6 * x, phi);
    ScaleMonotone(t + 0.6 * Min(x, y), t + 0.6 * y, phi);
  }

  /** Every block-shear area, hole deductions included, is proportional to the calculator's loading condition. */
  lemma BlockShearAreasLinearInLoadingCondition(c: BlockShearCalculator, k: int)
    ensures var a, unit := Areas(c.(loadingCondition := k)), Areas(c.(loadingCondition := 1));
      a == BlockShearAreas(unit.agv * (k as real), unit.anv * (k as real), unit.ant * (k as real))
  {
    if c.failurePattern == LPattern {
      LPatternAreasLinear(c, k);
    } else {
      UPatternAreasLinear(c, k);
    }
  }

  lemma LPatternAreasLinear(c: BlockShearCalculator, k: int)
    requires c.failurePattern == LPattern
    ensures var a, unit := Areas(c.(loadingCondition := k)), Areas(c.(loadingCondition := 1));
      a == BlockShearAreas(unit.agv * (k as real), unit.anv * (k as real), unit.ant * (k as real))
  {
    var ck, c1 := c.(loadingCondition := k), c.(loadingCondition := 1);
    assert Areas(ck) == BlockShearAreas(LShearYieldPath(ck), LShearRupturePath(ck), LTensionRupturePath(ck));
    assert Areas(c1) == BlockShearAreas(LShearYieldPath(c1), LShearRupturePath(c1), LTensionRupturePath(c1));
    ShearYieldLinearInLoadingCondition(c, k);
    ShearRuptureLinearInLoadingCondition(c, k);
    LTensionLinearInLoadingCondition(c, k);
  }

  lemma UPatternAreasLinear(c: BlockShearCalculator, k: int)
    requires c.failurePattern == UPattern
    ensures var a, unit := Areas(c.(loadingCondition := k)), Areas(c.(loadingCondition := 1));
      a == BlockShearAreas(unit.agv * (k as real), unit.anv * (k as real), unit.ant * (k as real))
  {
    var ck, c1, kr := c.(loadingCondition := k), c.(loadingCondition := 1), k as real;
    var y, r := LShearYieldPath(c1), LShearRupturePath(c1);
    ShearYieldLinearInLoadingCondition(c, k);
    ShearRuptureLinearInLoadingCondition(c, k);
    UTensionLinearInLoadingCondition(c, k);
    DoubleScales(y, kr);
    DoubleScales(r, kr);
  }

  lemma DoubleScales(x: real, k: real)
    ensures 2.0 * (x * k) == (2.0 * x) * k
  {
  }

  /** The gross shear area at loading condition k is k times the area at loading condition 1. */
  lemma ShearYieldLinearInLoadingCondition(c: BlockShearCalculator, k: int)
    ensures LShearYieldPath(c.(loadingCondition := k)) == LShearYieldPath(c.(loadingCondition := 1)) * (k as real)
  {
    var ck, c1 := c.(loadingCondition := k), c.(loadingCondition := 1);
    assert ShearLine(ck) == ShearLine(c) == ShearLine(c1);
  }

  /** The net shear area at loading condition k is k times the area at loading condition 1. */
  lemma ShearRuptureLinearInLoadingCondition(c: BlockShearCalculator, k: int)
    ensures LShearRupturePath(c.(loadingCondition := k)) == LShearRupturePath(c.(loadingCondition := 1)) * (k as real)
  {
    var ck, c1, kr := c.(loadingCondition := k), c.(loadingCondition := 1), k as real;
    assert ShearLine(ck) == ShearLine(c) == ShearLine(c1);
    ShearYieldLinearInLoadingCondition(c, k);
    var holes := ((ShearLine(c).bolts as real) - 0.5) * c.boltHoleDiameter * c.thickness;
    assert LShearRupturePath(ck) == LShearYieldPath(ck) - holes * kr;
    assert LShearRupturePath(c1) == LShearYieldPath(c1) - holes;
    DifferenceScales(LShearYieldPath(c1), holes, kr);
  }

  /** The L-pattern net tension area at loading condition k is k times the area at loading condition 1. */
  lemma LTensionLinearInLoadingCondition(c: BlockShearCalculator, k: int)
    ensures LTensionRupturePath(c.(loadingCondition := k)) == LTensionRupturePath(c.(loadingCondition := 1)) * (k as real)
  {
    var ck, c1 := c.(loadingCondition := k), c.(loadingCondition := 1);
    assert TensionLine(ck) == TensionLine(c) == TensionLine(c1);
  }

  /** The U-pattern net tension area at loading condition k is k times the area at loading condition 1. */
  lemma UTensionLinearInLoadingCondition(c: BlockShearCalculator, k: int)
    ensures UTensionRupturePath(c.(loadingCondition := k)) == UTensionRupturePath(c.(loadingCondition := 1)) * (k as real)
  {
  }

  lemma DifferenceScales(x: real, y: real, k: real)
    ensures x * k - y * k == (x - y) * k
  {
  }

  /** Scaling by a non-negative factor commutes with taking the lesser value. */
  lemma MinScale(x: real, y: real, k: real)
    requires 0.0 <= k
    ensures Min(x * k, y * k) == Min(x, y) * k
  {
    ScaleMonotone(x, y, k);
    ScaleMonotone(y, x, k);
  }

  /** Scaling all three areas by k >= 0 scales the nominal strength of eq. J4-5 by k. */
  lemma BlockShearNominalScales(fu: real, fy: real, a: BlockShearAreas, k: real)
    requires 0.0 <= k
    ensures BlockShearNominal(fu, fy, BlockShearAreas(a.agv * k, a.anv * k, a.ant * k)) == BlockShearNominal(fu, fy, a) * k
  {
    assert a.agv * k * fy == (a.agv * fy) * k;
    assert a.anv * k * fu == (a.anv * fu) * k;
    MinScale(a.agv * fy, a.anv * fu, k);
  }

  /** The block-shear strength at loading condition k >= 0 is k times the strength at loading condition 1. */
  lemma BlockShearLinearInLoadingCondition(c: BlockShearCalculator, k: int, phi: real)
    requires 0 <= k
    ensures BlockShearCapacity(c.(loadingCondition := k), phi)
      == BlockShearCapacity(c.(loadingCondition := 1), phi) * (k as real)
  {
    BlockShearAreasLinearInLoadingCondition(c, k);
    DesignStrengthScales(Fu(c.member), Fy(c.member), Areas(c.(loadingCondition := 1)), k as real, phi);
  }

  /** Scaling the areas by k >= 0 scales the design strength phi Rn by k. */
  lemma DesignStrengthScales(fu: real, fy: real, a: BlockShearAreas, k: real, phi: real)
    requires 0.0 <= k
    ensures phi * BlockShearNominal(fu, fy, BlockShearAreas(a.agv * k, a.anv * k, a.ant * k))
      == phi * BlockShearNominal(fu, fy, a) * k
  {
    BlockShearNominalScales(fu, fy, a, k);
  }

  /** The U pattern has twice the shear areas of the L pattern on the same bolts. */
  lemma UPatternDoublesShearAreas(c: BlockShearCalculator)
    requires c.failurePattern == UPattern
    ensures var u, l := Areas(c), Areas(c.(failurePattern := LPattern));
      u.agv == 2.0 * l.agv && u.anv == 2.0 * l.anv
    ensures Areas(c).ant == ((c.connection.nRows - 1) as real)
      * (c.connection.rowSpacing - c.boltHoleDiameter) * c.thickness * (c.loadingCondition as real)
  {
  }

  /** With real holes in a real plate, each shear plane's net area is below its gross area. */
  lemma NetShearBelowGross(c: BlockShearCalculator)
    requires 0.0 < c.boltHoleDiameter && 0.0 < c.thickness && 0 < c.loadingCondition
    requires 0 < ShearLine(c).bolts
    ensures LShearRupturePath(c) < LShearYieldPath(c)
    ensures Areas(c).anv < Areas(c).agv
  {
    var k := (ShearLine(c).bolts as real) - 0.5;
    ProductPositive(k, c.boltHoleDiameter);
    ProductPositive(k * c.boltHoleDiameter, c.thickness);
    ProductPositive(k * c.boltHoleDiameter * c.thickness, c.loadingCondition as real);
  }

  /** An angle loaded axially fails like the transposed bolt group loaded in shear. */
  lemma BlockShearOrientationSwap(m: Member, conn: BoltConfiguration, lc: int, thickness: Option<real>, phi: real)
    requires MemberType(m) == Ok("L")
    requires thickness.Some? || Thickness(m).Ok?
    ensures var a := NewBlockShearCalculator(m, conn, Axial, lc, thickness);
            var b := NewBlockShearCalculator(m, Transposed(conn), Shear, lc, thickness);
      && a.Ok? && b.Ok? && a.value.failurePattern == b.value.failurePattern == LPattern
      && Areas(a.value) == Areas(b.value)
      && BlockShearCapacity(a.value, phi) == BlockShearCapacity(b.value, phi)
  {
    var a := NewBlockShearCalculator(m, conn, Axial, lc, thickness).value;
    var b := NewBlockShearCalculator(m, Transposed(conn), Shear, lc, thickness).value;
    assert ShearLine(a) == ShearLine(b);
    assert TensionLine(a) == TensionLine(b);
    LPatternAreasAgree(a, b);
  }

  /** Two L-pattern calculators on the same lines, thickness, hole and loading condition have the same areas. */
  lemma LPatternAreasAgree(a: BlockShearCalculator, b: BlockShearCalculator)
    requires a.failurePattern == b.failurePattern == LPattern
    requires ShearLine(a) == ShearLine(b) && TensionLine(a) == TensionLine(b)
    requires a.thickness == b.thickness && a.boltHoleDiameter == b.boltHoleDiameter
    requires a.loadingCondition == b.loadingCondition
    ensures Areas(a) == Areas(b)
  {
    assert LShearYieldPath(a) == LShearYieldPath(b);
    assert LShearRupturePath(a) == LShearRupturePath(b);
    assert LTensionRupturePath(a) == LTensionRupturePath(b);
  }

  /**
   * The gusset plate of the example script: 1 in of A572 Gr. 50 with two rows
   * of seven 7/8 in bolts at 3 in, loaded axially, fails in the U pattern at
   * 0.75 (65 x 2 + 0.6 x min(50 x 39, 65 x 26)) = 858 kip.
   */
  lemma GussetBlockShearExample()
    ensures var plate := CreatePlateMember(1.0, Materials.LookupMaterial("a572_gr50").value, 1);
            var conn := BoltConfiguration(3.0, 3.0, 2, 7, 2.0, 1.5, 0.875,
                                          Materials.LookupBoltGrade("a325_x").value,
                                          Materials.LookupMaterial("a572_gr50").value);
            var c := NewBlockShearCalculator(PlateMember(plate), conn, Axial, 1, None);
      && c.Ok? && c.value.failurePattern == UPattern
      && Areas(c.value) == BlockShearAreas(39.0, 26.0, 2.0)
      && BlockShearCapacity(c.value, BlockShearPhi) == 858.0
  {
  }

  // ------------------------------------- connection capacity, J3.6 and J3.10

  datatype ConnectionCapacityCalculator = ConnectionCapacityCalculator(
    member: Member,
    connection: BoltConfiguration,
    orientation: Orientation,
    fu: real,
    thickness: real,
    boltDiameter: real,
    boltDiameterNominal: real,
    holeDiameter: real,
    longitudinalSpacing: real,
    longitudinalEdgeDist: real,
    boltsPerLine: int,
    numLines: int)

  /**
   * Construction: under Axial load the bolts of a line are the columns (column
   * spacing, horizontal edge distance) and the lines are the rows; under Shear
   * it is the other way round. A member without a thickness raises.
   */
  function NewConnectionCapacityCalculator(m: Member, conn: BoltConfiguration, orientation: Orientation)
    : (r: Result<ConnectionCapacityCalculator>)
    ensures r.Ok? <==> Thickness(m).Ok?
    ensures r.Err? ==> r.error == AttributeError("thickness")
    ensures r.Ok? ==> var c := r.value;
      && c.member == m && c.connection == conn && c.orientation == orientation
      && c.fu == Fu(m) && c.thickness == Thickness(m).value
      && c.boltDiameter == conn.boltDiameter
      && c.boltDiameterNominal == conn.boltDiameter + 0.0625
      && c.holeDiameter == conn.boltDiameter + 0.125
    ensures r.Ok? && orientation == Axial ==> var c := r.value;
      && c.longitudinalSpacing == conn.columnSpacing && c.longitudinalEdgeDist == conn.edgeDistanceHorizontal
      && c.boltsPerLine == conn.nColumns && c.numLines == conn.nRows
    ensures r.Ok? && orientation == Shear ==> var c := r.value;
      && c.longitudinalSpacing == conn.rowSpacing && c.longitudinalEdgeDist == conn.edgeDistanceVertical
      && c.boltsPerLine == conn.nRows && c.numLines == conn.nColumns
  {
    var t :- Thickness(m);
    var d := conn.boltDiameter;
    if orientation == Axial then
      Ok(ConnectionCapacityCalculator(m, conn, orientation, Fu(m), t, d, d + ClearanceAllowance, HoleDiameter(d),
                                      conn.columnSpacing, conn.edgeDistanceHorizontal, conn.nColumns, conn.nRows))
    else
      Ok(ConnectionCapacityCalculator(m, conn, orientation, Fu(m), t, d, d + ClearanceAllowance, HoleDiameter(d),
                                      conn.rowSpacing, conn.edgeDistanceVertical, conn.nRows, conn.nColumns))
  }

  /** Clear distance lc of an inner bolt: spacing less the bolt diameter plus 1/16 in. */
  function ClearDistanceInner(c: ConnectionCapacityCalculator): real {
    c.longitudinalSpacing - c.boltDiameterNominal
  }

  /** Clear distance lc of an end bolt: edge distance less half of the bolt diameter plus 1/16 in. */
  function ClearDistanceOuter(c: ConnectionCapacityCalculator): real {
    c.longitudinalEdgeDist - c.boltDiameterNominal / 2.0
  }

  /** Governing strengths of one inner bolt and of one end bolt. */
  datatype BoltStrengths = BoltStrengths(inner: real, outer: real)

  /** The single-bolt shear strength the connection uses: always at phi = 0.75. */
  function ConnectionBoltShear(c: ConnectionCapacityCalculator, planes: int): real {
    BoltShearCapacity(NewBoltShearCalculator(c.connection), planes, BoltShearPhi)
  }

  /** Bearing limit 2.4 d t Fu phi (eq. J3-6a). */
  function BearingLimit(c: ConnectionCapacityCalculator, phi: real): real {
    BearingStrength(c.boltDiameter, c.thickness, c.fu, phi)
  }

  /** The scalar form of the bearing limit, so that equal inputs give equal limits without arithmetic. */
  function BearingStrength(d: real, t: real, fu: real, phi: real): real {
    2.4 * d * t * fu * phi
  }

  /** Tearout 1.2 lc t Fu phi (eq. J3-6c). */
  function Tearout(c: ConnectionCapacityCalculator, lc: real, phi: real): real {
    TearoutStrength(lc, c.thickness, c.fu, phi)
  }

  /** The scalar form of the tearout, so that equal inputs give equal strengths without arithmetic. */
  function TearoutStrength(lc: real, t: real, fu: real, phi: real): real {
    1.2 * lc * t * fu * phi
  }

  /**
   * Each bolt is governed by the least of its shear strength (at phi = 0.75,
   * whatever phi is passed), the bearing limit and its own tearout.
   */
  function GoverningBoltStrengths(c: ConnectionCapacityCalculator, planes: int, phi: real): BoltStrengths {
    var shear := ConnectionBoltShear(c, planes);
    var lcIn, lcOut := ClearDistanceInner(c), ClearDistanceOuter(c);
    var bearing := BearingLimit(c, phi);
    var tearoutInner := Tearout(c, lcIn, phi);
    var tearoutOuter := Tearout(c, lcOut, phi);
    BoltStrengths(Min3(shear, bearing, tearoutInner), Min3(shear, bearing, tearoutOuter))
  }

  /** Each bolt's strength is the least of shear (at phi = 0.75), bearing and its own tearout. */
  lemma GoverningBoltStrengthsAreMinima(c: ConnectionCapacityCalculator, planes: int, phi: real)
    ensures var r, shear, bearing := GoverningBoltStrengths(c, planes, phi), ConnectionBoltShear(c, planes), BearingLimit(c, phi);
      && r.inner <= shear && r.inner <= bearing && r.inner <= Tearout(c, ClearDistanceInner(c), phi)
      && r.outer <= shear && r.outer <= bearing && r.outer <= Tearout(c, ClearDistanceOuter(c), phi)
      && (r.inner == shear || r.inner == bearing || r.inner == Tearout(c, ClearDistanceInner(c), phi))
      && (r.outer == shear || r.outer == bearing || r.outer == Tearout(c, ClearDistanceOuter(c), phi))
  {
  }

  /** An inner bolt is at least as strong as an end bolt when its clear distance is at least the end bolt's. */
  lemma InnerBoltAtLeastEndBolt(c: ConnectionCapacityCalculator, planes: int, phi: real)
    requires ClearDistanceOuter(c) <= ClearDistanceInner(c)
    requires 0.0 <= c.thickness * c.fu * phi
    ensures GoverningBoltStrengths(c, planes, phi).outer <= GoverningBoltStrengths(c, planes, phi).inner
  {
    TearoutMonotone(c, ClearDistanceOuter(c), ClearDistanceInner(c), phi);
    Min3Monotone(ConnectionBoltShear(c, planes), BearingLimit(c, phi),
                 Tearout(c, ClearDistanceOuter(c), phi), Tearout(c, ClearDistanceInner(c), phi));
  }

  lemma TearoutMonotone(c: ConnectionCapacityCalculator, lo: real, hi: real, phi: real)
    requires lo <= hi && 0.0 <= c.thickness * c.fu * phi
    ensures Tearout(c, lo, phi) <= Tearout(c, hi, phi)
  {
    var k := c.thickness * c.fu * phi;
    ScaleMonotone(lo, hi, 1.2 * k);
    assert Tearout(c, lo, phi) == lo * (1.2 * k);
    assert Tearout(c, hi, phi) == hi * (1.2 * k);
  }

  lemma Min3Monotone(a: real, b: real, x: real, y: real)
    requires x <= y
    ensures Min3(a, b, x) <= Min3(a, b, y)
  {
  }

  /** Total design strength: (r_in (bolts_per_line - 1) + r_out) num_lines, times the member's loading condition. */
  function ConnectionCapacity(c: ConnectionCapacityCalculator, planes: int, phi: real): real {
    var totalNominal := GroupStrength(GoverningBoltStrengths(c, planes, phi), c.boltsPerLine, c.numLines);
    totalNominal * (LoadingCondition(c.member) as real)
  }

  /** Strength of num_lines lines of bolts_per_line bolts, each line with two end bolts counted as one. */
  function GroupStrength(s: BoltStrengths, boltsPerLine: int, numLines: int): real {
    (s.inner * ((boltsPerLine - 1) as real) + s.outer) * (numLines as real)
  }

  /** A group of bolts none stronger than `shear` is no stronger than its number of bolts times `shear`. */
  lemma GroupStrengthBounded(s: BoltStrengths, boltsPerLine: int, numLines: int, shear: real)
    requires s.inner <= shear && s.outer <= shear
    requires 1 <= boltsPerLine && 0 <= numLines
    ensures GroupStrength(s, boltsPerLine, numLines) <= (boltsPerLine as real) * (numLines as real) * shear
  {
    var n, lines, b := (boltsPerLine - 1) as real, numLines as real, boltsPerLine as real;
    ScaleMonotone(s.inner, shear, n);
    assert s.inner * n + s.outer <= shear * n + shear;
    assert shear * n + shear == b * shear;
    ScaleMonotone(s.inner * n + s.outer, b * shear, lines);
    assert b * shear * lines == b * lines * shear;
  }

  /** No connection is stronger than its number of bolts times the single-bolt shear strength. */
  lemma ConnectionBoundedByBoltShear(c: ConnectionCapacityCalculator, planes: int, phi: real)
    requires 1 <= c.boltsPerLine && 0 <= c.numLines && 0 <= LoadingCondition(c.member)
    ensures ConnectionCapacity(c, planes, phi)
      <= (c.boltsPerLine as real) * (c.numLines as real) * ConnectionBoltShear(c, planes) * (LoadingCondition(c.member) as real)
  {
    GoverningBelowBoltShear(c, planes, phi);
    ScaledGroupStrengthBounded(GoverningBoltStrengths(c, planes, phi), c.boltsPerLine, c.numLines,
                               ConnectionBoltShear(c, planes), LoadingCondition(c.member) as real);
  }

  lemma ScaledGroupStrengthBounded(s: BoltStrengths, boltsPerLine: int, numLines: int, shear: real, lc: real)
    requires s.inner <= shear && s.outer <= shear
    requires 1 <= boltsPerLine && 0 <= numLines && 0.0 <= lc
    ensures GroupStrength(s, boltsPerLine, numLines) * lc <= (boltsPerLine as real) * (numLines as real) * shear * lc
  {
    GroupStrengthBounded(s, boltsPerLine, numLines, shear);
    ScaleMonotone(GroupStrength(s, boltsPerLine, numLines), (boltsPerLine as real) * (numLines as real) * shear, lc);
  }

  lemma GoverningBelowBoltShear(c: ConnectionCapacityCalculator, planes: int, phi: real)
    ensures GoverningBoltStrengths(c, planes, phi).inner <= ConnectionBoltShear(c, planes)
    ensures GoverningBoltStrengths(c, planes, phi).outer <= ConnectionBoltShear(c, planes)
  {
  }

  /** An axially loaded connection has the strength of the transposed bolt group loaded in shear. */
  lemma ConnectionOrientationSwap(m: Member, conn: BoltConfiguration, planes: int, phi: real)
    requires Thickness(m).Ok?
    ensures var a := NewConnectionCapacityCalculator(m, conn, Axial);
            var b := NewConnectionCapacityCalculator(m, Transposed(conn), Shear);
      && a.Ok? && b.Ok?
      && GoverningBoltStrengths(a.value, planes, phi) == GoverningBoltStrengths(b.value, planes, phi)
      && ConnectionCapacity(a.value, planes, phi) == ConnectionCapacity(b.value, planes, phi)
  {
    var a := NewConnectionCapacityCalculator(m, conn, Axial).value;
    var b := NewConnectionCapacityCalculator(m, Transposed(conn), Shear).value;
    assert b == a.(connection := Transposed(conn), orientation := Shear);
    ConnectionBoltShearIgnoresLayout(a, Transposed(conn), Shear, planes);
    GoverningIgnoresConnectionRecord(a, Transposed(conn), Shear, planes, phi);
  }

  /** The single-bolt shear strength reads only the bolt's diameter and grade, not the layout of the group. */
  lemma ConnectionBoltShearIgnoresLayout(c: ConnectionCapacityCalculator, conn: BoltConfiguration, o: Orientation,
                                         planes: int)
    requires conn.boltDiameter == c.connection.boltDiameter && conn.boltGrade == c.connection.boltGrade
    ensures ConnectionBoltShear(c.(connection := conn, orientation := o), planes) == ConnectionBoltShear(c, planes)
  {
    var x, y := NewBoltShearCalculator(conn), NewBoltShearCalculator(c.connection);
    assert x.boltDiameter == y.boltDiameter && x.boltArea == y.boltArea && x.fnv == y.fnv;
  }

  /** Once the bolt shear agrees, the governing strengths depend only on the cached numbers. */
  lemma GoverningIgnoresConnectionRecord(c: ConnectionCapacityCalculator, conn: BoltConfiguration, o: Orientation,
                                         planes: int, phi: real)
    requires ConnectionBoltShear(c.(connection := conn, orientation := o), planes) == ConnectionBoltShear(c, planes)
    ensures GoverningBoltStrengths(c.(connection := conn, orientation := o), planes, phi) == GoverningBoltStrengths(c, planes, phi)
  {
    var b := c.(connection := conn, orientation := o);
    assert BearingLimit(b, phi) == BearingLimit(c, phi);
    assert ClearDistanceInner(b) == ClearDistanceInner(c) && ClearDistanceOuter(b) == ClearDistanceOuter(c);
  }

  /** The governing strengths do not read the member itself, only the numbers cached from it. */
  lemma GoverningIgnoresMember(c: ConnectionCapacityCalculator, m: Member, planes: int, phi: real)
    ensures GoverningBoltStrengths(c.(member := m), planes, phi) == GoverningBoltStrengths(c, planes, phi)
  {
    var b := c.(member := m);
    assert ConnectionBoltShear(b, planes) == ConnectionBoltShear(c, planes);
    assert BearingLimit(b, phi) == BearingLimit(c, phi);
    assert ClearDistanceInner(b) == ClearDistanceInner(c) && ClearDistanceOuter(b) == ClearDistanceOuter(c);
  }

  /**
   * The connection strength is proportional to the member's loading condition:
   * it is that loading condition times the strength of the same calculator
   * over any member whose loading condition is 1.
   */
  lemma ConnectionLinearInLoadingCondition(c: ConnectionCapacityCalculator, unit: Member, planes: int, phi: real)
    requires LoadingCondition(unit) == 1
    ensures ConnectionCapacity(c, planes, phi)
      == ConnectionCapacity(c.(member := unit), planes, phi) * (LoadingCondition(c.member) as real)
  {
    GoverningIgnoresMember(c, unit, planes, phi);
  }

  /**
   * The gusset connection of the example script in double shear: the inner
   * bolts are governed by bolt shear (about 61.3 kip), the end bolts by
   * tearout over lc = 1.03125 in (60.328125 kip).
   */
  lemma GussetConnectionExample()
    ensures var plate := CreatePlateMember(1.0, Materials.LookupMaterial("a572_gr50").value, 1);
            var conn := BoltConfiguration(3.0, 3.0, 2, 7, 2.0, 1.5, 0.875,
                                          Materials.LookupBoltGrade("a325_x").value,
                                          Materials.LookupMaterial("a572_gr50").value);
            var c := NewConnectionCapacityCalculator(PlateMember(plate), conn, Axial);
            var s := GoverningBoltStrengths(c.value, 2, ConnectionPhi);
      && c.Ok?
      && ClearDistanceInner(c.value) == 2.0625 && ClearDistanceOuter(c.value) == 1.03125
      && s.inner == ConnectionBoltShear(c.value, 2) == 19.5234375 * Pi
      && s.outer == 60.328125
      && ConnectionCapacity(c.value, 2, ConnectionPhi) == (6.0 * s.inner + s.outer) * 2.0
  {
  }
}
