/**
 * The value records of the steel library: materials, bolt grades, plates and
 * bolt configurations. All quantities are reals in kip, inch and ksi.
 */
module DataModels {
  import opened Wrappers

  /** A steel material (a frozen record): yield stress, ultimate stress, elastic modulus. */
  datatype Material = Material(Fy: real, Fu: real, E: real)

  /** Nominal stresses of a bolt material (a frozen record): tension Fnt and shear Fnv. */
  datatype BoltGrade = BoltGrade(Fnt: real, Fnv: real)

  /** The loading condition a plate gets when none is given (a multiplier, e.g. 2 for double angles). */
  const DefaultLoadingCondition: int := 1

  /** The `Type` tag every plate carries unless constructed otherwise. */
  const PlateTypeName: string := "Plate"

  /**
   * A custom plate member. Its material properties are those of `material`;
   * `length` and `width` stay absent until some later step dimensions the plate.
   */
  datatype Plate = Plate(
    t: real,
    material: Material,
    loadingCondition: int,
    length: Option<real>,
    width: Option<real>,
    Type: string)

  /** The plate factory: the given thickness, material and loading condition, no dimensions, Type "Plate". */
  function CreatePlateMember(t: real, material: Material, loadingCondition: int): (p: Plate)
    ensures p.t == t && p.material == material && p.loadingCondition == loadingCondition
    ensures p.length == None && p.width == None && p.Type == "Plate"
  {
    Plate(t, material, loadingCondition, None, None, PlateTypeName)
  }

  /** `Plate(t=..., material=...)` with the record's own defaults; they agree with the factory's. */
  function NewPlate(t: real, material: Material): (p: Plate)
    ensures p == CreatePlateMember(t, material, 1)
  {
    Plate(t, material, DefaultLoadingCondition, None, None, PlateTypeName)
  }

  /**
   * The geometry and grade of a bolt group. The record stores its fields as
   * given: counts and spacings are not validated, so the calculators must not
   * assume they are positive.
   */
  datatype BoltConfiguration = BoltConfiguration(
    rowSpacing: real,
    columnSpacing: real,
    nRows: int,
    nColumns: int,
    edgeDistanceVertical: real,
    edgeDistanceHorizontal: real,
    boltDiameter: real,
    boltGrade: BoltGrade,
    material: Material)
}
