/**
 * The members the calculators accept: either a Plate or a section object of
 * the external shape database, here the two variants of one datatype. A
 * section always has a material (so Fy, Fu and E); it may lack its shape tag
 * `Type`, its loading condition, its gross area, `x`, `d`, `bf` and `tf`, and
 * it exposes a leg thickness `t`, a web thickness `tw`, or neither.
 */
module Members {
  import opened Wrappers
  import opened DataModels

  /** Which thickness attribute a section exposes: an angle's leg `t`, a W-shape's web `tw`, or none. */
  datatype SectionThickness = LegThickness(t: real) | WebThickness(tw: real) | NoThickness

  /**
   * A section of the shape database. Absent attributes are `None`: the shape
   * tag `Type`, the loading condition, the gross area, the centroid distance
   * `x`, the depth `d`, the flange width `bf` and the flange thickness `tf`.
   */
  datatype Section = Section(
    Type: Option<string>,
    material: Material,
    loadingCondition: Option<int>,
    area: Option<real>,
    x: Option<real>,
    thickness: SectionThickness,
    d: Option<real>,
    bf: Option<real>,
    tf: Option<real>)

  datatype Member = PlateMember(plate: Plate) | SectionMember(section: Section)

  function MaterialOf(m: Member): Material {
    match m
    case PlateMember(p) => p.material
    case SectionMember(s) => s.material
  }

  /** `member.Fy`: a plate delegates it to its material. */
  function Fy(m: Member): real { MaterialOf(m).Fy }

  /** `member.Fu`: a plate delegates it to its material. */
  function Fu(m: Member): real { MaterialOf(m).Fu }

  /** `member.E`: a plate delegates it to its material. */
  function E(m: Member): real { MaterialOf(m).E }

  /** `getattr(member, 'loading_condition', 1)`. */
  function LoadingCondition(m: Member): (lc: int)
    ensures m.SectionMember? && m.section.loadingCondition.None? ==> lc == 1
  {
    match m
    case PlateMember(p) => p.loadingCondition
    case SectionMember(s) => s.loadingCondition.GetOr(DefaultLoadingCondition)
  }

  /** `member.area`: only sections that list a gross area have one; a Plate record has none. */
  function Area(m: Member): (r: Result<real>)
    ensures r.Ok? <==> m.SectionMember? && m.section.area.Some?
    ensures r.Ok? ==> r.value == m.section.area.value
    ensures r.Err? ==> r.error == AttributeError("area")
  {
    if m.SectionMember? && m.section.area.Some? then Ok(m.section.area.value)
    else Err(AttributeError("area"))
  }

  /** `member.x`, the connection eccentricity of a section; a Plate record has none. */
  function Centroid(m: Member): (r: Result<real>)
    ensures r.Ok? <==> m.SectionMember? && m.section.x.Some?
    ensures r.Err? ==> r.error == AttributeError("x")
  {
    if m.SectionMember? && m.section.x.Some? then Ok(m.section.x.value)
    else Err(AttributeError("x"))
  }

  /** `member.t`: a plate's thickness or an angle's leg thickness; a W-shape has no `t`. */
  function LegT(m: Member): (r: Result<real>)
    ensures r.Ok? <==> m.PlateMember? || m.section.thickness.LegThickness?
    ensures r.Err? ==> r.error == AttributeError("t")
  {
    match m
    case PlateMember(p) => Ok(p.t)
    case SectionMember(s) =>
      if s.thickness.LegThickness? then Ok(s.thickness.t) else Err(AttributeError("t"))
  }

  /**
   * The member thickness the block-shear and connection calculators use: a
   * plate's `t`, else a section's `t`, else its `tw`; a member with neither is
   * an AttributeError.
   */
  function Thickness(m: Member): (r: Result<real>)
    ensures r.Err? <==> m.SectionMember? && m.section.thickness.NoThickness?
    ensures r.Err? ==> r.error == AttributeError("thickness")
    ensures LegT(m).Ok? ==> r == LegT(m)
    ensures m.SectionMember? && m.section.thickness.WebThickness? ==> r == Ok(m.section.thickness.tw)
  {
    match m
    case PlateMember(p) => Ok(p.t)
    case SectionMember(s) =>
      match s.thickness
      case LegThickness(t) => Ok(t)
      case WebThickness(tw) => Ok(tw)
      case NoThickness => Err(AttributeError("thickness"))
  }

  /** `member.Type`: "Plate" (or whatever the record holds) for a plate, the shape tag for a section. */
  function MemberType(m: Member): (r: Result<string>)
    ensures r.Ok? <==> m.PlateMember? || m.section.Type.Some?
    ensures r.Err? ==> r.error == AttributeError("Type")
  {
    match m
    case PlateMember(p) => Ok(p.Type)
    case SectionMember(s) => if s.Type.Some? then Ok(s.Type.value) else Err(AttributeError("Type"))
  }

  /** A plate member reads Fy, Fu and E from its material, and its own thickness, loading condition and Type. */
  lemma PlateDelegatesToMaterial(p: Plate)
    ensures Fy(PlateMember(p)) == p.material.Fy
    ensures Fu(PlateMember(p)) == p.material.Fu
    ensures E(PlateMember(p)) == p.material.E
    ensures Thickness(PlateMember(p)) == Ok(p.t)
    ensures LoadingCondition(PlateMember(p)) == p.loadingCondition
    ensures MemberType(PlateMember(p)) == Ok(p.Type)
  {
  }

  /** A plate made by the factory is a member of thickness t, loading condition lc, Type "Plate", and no gross area. */
  lemma CreatedPlateMember(t: real, material: Material, lc: int)
    ensures var m := PlateMember(CreatePlateMember(t, material, lc));
      && Fy(m) == material.Fy && Fu(m) == material.Fu && E(m) == material.E
      && Thickness(m) == Ok(t) && LoadingCondition(m) == lc
      && MemberType(m) == Ok("Plate") && Area(m).Err?
  {
  }
}
