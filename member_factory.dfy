/**
 * Gross-area enrichment of shape-database sections: the factory computes the
 * total, web and flange gross areas of a section and attaches them to the
 * member object as its `geometry`.
 */
module MemberFactory {
  import opened Wrappers
  import opened Members
  import Calculations

  /** The gross areas attached to a member; an absent or non-positive component area is `None`. */
  datatype GeometricProperties = GeometricProperties(total: Option<real>, web: Option<real>, flange: Option<real>)

  /** `getattr(member, 'tw', 0)`: only a W-shape exposes a web thickness. */
  function WebThicknessOrZero(s: Section): real {
    if s.thickness.WebThickness? then s.thickness.tw else 0.0
  }

  /**
   * Gross area of a rectangular component: its length times its thickness,
   * kept behind a function symbol like `Calculations.Product` so that the
   * solver reasons about the product as one term.
   */
  function ComponentArea(length: real, thickness: real): real {
    length * thickness
  }

  lemma ComponentAreaPositive(length: real, thickness: real)
    requires 0.0 < length && 0.0 < thickness
    ensures 0.0 < ComponentArea(length, thickness)
  {
    Calculations.ProductPositive(length, thickness);
  }

  /** `area if area > 0 else None`. */
  function PositiveOrNone(area: real): (r: Option<real>)
    ensures r.Some? <==> 0.0 < area
    ensures r.Some? ==> r.value == area
  {
    if area > 0.0 then Some(area) else None
  }

  /**
   * `_create_geometric_properties`: total is the section's area (or `None`);
   * web is d tw and flange bf tf, each with a missing thickness counting as
   * zero. A section without `d` (or `bf`) leaves `None` to be compared with
   * 0, which raises TypeError; the web area is compared first.
   */
  function CreateGeometricProperties(s: Section): (r: Result<GeometricProperties>)
    ensures r.Ok? <==> s.d.Some? && s.bf.Some?
    ensures s.d.None? ==> r == Err(TypeError("web"))
    ensures s.d.Some? && s.bf.None? ==> r == Err(TypeError("flange"))
    ensures r.Ok? ==> r.value.total == s.area
    ensures r.Ok? ==> var web := ComponentArea(s.d.value, WebThicknessOrZero(s));
      (r.value.web.Some? <==> 0.0 < web) && (r.value.web.Some? ==> r.value.web.value == web)
    ensures r.Ok? ==> var flange := ComponentArea(s.bf.value, s.tf.GetOr(0.0));
      (r.value.flange.Some? <==> 0.0 < flange) && (r.value.flange.Some? ==> r.value.flange.value == flange)
  {
    if s.d.None? then Err(TypeError("web"))
    else if s.bf.None? then Err(TypeError("flange"))
    else
      var webArea := ComponentArea(s.d.value, WebThicknessOrZero(s));
      var flangeArea := ComponentArea(s.bf.value, s.tf.GetOr(0.0));
      Ok(GeometricProperties(s.area, PositiveOrNone(webArea), PositiveOrNone(flangeArea)))
  }

  /** A section without a web thickness (an angle, or none) gets no web area, and one without `tf` no flange area. */
  lemma MissingThicknessGivesNoArea(s: Section)
    requires CreateGeometricProperties(s).Ok?
    ensures !s.thickness.WebThickness? ==> CreateGeometricProperties(s).value.web == None
    ensures s.tf.None? ==> CreateGeometricProperties(s).value.flange == None
  {
  }

  /** Every area that is attached is positive. */
  lemma AttachedAreasArePositive(s: Section)
    requires CreateGeometricProperties(s).Ok?
    ensures var g := CreateGeometricProperties(s).value;
      (g.web.Some? ==> 0.0 < g.web.value) && (g.flange.Some? ==> 0.0 < g.flange.value)
  {
  }

  /** A W-shape with positive depth, web thickness, width and flange thickness gets both component areas. */
  lemma WideFlangeGetsBothAreas(s: Section)
    requires s.d.Some? && s.bf.Some? && s.tf.Some? && s.thickness.WebThickness?
    requires 0.0 < s.d.value && 0.0 < s.thickness.tw && 0.0 < s.bf.value && 0.0 < s.tf.value
    ensures var g := CreateGeometricProperties(s);
      && g.Ok? && g.value.web == Some(ComponentArea(s.d.value, s.thickness.tw))
      && g.value.flange == Some(ComponentArea(s.bf.value, s.tf.value))
  {
    ComponentAreaPositive(s.d.value, s.thickness.tw);
    ComponentAreaPositive(s.bf.value, s.tf.value);
  }

  /** A member object of the shape database; `geometry` is the attribute the factory attaches. */
  class SteelpyMember {
    const section: Section
    var geometry: Option<GeometricProperties>

    constructor (section: Section)
      ensures this.section == section && geometry == None
    {
      this.section := section;
      geometry := None;
    }
  }

  /**
   * `enrich_steelpy_member`: a member without `Type` raises AttributeError;
   * otherwise the computed properties are attached to the member, which is
   * returned itself. A failing computation leaves the member untouched.
   */
  method EnrichSteelpyMember(m: SteelpyMember) returns (r: Result<SteelpyMember>)
    modifies m`geometry
    ensures m.section.Type.None? ==> r == Err(AttributeError("Type")) && m.geometry == old(m.geometry)
    ensures m.section.Type.Some? && CreateGeometricProperties(m.section).Err? ==>
      r == Err(CreateGeometricProperties(m.section).error) && m.geometry == old(m.geometry)
    ensures m.section.Type.Some? && CreateGeometricProperties(m.section).Ok? ==>
      r == Ok(m) && m.geometry == Some(CreateGeometricProperties(m.section).value)
  {
    if m.section.Type.None? {
      return Err(AttributeError("Type"));
    }
    var properties := CreateGeometricProperties(m.section);
    if properties.Err? {
      return Err(properties.error);
    }
    m.geometry := Some(properties.value);
    return Ok(m);
  }
}
