/**
 * The static registry: materials, bolt grades and weld electrodes by
 * designation, all stresses in ksi. The tables are constants and a lookup of
 * any key that is not listed raises KeyError.
 */
module Materials {
  import opened Wrappers
  import opened DataModels

  /** A weld electrode, as far as the registry uses it: its classification strength Fexx. */
  datatype WeldElectrode = WeldElectrode(Fexx: real)

  const MaterialTable: map<string, Material> := map[
    "a36" := Material(36.0, 58.0, 29000.0),
    "a572_gr50" := Material(50.0, 65.0, 29000.0),
    "a992" := Material(50.0, 65.0, 29000.0)
  ]

  /** `_n`: threads included in the shear plane; `_x`: threads excluded. */
  const BoltGradeTable: map<string, BoltGrade> := map[
    "a325_n" := BoltGrade(90.0, 54.0),
    "a325_x" := BoltGrade(90.0, 68.0),
    "a490_n" := BoltGrade(113.0, 68.0),
    "a490_x" := BoltGrade(113.0, 84.0)
  ]

  const WeldElectrodeTable: map<string, WeldElectrode> := map[
    "e60xx" := WeldElectrode(60.0),
    "e70xx" := WeldElectrode(70.0),
    "e80xx" := WeldElectrode(80.0)
  ]

  /** `MATERIALS[key]`: every registered steel has Fu above Fy and E = 29000 ksi. */
  function LookupMaterial(key: string): (r: Result<Material>)
    ensures r.Ok? <==> key in {"a36", "a572_gr50", "a992"}
    ensures r.Err? ==> r.error == KeyError(key)
    ensures r.Ok? ==> r.value.Fy < r.value.Fu && r.value.E == 29000.0
  {
    if key in MaterialTable then Ok(MaterialTable[key]) else Err(KeyError(key))
  }

  /** `BOLT_GRADES[key]`: defined for the A325 and A490 grades only. */
  function LookupBoltGrade(key: string): (r: Result<BoltGrade>)
    ensures r.Ok? <==> key in {"a325_n", "a325_x", "a490_n", "a490_x"}
    ensures r.Err? ==> r.error == KeyError(key)
    ensures r.Ok? ==> 0.0 < r.value.Fnv < r.value.Fnt
  {
    if key in BoltGradeTable then Ok(BoltGradeTable[key]) else Err(KeyError(key))
  }

  /** `WELD_ELECTRODES[key]`: each electrode's Fexx is the strength its name carries. */
  function LookupWeldElectrode(key: string): (r: Result<WeldElectrode>)
    ensures r.Ok? <==> key in {"e60xx", "e70xx", "e80xx"}
    ensures r.Err? ==> r.error == KeyError(key)
    ensures key == "e60xx" ==> r == Ok(WeldElectrode(60.0))
    ensures key == "e70xx" ==> r == Ok(WeldElectrode(70.0))
    ensures key == "e80xx" ==> r == Ok(WeldElectrode(80.0))
  {
    if key in WeldElectrodeTable then Ok(WeldElectrodeTable[key]) else Err(KeyError(key))
  }

  /** A992 and A572 Grade 50 are registered with identical properties. */
  lemma A992MatchesA572Gr50()
    ensures LookupMaterial("a992") == LookupMaterial("a572_gr50")
  {
  }

  /** For each bolt type, excluding the threads raises Fnv and leaves Fnt as it is. */
  lemma ThreadsExcludedRaiseShearStress()
    ensures var n, x := LookupBoltGrade("a325_n").value, LookupBoltGrade("a325_x").value;
      n.Fnv < x.Fnv && n.Fnt == x.Fnt
    ensures var n, x := LookupBoltGrade("a490_n").value, LookupBoltGrade("a490_x").value;
      n.Fnv < x.Fnv && n.Fnt == x.Fnt
  {
  }

  /** Both A490 grades have a larger Fnt than both A325 grades. */
  lemma A490ExceedsA325InTension()
    ensures forall a, b :: a in {"a325_n", "a325_x"} && b in {"a490_n", "a490_x"} ==>
      LookupBoltGrade(a).value.Fnt < LookupBoltGrade(b).value.Fnt
  {
  }
}
