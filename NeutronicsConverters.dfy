// The neutronics converters (converters/neutronics.py): they read a
// material's element fractions and density at given operational conditions,
// convert the fractions to the basis the code wants, and hand them to the
// card writers of NeutronicsCards. The MCNP converter numbers materials from
// a shared counter when it is not given a material number.

module NeutronicsConverters {
  import opened Wrappers
  import opened Dicts
  import opened Strings
  import Num = Values
  import opened NeutronicsCards

  /** What the converters read of an `ElementFraction` of the nucleides
      module: the ZAID of the element or isotope, whether it is an isotope,
      the molar mass of the chemical element it belongs to, and its
      fraction. */
  datatype ElementFraction = ElementFraction(zaid: string, isIsotope: bool, elementMass: real, fraction: real)

  /** The `density` attribute of a material: missing, present but `None`,
      or a value already expressed in g/cm^3 at the conditions. */
  datatype Density = NoDensity | DensityNone | Density(gPerCm3: real)

  /** A material as the converters see it at one set of operational
      conditions: its element fractions (`elements.root`), the same
      expanded into nucleides (`elements.nucleides`), its density and the
      temperature of the conditions. */
  datatype NeutronicMaterial = NeutronicMaterial(
    name: string, elements: Dict<ElementFraction>, nucleides: Dict<ElementFraction>,
    density: Density, temperature: Num.Value)

  /** The mass-fraction conversion of the nucleides module. */
  type MassConversion = Dict<ElementFraction> -> Dict<ElementFraction>

  const NAvogadro: real := 602214076000000000000000.0

  // ---------------------------------------------------------------------
  // Shared steps
  // ---------------------------------------------------------------------

  /** `_to_fraction_conversion`: atomic fractions are kept, mass fractions
      converted, and any other basis is not implemented. */
  function ToFractionConversion(fractionType: string, ef: Dict<ElementFraction>, toMass: MassConversion): (r: Result<Dict<ElementFraction>>)
    ensures fractionType == "atomic" ==> r == Ok(ef)
    ensures fractionType == "mass" ==> r == Ok(toMass(ef))
    ensures r.Err? <==> fractionType != "atomic" && fractionType != "mass"
    ensures r.Err? ==> r.error == NotImplementedError("Conversion to " + fractionType + " not implemented")
  {
    if fractionType == "atomic" then Ok(ef)
    else if fractionType == "mass" then Ok(toMass(ef))
    else Err(NotImplementedError("Conversion to " + fractionType + " not implemented"))
  }

  /** `_get_mass_density`: a missing or `None` density is not implemented. */
  function MassDensity(m: NeutronicMaterial): (r: Result<real>)
    ensures r.Ok? <==> m.density.Density?
    ensures r.Ok? ==> r.value == m.density.gPerCm3
    ensures r.Err? ==> r.error == NotImplementedError("")
  {
    if m.density.Density? then Ok(m.density.gPerCm3) else Err(NotImplementedError(""))
  }

  /** `_atoms`: the number of atoms per cm^3 of a nucleide, N_A f rho / M;
      a zero molar mass divides by zero. */
  function Atoms(fraction: real, massDensity: real, molarMass: real): (r: Result<real>)
    ensures r.Err? <==> molarMass == 0.0
    ensures r.Err? ==> r.error == ZeroDivisionError
    ensures r.Ok? ==> r.value * molarMass == NAvogadro * fraction * massDensity
  {
    if molarMass == 0.0 then Err(ZeroDivisionError)
    else Ok(NAvogadro * fraction * massDensity / molarMass)
  }

  /** `[(v, percent_type) for _k, v in ef_dict.items()]`. */
  function NucleideList(ef: Dict<ElementFraction>, percentType: string): (r: seq<(Nucleide, string)>)
    ensures |r| == |ef|
    ensures forall i :: 0 <= i < |ef| ==>
      r[i].0.zaid == ef[i].1.zaid && r[i].0.fraction == ef[i].1.fraction && r[i].1 == percentType
  {
    seq(|ef|, i requires 0 <= i < |ef| => (Nucleide(ef[i].1.zaid, ef[i].1.fraction), percentType))
  }

  /** A card whose lines were written, rendered. */
  function Rendered(lines: Result<seq<string>>): Result<string>
  {
    if lines.Ok? then Ok(Render(lines.value)) else Err(lines.error)
  }

  // ---------------------------------------------------------------------
  // OpenMC
  // ---------------------------------------------------------------------

  /** The fields of `OpenMCNeutronicConfig`. */
  datatype OpenmcConfig = OpenmcConfig(
    zaidSuffix: string, materialId: Option<int>, packingFraction: real, percentType: string,
    enrichment: Option<real>, enrichmentTarget: Option<string>, enrichmentType: Option<string>,
    atomsPerUnitCell: Option<int>, volumeOfUnitCell: Option<real>, decimalPlaces: int)

  /** What is handed to the neutronics material maker. */
  datatype OpenmcMaterial = OpenmcMaterial(
    name: string, materialId: Option<int>, isotopes: Option<Dict<real>>, elements: Option<Dict<real>>,
    density: Option<real>, arguments: NmmArguments, packingFraction: real, enrichment: Option<real>,
    enrichmentTarget: Option<string>, zaidSuffix: string, atomsPerUnitCell: Option<int>,
    decimalPlaces: int)

  /** The `(key, fraction)` entries of the element fractions that are
      isotopes (`isotope` true) or elements (`isotope` false), in order. */
  function Selected(ef: Dict<ElementFraction>, isotope: bool): (r: seq<(string, real)>)
    ensures |r| <= |ef|
  {
    if |ef| == 0 then []
    else
      var n := |ef| - 1;
      var prev := Selected(ef[..n], isotope);
      if ef[n].1.isIsotope == isotope then prev + [(ef[n].0, ef[n].1.fraction)] else prev
  }

  lemma {:induction false} SelectedStep(ef: Dict<ElementFraction>, i: nat, isotope: bool)
    requires i < |ef|
    ensures Selected(ef[..i + 1], isotope)
         == if ef[i].1.isIsotope == isotope then Selected(ef[..i], isotope) + [(ef[i].0, ef[i].1.fraction)]
            else Selected(ef[..i], isotope)
  {
    assert ef[..i + 1][..i] == ef[..i];
  }

  /** The isotope/element separation of `OpenMCNeutronicConfig.convert`. */
  method SplitIsotopes(ef: Dict<ElementFraction>) returns (isotopes: Dict<real>, elements: Dict<real>)
    ensures isotopes == FromList(Selected(ef, true))
    ensures elements == FromList(Selected(ef, false))
  {
    isotopes, elements := [], [];
    for i := 0 to |ef|
      invariant isotopes == FromList(Selected(ef[..i], true))
      invariant elements == FromList(Selected(ef[..i], false))
    {
      SelectedStep(ef, i, true);
      SelectedStep(ef, i, false);
      var e := (ef[i].0, ef[i].1.fraction);
      if ef[i].1.isIsotope {
        FromListSnoc(Selected(ef[..i], true), e);
        isotopes := Set(isotopes, e.0, e.1);
      } else {
        FromListSnoc(Selected(ef[..i], false), e);
        elements := Set(elements, e.0, e.1);
      }
    }
    assert ef[..|ef|] == ef;
  }

  lemma {:induction false} SelectedAbsent(ef: Dict<ElementFraction>, isotope: bool, k: string)
    requires forall i :: 0 <= i < |ef| ==> ef[i].0 != k
    ensures LastWith(Selected(ef, isotope), k) == None
  {
    if |ef| > 0 {
      SelectedAbsent(ef[..|ef| - 1], isotope, k);
    }
  }

  lemma {:induction false} SelectedLast(ef: Dict<ElementFraction>, k: string)
    requires DistinctKeys(ef)
    ensures LastWith(ef, k).None? ==>
      LastWith(Selected(ef, true), k) == None && LastWith(Selected(ef, false), k) == None
    ensures LastWith(ef, k).Some? ==>
      var v := LastWith(ef, k).value;
      LastWith(Selected(ef, v.isIsotope), k) == Some(v.fraction)
      && LastWith(Selected(ef, !v.isIsotope), k) == None
  {
    if |ef| > 0 {
      var n := |ef| - 1;
      var init := ef[..n];
      assert DistinctKeys(init) by {
        forall i, j | 0 <= i < j < |init| ensures init[i].0 != init[j].0 {
          assert init[i] == ef[i] && init[j] == ef[j];
        }
      }
      if ef[n].0 == k {
        assert forall i :: 0 <= i < |init| ==> init[i].0 != k by {
          forall i | 0 <= i < |init| ensures init[i].0 != k {
            assert init[i] == ef[i];
          }
        }
        SelectedAbsent(init, !ef[n].1.isIsotope, k);
      } else {
        SelectedLast(init, k);
      }
    }
  }

  /** Every composition entry goes into exactly one of the two maps, with
      its fraction: isotopes into `isotopes`, elements into `elements`;
      keys not in the composition are in neither. */
  lemma {:induction false} SplitPartition(ef: Dict<ElementFraction>, k: string)
    requires DistinctKeys(ef)
    ensures var isotopes := FromList(Selected(ef, true));
      var elements := FromList(Selected(ef, false));
      match Get(ef, k)
      case None => Get(isotopes, k) == None && Get(elements, k) == None
      case Some(v) =>
        (v.isIsotope ==> Get(isotopes, k) == Some(v.fraction) && Get(elements, k) == None)
        && (!v.isIsotope ==> Get(elements, k) == Some(v.fraction) && Get(isotopes, k) == None)
  {
    GetLast(ef, k);
    FromListGet(Selected(ef, true), k);
    FromListGet(Selected(ef, false), k);
    SelectedLast(ef, k);
  }

  /** `hasattr(material, "density")`: the density is read when the
      attribute exists, and reading it from `None` fails. */
  function OpenmcDensity(m: NeutronicMaterial): (r: Result<Option<real>>)
    ensures m.density.NoDensity? ==> r == Ok(None)
    ensures m.density.DensityNone? ==> r == Err(AttributeError("value_as"))
    ensures m.density.Density? ==> r == Ok(Some(m.density.gPerCm3))
  {
    match m.density
    case NoDensity => Ok(None)
    case DensityNone => Err(AttributeError("value_as"))
    case Density(x) => Ok(Some(x))
  }

  /** `d or None`: an empty dict is passed on as `None`. */
  function NoneIfEmpty(d: Dict<real>): (r: Option<Dict<real>>)
    ensures r.None? <==> |d| == 0
    ensures r.Some? ==> r.value == d
  {
    if |d| == 0 then None else Some(d)
  }

  /** The call `to_openmc_material` receives from the converter. */
  function OpenmcRequestOf(conf: OpenmcConfig, m: NeutronicMaterial, density: Option<real>, toCode: bool): OpenmcRequest
  {
    OpenmcRequest(Some(m.temperature), Some(conf.percentType), density, Some("g/cm^3"),
                  conf.atomsPerUnitCell, conf.volumeOfUnitCell, conf.enrichmentType, toCode)
  }

  /** The material handed to the neutronics material maker, written with
      `decimalPlaces` digits. */
  function OpenmcMaterialOf(conf: OpenmcConfig, m: NeutronicMaterial, toMass: MassConversion,
                            toCode: bool, decimalPlaces: int): Result<OpenmcMaterial>
  {
    var ef :- ToFractionConversion(conf.percentType, m.elements, toMass);
    var density :- OpenmcDensity(m);
    var args :- OpenmcArguments(OpenmcRequestOf(conf, m, density, toCode));
    Ok(OpenmcMaterial(m.name, conf.materialId, NoneIfEmpty(FromList(Selected(ef, true))),
                      NoneIfEmpty(FromList(Selected(ef, false))), density, args, conf.packingFraction,
                      conf.enrichment, conf.enrichmentTarget, conf.zaidSuffix, conf.atomsPerUnitCell,
                      decimalPlaces))
  }

  method OpenmcConvertWith(conf: OpenmcConfig, m: NeutronicMaterial, toMass: MassConversion,
                           toCode: bool, decimalPlaces: int) returns (r: Result<OpenmcMaterial>)
    ensures r == OpenmcMaterialOf(conf, m, toMass, toCode, decimalPlaces)
  {
    var ef := ToFractionConversion(conf.percentType, m.elements, toMass);
    if ef.Err? {
      return Err(ef.error);
    }
    var isotopes, elements := SplitIsotopes(ef.value);
    var density := OpenmcDensity(m);
    if density.Err? {
      return Err(density.error);
    }
    var args := OpenmcArguments(OpenmcRequestOf(conf, m, density.value, toCode));
    if args.Err? {
      return Err(args.error);
    }
    r := Ok(OpenmcMaterial(m.name, conf.materialId, NoneIfEmpty(isotopes), NoneIfEmpty(elements),
                           density.value, args.value, conf.packingFraction, conf.enrichment,
                           conf.enrichmentTarget, conf.zaidSuffix, conf.atomsPerUnitCell, decimalPlaces));
  }

  /** `OpenMCNeutronicConfig.convert` as written: the precision passed on
      is the literal 8, whatever the configuration says. */
  method OpenmcConvertAsWritten(conf: OpenmcConfig, m: NeutronicMaterial, toMass: MassConversion, toCode: bool)
    returns (r: Result<OpenmcMaterial>)
    ensures r == OpenmcMaterialOf(conf, m, toMass, toCode, 8)
  {
    r := OpenmcConvertWith(conf, m, toMass, toCode, 8);
  }

  /** A configuration asking for 4 decimal places still gets 8. */
  lemma {:induction false} OpenmcPrecisionIgnored(conf: OpenmcConfig, m: NeutronicMaterial, toMass: MassConversion, toCode: bool)
    requires conf.decimalPlaces == 4
    requires OpenmcMaterialOf(conf, m, toMass, toCode, 8).Ok?
    ensures OpenmcMaterialOf(conf, m, toMass, toCode, 8).value.decimalPlaces != conf.decimalPlaces
  {
  }

  /** `OpenMCNeutronicConfig.convert` with the configured precision. */
  method OpenmcConvert(conf: OpenmcConfig, m: NeutronicMaterial, toMass: MassConversion, toCode: bool)
    returns (r: Result<OpenmcMaterial>)
    ensures r == OpenmcMaterialOf(conf, m, toMass, toCode, conf.decimalPlaces)
  {
    r := OpenmcConvertWith(conf, m, toMass, toCode, conf.decimalPlaces);
  }

  /** The OpenMC conversion fails for fraction bases other than atomic and
      mass (so "volume", which the configuration accepts, always fails) and
      for a `None` density. */
  lemma {:induction false} OpenmcConvertFails(conf: OpenmcConfig, m: NeutronicMaterial, toMass: MassConversion, toCode: bool)
    ensures var r := OpenmcMaterialOf(conf, m, toMass, toCode, conf.decimalPlaces);
      (conf.percentType != "atomic" && conf.percentType != "mass" ==>
         r == Err(NotImplementedError("Conversion to " + conf.percentType + " not implemented")))
      && (conf.percentType in ["atomic", "mass"] && m.density.DensityNone? ==> r == Err(AttributeError("value_as")))
  {
  }

  /** A converted material carries the configured precision, the
      material's name, the isotopes and elements split (`None` when
      empty) and the density in g/cm^3 with the unit written "g/cm3". */
  lemma {:induction false} OpenmcConvertResult(conf: OpenmcConfig, m: NeutronicMaterial, toMass: MassConversion, toCode: bool)
    requires OpenmcMaterialOf(conf, m, toMass, toCode, conf.decimalPlaces).Ok?
    ensures var r := OpenmcMaterialOf(conf, m, toMass, toCode, conf.decimalPlaces).value;
      var ef := ToFractionConversion(conf.percentType, m.elements, toMass).value;
      r.decimalPlaces == conf.decimalPlaces
      && r.name == m.name
      && r.materialId == conf.materialId
      && r.isotopes == NoneIfEmpty(FromList(Selected(ef, true)))
      && r.elements == NoneIfEmpty(FromList(Selected(ef, false)))
      && r.density == (if m.density.Density? then Some(m.density.gPerCm3) else None)
      && r.arguments.densityUnit == "g/cm3"
  {
    var density := OpenmcDensity(m).value;
    var args := OpenmcArguments(OpenmcRequestOf(conf, m, density, toCode)).value;
    assert args.densityUnit == RemoveChar("g/cm^3", '^');
    GramsPerCubicCentimetre();
  }

  lemma {:induction false} GramsPerCubicCentimetre()
    ensures RemoveChar("g/cm^3", '^') == "g/cm3"
  {
    assert "/cm^3"[1..] == "cm^3" && "g/cm^3"[1..] == "/cm^3";
    CubicCentimetre();
    assert RemoveChar("/cm^3", '^') == "/cm3";
  }

  lemma {:induction false} CubicCentimetre()
    ensures RemoveChar("cm^3", '^') == "cm3"
  {
    assert "^3"[1..] == "3" && "m^3"[1..] == "^3" && "cm^3"[1..] == "m^3";
    assert RemoveChar("^3", '^') == "3";
    assert RemoveChar("m^3", '^') == "m3";
  }

  // ---------------------------------------------------------------------
  // Fispact
  // ---------------------------------------------------------------------

  /** The fields of `FispactNeutronicConfig`; the volume is already in cm^3. */
  datatype FispactConfig = FispactConfig(volumeCm3: real, decimalPlaces: int)

  /** The atoms per cm^3 of every nucleide in order, as `(key, atoms)`
      entries; the first zero molar mass divides by zero. */
  function AtomEntries(nucleides: Dict<ElementFraction>, massDensity: real): (r: Result<seq<(string, real)>>)
    ensures r.Ok? <==> forall i :: 0 <= i < |nucleides| ==> nucleides[i].1.elementMass != 0.0
    ensures r.Ok? ==> |r.value| == |nucleides| && forall i :: 0 <= i < |nucleides| ==>
      r.value[i].0 == nucleides[i].0
      && r.value[i].1 * nucleides[i].1.elementMass == NAvogadro * nucleides[i].1.fraction * massDensity
    ensures r.Err? ==> r.error == ZeroDivisionError
  {
    if |nucleides| == 0 then Ok([])
    else
      var n := |nucleides| - 1;
      var init := nucleides[..n];
      assert forall i :: 0 <= i < n ==> init[i] == nucleides[i];
      var prev :- AtomEntries(init, massDensity);
      var atoms :- Atoms(nucleides[n].1.fraction, massDensity, nucleides[n].1.elementMass);
      Ok(prev + [(nucleides[n].0, atoms)])
  }

  /** The Fispact card's lines. */
  function FispactCardLines(conf: FispactConfig, m: NeutronicMaterial, extra: Option<seq<string>>, fmt: Formats): Result<seq<string>>
  {
    var massDensity :- MassDensity(m);
    var atoms :- AtomEntries(m.nucleides, massDensity);
    Ok(FispactLines(conf.volumeCm3, massDensity, FromList(atoms), conf.decimalPlaces, extra, fmt))
  }

  /** `FispactNeutronicConfig.convert`. */
  method FispactConvert(conf: FispactConfig, m: NeutronicMaterial, extra: Option<seq<string>>, fmt: Formats)
    returns (r: Result<string>)
    ensures r == Rendered(FispactCardLines(conf, m, extra, fmt))
  {
    var massDensity := MassDensity(m);
    if massDensity.Err? {
      return Err(massDensity.error);
    }
    var isotopes := IsotopeAtoms(m.nucleides, massDensity.value);
    if isotopes.Err? {
      return Err(isotopes.error);
    }
    var card := ToFispactMaterial(conf.volumeCm3, massDensity.value, isotopes.value, conf.decimalPlaces, extra, fmt);
    r := Ok(card);
  }

  /** The loop of `FispactNeutronicConfig.convert` filling the isotope
      dictionary with the atoms per cm^3 of each nucleide. */
  method IsotopeAtoms(nucleides: Dict<ElementFraction>, massDensity: real) returns (r: Result<Dict<real>>)
    ensures r.Ok? <==> AtomEntries(nucleides, massDensity).Ok?
    ensures r.Ok? ==> r.value == FromList(AtomEntries(nucleides, massDensity).value)
    ensures r.Err? ==> r.error == AtomEntries(nucleides, massDensity).error
  {
    var isotopes: Dict<real> := [];
    for i := 0 to |nucleides|
      invariant AtomEntries(nucleides[..i], massDensity).Ok?
      invariant isotopes == FromList(AtomEntries(nucleides[..i], massDensity).value)
    {
      assert nucleides[..i + 1][..i] == nucleides[..i];
      var (k, v) := nucleides[i];
      var atoms := Atoms(v.fraction, massDensity, v.elementMass);
      if atoms.Err? {
        assert AtomEntries(nucleides[..i + 1], massDensity).Err?;
        AtomEntriesPrefixErr(nucleides, i + 1, massDensity);
        return Err(atoms.error);
      }
      FromListSnoc(AtomEntries(nucleides[..i], massDensity).value, (k, atoms.value));
      isotopes := Set(isotopes, k, atoms.value);
    }
    assert nucleides[..|nucleides|] == nucleides;
    r := Ok(isotopes);
  }

  lemma {:induction false} AtomEntriesPrefixErr(nucleides: Dict<ElementFraction>, k: nat, massDensity: real)
    requires k <= |nucleides| && AtomEntries(nucleides[..k], massDensity).Err?
    ensures AtomEntries(nucleides, massDensity).Err?
  {
    var p := nucleides[..k];
    var i :| 0 <= i < |p| && p[i].1.elementMass == 0.0;
    assert nucleides[i] == p[i];
  }

  /** With distinct nucleide keys no entry is lost to a repeated key: the
      Fispact card lists every nucleide once, in order, with the atoms
      `AtomEntries` computed for it. */
  lemma {:induction false} FispactAtoms(m: NeutronicMaterial)
    requires DistinctKeys(m.nucleides) && MassDensity(m).Ok?
    requires AtomEntries(m.nucleides, MassDensity(m).value).Ok?
    ensures var entries := AtomEntries(m.nucleides, MassDensity(m).value).value;
      FromList(entries) == entries
  {
    var entries := AtomEntries(m.nucleides, MassDensity(m).value).value;
    assert DistinctKeys(entries) by {
      forall i, j | 0 <= i < j < |entries| ensures entries[i].0 != entries[j].0 {
        assert entries[i].0 == m.nucleides[i].0 && entries[j].0 == m.nucleides[j].0;
      }
    }
    FromListDistinct(entries);
  }

  /** A list of entries with distinct keys is already a dict. */
  lemma {:induction false} FromListDistinct<V>(entries: seq<(string, V)>)
    requires DistinctKeys(entries)
    ensures FromList(entries) == entries
  {
    if |entries| > 0 {
      var n := |entries| - 1;
      var init := entries[..n];
      assert DistinctKeys(init) by {
        forall i, j | 0 <= i < j < |init| ensures init[i].0 != init[j].0 {
          assert init[i] == entries[i] && init[j] == entries[j];
        }
      }
      FromListDistinct(init);
      assert forall i :: 0 <= i < |init| ==> init[i].0 != entries[n].0 by {
        forall i | 0 <= i < |init| ensures init[i].0 != entries[n].0 {
          assert init[i] == entries[i];
        }
      }
      SetAbsentAppends(init, entries[n].0, entries[n].1);
      assert entries == init + [entries[n]];
    }
  }

  lemma {:induction false} SetAbsentAppends<V>(d: Dict<V>, k: string, v: V)
    requires !HasKey(d, k)
    ensures Set(d, k, v) == d + [(k, v)]
  {
    if |d| > 0 {
      HasKeyTail(d, k);
      SetAbsentAppends(d[1..], k, v);
      assert d == [d[0]] + d[1..];
    }
  }

  // ---------------------------------------------------------------------
  // MCNP
  // ---------------------------------------------------------------------

  /** The fields of `MCNPNeutronicConfig`. */
  datatype McnpConfig = McnpConfig(zaidSuffix: string, materialId: Option<int>, decimalPlaces: int, percentType: string)

  /** `global_id`: the next MCNP material number to hand out. */
  class GlobalId {
    var mcnp: int

    constructor()
      ensures mcnp == 1
    {
      mcnp := 1;
    }

    /** `mat_id = global_id["mcnp"]; global_id["mcnp"] += 1`. */
    method Take() returns (id: int)
      modifies this
      ensures id == old(mcnp) && mcnp == old(mcnp) + 1
    {
      id := mcnp;
      mcnp := mcnp + 1;
    }
  }

  /** The material number used and the counter afterwards: a given number
      is used as is, otherwise the counter's value is taken. */
  function Allocate(materialId: Option<int>, next: int): (r: (int, int))
    ensures materialId.Some? ==> r == (materialId.value, next)
    ensures materialId.None? ==> r == (next, next + 1)
  {
    if materialId.Some? then (materialId.value, next) else (next, next + 1)
  }

  /** The numbers of a series of conversions, and the counter after them. */
  function AllocateAll(requests: seq<Option<int>>, next: int): (r: (seq<int>, int))
    ensures |r.0| == |requests|
  {
    if |requests| == 0 then ([], next)
    else
      var (id, after) := Allocate(requests[0], next);
      var rest := AllocateAll(requests[1..], after);
      ([id] + rest.0, rest.1)
  }

  /** Conversions without a material number get consecutive numbers from
      the counter; conversions with one leave the counter alone. */
  lemma {:induction false} AllocateConsecutive(requests: seq<Option<int>>, next: int)
    requires forall i :: 0 <= i < |requests| ==> requests[i].None?
    ensures var r := AllocateAll(requests, next);
      r.1 == next + |requests| && forall i :: 0 <= i < |requests| ==> r.0[i] == next + i
  {
    if |requests| > 0 {
      AllocateConsecutive(requests[1..], next + 1);
    }
  }

  lemma {:induction false} AllocateGiven(requests: seq<Option<int>>, next: int)
    ensures var r := AllocateAll(requests, next);
      forall i :: 0 <= i < |requests| && requests[i].Some? ==> r.0[i] == requests[i].value
  {
    if |requests| > 0 {
      AllocateGiven(requests[1..], Allocate(requests[0], next).1);
    }
  }

  /** The converted fractions and the mass density, or the first failure. */
  function McnpPlan(percentType: string, m: NeutronicMaterial, toMass: MassConversion): Result<(Dict<ElementFraction>, real)>
  {
    var ef :- ToFractionConversion(percentType, m.nucleides, toMass);
    var massDensity :- MassDensity(m);
    Ok((ef, massDensity))
  }

  /** `MCNPNeutronicConfig.convert`. The counter moves only once the
      fractions and the density were obtained, even if writing the card
      then fails. */
  method McnpConvert(conf: McnpConfig, m: NeutronicMaterial, counter: GlobalId, toMass: MassConversion,
                     extra: Option<seq<string>>, fmt: Formats) returns (r: Result<string>)
    modifies counter
    ensures var plan := McnpPlan(conf.percentType, m, toMass);
      (plan.Err? ==> r == Err(plan.error) && counter.mcnp == old(counter.mcnp))
      && (plan.Ok? ==>
            var (id, next) := Allocate(conf.materialId, old(counter.mcnp));
            counter.mcnp == next
            && r == Rendered(McnpLines(id, plan.value.1, NucleideList(plan.value.0, conf.percentType), m.name,
                                       conf.zaidSuffix, conf.decimalPlaces, extra, fmt)))
  {
    var ef := ToFractionConversion(conf.percentType, m.nucleides, toMass);
    if ef.Err? {
      return Err(ef.error);
    }
    var massDensity := MassDensity(m);
    if massDensity.Err? {
      return Err(massDensity.error);
    }
    var matId: int;
    if conf.materialId.None? {
      matId := counter.Take();
    } else {
      matId := conf.materialId.value;
    }
    var nucleides := NucleideList(ef.value, conf.percentType);
    r := ToMcnpMaterial(matId, massDensity.value, nucleides, m.name, conf.zaidSuffix, conf.decimalPlaces, extra, fmt);
  }

  /** The MCNP card of a material without nucleides fails with an
      IndexError once the counter has moved; with nucleides, one line per
      nucleide in order follows the comment. */
  lemma {:induction false} McnpConvertShape(conf: McnpConfig, m: NeutronicMaterial, toMass: MassConversion, next: int,
                         extra: Option<seq<string>>, fmt: Formats)
    requires McnpPlan(conf.percentType, m, toMass).Ok?
    ensures var plan := McnpPlan(conf.percentType, m, toMass).value;
      var lines := McnpLines(Allocate(conf.materialId, next).0, plan.1, NucleideList(plan.0, conf.percentType),
                             m.name, conf.zaidSuffix, conf.decimalPlaces, extra, fmt);
      (|plan.0| == 0 ==> lines == Err(IndexError))
      && (conf.percentType in ["atomic", "mass"] && |plan.0| > 0 ==>
            lines.Ok? && |lines.value| == 1 + |plan.0| + |EndLines(extra)|)
  {
    var plan := McnpPlan(conf.percentType, m, toMass).value;
    var nucleides := NucleideList(plan.0, conf.percentType);
    McnpFails(Allocate(conf.materialId, next).0, plan.1, nucleides, m.name, conf.zaidSuffix, conf.decimalPlaces, extra, fmt);
    var lines := McnpLines(Allocate(conf.materialId, next).0, plan.1, nucleides,
                           m.name, conf.zaidSuffix, conf.decimalPlaces, extra, fmt);
    if lines.Ok? {
      McnpShape(Allocate(conf.materialId, next).0, plan.1, nucleides, m.name, conf.zaidSuffix, conf.decimalPlaces, extra, fmt);
    }
  }

  // ---------------------------------------------------------------------
  // Serpent
  // ---------------------------------------------------------------------

  /** The fields of `SerpentNeutronicConfig`. */
  datatype SerpentConfig = SerpentConfig(zaidSuffix: string, decimalPlaces: int, percentType: string)

  /** `SerpentNeutronicConfig.convert`. */
  method SerpentConvert(conf: SerpentConfig, m: NeutronicMaterial, toMass: MassConversion,
                        extra: Option<seq<string>>, toCode: bool, fmt: Formats) returns (r: Result<string>)
    ensures var plan := McnpPlan(conf.percentType, m, toMass);
      (plan.Err? ==> r == Err(plan.error))
      && (plan.Ok? ==>
            r == Rendered(SerpentLines(m.name, plan.value.1, NucleideList(plan.value.0, conf.percentType),
                                       Some(m.temperature), conf.decimalPlaces, conf.zaidSuffix, extra, toCode, fmt)))
  {
    var ef := ToFractionConversion(conf.percentType, m.nucleides, toMass);
    if ef.Err? {
      return Err(ef.error);
    }
    var massDensity := MassDensity(m);
    if massDensity.Err? {
      return Err(massDensity.error);
    }
    var nucleides := NucleideList(ef.value, conf.percentType);
    r := ToSerpentMaterial(m.name, massDensity.value, nucleides, Some(m.temperature), conf.decimalPlaces,
                           conf.zaidSuffix, extra, toCode, fmt);
  }

  /** A Serpent card for atomic or mass fractions fails only on a
      multi-valued temperature sent to the code, and otherwise has one
      line per nucleide after the header. */
  lemma {:induction false} SerpentConvertShape(conf: SerpentConfig, m: NeutronicMaterial, toMass: MassConversion,
                            extra: Option<seq<string>>, toCode: bool, fmt: Formats)
    requires McnpPlan(conf.percentType, m, toMass).Ok?
    ensures var plan := McnpPlan(conf.percentType, m, toMass).value;
      var lines := SerpentLines(m.name, plan.1, NucleideList(plan.0, conf.percentType), Some(m.temperature),
                                conf.decimalPlaces, conf.zaidSuffix, extra, toCode, fmt);
      (lines.Err? <==> toCode && m.temperature.Array? && Num.Size(m.temperature) != 1)
      && (lines.Ok? ==> |lines.value| == 1 + |plan.0| + |EndLines(extra)|)
  {
    var plan := McnpPlan(conf.percentType, m, toMass).value;
    SerpentShape(m.name, plan.1, NucleideList(plan.0, conf.percentType), Some(m.temperature),
                 conf.decimalPlaces, conf.zaidSuffix, extra, toCode, fmt);
  }
}
