// The material cards of the neutronics codes (tools/neutronics.py): the
// Fispact DENSITY/FUEL card, the MCNP and Serpent cards with one nucleide per
// line, and the argument checks made before a material is handed to the
// neutronics material maker for OpenMC. Cards are lists of lines joined with
// newlines; the printf-style number formatting is a parameter.

module NeutronicsCards {
  import opened Wrappers
  import opened Dicts
  import opened Strings
  import Num = Values

  // ---------------------------------------------------------------------
  // Shared pieces
  // ---------------------------------------------------------------------

  /** `f"{x:.{dp}e}"`, `f"{x:.{dp}E}"` and `f"{t}"` for a temperature:
      number formatting is not modelled. */
  datatype Formats = Formats(lowerExp: (real, int) -> string, upperExp: (real, int) -> string,
                             show: Num.Value -> string)

  /** What a card reads of an element fraction: the ZAID of its nucleide and
      its fraction. */
  datatype Nucleide = Nucleide(zaid: string, fraction: real)

  /** `NMM_FRACTION_TYPE_MAPPING`. */
  const NmmFractionTypes: Dict<string> := [("atomic", "ao"), ("mass", "wo"), ("volume", "vo")]

  /** The neutronics material maker's name of a fraction basis. */
  function NmmFractionType(t: string): (r: Option<string>)
    ensures t == "atomic" <==> r == Some("ao")
    ensures t == "mass" <==> r == Some("wo")
    ensures t == "volume" <==> r == Some("vo")
    ensures r.None? <==> t !in ["atomic", "mass", "volume"]
  {
    Get(NmmFractionTypes, t)
  }

  /** `_percent_prefix`: atomic fractions are written after two spaces, mass
      fractions after " -" (a negative number means a mass fraction). */
  function PercentPrefix(t: string): (r: Result<string>)
    ensures r == Ok("  ") <==> t == "atomic"
    ensures r == Ok(" -") <==> t == "mass"
    ensures r.Err? <==> t != "atomic" && t != "mass"
    ensures r.Err? ==> r.error == ValueError("")
  {
    if t == "atomic" then Ok("  ")
    else if t == "mass" then Ok(" -")
    else Err(ValueError(""))
  }

  /** `_mcnp_serpert_extras`: ZAID, library suffix, prefix and fraction. */
  function Extras(isotope: (Nucleide, string), zaidSuffix: string, dp: int, fmt: Formats): Result<string>
  {
    var prefix :- PercentPrefix(isotope.1);
    Ok(isotope.0.zaid + zaidSuffix + prefix + fmt.lowerExp(isotope.0.fraction, dp))
  }

  const Indent: string := "      "

  /** The indented nucleide lines, one per entry in order; the first entry
      with an unknown percent type raises. */
  function IndentedLines(nucleides: seq<(Nucleide, string)>, zaidSuffix: string, dp: int, fmt: Formats): (r: Result<seq<string>>)
    ensures r.Ok? <==> forall i :: 0 <= i < |nucleides| ==> PercentPrefix(nucleides[i].1).Ok?
    ensures r.Ok? ==> |r.value| == |nucleides| && forall i :: 0 <= i < |nucleides| ==>
      r.value[i] == Indent + Extras(nucleides[i], zaidSuffix, dp, fmt).value
    ensures r.Err? ==> r.error == ValueError("")
  {
    if |nucleides| == 0 then Ok([])
    else
      var n := |nucleides| - 1;
      var init := nucleides[..n];
      assert forall i :: 0 <= i < n ==> init[i] == nucleides[i];
      var prev :- IndentedLines(init, zaidSuffix, dp, fmt);
      var last :- Extras(nucleides[n], zaidSuffix, dp, fmt);
      Ok(prev + [Indent + last])
  }

  /** How many leading entries have a known percent type. */
  function GoodPrefix(nucleides: seq<(Nucleide, string)>): (k: nat)
    ensures k <= |nucleides|
    ensures forall i :: 0 <= i < k ==> PercentPrefix(nucleides[i].1).Ok?
    ensures k < |nucleides| ==> PercentPrefix(nucleides[k].1).Err?
  {
    if |nucleides| == 0 || PercentPrefix(nucleides[0].1).Err? then 0
    else
      var k := GoodPrefix(nucleides[1..]);
      assert forall i :: 1 <= i < k + 1 ==> nucleides[i] == nucleides[1..][i - 1];
      k + 1
  }

  /** `additional_end_lines or []`. */
  function EndLines(extra: Option<seq<string>>): seq<string>
  {
    if extra.Some? then extra.value else []
  }

  /** `"\n".join(lines) + "\n"`. */
  function Render(lines: seq<string>): string
  {
    Join(lines, "\n") + "\n"
  }

  predicate SingleLines(lines: seq<string>)
  {
    forall i :: 0 <= i < |lines| ==> '\n' !in lines[i]
  }

  lemma {:induction false} JoinSnoc(parts: seq<string>, s: string, sep: string)
    requires |parts| >= 1
    ensures Join(parts + [s], sep) == Join(parts, sep) + sep + s
  {
    if |parts| > 1 {
      JoinSnoc(parts[1..], s, sep);
      assert (parts + [s])[1..] == parts[1..] + [s];
    }
  }

  /** A rendered card reads back, line by line, as its lines followed by the
      empty text after the final newline: `card.split("\n")[:-1]` is the
      list of lines. */
  lemma {:induction false} RenderSplit(lines: seq<string>)
    requires |lines| >= 1 && SingleLines(lines)
    ensures Split(Render(lines), "\n") == lines + [""]
  {
    JoinSnoc(lines, "", "\n");
    assert Render(lines) == Join(lines + [""], "\n");
    assert forall i :: 0 <= i < |lines + [""]| ==> '\n' !in (lines + [""])[i];
    SplitJoin(lines + [""], '\n');
  }

  /** A card under construction: the list of lines the builders extend in
      place. */
  class Card {
    var lines: seq<string>

    constructor(lines: seq<string>)
      ensures this.lines == lines
    {
      this.lines := lines;
    }

    /** `_general_end`: the extra lines are appended and the card is
        rendered. */
    method GeneralEnd(extra: Option<seq<string>>) returns (card: string)
      modifies this
      ensures lines == old(lines) + EndLines(extra)
      ensures card == Render(lines)
    {
      lines := lines + EndLines(extra);
      card := Join(lines, "\n") + "\n";
    }

    /** `_mcnp_serpert_ending`: one indented line per nucleide, then the
        general end. A bad percent type raises after the lines before it
        were added. */
    method McnpSerpentEnding(nucleides: seq<(Nucleide, string)>, zaidSuffix: string, dp: int,
                             extra: Option<seq<string>>, fmt: Formats) returns (card: Result<string>)
      modifies this
      ensures IndentedLines(nucleides, zaidSuffix, dp, fmt).Ok? ==>
        lines == old(lines) + IndentedLines(nucleides, zaidSuffix, dp, fmt).value + EndLines(extra)
        && card == Ok(Render(lines))
      ensures IndentedLines(nucleides, zaidSuffix, dp, fmt).Err? ==>
        card == Err(ValueError(""))
        && lines == old(lines) + IndentedLines(nucleides[..GoodPrefix(nucleides)], zaidSuffix, dp, fmt).value
    {
      for i := 0 to |nucleides|
        invariant IndentedLines(nucleides[..i], zaidSuffix, dp, fmt).Ok?
        invariant lines == old(lines) + IndentedLines(nucleides[..i], zaidSuffix, dp, fmt).value
        invariant i <= GoodPrefix(nucleides)
      {
        var line := Extras(nucleides[i], zaidSuffix, dp, fmt);
        assert nucleides[..i + 1][..i] == nucleides[..i];
        if line.Err? {
          assert GoodPrefix(nucleides) == i;
          return Err(line.error);
        }
        lines := lines + [Indent + line.value];
      }
      assert nucleides[..|nucleides|] == nucleides;
      var text := GeneralEnd(extra);
      return Ok(text);
    }

    /** `mat_card[0] += text`. */
    method AppendToFirst(text: string)
      requires |lines| > 0
      modifies this
      ensures lines == [old(lines)[0] + text] + old(lines)[1..]
    {
      lines := [lines[0] + text] + lines[1..];
    }
  }

  // ---------------------------------------------------------------------
  // Fispact
  // ---------------------------------------------------------------------

  /** One nucleide line of the Fispact card: the name, two spaces and the
      number of atoms in the volume. */
  function AtomLine(volumeCm3: real, entry: (string, real), dp: int, fmt: Formats): string
  {
    entry.0 + "  " + fmt.upperExp(volumeCm3 * entry.1, dp)
  }

  function AtomLines(volumeCm3: real, atoms: Dict<real>, dp: int, fmt: Formats): (r: seq<string>)
    ensures |r| == |atoms| && forall i :: 0 <= i < |atoms| ==> r[i] == AtomLine(volumeCm3, atoms[i], dp, fmt)
  {
    seq(|atoms|, i requires 0 <= i < |atoms| => AtomLine(volumeCm3, atoms[i], dp, fmt))
  }

  function FispactHeader(massDensity: real, count: nat, dp: int, fmt: Formats): seq<string>
  {
    ["DENSITY " + fmt.upperExp(massDensity, dp), "FUEL " + NatToString(count)]
  }

  /** The Fispact card: the density, the number of nucleides, then each
      nucleide with its number of atoms in the given volume. */
  function FispactLines(volumeCm3: real, massDensity: real, atoms: Dict<real>, dp: int,
                        extra: Option<seq<string>>, fmt: Formats): seq<string>
  {
    FispactHeader(massDensity, |atoms|, dp, fmt) + AtomLines(volumeCm3, atoms, dp, fmt) + EndLines(extra)
  }

  /** `to_fispact_material`. */
  method ToFispactMaterial(volumeCm3: real, massDensity: real, atoms: Dict<real>, dp: int,
                           extra: Option<seq<string>>, fmt: Formats) returns (card: string)
    ensures card == Render(FispactLines(volumeCm3, massDensity, atoms, dp, extra, fmt))
  {
    var c := new Card(["DENSITY " + fmt.upperExp(massDensity, dp), "FUEL " + NatToString(|atoms|)]);
    for i := 0 to |atoms|
      invariant c.lines == FispactHeader(massDensity, |atoms|, dp, fmt) + AtomLines(volumeCm3, atoms[..i], dp, fmt)
    {
      assert AtomLines(volumeCm3, atoms[..i + 1], dp, fmt)
          == AtomLines(volumeCm3, atoms[..i], dp, fmt) + [AtomLine(volumeCm3, atoms[i], dp, fmt)];
      c.lines := c.lines + [atoms[i].0 + "  " + fmt.upperExp(volumeCm3 * atoms[i].1, dp)];
    }
    assert atoms[..|atoms|] == atoms;
    card := c.GeneralEnd(extra);
  }

  /** The Fispact card has the density line, the FUEL line counting the
      nucleides, one line per nucleide in order (name, two spaces, atoms)
      and the extra lines last. */
  lemma {:induction false} FispactShape(volumeCm3: real, massDensity: real, atoms: Dict<real>, dp: int,
                     extra: Option<seq<string>>, fmt: Formats)
    ensures var lines := FispactLines(volumeCm3, massDensity, atoms, dp, extra, fmt);
      |lines| == 2 + |atoms| + |EndLines(extra)|
      && lines[0] == "DENSITY " + fmt.upperExp(massDensity, dp)
      && lines[1] == "FUEL " + NatToString(|atoms|)
      && (forall i :: 0 <= i < |atoms| ==> lines[2 + i][..|atoms[i].0| + 2] == atoms[i].0 + "  ")
      && lines[2 + |atoms|..] == EndLines(extra)
  {
    var lines := FispactLines(volumeCm3, massDensity, atoms, dp, extra, fmt);
    forall i | 0 <= i < |atoms| ensures lines[2 + i][..|atoms[i].0| + 2] == atoms[i].0 + "  " {
      FispactLineAt(volumeCm3, massDensity, atoms, dp, extra, fmt, i);
      AtomLineStart(volumeCm3, atoms[i], dp, fmt);
    }
    FispactEnd(volumeCm3, massDensity, atoms, dp, extra, fmt);
  }

  lemma {:induction false} FispactLineAt(volumeCm3: real, massDensity: real, atoms: Dict<real>, dp: int,
                      extra: Option<seq<string>>, fmt: Formats, i: nat)
    requires i < |atoms|
    ensures |FispactLines(volumeCm3, massDensity, atoms, dp, extra, fmt)| > 2 + i
    ensures FispactLines(volumeCm3, massDensity, atoms, dp, extra, fmt)[2 + i] == AtomLine(volumeCm3, atoms[i], dp, fmt)
  {
    var body := AtomLines(volumeCm3, atoms, dp, fmt);
    var head := FispactHeader(massDensity, |atoms|, dp, fmt);
    assert (head + body + EndLines(extra))[2 + i] == body[i];
  }

  lemma {:induction false} FispactEnd(volumeCm3: real, massDensity: real, atoms: Dict<real>, dp: int,
                   extra: Option<seq<string>>, fmt: Formats)
    ensures |FispactLines(volumeCm3, massDensity, atoms, dp, extra, fmt)| == 2 + |atoms| + |EndLines(extra)|
    ensures FispactLines(volumeCm3, massDensity, atoms, dp, extra, fmt)[2 + |atoms|..] == EndLines(extra)
  {
    var body := AtomLines(volumeCm3, atoms, dp, fmt);
    var head := FispactHeader(massDensity, |atoms|, dp, fmt);
    assert (head + body + EndLines(extra))[2 + |atoms|..] == EndLines(extra);
  }

  lemma {:induction false} AtomLineStart(volumeCm3: real, entry: (string, real), dp: int, fmt: Formats)
    ensures AtomLine(volumeCm3, entry, dp, fmt)[..|entry.0| + 2] == entry.0 + "  "
  {
    var line := AtomLine(volumeCm3, entry, dp, fmt);
    assert forall k :: 0 <= k < |entry.0| + 2 ==> line[k] == (entry.0 + "  ")[k];
  }

  // ---------------------------------------------------------------------
  // Serpent
  // ---------------------------------------------------------------------

  const SingularTemperature: string := "Only singular temperature value can be passed into neutronics material"

  /** The first Serpent line: name and negated absolute density, with the
      temperature appended when asked for and given; an array temperature
      must hold exactly one value. */
  function SerpentHeader(name: string, massDensity: real, temperature: Option<Num.Value>, dp: int,
                         toCode: bool, fmt: Formats): (r: Result<string>)
    ensures r.Err? <==> toCode && temperature.Some? && temperature.value.Array? && Num.Size(temperature.value) != 1
    ensures r.Err? ==> r.error == ValueError(SingularTemperature)
    ensures r.Ok? && toCode && temperature.Some? ==>
      r.value == "mat " + name + " -" + fmt.lowerExp(Num.Abs(massDensity), dp) + " tmp " + fmt.show(temperature.value)
    ensures r.Ok? && !(toCode && temperature.Some?) ==>
      r.value == "mat " + name + " -" + fmt.lowerExp(Num.Abs(massDensity), dp)
  {
    var head := "mat " + name + " -" + fmt.lowerExp(Num.Abs(massDensity), dp);
    if toCode && temperature.Some? then
      if temperature.value.Array? && Num.Size(temperature.value) != 1 then Err(ValueError(SingularTemperature))
      else Ok(head + " tmp " + fmt.show(temperature.value))
    else Ok(head)
  }

  function SerpentLines(name: string, massDensity: real, nucleides: seq<(Nucleide, string)>,
                        temperature: Option<Num.Value>, dp: int, zaidSuffix: string,
                        extra: Option<seq<string>>, toCode: bool, fmt: Formats): Result<seq<string>>
  {
    var header :- SerpentHeader(name, massDensity, temperature, dp, toCode, fmt);
    var body :- IndentedLines(nucleides, zaidSuffix, dp, fmt);
    Ok([header] + body + EndLines(extra))
  }

  /** `to_serpent_material`. */
  method ToSerpentMaterial(name: string, massDensity: real, nucleides: seq<(Nucleide, string)>,
                           temperature: Option<Num.Value>, dp: int, zaidSuffix: string,
                           extra: Option<seq<string>>, toCode: bool, fmt: Formats) returns (r: Result<string>)
    ensures var lines := SerpentLines(name, massDensity, nucleides, temperature, dp, zaidSuffix, extra, toCode, fmt);
      (lines.Err? ==> r == Err(lines.error)) && (lines.Ok? ==> r == Ok(Render(lines.value)))
  {
    var c := new Card(["mat " + name + " -" + fmt.lowerExp(Num.Abs(massDensity), dp)]);
    if toCode && temperature.Some? {
      if temperature.value.Array? && Num.Size(temperature.value) != 1 {
        return Err(ValueError(SingularTemperature));
      }
      ghost var head := c.lines[0];
      c.AppendToFirst(" tmp " + fmt.show(temperature.value));
      assert c.lines == [head + (" tmp " + fmt.show(temperature.value))];
      assert head + (" tmp " + fmt.show(temperature.value)) == head + " tmp " + fmt.show(temperature.value);
      assert c.lines == [SerpentHeader(name, massDensity, temperature, dp, toCode, fmt).value];
    }
    r := c.McnpSerpentEnding(nucleides, zaidSuffix, dp, extra, fmt);
  }

  /** The Serpent card is the header, one indented line per nucleide in
      order and the extra lines; it fails exactly on a bad temperature or
      percent type. */
  lemma {:induction false} SerpentShape(name: string, massDensity: real, nucleides: seq<(Nucleide, string)>,
                     temperature: Option<Num.Value>, dp: int, zaidSuffix: string,
                     extra: Option<seq<string>>, toCode: bool, fmt: Formats)
    ensures var r := SerpentLines(name, massDensity, nucleides, temperature, dp, zaidSuffix, extra, toCode, fmt);
      (r.Ok? <==> SerpentHeader(name, massDensity, temperature, dp, toCode, fmt).Ok?
                  && forall i :: 0 <= i < |nucleides| ==> PercentPrefix(nucleides[i].1).Ok?)
      && (r.Ok? ==>
            |r.value| == 1 + |nucleides| + |EndLines(extra)|
            && r.value[0] == SerpentHeader(name, massDensity, temperature, dp, toCode, fmt).value
            && (forall i :: 1 <= i <= |nucleides| ==> r.value[i][..6] == Indent)
            && r.value[1 + |nucleides|..] == EndLines(extra))
  {
    var r := SerpentLines(name, massDensity, nucleides, temperature, dp, zaidSuffix, extra, toCode, fmt);
    if r.Ok? {
      var body := IndentedLines(nucleides, zaidSuffix, dp, fmt).value;
      assert r.value == [r.value[0]] + body + EndLines(extra);
      forall i | 1 <= i <= |nucleides| ensures r.value[i][..6] == Indent {
        assert r.value[i] == body[i - 1];
      }
    }
  }

  // ---------------------------------------------------------------------
  // MCNP
  // ---------------------------------------------------------------------

  /** The MCNP card: a comment with name and density, the material number
      left-justified in five columns followed by the first nucleide, then
      one indented line per remaining nucleide; there must be a first
      nucleide. */
  function McnpLines(materialId: int, massDensity: real, nucleides: seq<(Nucleide, string)>, name: string,
                     zaidSuffix: string, dp: int, extra: Option<seq<string>>, fmt: Formats): Result<seq<string>>
  {
    if |nucleides| == 0 then Err(IndexError)
    else
      var first :- Extras(nucleides[0], zaidSuffix, dp, fmt);
      var rest :- IndentedLines(nucleides[1..], zaidSuffix, dp, fmt);
      Ok(["c     " + name + " density " + fmt.lowerExp(massDensity, dp) + " g/cm3",
          "M" + PadRight(IntToString(materialId), 5) + first] + rest + EndLines(extra))
  }

  /** `to_mcnp_material`. */
  method ToMcnpMaterial(materialId: int, massDensity: real, nucleides: seq<(Nucleide, string)>, name: string,
                        zaidSuffix: string, dp: int, extra: Option<seq<string>>, fmt: Formats) returns (r: Result<string>)
    ensures var lines := McnpLines(materialId, massDensity, nucleides, name, zaidSuffix, dp, extra, fmt);
      (lines.Err? ==> r == Err(lines.error)) && (lines.Ok? ==> r == Ok(Render(lines.value)))
  {
    if |nucleides| == 0 {
      return Err(IndexError);
    }
    var first := Extras(nucleides[0], zaidSuffix, dp, fmt);
    if first.Err? {
      return Err(first.error);
    }
    var c := new Card(["c     " + name + " density " + fmt.lowerExp(massDensity, dp) + " g/cm3",
                       "M" + PadRight(IntToString(materialId), 5) + first.value]);
    r := c.McnpSerpentEnding(nucleides[1..], zaidSuffix, dp, extra, fmt);
  }

  /** The MCNP card fails exactly without nucleides (an IndexError) or with
      a bad percent type. */
  lemma {:induction false} McnpFails(materialId: int, massDensity: real, nucleides: seq<(Nucleide, string)>, name: string,
                  zaidSuffix: string, dp: int, extra: Option<seq<string>>, fmt: Formats)
    ensures var r := McnpLines(materialId, massDensity, nucleides, name, zaidSuffix, dp, extra, fmt);
      (r.Ok? <==> |nucleides| > 0 && forall i :: 0 <= i < |nucleides| ==> PercentPrefix(nucleides[i].1).Ok?)
      && (|nucleides| == 0 ==> r == Err(IndexError))
  {
    if |nucleides| > 0 {
      var rest := nucleides[1..];
      assert forall i :: 1 <= i < |nucleides| ==> nucleides[i] == rest[i - 1];
    }
  }

  /** The MCNP card has 1 + len(nucleides) + len(extra lines) lines: the
      comment, the material line starting with "M" and the padded number,
      the indented remaining nucleides in order and the extra lines. */
  lemma {:induction false} McnpShape(materialId: int, massDensity: real, nucleides: seq<(Nucleide, string)>, name: string,
                  zaidSuffix: string, dp: int, extra: Option<seq<string>>, fmt: Formats)
    requires McnpLines(materialId, massDensity, nucleides, name, zaidSuffix, dp, extra, fmt).Ok?
    ensures var lines := McnpLines(materialId, massDensity, nucleides, name, zaidSuffix, dp, extra, fmt).value;
      |lines| == 1 + |nucleides| + |EndLines(extra)|
      && |lines[1]| >= 1 + |PadRight(IntToString(materialId), 5)|
      && lines[1][..1 + |PadRight(IntToString(materialId), 5)|] == "M" + PadRight(IntToString(materialId), 5)
      && (forall i :: 2 <= i <= |nucleides| ==> lines[i][..6] == Indent)
      && lines[1 + |nucleides|..] == EndLines(extra)
  {
    var lines := McnpLines(materialId, massDensity, nucleides, name, zaidSuffix, dp, extra, fmt).value;
    var first := Extras(nucleides[0], zaidSuffix, dp, fmt).value;
    var body := IndentedLines(nucleides[1..], zaidSuffix, dp, fmt).value;
    var head := "M" + PadRight(IntToString(materialId), 5);
    assert lines[1] == head + first;
    assert (head + first)[..|head|] == head;
    assert lines == lines[..2] + body + EndLines(extra);
    forall i | 2 <= i <= |nucleides| ensures lines[i][..6] == Indent {
      assert lines[i] == body[i - 2];
    }
  }

  // ---------------------------------------------------------------------
  // OpenMC
  // ---------------------------------------------------------------------

  /** The arguments of `to_openmc_material` the checks look at. */
  datatype OpenmcRequest = OpenmcRequest(
    temperature: Option<Num.Value>, percentType: Option<string>, density: Option<real>,
    densityUnit: Option<string>, atomsPerUnitCell: Option<int>, volumeOfUnitCell: Option<real>,
    enrichmentType: Option<string>, toCode: bool)

  /** What is passed on to the neutronics material maker in their place. */
  datatype NmmArguments = NmmArguments(
    temperature: Option<Num.Value>, percentType: string, enrichmentType: Option<string>,
    densityUnit: string, volumeOfUnitCellCm3: Option<real>)

  const DensityRequired: string :=
    "density calculation requires 'atoms_per_unit_cell' and 'volume_per_unit_cell' to be set when density is unset"

  /** The checks and argument translation of `to_openmc_material`. */
  function OpenmcArguments(req: OpenmcRequest): (r: Result<NmmArguments>)
    // without a density both unit-cell parameters are needed
    ensures req.density.None? && (req.atomsPerUnitCell.None? || req.volumeOfUnitCell.None?) ==>
      r == Err(ValueError(DensityRequired))
    // an array temperature sent to the code must hold exactly one value
    ensures !(req.density.None? && (req.atomsPerUnitCell.None? || req.volumeOfUnitCell.None?))
            && req.toCode && req.temperature.Some? && req.temperature.value.Array?
            && Num.Size(req.temperature.value) != 1 ==>
      r == Err(ValueError(SingularTemperature))
    // a temperature not sent to the code is dropped
    ensures r.Ok? ==> r.value.temperature == (if req.toCode then req.temperature else None)
    ensures r.Ok? ==> req.percentType.Some? && NmmFractionType(req.percentType.value) == Some(r.value.percentType)
    ensures r.Ok? ==> r.value.enrichmentType == (if req.enrichmentType.Some? then NmmFractionType(req.enrichmentType.value) else None)
    ensures r.Ok? ==> req.densityUnit.Some? && r.value.densityUnit == RemoveChar(req.densityUnit.value, '^')
    ensures r.Ok? ==> (r.value.volumeOfUnitCellCm3.Some? <==> req.volumeOfUnitCell.Some?)
    ensures r.Ok? && req.volumeOfUnitCell.Some? ==> r.value.volumeOfUnitCellCm3.value == req.volumeOfUnitCell.value * 1000000.0
  {
    if req.density.None? && (req.atomsPerUnitCell.None? || req.volumeOfUnitCell.None?) then
      Err(ValueError(DensityRequired))
    else if req.toCode && req.temperature.Some? && req.temperature.value.Array?
            && Num.Size(req.temperature.value) != 1 then
      Err(ValueError(SingularTemperature))
    else
      var temperature := if req.toCode then req.temperature else None;
      var enrichmentType := if req.enrichmentType.Some? then NmmFractionType(req.enrichmentType.value) else None;
      var percentKey := if req.percentType.Some? then req.percentType.value else "None";
      var percentType := NmmFractionType(percentKey);
      if req.percentType.None? || percentType.None? then Err(KeyError(percentKey))
      else if req.densityUnit.None? then Err(AttributeError("replace"))
      else
        var volume := if req.volumeOfUnitCell.Some? then Some(req.volumeOfUnitCell.value * 1000000.0) else None;
        Ok(NmmArguments(temperature, percentType.value, enrichmentType, RemoveChar(req.densityUnit.value, '^'), volume))
  }
}
