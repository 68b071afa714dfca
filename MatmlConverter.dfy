// The MatML converter (converters/matml.py): property names read from a
// MatML file, the grouping of parameters into properties, the conversion
// of a material into a MatML document, and the import of a document's
// single material.

module MatmlConverter {
  import opened Wrappers
  import opened Strings
  import opened Dicts
  import Num = Values
  import opened MatmlDocument
  import opened MatmlUtilities
  import Conditions

  // ---------------------------------------------------------------------
  // Property names
  // ---------------------------------------------------------------------

  /** The number of spaces a text starts with. */
  function LeadingSpaces(s: string): (k: nat)
    ensures k <= |s|
    ensures forall i :: 0 <= i < k ==> s[i] == ' '
    ensures k < |s| ==> s[k] != ' '
  {
    if |s| > 0 && s[0] == ' ' then 1 + LeadingSpaces(s[1..]) else 0
  }

  /** `name_pattern.sub("_", s)`: each maximal run of spaces that is
      followed by an ASCII letter becomes a single "_"; other runs stay. */
  function UnderscoreSpaces(s: string): (r: string)
    ensures |r| <= |s|
    ensures |s| > 0 && s[0] != ' ' ==> |r| > 0 && r[0] == s[0]
    decreases |s|
  {
    if |s| == 0 then ""
    else if s[0] != ' ' then [s[0]] + UnderscoreSpaces(s[1..])
    else
      var k := LeadingSpaces(s);
      if k < |s| && IsAsciiLetter(s[k]) then "_" + UnderscoreSpaces(s[k..])
      else s[..k] + UnderscoreSpaces(s[k..])
  }

  /** No space stands right before an ASCII letter. */
  predicate Separated(s: string)
  {
    forall i :: 0 <= i < |s| - 1 ==> !(s[i] == ' ' && IsAsciiLetter(s[i + 1]))
  }

  /** After the substitution no space is left before a letter. */
  lemma {:induction false} UnderscoreSpacesSeparates(s: string)
    ensures Separated(UnderscoreSpaces(s))
    decreases |s|
  {
    if |s| > 0 {
      var r := UnderscoreSpaces(s);
      if s[0] != ' ' {
        var rest := UnderscoreSpaces(s[1..]);
        UnderscoreSpacesSeparates(s[1..]);
        assert r == [s[0]] + rest;
        assert forall i :: 1 <= i < |r| ==> r[i] == rest[i - 1];
      } else {
        var k := LeadingSpaces(s);
        var rest := UnderscoreSpaces(s[k..]);
        UnderscoreSpacesSeparates(s[k..]);
        if k < |s| && IsAsciiLetter(s[k]) {
          assert r == "_" + rest;
          assert forall i :: 1 <= i < |r| ==> r[i] == rest[i - 1];
        } else {
          assert r == s[..k] + rest;
          assert forall i :: 0 <= i < k ==> r[i] == ' ';
          assert forall i :: k <= i < |r| ==> r[i] == rest[i - k];
          assert k < |s| ==> rest[0] == s[k];
        }
      }
    }
  }

  /** The text without its spaces and underscores. */
  function Letters(s: string): (r: string)
  {
    if |s| == 0 then ""
    else (if s[0] == ' ' || s[0] == '_' then "" else [s[0]]) + Letters(s[1..])
  }

  lemma {:induction false} LettersConcat(a: string, b: string)
    ensures Letters(a + b) == Letters(a) + Letters(b)
  {
    if |a| > 0 {
      assert (a + b)[1..] == a[1..] + b;
      LettersConcat(a[1..], b);
    } else {
      assert a + b == b;
    }
  }

  lemma {:induction false} LettersOfSpaces(s: string)
    requires forall i :: 0 <= i < |s| ==> s[i] == ' '
    ensures Letters(s) == ""
  {
    if |s| > 0 {
      LettersOfSpaces(s[1..]);
    }
  }

  /** The substitution changes only spaces: everything else is kept, in
      order. */
  lemma {:induction false} UnderscoreSpacesKeepsLetters(s: string)
    ensures Letters(UnderscoreSpaces(s)) == Letters(s)
    decreases |s|
  {
    if |s| > 0 {
      if s[0] != ' ' {
        UnderscoreSpacesKeepsLetters(s[1..]);
        var r := UnderscoreSpaces(s);
        assert r[1..] == UnderscoreSpaces(s[1..]);
      } else {
        var k := LeadingSpaces(s);
        UnderscoreSpacesKeepsLetters(s[k..]);
        LettersOfSpaces(s[..k]);
        LettersConcat(s[..k], s[k..]);
        assert s == s[..k] + s[k..];
        if k < |s| && IsAsciiLetter(s[k]) {
          var r := UnderscoreSpaces(s);
          assert r[1..] == UnderscoreSpaces(s[k..]);
        } else {
          LettersConcat(s[..k], UnderscoreSpaces(s[k..]));
        }
      }
    }
  }

  /** `rename`: spaces before words become "_", the text is lowercased,
      apostrophes are deleted and hyphens become "_". */
  function Rename(name: string): (r: string)
    ensures '\'' !in r && '-' !in r
    ensures forall i :: 0 <= i < |r| ==> !IsAsciiUpper(r[i])
    ensures |r| <= |name|
  {
    var lowered := Lower(UnderscoreSpaces(name));
    var removed := RemoveChar(lowered, '\'');
    assert forall i :: 0 <= i < |removed| ==> !IsAsciiUpper(removed[i]);
    ReplaceChar(removed, '-', '_')
  }

  /** The ANSYS export's "Specific Heat" reads as `specific_heat`, which
      is then translated. */
  lemma {:induction false} RenameSpecificHeat()
    ensures Rename("Specific Heat") == "specific_heat"
    ensures Translate(Rename("Specific Heat")) == "specific_heat_capacity"
  {
    UnderscoreSpecificHeat();
    LowerSpecificHeat();
    CleanSpecificHeat();
    TranslateSpecificHeat();
  }

  lemma {:induction false} CleanSpecificHeat()
    ensures ReplaceChar(RemoveChar("specific_heat", '\''), '-', '_') == "specific_heat"
  {
    assert '\'' !in "specific_heat" && '-' !in "specific_heat";
  }

  lemma {:induction false} TranslateSpecificHeat()
    ensures Translate("specific_heat") == "specific_heat_capacity"
  {
    TranslateKnown(0);
    assert NameTranslations[0] == ("specific_heat", "specific_heat_capacity");
  }

  lemma {:induction false} LowerSpecificHeat()
    ensures Lower("Specific_Heat") == "specific_heat"
  {
  }

  /** A word without spaces is kept as it is. */
  lemma {:induction false} UnderscoreSpacesWord(a: string, b: string)
    requires ' ' !in a
    ensures UnderscoreSpaces(a + b) == a + UnderscoreSpaces(b)
  {
    if |a| == 0 {
      assert a + b == b;
    } else {
      assert a[0] in a && forall c :: c in a[1..] ==> c in a;
      var ab := a + b;
      assert ab[0] == a[0] && ab[1..] == a[1..] + b;
      assert UnderscoreSpaces(ab) == [a[0]] + UnderscoreSpaces(a[1..] + b);
      UnderscoreSpacesWord(a[1..], b);
      ConsAppend(a, UnderscoreSpaces(b));
    }
  }

  lemma {:induction false} ConsAppend(a: string, t: string)
    requires |a| > 0
    ensures a + t == [a[0]] + (a[1..] + t)
  {
    assert a == [a[0]] + a[1..];
  }

  lemma {:induction false} UnderscoreHeat()
    ensures UnderscoreSpaces(" Heat") == "_Heat"
  {
    UnderscoreSpacesWord("Heat", "");
    assert "Heat" + "" == "Heat" && UnderscoreSpaces("") == "";
    assert " Heat"[1..] == "Heat";
    assert LeadingSpaces(" Heat") == 1;
    assert UnderscoreSpaces(" Heat") == "_" + UnderscoreSpaces(" Heat"[1..]);
  }

  lemma {:induction false} UnderscoreSpecificHeat()
    ensures UnderscoreSpaces("Specific Heat") == "Specific_Heat"
  {
    var s, t := "Specific Heat", "Specific_Heat";
    SpecificHeatPieces(s, t);
    UnderscoreHeat();
    UnderscoreSpacesPrefix(s, 8, t);
  }

  /** A prefix without spaces is kept, whatever follows it. */
  lemma {:induction false} UnderscoreSpacesPrefix(s: string, k: nat, t: string)
    requires k <= |s| && k <= |t| && ' ' !in s[..k] && s[..k] == t[..k]
    requires UnderscoreSpaces(s[k..]) == t[k..]
    ensures UnderscoreSpaces(s) == t
  {
    UnderscoreSpacesWord(s[..k], s[k..]);
    assert s[..k] + s[k..] == s;
    assert t[..k] + t[k..] == t;
  }

  lemma {:induction false} SpecificHeatPieces(s: string, t: string)
    requires s == "Specific Heat" && t == "Specific_Heat"
    ensures |s| == |t| == 13
    ensures s[..8] == t[..8] == "Specific" && s[8..] == " Heat" && t[8..] == "_Heat"
  {
  }

  /** `NAME_TRANSLATIONS`: MatML property names with a different name in
      the library. */
  const NameTranslations: Dict<string> := [
    ("specific_heat", "specific_heat_capacity"),
    ("tensile_ultimate_strength", "average_ultimate_tensile_stress"),
    ("tensile_yield_strength", "average_yield_stress"),
    ("coefficient_of_thermal_expansion", "coefficient_thermal_expansion"),
    ("resistivity", "electrical_resistivity"),
    ("yield_strength", "average_yield_stress")
  ]

  /** `NAME_TRANSLATIONS.get(name, name)`. */
  function Translate(name: string): (r: string)
    ensures !HasKey(NameTranslations, name) ==> r == name
    ensures HasKey(NameTranslations, name) ==> (name, r) in NameTranslations
  {
    if HasKey(NameTranslations, name) then
      GetFound(NameTranslations, name);
      Get(NameTranslations, name).value
    else name
  }

  /** Every listed name translates to its own entry. */
  lemma {:induction false} TranslateKnown(i: nat)
    requires i < |NameTranslations|
    ensures Translate(NameTranslations[i].0) == NameTranslations[i].1
  {
    assert DistinctKeys(NameTranslations);
    GetAt(NameTranslations, i);
  }

  /** The properties skipped by default on import. */
  const AnsysSkipped: seq<string> :=
    ["Color", "Magnetic Flux Density", "Magnetic Field Intensity", "Strain-Life Parameters", "Alternating Stress"]

  // ---------------------------------------------------------------------
  // Single or multiple values
  // ---------------------------------------------------------------------

  /** A parameter's value after `_single_multi_value`: its only item, a
      numpy array (the first item is a float), or the list itself. */
  datatype Single = One(item: Datum) | NumArray(items: seq<Datum>) | Many(items: seq<Datum>)

  /** The items a value holds. */
  function Flatten(v: Single): seq<Datum>
  {
    if v.One? then [v.item] else v.items
  }

  /** `_single_multi_value`; an empty list fails on `val[0]`. */
  function SingleMultiValue(val: seq<Datum>): (r: Result<Single>)
    ensures r.Err? <==> |val| == 0
    ensures r.Err? ==> r.error == IndexError
    ensures r.Ok? ==> Flatten(r.value) == val
    ensures r.Ok? ==> (r.value.One? <==> |val| == 1)
    ensures r.Ok? ==> (r.value.NumArray? <==> |val| > 1 && val[0].Number?)
  {
    if |val| == 1 then Ok(One(val[0]))
    else if |val| == 0 then Err(IndexError)
    else if val[0].Number? then Ok(NumArray(val))
    else Ok(Many(val))
  }

  // ---------------------------------------------------------------------
  // Operational condition configuration
  // ---------------------------------------------------------------------

  function SeqMin(xs: seq<real>): (m: real)
    requires |xs| > 0
    ensures m in xs && forall i :: 0 <= i < |xs| ==> m <= xs[i]
  {
    if |xs| == 1 then xs[0]
    else
      var m := SeqMin(xs[1..]);
      assert forall i :: 1 <= i < |xs| ==> xs[i] == xs[1..][i - 1];
      if xs[0] <= m then xs[0] else m
  }

  function SeqMax(xs: seq<real>): (m: real)
    requires |xs| > 0
    ensures m in xs && forall i :: 0 <= i < |xs| ==> xs[i] <= m
  {
    if |xs| == 1 then xs[0]
    else
      var m := SeqMax(xs[1..]);
      assert forall i :: 1 <= i < |xs| ==> xs[i] == xs[1..][i - 1];
      if xs[0] >= m then xs[0] else m
  }

  /** The condition fields other than the required temperature: their
      annotation is optional, and has no `model_fields`. */
  predicate OptionalCondition(name: string)
  {
    name in Conditions.ConditionNames[1..]
  }

  /** `_op_cond_config_creator`: the bounds of a condition are the least
      and greatest values of the independent variable; the unit is left
      out only for temperature in its default kelvin. */
  function OpCondConfigCreator(name: string, xs: seq<real>, unit: Num.Unit): (r: Result<(string, Conditions.PropertyConfig)>)
    ensures OptionalCondition(name) ==> r == Err(AttributeError("model_fields"))
    ensures !OptionalCondition(name) && |xs| == 0 ==> r.Err? && r.error.ValueError?
    ensures r.Ok? ==> r.value.0 == name && |xs| > 0
    ensures r.Ok? ==> (r.value.1.unit.None? <==> name == "temperature" && unit == "K")
    ensures r.Ok? ==> r.value.1.unit.Some? ==> r.value.1.unit.value == unit
    ensures r.Ok? ==> r.value.1.lower.Some? && r.value.1.upper.Some?
    ensures r.Ok? ==> r.value.1.lower.value in xs && r.value.1.upper.value in xs
    ensures r.Ok? ==> forall i :: 0 <= i < |xs| ==> r.value.1.lower.value <= xs[i] <= r.value.1.upper.value
  {
    if OptionalCondition(name) then Err(AttributeError("model_fields"))
    else if |xs| == 0 then Err(ValueError("zero-size array to reduction operation minimum which has no identity"))
    else if name == "temperature" && unit == "K" then
      Ok((name, Conditions.PropertyConfig(None, Some(SeqMin(xs)), Some(SeqMax(xs)))))
    else Ok((name, Conditions.PropertyConfig(Some(unit), Some(SeqMin(xs)), Some(SeqMax(xs)))))
  }

  /** Leaving out the default unit loses nothing: once the configuration
      is settled, with default units filled in, every condition it
      configures has the unit it was created with. */
  lemma {:induction false} OpCondConfigSettles(name: string, xs: seq<real>, unit: Num.Unit)
    requires OpCondConfigCreator(name, xs, unit).Ok?
    ensures var c := OpCondConfigCreator(name, xs, unit).value;
      name in Conditions.KnownConfigNames || c.1.unit.Some? ==>
      Conditions.SettleEntry(name, Conditions.Record(c.1)) == Ok(c.1.(unit := Some(unit)))
  {
  }

  // ---------------------------------------------------------------------
  // convert_to_properties
  // ---------------------------------------------------------------------

  /** A parameter as `import_from` records it: qualified "dependent"
      (True for Dependent, False for Independent) or not at all, with an
      "independent" key that is never written by the importer. */
  datatype ParamInput = ParamInput(dependent: Option<bool>, independent: Option<bool>, value: seq<Datum>, unit: Num.Unit)

  /** A parameter whose qualifier is neither Dependent nor Independent. */
  const EmptyParam := ParamInput(None, None, [], "")

  /** The name, value and unit recorded for a parameter. */
  datatype Variable = Variable(name: string, value: Single, unit: Num.Unit)

  /** What the scan over one property's parameters keeps: the last
      dependent and the last independent parameter. */
  datatype Scanned = Scanned(dependent: Option<Variable>, independent: Option<Variable>)

  function ScanStep(s: Scanned, k: string, pa: ParamInput): Result<Scanned>
  {
    var afterDependent :-
      if pa.dependent.Some? then
        var v :- SingleMultiValue(pa.value);
        Ok(s.(dependent := Some(Variable(k, v, pa.unit))))
      else Ok(s);
    if pa.independent.Some? then
      var v :- SingleMultiValue(pa.value);
      Ok(afterDependent.(independent := Some(Variable(k, v, pa.unit))))
    else Ok(afterDependent)
  }

  /** The inner loop of `convert_to_properties` over one property's
      parameters, in order. */
  function ScanParams(ps: Dict<ParamInput>): Result<Scanned>
  {
    if |ps| == 0 then Ok(Scanned(None, None))
    else
      var n := |ps| - 1;
      var s :- ScanParams(ps[..n]);
      ScanStep(s, ps[n].0, ps[n].1)
  }

  /** A parameter the scan reads a value from. */
  predicate Qualified(pa: ParamInput)
  {
    pa.dependent.Some? || pa.independent.Some?
  }

  /** The scan fails exactly when a qualified parameter has no value. */
  lemma {:induction false} ScanOk(ps: Dict<ParamInput>)
    ensures ScanParams(ps).Ok? <==> forall i :: 0 <= i < |ps| && Qualified(ps[i].1) ==> |ps[i].1.value| > 0
  {
    if |ps| > 0 {
      var n := |ps| - 1;
      var init := ps[..n];
      ScanOk(init);
      assert forall i :: 0 <= i < n ==> init[i] == ps[i];
      if ScanParams(init).Err? {
        var i :| 0 <= i < n && Qualified(init[i].1) && |init[i].1.value| == 0;
        assert ps[i] == init[i];
      }
    }
  }

  /** The scan finds a dependent variable exactly when some parameter is
      marked dependent, and the variable is the last such parameter. */
  lemma {:induction false} ScanDependent(ps: Dict<ParamInput>)
    requires ScanParams(ps).Ok?
    ensures ScanParams(ps).value.dependent.None? <==> forall i :: 0 <= i < |ps| ==> ps[i].1.dependent.None?
    ensures ScanParams(ps).value.dependent.Some? ==>
      exists i :: 0 <= i < |ps| && ps[i].1.dependent.Some? && ScanParams(ps).value.dependent.value.name == ps[i].0
        && (forall j :: i < j < |ps| ==> ps[j].1.dependent.None?)
  {
    if |ps| > 0 {
      var n := |ps| - 1;
      var init := ps[..n];
      ScanDependent(init);
      assert forall i :: 0 <= i < n ==> init[i] == ps[i];
      var s := ScanParams(init).value;
      var r := ScanParams(ps).value;
      if ps[n].1.dependent.Some? {
        assert r.dependent.value.name == ps[n].0;
      } else {
        assert r.dependent == s.dependent;
        if s.dependent.Some? {
          var i :| 0 <= i < n && init[i].1.dependent.Some? && s.dependent.value.name == init[i].0
            && (forall j :: i < j < n ==> init[j].1.dependent.None?);
          assert ps[i] == init[i];
        }
      }
    }
  }

  /** The scan finds an independent variable exactly when some parameter
      is marked independent. */
  lemma {:induction false} ScanIndependent(ps: Dict<ParamInput>)
    requires ScanParams(ps).Ok?
    ensures ScanParams(ps).value.independent.None? <==> forall i :: 0 <= i < |ps| ==> ps[i].1.independent.None?
  {
    if |ps| > 0 {
      var n := |ps| - 1;
      var init := ps[..n];
      ScanIndependent(init);
      assert forall i :: 0 <= i < n ==> init[i] == ps[i];
    }
  }

  /** A failure in the first `m` parameters is the scan's failure. */
  lemma {:induction false} ScanPrefixErr(ps: Dict<ParamInput>, m: nat)
    requires m <= |ps| && ScanParams(ps[..m]).Err?
    ensures ScanParams(ps) == ScanParams(ps[..m])
    decreases |ps|
  {
    if m == |ps| {
      assert ps[..m] == ps;
    } else {
      var n := |ps| - 1;
      assert ps[..n][..m] == ps[..m];
      ScanPrefixErr(ps[..n], m);
    }
  }

  /** A property as `convert_to_properties` outputs it. */
  datatype PropOut = PropOut(value: Single, unit: Num.Unit)

  /** The outcome of one property group: nothing without a dependent
      parameter, and otherwise the property under its translated name. */
  function GroupResult(ps: Dict<ParamInput>): (r: Result<Option<(string, PropOut)>>)
    ensures ScanParams(ps).Err? ==> r == Err(ScanParams(ps).error)
    ensures ScanParams(ps).Ok? && ScanParams(ps).value.dependent.None? ==> r == Ok(None)
    ensures r.Ok? && r.value.Some? ==>
      ScanParams(ps).value.independent.None? && !r.value.value.1.value.NumArray?
  {
    var s :- ScanParams(ps);
    if s.dependent.None? then Ok(None)
    else if s.independent.Some? then Err(KeyError("indep"))
    else if s.dependent.value.value.NumArray? then Err(ValueError("No independent property to fit against"))
    else
      var d := s.dependent.value;
      Ok(Some((Translate(d.name), PropOut(d.value, d.unit))))
  }

  /** The outcomes of the property groups in order, stopping at the first
      failure. */
  function Outcomes(groups: Dict<Dict<ParamInput>>): Result<seq<(string, PropOut)>>
  {
    if |groups| == 0 then Ok([])
    else
      var n := |groups| - 1;
      var prev :- Outcomes(groups[..n]);
      var o :- GroupResult(groups[n].1);
      Ok(prev + (if o.Some? then [o.value] else []))
  }

  /** `convert_to_properties` as a function of its input: the properties
      keyed by translated name, a later group replacing an earlier one. */
  function ConvertSpec(groups: Dict<Dict<ParamInput>>): (r: Result<Dict<PropOut>>)
    ensures r.Err? <==> Outcomes(groups).Err?
    ensures r.Ok? ==> DistinctKeys(r.value)
  {
    var es :- Outcomes(groups);
    Ok(FromList(es))
  }

  lemma {:induction false} OutcomesPrefixErr(groups: Dict<Dict<ParamInput>>, m: nat)
    requires m <= |groups| && Outcomes(groups[..m]).Err?
    ensures Outcomes(groups) == Outcomes(groups[..m])
    decreases |groups|
  {
    if m == |groups| {
      assert groups[..m] == groups;
    } else {
      var n := |groups| - 1;
      assert groups[..n][..m] == groups[..m];
      OutcomesPrefixErr(groups[..n], m);
    }
  }

  /** `convert_to_properties`. */
  method ConvertToProperties(propIn: Dict<Dict<ParamInput>>) returns (r: Result<Dict<PropOut>>)
    ensures r == ConvertSpec(propIn)
  {
    var properties: Dict<PropOut> := [];
    for i := 0 to |propIn|
      invariant Outcomes(propIn[..i]).Ok? && properties == FromList(Outcomes(propIn[..i]).value)
    {
      assert propIn[..i + 1][..i] == propIn[..i];
      var v := propIn[i].1;
      var dependent: Option<Variable> := None;
      var independent: Option<Variable> := None;
      for j := 0 to |v|
        invariant ScanParams(v[..j]) == Ok(Scanned(dependent, independent))
      {
        assert v[..j + 1][..j] == v[..j];
        var k := v[j].0;
        var pa := v[j].1;
        if pa.dependent.Some? {
          var value := SingleMultiValue(pa.value);
          if value.Err? {
            ScanPrefixErr(v, j + 1);
            OutcomesPrefixErr(propIn, i + 1);
            return Err(value.error);
          }
          dependent := Some(Variable(k, value.value, pa.unit));
        }
        if pa.independent.Some? {
          var value := SingleMultiValue(pa.value);
          if value.Err? {
            ScanPrefixErr(v, j + 1);
            OutcomesPrefixErr(propIn, i + 1);
            return Err(value.error);
          }
          independent := Some(Variable(k, value.value, pa.unit));
        }
      }
      assert v[..|v|] == v;
      if dependent.Some? {
        if independent.Some? {
          // `prop_out["indep"]` is read right after it was popped.
          OutcomesPrefixErr(propIn, i + 1);
          return Err(KeyError("indep"));
        } else if dependent.value.value.NumArray? {
          OutcomesPrefixErr(propIn, i + 1);
          return Err(ValueError("No independent property to fit against"));
        }
        var entry := (Translate(dependent.value.name), PropOut(dependent.value.value, dependent.value.unit));
        FromListSnoc(Outcomes(propIn[..i]).value, entry);
        properties := Set(properties, entry.0, entry.1);
      } else {
        assert Outcomes(propIn[..i + 1]).value == Outcomes(propIn[..i]).value + [];
        assert Outcomes(propIn[..i]).value + [] == Outcomes(propIn[..i]).value;
      }
    }
    assert propIn[..|propIn|] == propIn;
    r := Ok(properties);
  }

  /** A group whose only qualified parameter is a single dependent value
      becomes that value with its unit, under the translated name, whether
      the parameter was Dependent or Independent in the file. */
  lemma {:induction false} ScalarProperty(k: string, marked: bool, x: Datum, unit: Num.Unit)
    ensures GroupResult([(k, ParamInput(Some(marked), None, [x], unit))])
         == Ok(Some((Translate(k), PropOut(One(x), unit))))
  {
    var ps := [(k, ParamInput(Some(marked), None, [x], unit))];
    assert ps[..0] == [];
    assert ScanParams(ps) == ScanStep(Scanned(None, None), k, ps[0].1);
    assert ScanParams(ps) == Ok(Scanned(Some(Variable(k, One(x), unit)), None));
  }

  /** A group with no dependent parameter yields no property. */
  lemma {:induction false} NoDependentNoProperty(ps: Dict<ParamInput>)
    requires forall i :: 0 <= i < |ps| ==> ps[i].1.dependent.None?
    ensures GroupResult(ps).Ok? <==> forall i :: 0 <= i < |ps| && Qualified(ps[i].1) ==> |ps[i].1.value| > 0
    ensures GroupResult(ps).Ok? ==> GroupResult(ps).value.None?
  {
    ScanOk(ps);
    if ScanParams(ps).Ok? {
      ScanDependent(ps);
    }
  }

  /** Numeric data with several values and no independent parameter has
      nothing to be fitted against. */
  lemma {:induction false} ArrayNeedsIndependent(k: string, marked: bool, xs: seq<Datum>, unit: Num.Unit)
    requires |xs| > 1 && xs[0].Number?
    ensures GroupResult([(k, ParamInput(Some(marked), None, xs, unit))])
         == Err(ValueError("No independent property to fit against"))
  {
    var ps := [(k, ParamInput(Some(marked), None, xs, unit))];
    assert ps[..0] == [];
    assert ScanParams(ps) == ScanStep(Scanned(None, None), k, ps[0].1);
    assert ScanParams(ps) == Ok(Scanned(Some(Variable(k, NumArray(xs), unit)), None));
  }

  /** As written, a group with both a dependent and an independent
      parameter always fails: the independent entry is indexed after it
      has been removed. */
  lemma {:induction false} IndependentAlwaysFails(ps: Dict<ParamInput>, i: nat, j: nat)
    requires i < |ps| && j < |ps| && ps[i].1.dependent.Some? && ps[j].1.independent.Some?
    requires ScanParams(ps).Ok?
    ensures GroupResult(ps) == Err(KeyError("indep"))
  {
    ScanDependent(ps);
    ScanIndependent(ps);
  }

  /** Every converted property comes from a group whose outcome it is. */
  lemma {:induction false} OutcomesFromGroups(groups: Dict<Dict<ParamInput>>)
    requires Outcomes(groups).Ok?
    ensures forall e :: e in Outcomes(groups).value ==>
      exists i :: 0 <= i < |groups| && GroupResult(groups[i].1) == Ok(Some(e))
  {
    if |groups| > 0 {
      var n := |groups| - 1;
      OutcomesFromGroups(groups[..n]);
      forall e | e in Outcomes(groups).value
        ensures exists i :: 0 <= i < |groups| && GroupResult(groups[i].1) == Ok(Some(e))
      {
        if e in Outcomes(groups[..n]).value {
          var i :| 0 <= i < n && GroupResult(groups[..n][i].1) == Ok(Some(e));
          assert groups[..n][i] == groups[i];
        } else {
          assert GroupResult(groups[n].1) == Ok(Some(e));
        }
      }
    }
  }

  /** Each converted property is the outcome of one of the groups. */
  lemma {:induction false} ConvertMeaning(groups: Dict<Dict<ParamInput>>, name: string)
    requires ConvertSpec(groups).Ok? && HasKey(ConvertSpec(groups).value, name)
    ensures exists i :: 0 <= i < |groups| &&
                        GroupResult(groups[i].1) == Ok(Some((name, Get(ConvertSpec(groups).value, name).value)))
  {
    var es := Outcomes(groups).value;
    FromListGet(es, name);
    LastWithIn(es, name);
    OutcomesFromGroups(groups);
  }

  lemma {:induction false} LastWithIn<V>(entries: seq<(string, V)>, k: string)
    requires LastWith(entries, k).Some?
    ensures (k, LastWith(entries, k).value) in entries
  {
    var n := |entries| - 1;
    if entries[n].0 != k {
      LastWithIn(entries[..n], k);
    }
  }

  /** What the importer produces: no parameter is marked independent, and
      every qualified parameter holds at least one value. */
  predicate ImportedParams(params: Dict<ParamInput>)
  {
    forall j :: 0 <= j < |params| ==> params[j].1.independent.None? && (Qualified(params[j].1) ==> |params[j].1.value| > 0)
  }

  predicate Imported(groups: Dict<Dict<ParamInput>>)
  {
    forall i :: 0 <= i < |groups| ==> ImportedParams(groups[i].1)
  }

  /** On imported data the conversion can only fail for an array-valued
      property: the independent-variable and empty-value failures cannot
      occur. */
  lemma {:induction false} ConvertImported(groups: Dict<Dict<ParamInput>>)
    requires Imported(groups)
    ensures ConvertSpec(groups).Ok? || ConvertSpec(groups).error == ValueError("No independent property to fit against")
  {
    if |groups| > 0 {
      var n := |groups| - 1;
      assert forall i :: 0 <= i < n ==> groups[..n][i] == groups[i];
      ConvertImported(groups[..n]);
      var ps := groups[n].1;
      ScanOk(ps);
      if ScanParams(ps).Ok? {
        ScanIndependent(ps);
      }
    }
  }

  // ---------------------------------------------------------------------
  // MatML.convert
  // ---------------------------------------------------------------------

  /** `f"{prefix}{n:02}"`: the number zero-padded to two digits. */
  function PaddedId(prefix: string, n: nat): (r: string)
    ensures |r| >= |prefix| + 2 && r[..|prefix|] == prefix
  {
    var digits := if n < 10 then "0" + NatToString(n) else NatToString(n);
    assert n >= 10 ==> |NatToString(n)| >= 2 by {
      if n >= 10 {
        assert NatToString(n) == NatToString(n / 10) + [DigitChar(n % 10)];
      }
    }
    prefix + digits
  }

  lemma {:induction false} LeadingDigit(n: nat)
    requires n >= 1
    ensures NatToString(n)[0] != '0'
  {
    if n >= 10 {
      LeadingDigit(n / 10);
    }
  }

  /** Different numbers get different ids. */
  lemma {:induction false} PaddedIdInjective(prefix: string, m: nat, n: nat)
    requires PaddedId(prefix, m) == PaddedId(prefix, n)
    ensures m == n
  {
    var a := PaddedId(prefix, m)[|prefix|..];
    var b := PaddedId(prefix, n)[|prefix|..];
    var dm := if m < 10 then "0" + NatToString(m) else NatToString(m);
    var dn := if n < 10 then "0" + NatToString(n) else NatToString(n);
    assert a == dm && b == dn;
    if m < 10 && n < 10 {
      assert dm[1..] == NatToString(m) && dn[1..] == NatToString(n);
      NatToStringInjective(m, n);
    } else if m >= 10 && n >= 10 {
      NatToStringInjective(m, n);
    } else if m < 10 {
      LeadingDigit(n);
    } else {
      LeadingDigit(m);
    }
  }

  /** A material's property for export: its name, its value at the
      operational conditions and its unit. */
  datatype ExportProperty = ExportProperty(name: string, value: PropertyValue, unit: PintUnit)

  /** The records of the property numbered `i + 1`. */
  function ExportRecords(p: ExportProperty, i: nat, show: Num.Value -> string, symbol: string -> string): (r: ParameterRecords)
    ensures r.propertyValue.property == PaddedId("pr", i + 1) && r.parameterDetails.id == PaddedId("pa", i + 1)
  {
    ParameterData(PaddedId("pr", i + 1), PaddedId("pa", i + 1), p.name, p.value, p.unit, ",", show, symbol)
  }

  /** The property values of the export, in order. */
  function PropertyValues(ps: seq<ExportProperty>, show: Num.Value -> string, symbol: string -> string): (r: seq<PropertyData>)
    ensures |r| == |ps|
    ensures forall i :: 0 <= i < |r| ==> r[i].property == PaddedId("pr", i + 1)
  {
    if |ps| == 0 then []
    else
      var n := |ps| - 1;
      PropertyValues(ps[..n], show, symbol) + [ExportRecords(ps[n], n, show, symbol).propertyValue]
  }

  /** The property details of the export, in order. */
  function PropertyDetailsOf(ps: seq<ExportProperty>, show: Num.Value -> string, symbol: string -> string): (r: seq<Details>)
    ensures |r| == |ps|
  {
    if |ps| == 0 then []
    else
      var n := |ps| - 1;
      PropertyDetailsOf(ps[..n], show, symbol) + [ExportRecords(ps[n], n, show, symbol).propertyDetails]
  }

  /** The parameter details of the export, in order. */
  function ParameterDetailsOf(ps: seq<ExportProperty>, show: Num.Value -> string, symbol: string -> string): (r: seq<Details>)
    ensures |r| == |ps|
    ensures forall i :: 0 <= i < |r| ==> r[i].id == PaddedId("pa", i + 1)
  {
    if |ps| == 0 then []
    else
      var n := |ps| - 1;
      ParameterDetailsOf(ps[..n], show, symbol) + [ExportRecords(ps[n], n, show, symbol).parameterDetails]
  }

  /** The document `MatML.convert` builds for a material with the given
      characterisation and id. */
  function ConvertedDocument(name: string, characterisation: Characterisation, ps: seq<ExportProperty>,
                             show: Num.Value -> string, symbol: string -> string, id: string): Document
  {
    var bulk := BulkDetails(name, PropertyValues(ps, show, symbol), Some(characterisation));
    Document([Material(bulk, id)],
             Some(Metadata(PropertyDetailsOf(ps, show, symbol), ParameterDetailsOf(ps, show, symbol))))
  }

  /** The body of `MatML.convert` for a given characterisation: one
      property and parameter record per property, in the material's
      property order, numbered from 1; the material takes the next number
      of the id counter. */
  method MatmlConvertWith(ids: MaterialIds, name: string, characterisation: Characterisation, ps: seq<ExportProperty>,
                          show: Num.Value -> string, symbol: string -> string) returns (doc: Document)
    modifies ids
    ensures doc == ConvertedDocument(name, characterisation, ps, show, symbol, NatToString(old(ids.material)))
    ensures ids.material == old(ids.material) + 1
  {
    var prVs: seq<PropertyData> := [];
    var prDs: seq<Details> := [];
    var paDs: seq<Details> := [];
    for i := 0 to |ps|
      invariant prVs == PropertyValues(ps[..i], show, symbol)
      invariant prDs == PropertyDetailsOf(ps[..i], show, symbol)
      invariant paDs == ParameterDetailsOf(ps[..i], show, symbol)
    {
      var records := ParameterData(PaddedId("pr", i + 1), PaddedId("pa", i + 1), ps[i].name, ps[i].value,
                                   ps[i].unit, ",", show, symbol);
      assert ps[..i + 1][..i] == ps[..i];
      prVs := prVs + [records.propertyValue];
      prDs := prDs + [records.propertyDetails];
      paDs := paDs + [records.parameterDetails];
    }
    assert ps[..|ps|] == ps;
    var bulk := BulkDetails(name, prVs, Some(characterisation));
    var m := ids.NewMaterial(bulk, None);
    doc := Document([m], Some(Metadata(prDs, paDs)));
  }

  /** `MatML.convert` as written: the formula is the one
      `to_characterisation` writes by the gcd of the denominators. */
  method MatmlConvertAsWritten(ids: MaterialIds, name: string, elements: Dict<Frac>, ps: seq<ExportProperty>,
                               show: Num.Value -> string, symbol: string -> string) returns (doc: Document)
    modifies ids
    ensures doc == ConvertedDocument(name, ToCharacterisationAsWritten(elements), ps, show, symbol,
                                     NatToString(old(ids.material)))
    ensures ids.material == old(ids.material) + 1
  {
    doc := MatmlConvertWith(ids, name, ToCharacterisationAsWritten(elements), ps, show, symbol);
  }

  /** `MatML.convert` with the formula in whole numbers in the ratio of
      the fractions, by the lcm of the denominators. */
  method MatmlConvert(ids: MaterialIds, name: string, elements: Dict<Frac>, ps: seq<ExportProperty>,
                      show: Num.Value -> string, symbol: string -> string) returns (doc: Document)
    modifies ids
    ensures doc == ConvertedDocument(name, ToCharacterisation(elements), ps, show, symbol,
                                     NatToString(old(ids.material)))
    ensures ids.material == old(ids.material) + 1
  {
    doc := MatmlConvertWith(ids, name, ToCharacterisation(elements), ps, show, symbol);
  }

  /** As written, formaldehyde (a quarter carbon, half hydrogen and a
      quarter oxygen) is exported with the formula "CHO"; corrected, with
      "CH2O". */
  lemma {:induction false} ConvertedFormaldehyde(name: string, ps: seq<ExportProperty>,
                                                 show: Num.Value -> string, symbol: string -> string, id: string)
    ensures ConvertedDocument(name, ToCharacterisationAsWritten(Formaldehyde), ps, show, symbol, id)
      .material[0].bulkDetails.characterisation.value.formula == "CHO"
    ensures ConvertedDocument(name, ToCharacterisation(Formaldehyde), ps, show, symbol, id)
      .material[0].bulkDetails.characterisation.value.formula == "CH2O"
  {
    FormaldehydeAsWritten();
    FormaldehydeFormula();
  }

  lemma {:induction false} FormulaNonEmpty(elements: seq<(string, string)>, i: nat)
    requires i < |elements| && elements[i].0 != []
    ensures Formula(elements) != []
  {
    var n := |elements| - 1;
    if i < n {
      FormulaNonEmpty(elements[..n], i);
    }
  }

  // ---------------------------------------------------------------------
  // MatML.import_from
  // ---------------------------------------------------------------------

  /** The external readers the import relies on: Python's float parsing,
      `10 ** v`, and the text of a unit power. */
  datatype Readers = Readers(parseFloat: string -> Result<real>, pow10: real -> Result<real>, showPower: real -> string)

  /** One parameter's entry: its data and unit, marked dependent (True for
      a Dependent qualifier, False for an Independent one), or an empty
      entry for any other qualifier. */
  function ParamEntry(pav: ParameterValue, prv: PropertyData, pd: Details, io: Readers): (r: Result<ParamInput>)
    ensures r.Ok? ==> r.value.independent.None?
    ensures r.Ok? ==> (Qualified(r.value) <==> "Dependent" in pav.qualifier || "Independent" in pav.qualifier)
    ensures r.Ok? && Qualified(r.value) ==> |r.value.value| > 0
    ensures r.Ok? && "Dependent" in pav.qualifier ==> r.value.dependent == Some(true)
    ensures r.Ok? && "Dependent" !in pav.qualifier && "Independent" in pav.qualifier ==> r.value.dependent == Some(false)
  {
    if "Dependent" in pav.qualifier || "Independent" in pav.qualifier then
      var v :- ToData(pav, prv, io.parseFloat, io.pow10);
      var u :- ToUnit(pd, io.showPower);
      Ok(ParamInput(Some("Dependent" in pav.qualifier), None, v, u))
    else Ok(EmptyParam)
  }

  /** The parameters of one property value, added to `params` in order. */
  function AddParams(params: Dict<ParamInput>, pvs: seq<ParameterValue>, prv: PropertyData,
                     parameterDetails: Dict<Details>, skip: seq<string>, io: Readers): Result<Dict<ParamInput>>
  {
    Steps(params, pvs, AddParamStep(prv, parameterDetails, skip, io))
  }

  /** One parameter value: its details are looked up by id, and unless its
      parameter is skipped its entry is recorded under the renamed name. */
  function AddParam(params: Dict<ParamInput>, pav: ParameterValue, prv: PropertyData,
                    parameterDetails: Dict<Details>, skip: seq<string>, io: Readers): Result<Dict<ParamInput>>
  {
    var pd :- Index(parameterDetails, pav.parameter);
    if pd.name in skip then Ok(params)
    else
      var e :- ParamEntry(pav, prv, pd, io);
      Ok(Set(params, Rename(pd.name), e))
  }

  function AddParamStep(prv: PropertyData, parameterDetails: Dict<Details>, skip: seq<string>, io: Readers)
    : (Dict<ParamInput>, ParameterValue) -> Result<Dict<ParamInput>>
  {
    (acc, pav) => AddParam(acc, pav, prv, parameterDetails, skip, io)
  }

  function AddParamsStep(parameterDetails: Dict<Details>, skip: seq<string>, io: Readers)
    : (Dict<ParamInput>, PropertyData) -> Result<Dict<ParamInput>>
  {
    (acc, prv: PropertyData) => AddParams(acc, prv.parameterValue, prv, parameterDetails, skip, io)
  }

  function ImportGroupStep(propertyDetails: Dict<Details>, parameterDetails: Dict<Details>, skip: seq<string>, io: Readers)
    : (Dict<Dict<ParamInput>>, (string, seq<PropertyData>)) -> Result<Dict<Dict<ParamInput>>>
  {
    (acc, group) => ImportGroup(acc, group, propertyDetails, parameterDetails, skip, io)
  }

  /** The parameters of all of a property's values. */
  function AddGroup(params: Dict<ParamInput>, prvs: seq<PropertyData>,
                    parameterDetails: Dict<Details>, skip: seq<string>, io: Readers): Result<Dict<ParamInput>>
  {
    Steps(params, prvs, AddParamsStep(parameterDetails, skip, io))
  }

  /** Every property group, keyed by its renamed property name; a skipped
      property is left out. */
  function ImportGroups(groups: Dict<seq<PropertyData>>, propertyDetails: Dict<Details>,
                        parameterDetails: Dict<Details>, skip: seq<string>, io: Readers): Result<Dict<Dict<ParamInput>>>
  {
    Steps([], groups, ImportGroupStep(propertyDetails, parameterDetails, skip, io))
  }

  /** One property group: its details are looked up by id, and unless it
      is skipped its parameters are added to those already recorded under
      the renamed name. */
  function ImportGroup(properties: Dict<Dict<ParamInput>>, group: (string, seq<PropertyData>), propertyDetails: Dict<Details>,
                       parameterDetails: Dict<Details>, skip: seq<string>, io: Readers): Result<Dict<Dict<ParamInput>>>
  {
    var pd :- Index(propertyDetails, group.0);
    if pd.name in skip then Ok(properties)
    else
      var name := Rename(pd.name);
      var params :- AddGroup(Get(properties, name).GetOr([]), group.1, parameterDetails, skip, io);
      Ok(Set(properties, name, params))
  }

  /** `import_from` up to the grouped parameters: only a single material
      can be imported. */
  function ImportSpec(ex: Extracted, skip: seq<string>, io: Readers): (r: Result<Dict<Dict<ParamInput>>>)
    ensures |ex.materials| > 1 ==> r == Err(NotImplementedError("No fractional mixing of materials known"))
    ensures |ex.materials| == 0 ==> r == Err(StopIteration)
  {
    if |ex.materials| > 1 then Err(NotImplementedError("No fractional mixing of materials known"))
    else if |ex.materials| == 0 then Err(StopIteration)
    else ImportGroups(ex.materials[0].1.properties, ex.propertyDetails, ex.parameterDetails, skip, io)
  }

  /** The innermost loop of `import_from`, over one property value's
      parameter values. */
  method ImportParameters(params: Dict<ParamInput>, prv: PropertyData, parameterDetails: Dict<Details>,
                          skip: seq<string>, io: Readers) returns (r: Result<Dict<ParamInput>>)
    ensures r == AddParams(params, prv.parameterValue, prv, parameterDetails, skip, io)
  {
    var pvs := prv.parameterValue;
    var acc := params;
    for l := 0 to |pvs|
      invariant AddParams(params, pvs[..l], prv, parameterDetails, skip, io) == Ok(acc)
    {
      assert pvs[..l + 1][..l] == pvs[..l];
      var pav := pvs[l];
      var pd := Index(parameterDetails, pav.parameter);
      if pd.Err? {
        StepsPrefixErr(params, pvs, AddParamStep(prv, parameterDetails, skip, io), l + 1);
        return Err(pd.error);
      }
      if pd.value.name in skip {
        continue;
      }
      var entry := ParamEntry(pav, prv, pd.value, io);
      if entry.Err? {
        StepsPrefixErr(params, pvs, AddParamStep(prv, parameterDetails, skip, io), l + 1);
        return Err(entry.error);
      }
      acc := Set(acc, Rename(pd.value.name), entry.value);
    }
    assert pvs[..|pvs|] == pvs;
    r := Ok(acc);
  }

  /** The loop over a property's values. */
  method ImportPropertyValues(params: Dict<ParamInput>, prvs: seq<PropertyData>, parameterDetails: Dict<Details>,
                     skip: seq<string>, io: Readers) returns (r: Result<Dict<ParamInput>>)
    ensures r == AddGroup(params, prvs, parameterDetails, skip, io)
  {
    var acc := params;
    for j := 0 to |prvs|
      invariant AddGroup(params, prvs[..j], parameterDetails, skip, io) == Ok(acc)
    {
      assert prvs[..j + 1][..j] == prvs[..j];
      var next := ImportParameters(acc, prvs[j], parameterDetails, skip, io);
      if next.Err? {
        StepsPrefixErr(params, prvs, AddParamsStep(parameterDetails, skip, io), j + 1);
        return next;
      }
      acc := next.value;
    }
    assert prvs[..|prvs|] == prvs;
    r := Ok(acc);
  }

  /** One pass of the outer loop of `import_from`, over a property group. */
  method ImportPropertyGroup(properties: Dict<Dict<ParamInput>>, group: (string, seq<PropertyData>), propertyDetails: Dict<Details>,
                             parameterDetails: Dict<Details>, skip: seq<string>, io: Readers) returns (r: Result<Dict<Dict<ParamInput>>>)
    ensures r == ImportGroup(properties, group, propertyDetails, parameterDetails, skip, io)
  {
    var pd := Index(propertyDetails, group.0);
    if pd.Err? {
      return Err(pd.error);
    }
    if pd.value.name in skip {
      return Ok(properties);
    }
    var name := Rename(pd.value.name);
    var params := ImportPropertyValues(Get(properties, name).GetOr([]), group.1, parameterDetails, skip, io);
    if params.Err? {
      return Err(params.error);
    }
    r := Ok(Set(properties, name, params.value));
  }

  /** `import_from`, from the extracted data to the grouped parameters
      handed to `convert_to_properties`. */
  method ImportFrom(ex: Extracted, skip: seq<string>, io: Readers) returns (r: Result<Dict<Dict<ParamInput>>>)
    ensures r == ImportSpec(ex, skip, io)
  {
    if |ex.materials| > 1 {
      return Err(NotImplementedError("No fractional mixing of materials known"));
    }
    if |ex.materials| == 0 {
      return Err(StopIteration);
    }
    var groups := ex.materials[0].1.properties;
    var properties: Dict<Dict<ParamInput>> := [];
    for i := 0 to |groups|
      invariant ImportGroups(groups[..i], ex.propertyDetails, ex.parameterDetails, skip, io) == Ok(properties)
    {
      assert groups[..i + 1][..i] == groups[..i];
      var next := ImportPropertyGroup(properties, groups[i], ex.propertyDetails, ex.parameterDetails, skip, io);
      if next.Err? {
        StepsPrefixErr([], groups, ImportGroupStep(ex.propertyDetails, ex.parameterDetails, skip, io), i + 1);
        return Err(next.error);
      }
      properties := next.value;
    }
    assert groups[..|groups|] == groups;
    r := Ok(properties);
  }

  lemma {:induction false} SetImportedParams(params: Dict<ParamInput>, k: string, e: ParamInput)
    requires ImportedParams(params) && e.independent.None? && (Qualified(e) ==> |e.value| > 0)
    ensures ImportedParams(Set(params, k, e))
  {
    SetEntries(params, k, e);
  }

  lemma {:induction false} AddParamsImported(params: Dict<ParamInput>, pvs: seq<ParameterValue>, prv: PropertyData,
                                             parameterDetails: Dict<Details>, skip: seq<string>, io: Readers)
    requires ImportedParams(params)
    ensures AddParams(params, pvs, prv, parameterDetails, skip, io).Ok? ==>
      ImportedParams(AddParams(params, pvs, prv, parameterDetails, skip, io).value)
  {
    if |pvs| > 0 {
      var n := |pvs| - 1;
      AddParamsImported(params, pvs[..n], prv, parameterDetails, skip, io);
      var prev := AddParams(params, pvs[..n], prv, parameterDetails, skip, io);
      var pd := Index(parameterDetails, pvs[n].parameter);
      if prev.Ok? && pd.Ok? && pd.value.name !in skip {
        var e := ParamEntry(pvs[n], prv, pd.value, io);
        if e.Ok? {
          SetImportedParams(prev.value, Rename(pd.value.name), e.value);
        }
      }
    }
  }

  lemma {:induction false} AddGroupImported(params: Dict<ParamInput>, prvs: seq<PropertyData>,
                                            parameterDetails: Dict<Details>, skip: seq<string>, io: Readers)
    requires ImportedParams(params)
    ensures AddGroup(params, prvs, parameterDetails, skip, io).Ok? ==>
      ImportedParams(AddGroup(params, prvs, parameterDetails, skip, io).value)
  {
    if |prvs| > 0 {
      var n := |prvs| - 1;
      AddGroupImported(params, prvs[..n], parameterDetails, skip, io);
      var prev := AddGroup(params, prvs[..n], parameterDetails, skip, io);
      if prev.Ok? {
        AddParamsImported(prev.value, prvs[n].parameterValue, prvs[n], parameterDetails, skip, io);
      }
    }
  }

  /** The importer never marks a parameter independent and never records
      a qualified parameter without data. */
  lemma {:induction false} ImportGroupsImported(groups: Dict<seq<PropertyData>>, propertyDetails: Dict<Details>,
                                                parameterDetails: Dict<Details>, skip: seq<string>, io: Readers)
    ensures ImportGroups(groups, propertyDetails, parameterDetails, skip, io).Ok? ==>
      Imported(ImportGroups(groups, propertyDetails, parameterDetails, skip, io).value)
  {
    if |groups| > 0 {
      var n := |groups| - 1;
      ImportGroupsImported(groups[..n], propertyDetails, parameterDetails, skip, io);
      var prev := ImportGroups(groups[..n], propertyDetails, parameterDetails, skip, io);
      var pd := Index(propertyDetails, groups[n].0);
      if prev.Ok? && pd.Ok? && pd.value.name !in skip {
        var name := Rename(pd.value.name);
        var start := Get(prev.value, name).GetOr([]);
        if HasKey(prev.value, name) {
          GetFound(prev.value, name);
        }
        AddGroupImported(start, groups[n].1, parameterDetails, skip, io);
        var params := AddGroup(start, groups[n].1, parameterDetails, skip, io);
        if params.Ok? {
          SetEntries(prev.value, name, params.value);
        }
      }
    }
  }

  /** An imported material's properties convert unless one of them is an
      array: a file's Independent parameters are taken as dependent ones,
      so the independent-variable branch is never reached. */
  lemma {:induction false} ImportThenConvert(ex: Extracted, skip: seq<string>, io: Readers)
    requires ImportSpec(ex, skip, io).Ok?
    ensures var c := ConvertSpec(ImportSpec(ex, skip, io).value);
      c.Ok? || c.error == ValueError("No independent property to fit against")
  {
    ImportGroupsImported(ex.materials[0].1.properties, ex.propertyDetails, ex.parameterDetails, skip, io);
    ConvertImported(ImportSpec(ex, skip, io).value);
  }

  /** As written, a document exported by `MatML.convert` for a material
      with elements does not import: its formula makes `extract_data` skip
      the material, and there is no material left to import. */
  lemma {:induction false} ExportedNotImported(name: string, elements: Dict<Frac>, ps: seq<ExportProperty>,
                            show: Num.Value -> string, symbol: string -> string, id: string,
                            skip: seq<string>, io: Readers, i: nat)
    requires i < |elements| && elements[i].0 != []
    ensures forall c :: c == ToCharacterisation(elements) || c == ToCharacterisationAsWritten(elements) ==>
      var doc := ConvertedDocument(name, c, ps, show, symbol, id);
      var ex := Extracted(FromList(MaterialEntries(doc.material)),
                          FromList(DetailsById(doc.metadata.value.propertyDetails)),
                          FromList(DetailsById(doc.metadata.value.parameterDetails)));
      MaterialEntries(doc.material) == [] && ImportSpec(ex, skip, io) == Err(StopIteration)
  {
    FormulaNonEmpty(ToCharacterisation(elements).elements, i);
    FormulaNonEmpty(ToCharacterisationAsWritten(elements).elements, i);
    forall c | c == ToCharacterisation(elements) || c == ToCharacterisationAsWritten(elements)
      ensures var doc := ConvertedDocument(name, c, ps, show, symbol, id);
        var ex := Extracted(FromList(MaterialEntries(doc.material)),
                            FromList(DetailsById(doc.metadata.value.propertyDetails)),
                            FromList(DetailsById(doc.metadata.value.parameterDetails)));
        MaterialEntries(doc.material) == [] && ImportSpec(ex, skip, io) == Err(StopIteration)
    {
      var doc := ConvertedDocument(name, c, ps, show, symbol, id);
      assert HasFormula(doc.material[0]);
      assert doc.material[..0] == [];
    }
  }
}
