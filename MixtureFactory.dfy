// The `mixture` factory of material.py: constituents are validated, every
// property name of the constituents is resolved to an override, an undefined
// value or a weighted mixture, the fractions pass the void check, the element
// compositions are blended, and a new material records its constituents.

module MixtureFactory {
  import opened Wrappers
  import opened Dicts
  import opened Strings
  import opened Group
  import opened Base
  import opened ConvertersBase
  import opened Material
  import opened Mixing
  import Num = Values

  // ---------------------------------------------------------------------
  // What mixing reads of the constituents
  // ---------------------------------------------------------------------

  /** A validated constituent as mixing reads it: the material's property
      fields, its name, its fraction and its element composition. */
  datatype Constituent = Constituent(fields: Dict<FieldValue>, name: string, fraction: real, elements: Elements)

  function Snapshot(ms: seq<(Material, real)>): (r: seq<Constituent>)
    reads set p | p in ms :: p.0
    ensures |r| == |ms|
    ensures forall i :: 0 <= i < |ms| ==>
      r[i] == Constituent(ms[i].0.fields, ms[i].0.name, ms[i].1, ms[i].0.elements)
  {
    seq(|ms|, i requires 0 <= i < |ms| reads set p | p in ms :: p.0 =>
      Constituent(ms[i].0.fields, ms[i].0.name, ms[i].1, ms[i].0.elements))
  }

  function FieldsList(cs: seq<Constituent>): (r: seq<Dict<FieldValue>>)
    ensures |r| == |cs| && forall i :: 0 <= i < |cs| ==> r[i] == cs[i].fields
  {
    seq(|cs|, i requires 0 <= i < |cs| => cs[i].fields)
  }

  function NamesList(cs: seq<Constituent>): (r: seq<string>)
    ensures |r| == |cs| && forall i :: 0 <= i < |cs| ==> r[i] == cs[i].name
  {
    seq(|cs|, i requires 0 <= i < |cs| => cs[i].name)
  }

  function RawFractions(cs: seq<Constituent>): (r: seq<real>)
    ensures |r| == |cs| && forall i :: 0 <= i < |cs| ==> r[i] == cs[i].fraction
  {
    seq(|cs|, i requires 0 <= i < |cs| => cs[i].fraction)
  }

  function ElementsList(cs: seq<Constituent>): (r: seq<Elements>)
    ensures |r| == |cs| && forall i :: 0 <= i < |cs| ==> r[i] == cs[i].elements
  {
    seq(|cs|, i requires 0 <= i < |cs| => cs[i].elements)
  }

  /** The same readings taken from the constituents' `MaterialFraction`
      objects. */
  function FieldsOf(mfs: seq<MaterialFraction>): (r: seq<Dict<FieldValue>>)
    reads set mf | mf in mfs :: mf.material
    ensures |r| == |mfs| && forall i :: 0 <= i < |mfs| ==> r[i] == mfs[i].material.fields
  {
    seq(|mfs|, i requires 0 <= i < |mfs| reads set mf | mf in mfs :: mf.material => mfs[i].material.fields)
  }

  function NamesOf(mfs: seq<MaterialFraction>): (r: seq<string>)
    ensures |r| == |mfs| && forall i :: 0 <= i < |mfs| ==> r[i] == mfs[i].material.name
  {
    seq(|mfs|, i requires 0 <= i < |mfs| => mfs[i].material.name)
  }

  function ElementsOf(mfs: seq<MaterialFraction>): (r: seq<Elements>)
    reads set mf | mf in mfs :: mf.material
    ensures |r| == |mfs| && forall i :: 0 <= i < |mfs| ==> r[i] == mfs[i].material.elements
  {
    seq(|mfs|, i requires 0 <= i < |mfs| reads set mf | mf in mfs :: mf.material => mfs[i].material.elements)
  }

  // ---------------------------------------------------------------------
  // Validation of the constituents
  // ---------------------------------------------------------------------

  /** `MaterialFraction.model_validate` over the list: the first invalid
      entry raises. */
  function ValidateAllFractions(inputs: seq<FractionInput>): (r: Result<seq<(Material, real)>>)
    ensures r.Ok? <==> forall i :: 0 <= i < |inputs| ==> ValidateFraction(inputs[i]).Ok?
    ensures r.Ok? ==> (|r.value| == |inputs| &&
                       forall i :: 0 <= i < |inputs| ==> r.value[i] == ValidateFraction(inputs[i]).value)
    ensures r.Err? ==> exists i :: 0 <= i < |inputs| && FirstInvalid(inputs, i) && ValidateFraction(inputs[i]) == Err(r.error)
  {
    if |inputs| == 0 then Ok([])
    else
      var head :- ValidateFraction(inputs[0]);
      var tail := ValidateAllFractions(inputs[1..]);
      if tail.Err? then
        assert forall i :: 0 <= i < |inputs| - 1 && FirstInvalid(inputs[1..], i) ==> FirstInvalid(inputs, i + 1);
        Err(tail.error)
      else
        Ok([head] + tail.value)
  }

  /** Entry `i` is the first that fails validation. */
  predicate FirstInvalid(inputs: seq<FractionInput>, i: nat)
    requires i < |inputs|
  {
    ValidateFraction(inputs[i]).Err? && forall j :: 0 <= j < i ==> ValidateFraction(inputs[j]).Ok?
  }

  /** The validation loop: one fresh `MaterialFraction` per entry. */
  method ValidateFractions(inputs: seq<FractionInput>) returns (r: Result<seq<MaterialFraction>>)
    ensures ValidateAllFractions(inputs).Err? ==> r == Err(ValidateAllFractions(inputs).error)
    ensures ValidateAllFractions(inputs).Ok? ==> r.Ok? && |r.value| == |inputs|
    ensures r.Ok? ==> forall i :: 0 <= i < |r.value| ==>
      fresh(r.value[i]) && (r.value[i].material, r.value[i].fraction) == ValidateAllFractions(inputs).value[i]
    ensures r.Ok? ==> forall i, j :: 0 <= i < j < |r.value| ==> r.value[i] != r.value[j]
  {
    var mfs: seq<MaterialFraction> := [];
    for i := 0 to |inputs|
      invariant |mfs| == i
      invariant forall j :: 0 <= j < i ==> ValidateFraction(inputs[j]).Ok?
      invariant forall j :: 0 <= j < i ==>
        fresh(mfs[j]) && (mfs[j].material, mfs[j].fraction) == ValidateFraction(inputs[j]).value
      invariant forall j, l :: 0 <= j < l < i ==> mfs[j] != mfs[l]
    {
      var v := ValidateFraction(inputs[i]);
      if v.Err? {
        var w := ValidateAllFractions(inputs);
        assert w.Err?;
        var k :| 0 <= k < |inputs| && FirstInvalid(inputs, k) && ValidateFraction(inputs[k]) == Err(w.error);
        assert k == i;
        return Err(v.error);
      }
      var mf := new MaterialFraction(v.value.0, v.value.1);
      mfs := mfs + [mf];
    }
    return Ok(mfs);
  }

  // ---------------------------------------------------------------------
  // Resolution of one property
  // ---------------------------------------------------------------------

  /** What `getattr(material, prp, UndefinedProperty())` gives for each
      constituent. */
  function ValuesNamed(fieldsList: seq<Dict<FieldValue>>, prp: string): (r: seq<FieldValue>)
    ensures |r| == |fieldsList|
    ensures forall i :: 0 <= i < |fieldsList| && HasKey(fieldsList[i], prp) ==> Get(fieldsList[i], prp) == Some(r[i])
    ensures forall i :: 0 <= i < |fieldsList| && !HasKey(fieldsList[i], prp) ==> r[i] == UndefinedProp(None)
  {
    seq(|fieldsList|, i requires 0 <= i < |fieldsList| => Get(fieldsList[i], prp).GetOr(UndefinedProp(None)))
  }

  /** `_get_properties_from_materials`: each constituent's value of the
      property, missing ones undefined, and each constituent's fraction. */
  method PropertiesFromMaterials(prp: string, mfs: seq<MaterialFraction>) returns (dpp: seq<FieldValue>, fractions: seq<real>)
    ensures dpp == ValuesNamed(FieldsOf(mfs), prp)
    ensures fractions == FractionsOf(mfs)
  {
    dpp, fractions := [], [];
    for i := 0 to |mfs|
      invariant dpp == ValuesNamed(FieldsOf(mfs[..i]), prp)
      invariant fractions == FractionsOf(mfs[..i])
    {
      fractions := fractions + [mfs[i].fraction];
      dpp := dpp + [Get(mfs[i].material.fields, prp).GetOr(UndefinedProp(None))];
    }
    assert mfs[..|mfs|] == mfs;
  }

  /** The undefined types `_ignore_undefined` drops from an annotation. */
  const UndefinedTypes: seq<string> := ["UndefinedProperty", UndefinedScType]

  function WithoutUndefined(members: seq<string>): (r: seq<string>)
    ensures forall a :: a in r <==> a in members && a !in UndefinedTypes
  {
    if |members| == 0 then []
    else (if members[0] in UndefinedTypes then [] else [members[0]]) + WithoutUndefined(members[1..])
  }

  /** `_ignore_undefined`: the members of a property's annotation (a
      non-union annotation is its own only member) other than the undefined
      types. One survivor is that type, several are their union; none is an
      IndexError. */
  function IgnoreUndefined(members: seq<string>): (r: Result<seq<string>>)
    ensures r.Ok? <==> exists a :: a in members && a !in UndefinedTypes
    ensures r.Ok? ==> forall a :: a in r.value <==> a in members && a !in UndefinedTypes
    ensures r.Err? ==> r.error == IndexError
  {
    var kept := WithoutUndefined(members);
    if |kept| == 0 then Err(IndexError)
    else
      assert kept[0] in kept;
      Ok(kept)
  }

  /** `_get_indexes`: the positions holding `v`, in increasing order. */
  function GetIndexes<T(==)>(xs: seq<T>, v: T): (r: seq<nat>)
    ensures forall i: nat :: i in r <==> i < |xs| && xs[i] == v
    ensures forall a, b :: 0 <= a < b < |r| ==> r[a] < r[b]
  {
    if |xs| == 0 then []
    else
      var init := xs[..|xs| - 1];
      assert forall i: nat :: i < |init| ==> init[i] == xs[i];
      var prev := GetIndexes(init, v);
      assert forall a :: 0 <= a < |prev| ==> prev[a] in prev;
      prev + (if xs[|xs| - 1] == v then [|xs| - 1] else [])
  }

  /** A value that does not occur has no index. */
  lemma {:induction false} GetIndexesAbsent<T>(xs: seq<T>, v: T)
    requires v !in xs
    ensures GetIndexes(xs, v) == []
  {
    if |xs| > 0 {
      GetIndexesAbsent(xs[..|xs| - 1], v);
      assert xs[|xs| - 1] in xs;
    }
  }

  /** The property values as Python objects compared with `None`. */
  function Present(values: seq<FieldValue>): (r: seq<Option<FieldValue>>)
    ensures |r| == |values| && forall i :: 0 <= i < |values| ==> r[i] == Some(values[i])
  {
    seq(|values|, i requires 0 <= i < |values| => Some(values[i]))
  }

  /** A property value is never `None`, so the list of missing constituents
      in the message is always empty. */
  lemma {:induction false} NoneNeverFound(values: seq<FieldValue>)
    ensures GetIndexes(Present(values), None) == []
  {
    assert forall i :: 0 <= i < |values| ==> Present(values)[i].Some?;
    GetIndexesAbsent(Present(values), None);
  }

  /** `"".join(f"{i}: {name}" ...)` over the given positions. */
  function MissingText(ind: seq<nat>, names: seq<string>): string
    requires forall i :: i in ind ==> i < |names|
  {
    if |ind| == 0 then ""
    else
      assert ind[0] in ind;
      assert forall i :: i in ind[1..] ==> i in ind;
      NatToString(ind[0]) + ": " + names[ind[0]] + MissingText(ind[1..], names)
  }

  function NotDefinedMessage(prp: string, mats: string): string
  {
    "Material property '" + prp + "' not defined and not overidden at " + mats + " "
  }

  /** The first constituent value an undefined property or an undefined
      superconducting parameterisation, if any. */
  function FirstUndefined(values: seq<FieldValue>): (r: Option<nat>)
    ensures r.Some? ==> r.value < |values| && UndefinedForMixing(values[r.value])
    ensures r.Some? ==> forall j :: 0 <= j < r.value ==> !UndefinedForMixing(values[j])
    ensures r.None? <==> forall j :: 0 <= j < |values| ==> !UndefinedForMixing(values[j])
  {
    if |values| == 0 then None
    else if UndefinedForMixing(values[0]) then Some(0)
    else
      match FirstUndefined(values[1..])
      case None =>
        assert forall j :: 1 <= j < |values| ==> values[j] == values[1..][j - 1];
        None
      case Some(i) =>
        assert forall j :: 1 <= j < i + 1 ==> values[j] == values[1..][j - 1];
        Some(i + 1)
  }

  /** The `unit` attribute read from the first constituent's value: a
      property's unit or a mixture's; a superconducting parameterisation has
      none. */
  function UnitOf(v: FieldValue): (r: Result<Num.Unit>)
    requires !v.UndefinedProp?
    ensures v.DppProp? ==> r == Ok(v.dpp.kind.unit)
    ensures v.MixedProp? ==> r == Ok(v.unit)
    ensures v.ScProp? ==> r == Err(AttributeError("unit"))
  {
    match v
    case DppProp(d) => Ok(d.kind.unit)
    case MixedProp(_, _, unit) => Ok(unit)
    case ScProp(_) => Err(AttributeError("unit"))
  }

  /** The value a mixture gets for property `prp`, given the constituents'
      values, fractions and names, the caller's override, the property's
      annotation and whether `Mixture` validation accepts the values. */
  function Resolve(prp: string, values: seq<FieldValue>, fractions: seq<real>, names: seq<string>,
                   override: Option<FieldValue>, annotation: seq<string>,
                   validMix: (seq<FieldValue>, seq<real>, Num.Unit) -> bool): (r: Result<FieldValue>)
    requires |names| == |values|
    // an annotation made only of undefined types fails before anything else
    ensures IgnoreUndefined(annotation).Err? ==> r == Err(IndexError)
    // an override wins outright
    ensures IgnoreUndefined(annotation).Ok? && override.Some? ==> r == Ok(override.value)
    // otherwise the first undefined constituent value is taken
    ensures IgnoreUndefined(annotation).Ok? && override.None? && FirstUndefined(values).Some? ==>
      r == Ok(values[FirstUndefined(values).value]) && UndefinedForMixing(r.value)
    // otherwise a weighted mixture in the first constituent's unit
    ensures (IgnoreUndefined(annotation).Ok? && override.None? && FirstUndefined(values).None? && |values| > 0
             && !values[0].ScProp? && validMix(values, fractions, UnitOf(values[0]).value)) ==>
      r == Ok(MixedProp(values, fractions, UnitOf(values[0]).value))
    // a mixture that fails validation becomes an attribute-error property
    ensures (IgnoreUndefined(annotation).Ok? && override.None? && FirstUndefined(values).None? && |values| > 0
             && !values[0].ScProp? && !validMix(values, fractions, UnitOf(values[0]).value)) ==>
      r == Ok(UndefinedProp(Some("Material property '" + prp + "' not defined and not overidden at  ")))
    // the only other failures: no constituent, or a first value without a unit
    ensures r.Err? ==> (IgnoreUndefined(annotation).Err? ||
                        (override.None? && FirstUndefined(values).None? && (|values| == 0 || values[0].ScProp?)))
  {
    var mixType :- IgnoreUndefined(annotation);
    if override.Some? then Ok(override.value)
    else
      match FirstUndefined(values)
      case Some(i) => Ok(values[i])
      case None =>
        if |values| == 0 then Err(IndexError)
        else
          var unit :- UnitOf(values[0]);
          if validMix(values, fractions, unit) then Ok(MixedProp(values, fractions, unit))
          else
            var ind := GetIndexes(Present(values), None);
            NoneNeverFound(values);
            assert NotDefinedMessage(prp, MissingText(ind, names))
                == "Material property '" + prp + "' not defined and not overidden at  ";
            Ok(UndefinedProp(Some(NotDefinedMessage(prp, MissingText(ind, names)))))
  }

  /** What resolving a property depends on besides its name: the
      constituents, the caller's overrides, each property's annotation and
      the `Mixture` validation. */
  datatype Context = Context(cs: seq<Constituent>, overrides: Dict<FieldValue>,
                             annotationOf: string -> seq<string>,
                             validMix: (seq<FieldValue>, seq<real>, Num.Unit) -> bool)

  /** One property of the constituents resolved. */
  function ResolveOne(prp: string, ctx: Context): Result<FieldValue>
  {
    Resolve(prp, ValuesNamed(FieldsList(ctx.cs), prp), RawFractions(ctx.cs), NamesList(ctx.cs),
            Get(ctx.overrides, prp), ctx.annotationOf(prp), ctx.validMix)
  }

  /** The resolution loop of `mixture` for one property. */
  method ResolveProperty(prp: string, mfs: seq<MaterialFraction>, override: Option<FieldValue>,
                         annotation: seq<string>,
                         validMix: (seq<FieldValue>, seq<real>, Num.Unit) -> bool) returns (r: Result<FieldValue>)
    ensures r == Resolve(prp, ValuesNamed(FieldsOf(mfs), prp), FractionsOf(mfs), NamesOf(mfs), override,
                         annotation, validMix)
  {
    var dpp, fractions := PropertiesFromMaterials(prp, mfs);
    var mixType := IgnoreUndefined(annotation);
    if mixType.Err? {
      return Err(mixType.error);
    }
    if override.Some? {
      return Ok(override.value);
    }
    var i := 0;
    while i < |dpp|
      invariant 0 <= i <= |dpp|
      invariant forall j :: 0 <= j < i ==> !UndefinedForMixing(dpp[j])
    {
      if UndefinedForMixing(dpp[i]) {
        assert FirstUndefined(dpp).Some?;
        return Ok(dpp[i]);
      }
      i := i + 1;
    }
    if |dpp| == 0 {
      return Err(IndexError);
    }
    var unit := UnitOf(dpp[0]);
    if unit.Err? {
      return Err(unit.error);
    }
    if validMix(dpp, fractions, unit.value) {
      return Ok(MixedProp(dpp, fractions, unit.value));
    }
    var ind := GetIndexes(Present(dpp), None);
    NoneNeverFound(dpp);
    return Ok(UndefinedProp(Some(NotDefinedMessage(prp, MissingText(ind, NamesOf(mfs))))));
  }

  // ---------------------------------------------------------------------
  // Every property
  // ---------------------------------------------------------------------

  predicate DistinctNames(names: seq<string>)
  {
    forall i, j :: 0 <= i < j < |names| ==> names[i] != names[j]
  }

  /** `keys` added to `acc` in order, skipping names already there and the
      base material fields. */
  function AddNames(acc: seq<string>, keys: seq<string>): (r: seq<string>)
    ensures forall k :: k in r <==> k in acc || (k in keys && k !in BaseFieldNames)
    ensures DistinctNames(acc) ==> DistinctNames(r)
    decreases |keys|
  {
    if |keys| == 0 then acc
    else if keys[0] in acc || keys[0] in BaseFieldNames then AddNames(acc, keys[1..])
    else AddNames(acc + [keys[0]], keys[1..])
  }

  /** `all_fields.keys() - Material.model_fields.keys()`: the field names
      of any constituent other than the base material fields, each once, in
      order of first appearance. */
  function PropertyNamesOf(fieldsList: seq<Dict<FieldValue>>): (r: seq<string>)
    ensures forall k :: k in r <==>
      k !in BaseFieldNames && exists i :: 0 <= i < |fieldsList| && k in Keys(fieldsList[i])
    ensures DistinctNames(r)
  {
    if |fieldsList| == 0 then []
    else
      var n := |fieldsList| - 1;
      var prev := PropertyNamesOf(fieldsList[..n]);
      assert forall i :: 0 <= i < n ==> fieldsList[..n][i] == fieldsList[i];
      AddNames(prev, Keys(fieldsList[n]))
  }

  /** Property resolution in a given context, as a function of the name. */
  function Resolver(ctx: Context): string -> Result<FieldValue>
  {
    prp => ResolveOne(prp, ctx)
  }

  /** The resolved value of every name, in order; the first failure is
      raised. */
  function ResolveAll(names: seq<string>, resolve: string -> Result<FieldValue>): Result<Dict<FieldValue>>
  {
    if |names| == 0 then Ok([])
    else
      var prev :- ResolveAll(names[..|names| - 1], resolve);
      var prp := names[|names| - 1];
      var v :- resolve(prp);
      Ok(Set(prev, prp, v))
  }

  /** Resolution of a list fails exactly when one of its names fails. */
  lemma {:induction false} ResolveAllOk(names: seq<string>, resolve: string -> Result<FieldValue>)
    ensures ResolveAll(names, resolve).Ok? <==> forall i :: 0 <= i < |names| ==> resolve(names[i]).Ok?
  {
    if |names| > 0 {
      var n := |names| - 1;
      ResolveAllOk(names[..n], resolve);
      assert forall i :: 0 <= i < n ==> names[..n][i] == names[i];
    }
  }

  /** The resolution of a list of distinct names has exactly those names,
      in order. */
  lemma {:induction false} ResolveAllKeys(names: seq<string>, resolve: string -> Result<FieldValue>)
    requires ResolveAll(names, resolve).Ok?
    ensures Keys(ResolveAll(names, resolve).value) == names || !DistinctNames(names)
  {
    if |names| > 0 && DistinctNames(names) {
      var n := |names| - 1;
      var init := names[..n];
      assert DistinctNames(init);
      ResolveAllKeys(init, resolve);
      var p := ResolveAll(init, resolve).value;
      var v := resolve(names[n]).value;
      assert names[n] !in Keys(p);
      forall i | 0 <= i < |p| ensures p[i].0 != names[n] {
        assert Keys(p)[i] == p[i].0;
      }
      SetKeys(p, names[n], v);
      assert init + [names[n]] == names;
    }
  }

  /** Every name of a list finds its own resolved value. */
  lemma {:induction false} ResolveAllValues(names: seq<string>, resolve: string -> Result<FieldValue>)
    requires ResolveAll(names, resolve).Ok? && DistinctNames(names)
    ensures forall i :: 0 <= i < |names| ==>
      resolve(names[i]).Ok? && Get(ResolveAll(names, resolve).value, names[i]) == Some(resolve(names[i]).value)
  {
    if |names| > 0 {
      var n := |names| - 1;
      var init := names[..n];
      assert DistinctNames(init);
      ResolveAllValues(init, resolve);
      var p := ResolveAll(init, resolve).value;
      var v := resolve(names[n]).value;
      forall i | 0 <= i < |names|
        ensures resolve(names[i]).Ok? && Get(Set(p, names[n], v), names[i]) == Some(resolve(names[i]).value)
      {
        if i < n {
          assert init[i] == names[i];
          SetOther(p, names[n], v, names[i]);
        }
      }
    }
  }

  /** Resolving a longer list fails with the first failure of a prefix. */
  lemma {:induction false} ResolveAllPrefixError(names: seq<string>, i: nat, resolve: string -> Result<FieldValue>)
    requires i <= |names| && ResolveAll(names[..i], resolve).Err?
    ensures ResolveAll(names, resolve) == ResolveAll(names[..i], resolve)
  {
    if i < |names| {
      var n := |names| - 1;
      assert names[..n][..i] == names[..i];
      ResolveAllPrefixError(names[..n], i, resolve);
    } else {
      assert names[..i] == names;
    }
  }

  /** Resolving one more name: the earlier failure, the new one, or the
      value set under that name. */
  lemma ResolveAllNext(names: seq<string>, i: nat, resolve: string -> Result<FieldValue>)
    requires i < |names|
    ensures ResolveAll(names[..i + 1], resolve)
         == if ResolveAll(names[..i], resolve).Err? then ResolveAll(names[..i], resolve)
            else if resolve(names[i]).Err? then Err(resolve(names[i]).error)
            else Ok(Set(ResolveAll(names[..i], resolve).value, names[i], resolve(names[i]).value))
  {
    assert names[..i + 1][..i] == names[..i];
  }

  // ---------------------------------------------------------------------
  // Element composition of the mixture
  // ---------------------------------------------------------------------

  /** The conversion atomic mixing applies: none. */
  function Identity(d: Dict<real>): (r: Dict<real>)
    ensures r == d
  {
    d
  }

  /** The element composition of the mixture: atomic fractions blended as
      they are, mass fractions blended after conversion and tagged "mass",
      volume mixing left to its own conversion; any other fraction type is
      not implemented. */
  function MixedElements(els: seq<Elements>, fracs: seq<real>, fractionType: string,
                         toMass: Dict<real> -> Dict<real>, volumeMix: (seq<Elements>, seq<real>) -> Elements): (r: Result<Elements>)
    ensures fractionType !in ["atomic", "mass", "volume"] ==>
      r == Err(NotImplementedError("fraction_type='" + fractionType + "' not a valid option"))
    ensures fractionType == "atomic" ==>
      (r.Ok? <==> Normalise(Blend(Pairs(els, fracs, Identity))).Ok?) &&
      (r.Ok? ==> r.value == Elements(Normalise(Blend(Pairs(els, fracs, Identity))).value, None))
    ensures fractionType == "mass" && r.Ok? ==> r.value.fractionType == Some("mass")
  {
    if fractionType == "atomic" then
      var root :- Normalise(Blend(Pairs(els, fracs, Identity)));
      Ok(Elements(root, None))
    else if fractionType == "mass" then
      var root :- Normalise(Blend(Pairs(els, fracs, toMass)));
      Ok(Elements(root, Some("mass")))
    else if fractionType == "volume" then Ok(volumeMix(els, fracs))
    else Err(NotImplementedError("fraction_type='" + fractionType + "' not a valid option"))
  }

  /** A material mixed with itself by atomic fraction keeps its element
      composition, when its fractions sum to one. */
  lemma {:induction false} SelfMixture(e: Elements, a: real, b: real)
    requires DistinctKeys(e.root) && Total(Dicts.Values(e.root)) == 1.0 && a + b != 0.0
    ensures MixedElements([e, e], [a, b], "atomic", d => d, (els, fracs) => e) == Ok(Elements(e.root, None))
  {
    assert Pairs([e, e], [a, b], Identity) == [(e.root, a), (e.root, b)];
    SelfBlend(e.root, a, b);
  }

  /** The element branch of `mixture`. */
  method MixElements(els: seq<Elements>, fracs: seq<real>, fractionType: string,
                     toMass: Dict<real> -> Dict<real>, volumeMix: (seq<Elements>, seq<real>) -> Elements)
    returns (r: Result<Elements>)
    ensures r == MixedElements(els, fracs, fractionType, toMass, volumeMix)
  {
    if fractionType == "atomic" {
      var root := AtomicToInp(els, fracs, Identity);
      if root.Err? {
        return Err(root.error);
      }
      return Ok(Elements(root.value, None));
    } else if fractionType == "mass" {
      var root := AtomicToInp(els, fracs, toMass);
      if root.Err? {
        return Err(root.error);
      }
      return Ok(Elements(root.value, Some("mass")));
    } else if fractionType == "volume" {
      return Ok(volumeMix(els, fracs));
    }
    return Err(NotImplementedError("fraction_type='" + fractionType + "' not a valid option"));
  }

  // ---------------------------------------------------------------------
  // mixture
  // ---------------------------------------------------------------------

  /** What `mixture` computes before it builds the material: the property
      values, the fractions after the void check and the blended elements. */
  datatype Plan = Plan(fields: Dict<FieldValue>, fractions: seq<real>, elements: Elements)

  function MixPlan(ctx: Context, fractionType: string, toMass: Dict<real> -> Dict<real>,
                   volumeMix: (seq<Elements>, seq<real>) -> Elements): (r: Result<Plan>)
    ensures r.Ok? ==> |r.value.fractions| == |ctx.cs|
    ensures r.Ok? ==> Keys(r.value.fields) == PropertyNamesOf(FieldsList(ctx.cs))
    ensures r.Ok? ==> forall k :: k in PropertyNamesOf(FieldsList(ctx.cs)) ==>
      ResolveOne(k, ctx).Ok? && Get(r.value.fields, k) == Some(ResolveOne(k, ctx).value)
  {
    var names := PropertyNamesOf(FieldsList(ctx.cs));
    var fields :- ResolveAll(names, Resolver(ctx));
    ResolveAllOk(names, Resolver(ctx));
    ResolveAllKeys(names, Resolver(ctx));
    ResolveAllValues(names, Resolver(ctx));
    var fracs :- VoidFractions(RawFractions(ctx.cs), fractionType);
    var els :- MixedElements(ElementsList(ctx.cs), fracs, fractionType, toMass, volumeMix);
    Ok(Plan(fields, fracs, els))
  }

  /** The constituents as the `MaterialFraction` records hold them now. */
  function ConstituentsOf(mfs: seq<MaterialFraction>): (r: seq<Constituent>)
    reads set mf | mf in mfs
    reads set mf | mf in mfs :: mf.material
    ensures |r| == |mfs| && forall i :: 0 <= i < |mfs| ==>
      r[i] == Constituent(mfs[i].material.fields, mfs[i].material.name, mfs[i].fraction, mfs[i].material.elements)
  {
    seq(|mfs|, i requires 0 <= i < |mfs| reads set mf | mf in mfs reads set mf | mf in mfs :: mf.material =>
      Constituent(mfs[i].material.fields, mfs[i].material.name, mfs[i].fraction, mfs[i].material.elements))
  }

  /** The property loop of `mixture`: every property name of the
      constituents resolved in turn, the first failure raised. */
  method ResolveProperties(mfs: seq<MaterialFraction>, ctx: Context) returns (r: Result<Dict<FieldValue>>)
    requires ctx.cs == ConstituentsOf(mfs)
    ensures r == ResolveAll(PropertyNamesOf(FieldsList(ctx.cs)), Resolver(ctx))
  {
    assert FieldsOf(mfs) == FieldsList(ctx.cs);
    assert NamesOf(mfs) == NamesList(ctx.cs);
    assert FractionsOf(mfs) == RawFractions(ctx.cs);
    var names := PropertyNamesOf(FieldsOf(mfs));
    var propVal: Dict<FieldValue> := [];
    for i := 0 to |names|
      invariant ResolveAll(names[..i], Resolver(ctx)) == Ok(propVal)
    {
      var prp := names[i];
      var v := ResolveProperty(prp, mfs, Get(ctx.overrides, prp), ctx.annotationOf(prp), ctx.validMix);
      assert v == Resolver(ctx)(prp);
      ResolveAllNext(names, i, Resolver(ctx));
      if v.Err? {
        ResolveAllPrefixError(names, i + 1, Resolver(ctx));
        return Err(v.error);
      }
      propVal := Set(propVal, prp, v.value);
    }
    assert names[..|names|] == names;
    return Ok(propVal);
  }

  /** Everything `mixture` does before it builds the material: the
      properties resolved, the fractions void-checked in place and the
      elements blended. */
  method Prepare(mfs: seq<MaterialFraction>, ctx: Context, fractionType: string,
                 toMass: Dict<real> -> Dict<real>, volumeMix: (seq<Elements>, seq<real>) -> Elements)
    returns (r: Result<(Dict<FieldValue>, Elements)>)
    requires ctx.cs == ConstituentsOf(mfs)
    requires forall i, j :: 0 <= i < j < |mfs| ==> mfs[i] != mfs[j]
    modifies set mf | mf in mfs
    ensures MixPlan(ctx, fractionType, toMass, volumeMix).Err? ==>
      r == Err(MixPlan(ctx, fractionType, toMass, volumeMix).error)
    ensures MixPlan(ctx, fractionType, toMass, volumeMix).Ok? ==>
      var plan := MixPlan(ctx, fractionType, toMass, volumeMix).value;
      r == Ok((plan.fields, plan.elements)) && FractionsOf(mfs) == plan.fractions
  {
    var fields := ResolveProperties(mfs, ctx);
    if fields.Err? {
      return Err(fields.error);
    }
    assert FractionsOf(mfs) == RawFractions(ctx.cs);
    assert ElementsOf(mfs) == ElementsList(ctx.cs);
    var inpFrac := VoidCheck(mfs, fractionType);
    if inpFrac.Err? {
      return Err(inpFrac.error);
    }
    var elements := MixElements(ElementsOf(mfs), inpFrac.value, fractionType, toMass, volumeMix);
    if elements.Err? {
      return Err(elements.error);
    }
    return Ok((fields.value, elements.value));
  }

  /** `mixture`: the new material is named `name`, holds the plan's
      properties (after its own mixture validation), elements and
      fractions, and records one fresh constituent record per input. */
  method Mix(name: string, inputs: seq<FractionInput>, fractionType: string, converters: Dict<Converter>,
             reference: Option<Dict<Reference>>, overrides: Dict<FieldValue>,
             annotationOf: string -> seq<string>,
             validMix: (seq<FieldValue>, seq<real>, Num.Unit) -> bool,
             toMass: Dict<real> -> Dict<real>, volumeMix: (seq<Elements>, seq<real>) -> Elements)
    returns (r: Result<Material>)
    ensures ValidateAllFractions(inputs).Err? ==> r == Err(ValidateAllFractions(inputs).error)
    ensures ValidateAllFractions(inputs).Ok? ==>
      var ms := ValidateAllFractions(inputs).value;
      var plan := MixPlan(Context(old(Snapshot(ms)), overrides, annotationOf, validMix), fractionType, toMass, volumeMix);
      (plan.Err? ==> r == Err(plan.error)) &&
      (plan.Ok? && |ms| == 0 ==> r == Err(IndexError)) &&
      (plan.Ok? && |ms| > 0 ==> r.Ok? && fresh(r.value) && Built(r.value, name, ms, plan.value, converters, reference))
  {
    ghost var ms := if ValidateAllFractions(inputs).Ok? then ValidateAllFractions(inputs).value else [];
    ghost var cs := Snapshot(ms);
    var validated := ValidateFractions(inputs);
    if validated.Err? {
      return Err(validated.error);
    }
    var mfs := validated.value;
    assert Snapshot(ms) == cs;
    r := MixFractions(name, mfs, ms, cs, fractionType, converters, reference, overrides, annotationOf, validMix,
                      toMass, volumeMix);
  }

  /** `mixture` once the constituents are validated into the fresh records
      `mfs`, which hold the materials and fractions of `ms`. */
  method MixFractions(name: string, mfs: seq<MaterialFraction>, ghost ms: seq<(Material, real)>, ghost cs: seq<Constituent>,
                      fractionType: string, converters: Dict<Converter>,
                      reference: Option<Dict<Reference>>, overrides: Dict<FieldValue>,
                      annotationOf: string -> seq<string>,
                      validMix: (seq<FieldValue>, seq<real>, Num.Unit) -> bool,
                      toMass: Dict<real> -> Dict<real>, volumeMix: (seq<Elements>, seq<real>) -> Elements)
    returns (r: Result<Material>)
    requires |mfs| == |ms| && forall i :: 0 <= i < |ms| ==> (mfs[i].material, mfs[i].fraction) == ms[i]
    requires forall i, j :: 0 <= i < j < |mfs| ==> mfs[i] != mfs[j]
    requires cs == Snapshot(ms)
    modifies set mf | mf in mfs
    ensures var plan := MixPlan(Context(cs, overrides, annotationOf, validMix), fractionType, toMass, volumeMix);
      (plan.Err? ==> r == Err(plan.error)) &&
      (plan.Ok? && |ms| == 0 ==> r == Err(IndexError)) &&
      (plan.Ok? && |ms| > 0 ==> r.Ok? && fresh(r.value) && Built(r.value, name, ms, plan.value, converters, reference))
  {
    var ctx := Context(ConstituentsOf(mfs), overrides, annotationOf, validMix);
    assert ctx.cs == cs;
    var prepared := Prepare(mfs, ctx, fractionType, toMass, volumeMix);
    if prepared.Err? {
      return Err(prepared.error);
    }
    ghost var plan := MixPlan(ctx, fractionType, toMass, volumeMix).value;
    var m, outcome := Assemble(name, prepared.value.1, converters, reference, mfs, prepared.value.0);
    if outcome.Fail? {
      return Err(outcome.error);
    }
    assert FractionsOf(mfs) == plan.fractions;
    assert m.fields == ValidateAll(InjectFields(plan.fields), Profile(mfs[0].material), Profiles(mfs[1..]));
    assert Built(m, name, ms, plan, converters, reference);
    return Ok(m);
  }

  /** The new material built from the mixed parts, and the outcome of its
      own mixture validation, which fails only without constituents. */
  method Assemble(name: string, elements: Elements, converters: Dict<Converter>,
                  reference: Option<Dict<Reference>>, mfs: seq<MaterialFraction>, fields: Dict<FieldValue>)
    returns (m: Material, outcome: Outcome)
    ensures fresh(m)
    ensures outcome == if |mfs| == 0 then Fail(IndexError) else Pass
    ensures m.typeName == name && m.name == name && m.elements == elements && m.converters == converters
    ensures m.reference == reference && m.mixtureFraction == Some(mfs)
    ensures |mfs| > 0 ==> m.fields == ValidateAll(InjectFields(fields), Profile(mfs[0].material), Profiles(mfs[1..]))
  {
    m := new Material.Make(name, name, elements, converters, reference, Some(mfs), fields);
    outcome := m.MixtureValidation();
  }

  /** The material `mixture` returns for validated constituents `ms` and a
      successful plan. */
  ghost predicate Built(m: Material, name: string, ms: seq<(Material, real)>, plan: Plan,
                        converters: Dict<Converter>, reference: Option<Dict<Reference>>)
    reads m, if m.mixtureFraction.Some? then set mf | mf in m.mixtureFraction.value else {}
    reads if m.mixtureFraction.Some? then set mf | mf in m.mixtureFraction.value :: mf.material else {}
  {
    m.typeName == name && m.name == name && m.elements == plan.elements && m.converters == converters &&
    m.reference == reference && m.mixtureFraction.Some? &&
    var mfs := m.mixtureFraction.value;
    |mfs| == |ms| && |mfs| > 0 &&
    (forall i :: 0 <= i < |ms| ==> mfs[i].material == ms[i].0) &&
    FractionsOf(mfs) == plan.fractions &&
    m.fields == ValidateAll(InjectFields(plan.fields), Profile(mfs[0].material), Profiles(mfs[1..]))
  }

  // ---------------------------------------------------------------------
  // dependentphysicalproperty
  // ---------------------------------------------------------------------

  /** The property class a decorated method is wrapped in: the base class
      itself, or a subclass whose `unit` field may have a default. */
  datatype DppClass = BaseDpp | SubclassDpp(defaultUnit: Option<Num.Unit>)

  /** The unit guard of `dependentphysicalproperty`: the class default of
      the generated model's `unit` field and the unit its instance is built
      with. Only a subclass contributes a default; an explicit unit wins for
      the instance, the class default for the field; with neither there is
      nothing to use. */
  function DecoratorUnits(dpp: DppClass, unit: Option<Num.Unit>): (r: Result<(Num.Unit, Num.Unit)>)
    ensures r.Err? <==> unit.None? && (dpp.BaseDpp? || dpp.defaultUnit.None?)
    ensures r.Err? ==> r.error == ValueError("Unit must be specified for function output")
    ensures r.Ok? && unit.Some? ==> r.value.1 == unit.value
    ensures r.Ok? && dpp.SubclassDpp? && dpp.defaultUnit.Some? ==> r.value.0 == dpp.defaultUnit.value
    ensures r.Ok? && unit.None? ==> r.value.0 == r.value.1
  {
    var dunit := if dpp.SubclassDpp? then dpp.defaultUnit else None;
    if unit.None? && dunit.None? then Err(ValueError("Unit must be specified for function output"))
    else
      var fieldDefault := if dunit.Some? then dunit.value else unit.value;
      var instanceUnit := if unit.Some? then unit.value else dunit.value;
      Ok((fieldDefault, instanceUnit))
  }
}
