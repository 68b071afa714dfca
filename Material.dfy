// Materials: a named composition with property fields and converters. The
// `material` factory makes a concrete material type from a property group;
// the abstract base cannot be instantiated; a mixture's constituents are
// compared after construction, and a property defined on some constituents
// only is marked as an attribute error.

module Material {
  import opened Wrappers
  import opened Dicts
  import opened Values
  import opened Base
  import opened Group
  import opened ConvertersBase

  /** A composition: element or isotope symbol to fraction, and the basis
      the fractions are tagged with. */
  datatype Elements = Elements(root: Dict<real>, fractionType: Option<string>)

  const NoElements := Elements([], None)

  /** The value of a property field of a material. */
  datatype FieldValue =
    | UndefinedProp(msg: Option<string>)  // UndefinedProperty; an AttributeErrorProperty carries a message
    | DppProp(dpp: Dpp)                   // a dependent physical property
    | MixedProp(parts: seq<FieldValue>, fractions: seq<real>, unit: Unit)  // a Mixture
    | ScProp(sc: ScParam)                 // a superconducting parameterisation

  /** Instances of DependentPhysicalProperty (a Mixture is not one). */
  predicate IsDpp(v: FieldValue)
  {
    v.UndefinedProp? || v.DppProp?
  }

  predicate IsUndefinedProperty(v: FieldValue)
  {
    v.UndefinedProp?
  }

  /** UndefinedProperty or UndefinedSuperconductingParameterisation. */
  predicate UndefinedForMixing(v: FieldValue)
  {
    v.UndefinedProp? || (v.ScProp? && v.sc.typeName == UndefinedScType)
  }

  /** The fields every material type declares. */
  const BaseFieldNames: seq<string> := ["name", "elements", "converters", "reference", "mixture_fraction"]

  /** Field names passed to `create_model` by keyword besides the properties. */
  const KeywordFieldNames: seq<string> := ["name", "elements", "converters", "reference"]

  // ---------------------------------------------------------------------
  // list_properties
  // ---------------------------------------------------------------------

  /** The fields iteration yields that are dependent physical properties. */
  function PropertyEntries(fields: Dict<FieldValue>): (r: Dict<FieldValue>)
    ensures forall e :: e in r <==> e in fields && Visible(e.0) && IsDpp(e.1)
    ensures DistinctKeys(fields) ==> DistinctKeys(r)
  {
    if |fields| == 0 then []
    else
      var rest := PropertyEntries(fields[1..]);
      assert forall e :: e in fields <==> e == fields[0] || e in fields[1..];
      if Visible(fields[0].0) && IsDpp(fields[0].1) then
        assert DistinctKeys(fields) ==> forall e :: e in rest ==> e.0 != fields[0].0;
        [fields[0]] + rest
      else rest
  }

  /** `list_properties(include_undefined=mode)` over a material's fields. */
  function ListPropertiesOf(fields: Dict<FieldValue>, mode: IncludeUndefined): (r: seq<string>)
    ensures forall k :: k in r <==>
      (exists e :: e in fields && e.0 == k && Visible(k) && IsDpp(e.1) && Selected(mode, e.1.UndefinedProp?))
  {
    var entries := PropertyEntries(fields);
    ListNames(entries, IsUndefinedProperty, mode)
  }

  /** The defined and the undefined properties partition the properties:
      together they are every property, and no name is in both. */
  lemma {:induction false} ListPropertiesPartition(fields: Dict<FieldValue>)
    requires DistinctKeys(fields)
    ensures ListPropertiesOf(fields, Everything) == Keys(PropertyEntries(fields))
    ensures multiset(ListPropertiesOf(fields, OnlyDefined)) + multiset(ListPropertiesOf(fields, OnlyUndefined))
         == multiset(ListPropertiesOf(fields, Everything))
    ensures forall k :: k in ListPropertiesOf(fields, OnlyDefined) ==> k !in ListPropertiesOf(fields, OnlyUndefined)
  {
    var entries := PropertyEntries(fields);
    ListPartition(entries, IsUndefinedProperty);
    ListDisjoint(entries, IsUndefinedProperty);
  }

  /** A mixed value is not a dependent physical property: it is never listed. */
  lemma {:induction false} MixedNotListed(fields: Dict<FieldValue>, k: string, mode: IncludeUndefined)
    requires DistinctKeys(fields) && HasKey(fields, k) && Get(fields, k).value.MixedProp?
    ensures k !in ListPropertiesOf(fields, mode)
  {
    assert forall e :: e in fields && e.0 == k ==> e.1.MixedProp? by {
      GetFound(fields, k);
      var i :| 0 <= i < |fields| && fields[i] == (k, Get(fields, k).value);
      forall e | e in fields && e.0 == k ensures e.1.MixedProp? {
        var j :| 0 <= j < |fields| && fields[j] == e;
        assert i == j;
      }
    }
  }

  // ---------------------------------------------------------------------
  // The material factory
  // ---------------------------------------------------------------------

  /** A property field of a material type and where its default comes from. */
  datatype PropertyField =
    | GroupSlot(slot: Slot)              // a field of a group built by `props`
    | Custom(value: FieldValue)          // a keyword property of `material`
    | InstanceField(groupValue: GroupValue)  // a field of a property group instance

  /** A material type: the abstract base, or a type made by the factory. */
  datatype MaterialType =
    | AbstractMaterial
    | MaterialType(typeName: string, elements: Elements, converters: Dict<Converter>,
                   reference: Option<Dict<Reference>>, properties: Dict<PropertyField>)

  /** The fields a concrete material type declares. */
  function FieldNames(t: MaterialType): seq<string>
    requires t.MaterialType?
  {
    BaseFieldNames + Keys(t.properties)
  }

  /** The `properties` argument of `material`. */
  datatype PropertiesInput =
    | NoProperties                                   // None
    | PlainProperties                                // an instance of Properties itself
    | PropsArguments(args: Dict<Arg>, reference: Option<Dict<Reference>>, asField: Option<bool>)  // a dict
    | PropsField(schema: Dict<Slot>, groupReference: Option<Dict<Reference>>)  // a field made by props
    | GroupInstance(values: Dict<GroupValue>, groupReference: Option<Dict<Reference>>)  // a group instance
    | OtherProperties                                // anything else

  /** `combine_refs` as written: with no group reference the result is
      None; with both it is None as well, because `combine` returns nothing. */
  function CombineRefsAsWritten(given: Option<Dict<Reference>>, groupReference: Option<Dict<Reference>>): (r: Option<Dict<Reference>>)
    ensures r.Some? <==> given.None? && groupReference.Some?
    ensures r.Some? ==> r == groupReference
  {
    if groupReference.Some? then (if given.Some? then None else groupReference) else None
  }

  /** `combine_refs` as intended: the given references with the group's
      written over them by id; either one alone is kept as it is. */
  function CombineRefs(given: Option<Dict<Reference>>, groupReference: Option<Dict<Reference>>): (r: Option<Dict<Reference>>)
    ensures r.None? <==> given.None? && groupReference.None?
    ensures given.None? ==> r == groupReference
    ensures groupReference.None? ==> r == given
    ensures given.Some? && groupReference.Some? ==>
              forall k :: Get(r.value, k) == if LastWith(groupReference.value, k).Some? then LastWith(groupReference.value, k)
                                            else Get(given.value, k)
  {
    match (given, groupReference)
    case (Some(g), Some(h)) =>
      assert forall k :: Get(SetAll(g, h), k) == if LastWith(h, k).Some? then LastWith(h, k) else Get(g, k) by {
        forall k ensures Get(SetAll(g, h), k) == if LastWith(h, k).Some? then LastWith(h, k) else Get(g, k) {
          SetAllGet(g, h, k);
        }
      }
      Some(SetAll(g, h))
    case (None, _) => groupReference
    case (_, None) => given
  }

  /** A reference given next to a property group: as written it is lost
      whatever the group holds, while the intended combination keeps every
      id the caller gave. */
  lemma {:induction false} CallerReferenceKept(given: Dict<Reference>, groupReference: Option<Dict<Reference>>)
    ensures CombineRefsAsWritten(Some(given), groupReference) == None
    ensures var r := CombineRefs(Some(given), groupReference);
      r.Some? && forall k :: HasKey(given, k) ==> HasKey(r.value, k)
  {
    var r := CombineRefs(Some(given), groupReference);
    forall k | HasKey(given, k) ensures HasKey(r.value, k) {
      if groupReference.Some? {
        GetFound(given, k);
        assert Get(r.value, k).Some?;
      }
    }
  }

  /** The property group's own names: its eighteen properties and the
      superconducting parameterisation. */
  const GroupFieldNames: seq<string> := PropertyNames + [SuperconductingName]

  /** The arguments of a properties dict that are not properties of the group. */
  function ExtraArguments(args: Dict<Arg>): (r: Dict<Arg>)
    ensures forall e :: e in r <==> e in args && e.0 !in GroupFieldNames
  {
    if |args| == 0 then []
    else
      var rest := ExtraArguments(args[1..]);
      assert forall e :: e in args <==> e == args[0] || e in args[1..];
      if args[0].0 in GroupFieldNames then rest else [args[0]] + rest
  }

  /** `props(**args)`: the dict split into the keyword parameters and the extras. */
  function PropsFromDict(args: Dict<Arg>, asField: bool): Result<PropsResult>
  {
    var named := seq(|PropertyNames|, i requires 0 <= i < |PropertyNames| => Get(args, PropertyNames[i]).GetOr(ArgFalse));
    var sc := Get(args, SuperconductingName).GetOr(ArgNone);
    Props(named, sc, ExtraArguments(args), GroupFieldNames, asField)
  }

  /** The property fields and the reference the factory derives from its
      `properties` argument. */
  function PropertyFields(properties: PropertiesInput, reference: Option<Dict<Reference>>): (r: Result<(Dict<PropertyField>, Option<Dict<Reference>>)>)
    ensures properties.NoProperties? || properties.PlainProperties? ==> r == Ok(([], reference))
    ensures properties.OtherProperties? ==> r.Err? && r.error.NotImplementedError?
    ensures properties.PropsField? ==>
      r == Ok((MapValues(properties.schema, s => GroupSlot(s)), CombineRefsAsWritten(reference, properties.groupReference)))
  {
    match properties
    case NoProperties => Ok(([], reference))
    case PlainProperties => Ok(([], reference))
    case PropsArguments(args, groupReference, asField) =>
      var made :- PropsFromDict(args, asField.GetOr(true));
      if made.Instance? then Err(AttributeError("items"))
      else Ok((MapValues(made.factory, s => GroupSlot(s)), CombineRefsAsWritten(reference, groupReference)))
    case PropsField(schema, groupReference) =>
      Ok((MapValues(schema, s => GroupSlot(s)), CombineRefsAsWritten(reference, groupReference)))
    case GroupInstance(values, groupReference) =>
      Ok((MapValues(values, v => InstanceField(v)), CombineRefsAsWritten(reference, groupReference)))
    case OtherProperties => Err(NotImplementedError(""))
  }

  /** Two keyword arguments of one name make `create_model` raise. */
  predicate Collide(custom: Dict<FieldValue>, fields: Dict<PropertyField>)
  {
    (exists k :: k in Keys(custom) && (k in Keys(fields) || k in KeywordFieldNames))
    || (exists k :: k in Keys(fields) && k in KeywordFieldNames)
  }

  /** `material(name, elements, properties, converters, reference, **custom)`. */
  function MakeMaterial(name: string, elements: Option<Elements>, properties: PropertiesInput,
                        converters: Option<ConvertersInput>, reference: Option<Dict<Reference>>,
                        custom: Dict<FieldValue>): (r: Result<MaterialType>)
    ensures r.Ok? ==> r.value.MaterialType? && r.value.typeName == name
    ensures r.Ok? ==> r.value.elements == elements.GetOr(NoElements)
    ensures r.Ok? && converters.None? ==> r.value.converters == []
  {
    var (fields, ref) :- PropertyFields(properties, reference);
    var customFields := MapValues(custom, v => Custom(v));
    if Collide(custom, fields) then Err(TypeError("got multiple values for keyword argument"))
    else
      Ok(MaterialType(name, elements.GetOr(NoElements),
                      if converters.Some? then Validation(converters.value) else [],
                      ref, customFields + fields))
  }

  /** `material(name)` declares exactly the base fields. */
  lemma {:induction false} MaterialWithoutProperties(name: string)
    ensures MakeMaterial(name, None, NoProperties, None, None, []).Ok?
    ensures FieldNames(MakeMaterial(name, None, NoProperties, None, None, []).value) == BaseFieldNames
  {
    var t := MakeMaterial(name, None, NoProperties, None, None, []).value;
    assert Keys(t.properties) == [];
  }

  /** A properties dict adds exactly the names it gives other than False or
      None, after the base fields; the reference is what `combine_refs`
      makes of the given one and the group's. */
  lemma {:induction false} MaterialFromDict(name: string, args: Dict<Arg>, groupReference: Option<Dict<Reference>>, reference: Option<Dict<Reference>>)
    requires PropsFromDict(args, true).Ok?
    requires var s := SchemaOf(PropsFromDict(args, true).value); forall k :: k in Keys(s) ==> k !in KeywordFieldNames
    ensures var r := MakeMaterial(name, None, PropsArguments(args, groupReference, None), None, reference, []);
      r.Ok? && FieldNames(r.value) == BaseFieldNames + Keys(SchemaOf(PropsFromDict(args, true).value))
      && r.value.reference == CombineRefsAsWritten(reference, groupReference)
  {
    var made := PropsFromDict(args, true).value;
    var named := seq(|PropertyNames|, i requires 0 <= i < |PropertyNames| => Get(args, PropertyNames[i]).GetOr(ArgFalse));
    assert made.AsField?;
    var fields := MapValues(made.factory, s => GroupSlot(s));
    assert Keys(fields) == Keys(made.factory);
    assert !Collide([], fields);
    assert Keys(MapValues([], (v: FieldValue) => Custom(v)) + fields) == Keys(fields);
  }

  /** As written, a reference passed to `material` next to a properties
      dict is lost: the material type's reference is None, whatever the
      group's own reference. */
  lemma {:induction false} MaterialDropsReference(name: string, args: Dict<Arg>, groupReference: Option<Dict<Reference>>, given: Dict<Reference>)
    requires PropsFromDict(args, true).Ok?
    requires var s := SchemaOf(PropsFromDict(args, true).value); forall k :: k in Keys(s) ==> k !in KeywordFieldNames
    ensures var r := MakeMaterial(name, None, PropsArguments(args, groupReference, None), None, Some(given), []);
      r.Ok? && r.value.reference.None?
  {
    MaterialFromDict(name, args, groupReference, Some(given));
  }

  /** The value a property field takes when a material is instantiated;
      `coerce` validates a bare or dict default into the field's type. */
  function DefaultValue(f: PropertyField, coerce: Slot -> FieldValue): (r: FieldValue)
    ensures f.GroupSlot? && f.slot.default.UndefinedDefault? ==> r == UndefinedProp(None)
    ensures f.Custom? ==> r == f.value
    ensures f.InstanceField? && f.groupValue.Prop? && f.groupValue.p.Undefined? ==> r == UndefinedProp(None)
  {
    match f
    case GroupSlot(slot) =>
      (match slot.default
       case UndefinedDefault => UndefinedProp(None)
       case GivenDefault(ArgProperty(d)) => DppProp(d)
       case GivenDefault(ArgSc(p)) => ScProp(p)
       case GivenDefault(_) => coerce(slot))
    case Custom(v) => v
    case InstanceField(Prop(Undefined)) => UndefinedProp(None)
    case InstanceField(Prop(Defined(d))) => DppProp(d)
    case InstanceField(Superconducting(p)) => ScProp(p)
  }

  // ---------------------------------------------------------------------
  // Binding the material into its dependent properties (`_inject_group`)
  // ---------------------------------------------------------------------

  /** A property field after `_inject_group`: a dependent property under a
      public name has the material bound into its callable when the
      signature asks for it; every other value is left as it is. */
  function InjectField(name: string, v: FieldValue): (r: FieldValue)
    ensures IsDpp(r) == IsDpp(v) && r.UndefinedProp? == v.UndefinedProp?
    ensures !v.DppProp? ==> r == v
    ensures v.DppProp? ==> r.DppProp? && r.dpp.kind == v.dpp.kind
    ensures v.DppProp? && Visible(name) ==> r.dpp.value == Inject(v.dpp.value)
  {
    match v
    case DppProp(d) => DppProp(Dpp(d.kind, InjectAttr(name, Dependent(d.value)).value))
    case _ => v
  }

  /** Every field of a material after `_inject_group`, names and order kept. */
  function InjectFields(fields: Dict<FieldValue>): (r: Dict<FieldValue>)
    ensures |r| == |fields| && Keys(r) == Keys(fields)
    ensures forall i :: 0 <= i < |fields| ==> r[i] == (fields[i].0, InjectField(fields[i].0, fields[i].1))
  {
    var r := seq(|fields|, i requires 0 <= i < |fields| => (fields[i].0, InjectField(fields[i].0, fields[i].1)));
    assert Keys(r) == Keys(fields);
    r
  }

  /** Binding the owner changes no property's name nor whether it is
      defined: the listings of a material are those of its given fields. */
  lemma {:induction false} InjectKeepsListing(fields: Dict<FieldValue>, mode: IncludeUndefined)
    ensures ListPropertiesOf(InjectFields(fields), mode) == ListPropertiesOf(fields, mode)
  {
    if |fields| > 0 {
      var g := InjectFields(fields);
      assert g[1..] == InjectFields(fields[1..]);
      InjectKeepsListing(fields[1..], mode);
      var rest := PropertyEntries(fields[1..]);
      var restG := PropertyEntries(g[1..]);
      if Visible(fields[0].0) && IsDpp(fields[0].1) {
        assert PropertyEntries(fields) == [fields[0]] + rest;
        assert PropertyEntries(g) == [g[0]] + restG;
        assert ([fields[0]] + rest)[1..] == rest;
        assert ([g[0]] + restG)[1..] == restG;
      }
    }
  }

  // ---------------------------------------------------------------------
  // Materials and material fractions
  // ---------------------------------------------------------------------

  class Material {
    const typeName: string
    const name: string
    var elements: Elements
    var converters: Dict<Converter>
    var reference: Option<Dict<Reference>>
    /** The constituents of a mixture; frozen. */
    const mixtureFraction: Option<seq<MaterialFraction>>
    /** The property fields, in declaration order. */
    var fields: Dict<FieldValue>

    constructor Make(typeName: string, name: string, elements: Elements, converters: Dict<Converter>,
                     reference: Option<Dict<Reference>>, mixtureFraction: Option<seq<MaterialFraction>>,
                     fields: Dict<FieldValue>)
      ensures this.typeName == typeName && this.name == name && this.elements == elements
      ensures this.converters == converters && this.reference == reference
      ensures this.mixtureFraction == mixtureFraction && this.fields == InjectFields(fields)
    {
      this.typeName := typeName;
      this.name := name;
      this.elements := elements;
      this.converters := converters;
      this.reference := reference;
      this.mixtureFraction := mixtureFraction;
      this.fields := fields;
      new;
      InjectGroup();
    }

    /** `_inject_group`: every field in turn has the material bound into
        its dependent property. */
    method InjectGroup()
      modifies this
      ensures fields == InjectFields(old(fields))
      ensures elements == old(elements) && converters == old(converters) && reference == old(reference)
    {
      var i := 0;
      while i < |fields|
        invariant 0 <= i <= |fields| == |old(fields)|
        invariant forall j :: 0 <= j < i ==> fields[j] == (old(fields)[j].0, InjectField(old(fields)[j].0, old(fields)[j].1))
        invariant forall j :: i <= j < |fields| ==> fields[j] == old(fields)[j]
        invariant elements == old(elements) && converters == old(converters) && reference == old(reference)
      {
        fields := fields[i := (fields[i].0, InjectField(fields[i].0, fields[i].1))];
        i := i + 1;
      }
    }

    /** `list_properties(include_undefined=mode)`. */
    function ListProperties(mode: IncludeUndefined): (r: seq<string>)
      reads this
      ensures forall k :: k in r <==>
        (exists e :: e in fields && e.0 == k && Visible(k) && IsDpp(e.1) && Selected(mode, e.1.UndefinedProp?))
    {
      ListPropertiesOf(fields, mode)
    }

    /** `convert(name, ...)`: the registered converter of that name does the
        conversion; an unknown name is a KeyError. */
    function Convert(converterName: string): (r: Result<Converter>)
      reads this
      ensures r.Ok? <==> HasKey(converters, converterName)
      ensures r.Ok? ==> Get(converters, converterName) == Some(r.value)
      ensures r.Err? ==> r.error == KeyError(converterName)
    {
      Lookup(converters, converterName)
    }

    /** `_mixture_validation`: for every later constituent, each property
        defined on exactly one of it and the first constituent is, when this
        material leaves it undefined, replaced by an attribute error naming
        the constituent that lacks it. */
    method MixtureValidation() returns (r: Outcome)
      requires mixtureFraction.Some? ==> forall mf :: mf in mixtureFraction.value ==> mf.material != this
      modifies this
      ensures mixtureFraction.None? ==> r == Pass && fields == old(fields)
      ensures mixtureFraction == Some([]) ==> r == Fail(IndexError) && fields == old(fields)
      ensures mixtureFraction.Some? && |mixtureFraction.value| > 0 ==>
        (r == Pass && fields == ValidateAll(old(fields), Profile(mixtureFraction.value[0].material),
                                            Profiles(mixtureFraction.value[1..])))
      ensures elements == old(elements) && converters == old(converters) && reference == old(reference)
    {
      if mixtureFraction.None? {
        return Pass;
      }
      var mfs := mixtureFraction.value;
      if |mfs| == 0 {
        return Fail(IndexError);
      }
      var first := mfs[0].material.ListProperties(OnlyDefined);
      var firstName := mfs[0].material.typeName;
      assert (first, firstName) == Profile(mfs[0].material);
      ghost var start := fields;
      ghost var others := Profiles(mfs[1..]);
      var i := 1;
      while i < |mfs|
        invariant 1 <= i <= |mfs|
        invariant fields == ValidateAll(start, (first, firstName), others[..i - 1])
        invariant elements == old(elements) && converters == old(converters) && reference == old(reference)
        invariant forall mf :: mf in mfs ==> mf.material.fields == old(mf.material.fields)
      {
        var other := mfs[i].material.ListProperties(OnlyDefined);
        var otherName := mfs[i].material.typeName;
        assert others[i - 1] == (other, otherName);
        var diff := SymmetricDifference(first, other);
        MarkDifference(diff, first, firstName, otherName);
        assert others[..i][..i - 1] == others[..i - 1];
        i := i + 1;
      }
      assert others[..|mfs| - 1] == others;
      return Pass;
    }

    /** The inner loop of `_mixture_validation`, over one symmetric difference. */
    method MarkDifference(diff: seq<string>, first: seq<string>, firstName: string, otherName: string)
      modifies this
      ensures fields == MarkAll(old(fields), diff, first, firstName, otherName)
      ensures elements == old(elements) && converters == old(converters) && reference == old(reference)
    {
      var j := 0;
      while j < |diff|
        invariant 0 <= j <= |diff|
        invariant fields == MarkAll(old(fields), diff[..j], first, firstName, otherName)
        invariant elements == old(elements) && converters == old(converters) && reference == old(reference)
      {
        var dp := diff[j];
        var current := Get(fields, dp);
        if current.None? || UndefinedForMixing(current.value) {
          var culprit := if dp !in first then firstName else otherName;
          fields := Set(fields, dp, UndefinedProp(Some(dp + " is undefined on " + culprit)));
        }
        assert diff[..j + 1][..j] == diff[..j];
        j := j + 1;
      }
      assert diff[..|diff|] == diff;
    }
  }

  /** What `_mixture_validation` reads of a constituent: its defined
      properties and its name. */
  function Profile(m: Material): (seq<string>, string)
    reads m
  {
    (m.ListProperties(OnlyDefined), m.typeName)
  }

  function Profiles(mfs: seq<MaterialFraction>): (r: seq<(seq<string>, string)>)
    reads set mf | mf in mfs :: mf.material
    ensures |r| == |mfs| && forall i :: 0 <= i < |mfs| ==> r[i] == Profile(mfs[i].material)
  {
    seq(|mfs|, i requires 0 <= i < |mfs| reads set mf | mf in mfs :: mf.material => Profile(mfs[i].material))
  }

  /** The names in exactly one of the two lists. */
  function SymmetricDifference(a: seq<string>, b: seq<string>): (r: seq<string>)
    ensures forall k :: k in r <==> (k in a && k !in b) || (k in b && k !in a)
  {
    Only(a, b) + Only(b, a)
  }

  function Only(a: seq<string>, b: seq<string>): (r: seq<string>)
    ensures forall k :: k in r <==> k in a && k !in b
  {
    if |a| == 0 then []
    else
      var rest := Only(a[1..], b);
      assert forall k :: k in a <==> k == a[0] || k in a[1..];
      if a[0] in b then rest else [a[0]] + rest
  }

  /** One name of a symmetric difference: an undefined or missing value
      becomes an attribute error naming the constituent without it. */
  function Mark(fields: Dict<FieldValue>, dp: string, first: seq<string>, firstName: string, otherName: string): Dict<FieldValue>
  {
    var current := Get(fields, dp);
    if current.None? || UndefinedForMixing(current.value) then
      Set(fields, dp, UndefinedProp(Some(dp + " is undefined on " + (if dp !in first then firstName else otherName))))
    else fields
  }

  function MarkAll(fields: Dict<FieldValue>, names: seq<string>, first: seq<string>, firstName: string, otherName: string): Dict<FieldValue>
  {
    if |names| == 0 then fields
    else Mark(MarkAll(fields, names[..|names| - 1], first, firstName, otherName), names[|names| - 1], first, firstName, otherName)
  }

  /** The constituents after the first, compared in order with the first. */
  function ValidateAll(fields: Dict<FieldValue>, first: (seq<string>, string), others: seq<(seq<string>, string)>): Dict<FieldValue>
  {
    if |others| == 0 then fields
    else
      var last := others[|others| - 1];
      MarkAll(ValidateAll(fields, first, others[..|others| - 1]), SymmetricDifference(first.0, last.0), first.0, first.1, last.1)
  }

  /** A value that is defined (an override, a mixture, a property) is never
      replaced. */
  lemma {:induction false} MarkAllKeeps(fields: Dict<FieldValue>, names: seq<string>, first: seq<string>, firstName: string, otherName: string, k: string)
    requires HasKey(fields, k) && !UndefinedForMixing(Get(fields, k).value)
    ensures Get(MarkAll(fields, names, first, firstName, otherName), k) == Get(fields, k)
  {
    if |names| > 0 {
      var init := names[..|names| - 1];
      MarkAllKeeps(fields, init, first, firstName, otherName, k);
      var dp := names[|names| - 1];
      if dp != k {
        var before := MarkAll(fields, init, first, firstName, otherName);
        var current := Get(before, dp);
        if current.None? || UndefinedForMixing(current.value) {
          SetOther(before, dp, UndefinedProp(Some(dp + " is undefined on " + (if dp !in first then firstName else otherName))), k);
        }
      }
    }
  }

  lemma {:induction false} ValidateKeepsDefined(fields: Dict<FieldValue>, first: (seq<string>, string), others: seq<(seq<string>, string)>, k: string)
    requires HasKey(fields, k) && !UndefinedForMixing(Get(fields, k).value)
    ensures Get(ValidateAll(fields, first, others), k) == Get(fields, k)
  {
    if |others| > 0 {
      var last := others[|others| - 1];
      ValidateKeepsDefined(fields, first, others[..|others| - 1], k);
      MarkAllKeeps(ValidateAll(fields, first, others[..|others| - 1]), SymmetricDifference(first.0, last.0), first.0, first.1, last.1, k);
    }
  }

  /** A name in no symmetric difference is left as it was. */
  lemma {:induction false} MarkAllOthers(fields: Dict<FieldValue>, names: seq<string>, first: seq<string>, firstName: string, otherName: string, k: string)
    requires k !in names
    ensures Get(MarkAll(fields, names, first, firstName, otherName), k) == Get(fields, k)
  {
    if |names| > 0 {
      var init := names[..|names| - 1];
      assert k !in init;
      MarkAllOthers(fields, init, first, firstName, otherName, k);
      var dp := names[|names| - 1];
      var before := MarkAll(fields, init, first, firstName, otherName);
      var current := Get(before, dp);
      if current.None? || UndefinedForMixing(current.value) {
        SetOther(before, dp, UndefinedProp(Some(dp + " is undefined on " + (if dp !in first then firstName else otherName))), k);
      }
    }
  }

  lemma {:induction false} ValidateLeavesAgreed(fields: Dict<FieldValue>, first: (seq<string>, string), others: seq<(seq<string>, string)>, k: string)
    requires forall i :: 0 <= i < |others| ==> (k in first.0 <==> k in others[i].0)
    ensures Get(ValidateAll(fields, first, others), k) == Get(fields, k)
  {
    if |others| > 0 {
      var last := others[|others| - 1];
      ValidateLeavesAgreed(fields, first, others[..|others| - 1], k);
      MarkAllOthers(ValidateAll(fields, first, others[..|others| - 1]), SymmetricDifference(first.0, last.0), first.0, first.1, last.1, k);
    }
  }

  /** A property defined on the first constituent but not on a later one (or
      the other way round) that the material leaves undefined ends as an
      attribute error. */
  lemma {:induction false} MarkAllMarks(fields: Dict<FieldValue>, names: seq<string>, first: seq<string>, firstName: string, otherName: string, k: string)
    requires k in names
    requires !HasKey(fields, k) || UndefinedForMixing(Get(fields, k).value)
    ensures Get(MarkAll(fields, names, first, firstName, otherName), k).Some?
    ensures var v := Get(MarkAll(fields, names, first, firstName, otherName), k).value; v.UndefinedProp? && v.msg.Some?
  {
    var init := names[..|names| - 1];
    var dp := names[|names| - 1];
    var before := MarkAll(fields, init, first, firstName, otherName);
    if k in init {
      MarkAllMarks(fields, init, first, firstName, otherName, k);
      if dp != k {
        var current := Get(before, dp);
        if current.None? || UndefinedForMixing(current.value) {
          SetOther(before, dp, UndefinedProp(Some(dp + " is undefined on " + (if dp !in first then firstName else otherName))), k);
        }
      }
    } else {
      assert dp == k;
      MarkAllOthers(fields, init, first, firstName, otherName, k);
    }
  }

  lemma {:induction false} ValidateMarks(fields: Dict<FieldValue>, first: (seq<string>, string), others: seq<(seq<string>, string)>, i: nat, k: string)
    requires i < |others| && k in SymmetricDifference(first.0, others[i].0)
    requires !HasKey(fields, k) || UndefinedForMixing(Get(fields, k).value)
    ensures Get(ValidateAll(fields, first, others), k).Some?
    ensures var v := Get(ValidateAll(fields, first, others), k).value; v.UndefinedProp? && v.msg.Some?
  {
    var init := others[..|others| - 1];
    var last := others[|others| - 1];
    var before := ValidateAll(fields, first, init);
    if i == |others| - 1 {
      if HasKey(before, k) && !UndefinedForMixing(Get(before, k).value) {
        // Undefined values stay undefined through the earlier constituents.
        UndefinedStays(fields, first, init, k);
      }
      MarkAllMarks(before, SymmetricDifference(first.0, last.0), first.0, first.1, last.1, k);
    } else {
      assert init[i] == others[i];
      ValidateMarks(fields, first, init, i, k);
      var diff := SymmetricDifference(first.0, last.0);
      if k in diff {
        MarkAllMarks(before, diff, first.0, first.1, last.1, k);
      } else {
        MarkAllOthers(before, diff, first.0, first.1, last.1, k);
      }
    }
  }

  /** Marking only ever writes undefined values: an undefined or missing
      value is undefined or missing afterwards. */
  lemma {:induction false} UndefinedStays(fields: Dict<FieldValue>, first: (seq<string>, string), others: seq<(seq<string>, string)>, k: string)
    requires !HasKey(fields, k) || UndefinedForMixing(Get(fields, k).value)
    ensures var after := ValidateAll(fields, first, others);
      !HasKey(after, k) || UndefinedForMixing(Get(after, k).value)
  {
    if |others| > 0 {
      var last := others[|others| - 1];
      UndefinedStays(fields, first, others[..|others| - 1], k);
      MarkAllUndefinedStays(ValidateAll(fields, first, others[..|others| - 1]), SymmetricDifference(first.0, last.0), first.0, first.1, last.1, k);
    }
  }

  lemma {:induction false} MarkAllUndefinedStays(fields: Dict<FieldValue>, names: seq<string>, first: seq<string>, firstName: string, otherName: string, k: string)
    requires !HasKey(fields, k) || UndefinedForMixing(Get(fields, k).value)
    ensures var after := MarkAll(fields, names, first, firstName, otherName);
      !HasKey(after, k) || UndefinedForMixing(Get(after, k).value)
  {
    if |names| > 0 {
      var init := names[..|names| - 1];
      MarkAllUndefinedStays(fields, init, first, firstName, otherName, k);
      var dp := names[|names| - 1];
      var before := MarkAll(fields, init, first, firstName, otherName);
      var current := Get(before, dp);
      if dp != k && (current.None? || UndefinedForMixing(current.value)) {
        SetOther(before, dp, UndefinedProp(Some(dp + " is undefined on " + (if dp !in first then firstName else otherName))), k);
      }
    }
  }

  /** `MaterialFraction`: a constituent and its (non-negative) fraction. */
  class MaterialFraction {
    const material: Material
    var fraction: real

    constructor(material: Material, fraction: real)
      ensures this.material == material && this.fraction == fraction
    {
      this.material := material;
      this.fraction := fraction;
    }
  }

  /** What a constituent can be given as. */
  datatype FractionInput =
    | FractionTuple(m: Material, f: real)                        // (material, fraction)
    | FractionRecord(material: Option<Material>, fraction: Option<real>)  // a dict of the fields

  /** `_input_variation`: a tuple is read as the dict of its two entries. */
  function InputVariation(input: FractionInput): (r: FractionInput)
    ensures r.FractionRecord?
    ensures input.FractionTuple? ==> r == FractionRecord(Some(input.m), Some(input.f))
    ensures input.FractionRecord? ==> r == input
  {
    match input
    case FractionTuple(m, f) => FractionRecord(Some(m), Some(f))
    case FractionRecord(_, _) => input
  }

  /** Validation of a constituent: both fields present, the fraction not
      negative. */
  function ValidateFraction(input: FractionInput): (r: Result<(Material, real)>)
    ensures r.Ok? <==>
      (InputVariation(input).material.Some? && InputVariation(input).fraction.Some?
       && InputVariation(input).fraction.value >= 0.0)
    ensures r.Ok? ==> r.value == (InputVariation(input).material.value, InputVariation(input).fraction.value)
    ensures r.Err? ==> r.error.ValidationError?
  {
    var record := InputVariation(input);
    if record.material.None? || record.fraction.None? then Err(ValidationError("Field required"))
    else if record.fraction.value < 0.0 then Err(ValidationError("Input should be greater than or equal to 0"))
    else Ok((record.material.value, record.fraction.value))
  }

  /** A tuple is accepted exactly when its fraction is not negative. */
  lemma {:induction false} TupleFraction(m: Material, f: real)
    ensures ValidateFraction(FractionTuple(m, f)).Ok? <==> f >= 0.0
    ensures f >= 0.0 ==> ValidateFraction(FractionTuple(m, f)) == Ok((m, f))
  {
  }

  /** `Material.__init__` on a type, then the defaults of its fields. */
  method Instantiate(t: MaterialType, coerce: Slot -> FieldValue) returns (r: Result<Material>)
    ensures t.AbstractMaterial? <==> r.Err?
    ensures r.Err? ==> r.error == NotImplementedError("Cannot initialise Material directly please use the 'material' function")
    ensures r.Ok? ==>
      (fresh(r.value) && r.value.typeName == t.typeName && r.value.name == t.typeName
       && r.value.mixtureFraction.None? && r.value.elements == t.elements
       && r.value.converters == t.converters && r.value.reference == t.reference
       && r.value.fields == InjectFields(MapValues(t.properties, f => DefaultValue(f, coerce))))
  {
    if t.AbstractMaterial? {
      return Err(NotImplementedError("Cannot initialise Material directly please use the 'material' function"));
    }
    var m := new Material.Make(t.typeName, t.typeName, t.elements, t.converters, t.reference, None,
                               MapValues(t.properties, f => DefaultValue(f, coerce)));
    return Ok(m);
  }
}
