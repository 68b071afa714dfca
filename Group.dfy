// Property groups: the default group of named material properties, the
// `props` factory that decides which names enter a group's schema and with
// which type, and the typing of extra, user-named properties.

module Group {
  import opened Wrappers
  import opened Dicts
  import opened Base

  /** The named properties of DefaultProperties, in declaration order. */
  const PropertyNames: seq<string> := [
    "density", "poissons_ratio", "residual_resistance_ratio", "thermal_conductivity",
    "youngs_modulus", "shear_modulus", "bulk_modulus", "coefficient_thermal_expansion",
    "specific_heat_capacity", "electrical_resistivity", "magnetic_saturation",
    "magnetic_susceptibility", "viscous_remanent_magnetisation", "coercive_field",
    "minimum_yield_stress", "average_yield_stress", "minimum_ultimate_tensile_stress",
    "average_ultimate_tensile_stress"]

  const SuperconductingName := "superconducting_parameterisation"

  /** A dependent property class: its name and its unit. */
  datatype DppType = DppType(name: string, unit: string)

  /** A dependent physical property: its class and its value. */
  datatype Dpp = Dpp(kind: DppType, value: DependentValue)

  /** The value of a property field: UndefinedProperty, or a property. */
  datatype PropertyValue = Undefined | Defined(dpp: Dpp)

  /** A superconducting parameterisation: its class and its name. */
  datatype ScParam = ScParam(typeName: string, name: string)

  const UndefinedScType := "UndefinedSuperconductingParameterisation"

  /** A field of a property group. */
  datatype GroupValue = Prop(p: PropertyValue) | Superconducting(sc: ScParam)

  /** Only an UndefinedProperty counts as undefined when a group lists its
      properties. */
  predicate IsUndefined(v: GroupValue)
  {
    v.Prop? && v.p.Undefined?
  }

  /** The fields of `DefaultProperties()`: every named property undefined,
      and an undefined superconducting parameterisation. */
  function DefaultProperties(): (r: Dict<GroupValue>)
    ensures |r| == |PropertyNames| + 1
    ensures forall i :: 0 <= i < |PropertyNames| ==> r[i] == (PropertyNames[i], Prop(Undefined))
    ensures r[|PropertyNames|] == (SuperconductingName, Superconducting(ScParam(UndefinedScType, "")))
  {
    seq(|PropertyNames|, i requires 0 <= i < |PropertyNames| => (PropertyNames[i], Prop(Undefined)))
      + [(SuperconductingName, Superconducting(ScParam(UndefinedScType, "")))]
  }

  /** DefaultProperties lists every named property as undefined; its undefined
      superconducting parameterisation is not an UndefinedProperty and is
      listed as defined. */
  lemma {:induction false} DefaultPropertiesListing()
    ensures ListNames(DefaultProperties(), IsUndefined, OnlyUndefined) == PropertyNames
    ensures ListNames(DefaultProperties(), IsUndefined, OnlyDefined) == [SuperconductingName]
  {
    var d := DefaultProperties();
    UndefinedPrefix(d, |PropertyNames|);
  }

  lemma {:induction false} UndefinedPrefix(d: Dict<GroupValue>, n: nat)
    requires n == |PropertyNames| && d == DefaultProperties()
    ensures ListNames(d, IsUndefined, OnlyUndefined) == PropertyNames
    ensures ListNames(d, IsUndefined, OnlyDefined) == [SuperconductingName]
  {
    ListSuffix(d, 0);
    assert d[0..] == d;
    assert PropertyNames[0..] == PropertyNames;
  }

  lemma {:induction false} ListSuffix(d: Dict<GroupValue>, k: nat)
    requires d == DefaultProperties() && k <= |PropertyNames|
    ensures ListNames(d[k..], IsUndefined, OnlyUndefined) == PropertyNames[k..]
    ensures ListNames(d[k..], IsUndefined, OnlyDefined) == [SuperconductingName]
    decreases |PropertyNames| - k
  {
    if k == |PropertyNames| {
      var t := d[k..];
      assert t == [(SuperconductingName, Superconducting(ScParam(UndefinedScType, "")))];
      assert t[1..] == [];
    } else {
      ListSuffix(d, k + 1);
      assert d[k..][1..] == d[k + 1..];
      assert PropertyNames[k..] == [PropertyNames[k]] + PropertyNames[k + 1..];
    }
  }

  /** `Properties.__getitem__`: the same lookup as attribute access. */
  function GetItem(group: Dict<GroupValue>, name: string): (r: Result<GroupValue>)
    ensures r.Ok? <==> HasKey(group, name)
    ensures r.Ok? ==> exists i :: 0 <= i < |group| && group[i] == (name, r.value)
    ensures r.Err? ==> r.error == AttributeError(name)
  {
    match Get(group, name)
    case Some(v) => GetFound(group, name); Ok(v)
    case None => Err(AttributeError(name))
  }

  /** In a group, the item at a field's name is that field's value. */
  lemma {:induction false} GetItemField(group: Dict<GroupValue>, i: nat)
    requires DistinctKeys(group) && i < |group|
    ensures GetItem(group, group[i].0) == Ok(group[i].1)
  {
    GetAt(group, i);
  }

  // ---------------------------------------------------------------------
  // _superconduction_validation
  // ---------------------------------------------------------------------

  /** How a superconducting parameterisation field declares its default. */
  datatype ScDefault = StaticDefault(p: ScParam) | FactoryDefault(p: ScParam) | NoDefault

  /** A superconducting parameterisation as given: a dict of its fields, or
      an instance. */
  datatype ScInput = ScDict(name: string) | ScInstance(p: ScParam)

  /** A dict is validated as the class of the field's default (or of its
      default factory's product); anything else passes as it is. */
  function SuperconductionValidation(fieldDefault: ScDefault, value: ScInput): (r: ScInput)
    ensures value.ScInstance? || fieldDefault.NoDefault? ==> r == value
    ensures value.ScDict? && !fieldDefault.NoDefault? ==>
      r == ScInstance(ScParam(fieldDefault.p.typeName, value.name))
  {
    match value
    case ScInstance(_) => value
    case ScDict(name) =>
      match fieldDefault
      case StaticDefault(p) => ScInstance(ScParam(p.typeName, name))
      case FactoryDefault(p) => ScInstance(ScParam(p.typeName, name))
      case NoDefault => value
  }

  // ---------------------------------------------------------------------
  // props and _get_dpp_type
  // ---------------------------------------------------------------------

  /** An argument of `props`. */
  datatype Arg =
    | ArgFalse                                    // False, the default: left out
    | ArgNone                                     // None: left out
    | ArgTrue                                     // True: undefined
    | ArgProperty(dpp: Dpp)                       // a property instance
    | ArgDict(unit: Option<string>, hasValue: bool)  // a dict, with or without "unit"/"value"
    | ArgBare                                     // a number, array or callable
    | ArgSc(sc: ScParam)                          // a superconducting parameterisation

  /** The declared type of a schema field. */
  datatype Annotation =
    | Canonical(name: string)                     // the property group's own annotation
    | ScType                                      // the superconducting type variable
    | Extra(t: DppType)                           // the type made for an extra property

  /** A field's default: UndefinedProperty() or the argument itself. */
  datatype Default = UndefinedDefault | GivenDefault(arg: Arg)

  datatype Slot = Slot(annotation: Annotation, default: Default)

  /** What `props` returns: a group instance, or a field building one. */
  datatype PropsResult = Instance(schema: Dict<Slot>) | AsField(factory: Dict<Slot>)

  /** `_get_dpp_type`: the class of an extra property. */
  function GetDppType(name: string, value: Arg): (r: Result<DppType>)
    ensures value.ArgProperty? ==> r == Ok(value.dpp.kind)
    ensures value.ArgDict? && value.unit.Some? && value.hasValue ==> r == Ok(DppType(name, value.unit.value))
    ensures value.ArgDict? && value.unit.Some? && !value.hasValue ==>
      r == Err(ValueError("No default value specified in extra property"))
    ensures !value.ArgProperty? && !(value.ArgDict? && value.unit.Some?) ==>
      r == Err(ValueError("No unit provided for extra property '" + name + "'"))
  {
    match value
    case ArgProperty(d) => Ok(d.kind)
    case ArgDict(Some(u), hasValue) =>
      if !hasValue then Err(ValueError("No default value specified in extra property"))
      else Ok(DppType(name, u))
    case _ => Err(ValueError("No unit provided for extra property '" + name + "'"))
  }

  /** A dict given for an extra property loses its "unit" entry to the new class. */
  function AfterPop(value: Arg): Arg
  {
    if value.ArgDict? then ArgDict(None, value.hasValue) else value
  }

  /** The schema field `props` makes for one name. */
  function MakeSlot(name: string, value: Arg, groupFields: seq<string>): (r: Result<Slot>)
    requires value != ArgFalse && value != ArgNone
    ensures name in groupFields ==> r.Ok?
    ensures r.Ok? ==> (r.value.default.UndefinedDefault? <==> value == ArgTrue)
  {
    if name in groupFields then
      var annotation := if name == SuperconductingName then ScType else Canonical(name);
      Ok(Slot(annotation, if value == ArgTrue then UndefinedDefault else GivenDefault(value)))
    else
      var t :- GetDppType(name, value);
      Ok(Slot(Extra(t), GivenDefault(AfterPop(value))))
  }

  /** The arguments `props` keeps: neither False nor None. */
  predicate Kept(value: Arg)
  {
    value != ArgFalse && value != ArgNone
  }

  function KeptNames(data: Dict<Arg>): (r: seq<string>)
    ensures |r| <= |data|
  {
    if |data| == 0 then []
    else if Kept(data[0].1) then [data[0].0] + KeptNames(data[1..])
    else KeptNames(data[1..])
  }

  /** The schema of the dynamic group, the first failing extra aborting it. */
  function Schema(data: Dict<Arg>, groupFields: seq<string>): (r: Result<Dict<Slot>>)
    ensures r.Ok? ==> Keys(r.value) == KeptNames(data)
    ensures (forall i :: 0 <= i < |data| && Kept(data[i].1) ==> data[i].0 in groupFields) ==> r.Ok?
  {
    if |data| == 0 then Ok([])
    else
      assert forall i :: 1 <= i < |data| ==> data[i] == data[1..][i - 1];
      var (name, value) := data[0];
      if !Kept(value) then Schema(data[1..], groupFields)
      else
        var slot :- MakeSlot(name, value, groupFields);
        var rest :- Schema(data[1..], groupFields);
        assert Keys([(name, slot)] + rest) == [name] + Keys(rest);
        Ok([(name, slot)] + rest)
  }

  /** The keyword arguments of `props` as the dict it builds: the eighteen
      named properties, the superconducting parameterisation, then the extras. */
  function PropsData(named: seq<Arg>, sc: Arg, extras: Dict<Arg>): Dict<Arg>
    requires |named| == |PropertyNames|
  {
    seq(|PropertyNames|, i requires 0 <= i < |PropertyNames| => (PropertyNames[i], named[i]))
      + [(SuperconductingName, sc)] + extras
  }

  /** `props`. */
  function Props(named: seq<Arg>, sc: Arg, extras: Dict<Arg>, groupFields: seq<string>, asField: bool): (r: Result<PropsResult>)
    requires |named| == |PropertyNames|
    ensures r.Ok? ==> (r.value.AsField? <==> asField)
  {
    var schema :- Schema(PropsData(named, sc, extras), groupFields);
    Ok(if asField then AsField(schema) else Instance(schema))
  }

  function SchemaOf(r: PropsResult): Dict<Slot>
  {
    match r
    case Instance(s) => s
    case AsField(s) => s
  }

  /** The schema holds exactly the names whose argument is neither False nor
      None, in order. */
  lemma {:induction false} PropsNames(named: seq<Arg>, sc: Arg, extras: Dict<Arg>, groupFields: seq<string>, asField: bool)
    requires |named| == |PropertyNames|
    requires Props(named, sc, extras, groupFields, asField).Ok?
    ensures Keys(SchemaOf(Props(named, sc, extras, groupFields, asField).value)) == KeptNames(PropsData(named, sc, extras))
  {
  }

  /** `props()` with every argument left at its default gives an empty group. */
  lemma {:induction false} PropsEmpty(groupFields: seq<string>)
    ensures Props(seq(|PropertyNames|, _ => ArgFalse), ArgNone, [], groupFields, false) == Ok(Instance([]))
  {
    var named := seq(|PropertyNames|, _ => ArgFalse);
    var data := PropsData(named, ArgNone, []);
    assert forall i :: 0 <= i < |data| ==> !Kept(data[i].1);
    NothingKept(data, groupFields);
  }

  lemma {:induction false} NothingKept(data: Dict<Arg>, groupFields: seq<string>)
    requires forall i :: 0 <= i < |data| ==> !Kept(data[i].1)
    ensures Schema(data, groupFields) == Ok([])
  {
    if |data| > 0 {
      assert forall i :: 0 <= i < |data[1..]| ==> data[1..][i] == data[i + 1];
      NothingKept(data[1..], groupFields);
    }
  }

  /** Each schema field: a name of the property group keeps the group's
      annotation, True installs an undefined default, and an extra takes the
      type `_get_dpp_type` makes for it. */
  lemma {:induction false} SchemaSlots(data: Dict<Arg>, groupFields: seq<string>, i: nat)
    requires Schema(data, groupFields).Ok? && i < |data| && Kept(data[i].1)
    ensures MakeSlot(data[i].0, data[i].1, groupFields).Ok?
    ensures var s := MakeSlot(data[i].0, data[i].1, groupFields).value;
      (data[i].0 in groupFields && data[i].0 != SuperconductingName ==> s.annotation == Canonical(data[i].0))
      && (data[i].0 !in groupFields ==> s.annotation == Extra(GetDppType(data[i].0, data[i].1).value))
      && (s.default == UndefinedDefault <==> data[i].1 == ArgTrue)
  {
    if i > 0 {
      assert data[1..][i - 1] == data[i];
      SchemaSlots(data[1..], groupFields, i - 1);
    }
  }
}
