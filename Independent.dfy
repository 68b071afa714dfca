// Independent physical properties (the quantities operating conditions are
// made of): the accepted input shapes, normalisation to the class's default
// unit, the non-negative temperature rule, conversion to another unit and
// equality.

module Independent {
  import opened Wrappers
  import opened Values

  /** A concrete subclass of PhysicalProperty: its name and default unit. */
  datatype PropertyClass = PropertyClass(name: string, defaultUnit: Unit)

  /** What is being constructed: PhysicalProperty itself, or a subclass. */
  datatype ClassRef = AbstractBase | Concrete(cls: PropertyClass)

  /** The eight property kinds the library declares. */
  datatype Kind =
    | Temperature | Pressure | MagneticField | Strain
    | NeutronDamage | NeutronFluence | CurrentDensity | Volume

  function KindName(k: Kind): string
  {
    match k
    case Temperature => "Temperature"
    case Pressure => "Pressure"
    case MagneticField => "MagneticField"
    case Strain => "Strain"
    case NeutronDamage => "NeutronDamage"
    case NeutronFluence => "NeutronFluence"
    case CurrentDensity => "CurrentDensity"
    case Volume => "Volume"
  }

  /** The default unit each kind declares. */
  function DefaultUnit(k: Kind): Unit
  {
    match k
    case Temperature => "K"
    case Pressure => "Pa"
    case MagneticField => "T"
    case Strain => ""
    case NeutronDamage => "dpa"
    case NeutronFluence => "1/m^2"
    case CurrentDensity => "A/m^2"
    case Volume => "m^3"
  }

  function ClassOf(k: Kind): (c: PropertyClass)
    ensures c.name == KindName(k) && c.defaultUnit == DefaultUnit(k)
  {
    PropertyClass(KindName(k), DefaultUnit(k))
  }

  /** Declaring a subclass: a subclass without a default unit is refused. */
  function DefineSubclass(name: string, defaultUnit: Option<Unit>): (r: Result<PropertyClass>)
    ensures r.Ok? <==> defaultUnit.Some?
    ensures r.Ok? ==> r.value == PropertyClass(name, defaultUnit.value)
    ensures r.Err? ==> r.error.ValueError?
  {
    match defaultUnit
    case None => Err(ValueError("No default unit set on " + name))
    case Some(u) => Ok(PropertyClass(name, u))
  }

  /** A constructed property: its class, its value and its unit. */
  datatype PhysicalProperty = PhysicalProperty(cls: PropertyClass, value: Value, unit: Unit)

  /** A magnitude as the caller writes it. */
  datatype Magnitude =
    | Number(x: real)                               // a float or an int
    | NdArray(shape: seq<nat>, data: seq<real>)     // an np.ndarray
    | List(items: seq<real>)                        // a Python list

  /** The `value` entry of a dict input. */
  datatype Entry =
    | EntryMagnitude(m: Magnitude)
    | EntryQuantity(magnitude: Magnitude, units: Unit)
    | EntryPair(first: Magnitude, second: Unit)
    | EntryOther                                    // a value of no supported type

  /** The shapes a property can be constructed from. */
  datatype Input =
    | Bare(m: Magnitude)                          // number, array or list
    | Quantity(magnitude: Magnitude, units: Unit)  // a pint Quantity
    | Pair(value: Magnitude, unit: Unit)           // a 2-tuple
    | Fields(entry: Option<Entry>, unitEntry: Option<Unit>)  // a dict
    | Other                                        // anything else

  /** `_value_entry`: the (value, unit) a supported input stands for; a
      missing unit means the class default. */
  function ValueEntry(input: Input): (r: Result<(Magnitude, Option<Unit>)>)
    ensures input.Bare? ==> r == Ok((input.m, None))
    ensures input.Quantity? ==> r == Ok((input.magnitude, Some(input.units)))
    ensures input.Pair? ==> r == Ok((input.value, Some(input.unit)))
    ensures r.Err? <==> input.Other? || (input.Fields? && input.entry in {None, Some(EntryOther)})
  {
    match input
    case Bare(m) => Ok((m, None))
    case Quantity(m, u) => Ok((m, Some(u)))
    case Pair(m, u) => Ok((m, Some(u)))
    case Fields(entry, unit) =>
      (match entry
       case None => Err(ValidationError("value: Field required"))
       case Some(EntryQuantity(m, u)) => Ok((m, Some(u)))
       case Some(EntryPair(m, u)) => Ok((m, Some(u)))
       case Some(EntryMagnitude(m)) => Ok((m, unit))
       case Some(EntryOther) => Err(ValidationError("value: Input should be a valid number or array")))
    case Other => Err(ValidationError("Input should be a valid dictionary or instance"))
  }

  /** `BasePhysicalProperty.array_validation`: an ndarray input is squeezed;
      a list becomes a 1-dimensional array as it is. */
  function ArrayValidation(m: Magnitude): (v: Value)
    ensures m.NdArray? ==> (v.Array? && Elements(v) == m.data
                            && forall i :: 0 <= i < |v.shape| ==> v.shape[i] != 1)
    ensures m.List? ==> v == Array([|m.items|], m.items)
    ensures m.Number? ==> v == Scalar(m.x)
  {
    match m
    case Number(x) => Scalar(x)
    case NdArray(shape, data) => Squeeze(Array(shape, data))
    case List(items) => Array([|items|], items)
  }

  /** `unit_conversion`: a failed conversion is reported as a ValueError. */
  function UnitConversion(v: Value, from: Unit, to: Unit, conv: UnitConverter): (r: Result<Value>)
    ensures r.Ok? <==> ConvertValue(v, from, to, conv).Some?
    ensures r.Ok? ==> r.value == ConvertValue(v, from, to, conv).value
    ensures r.Err? ==> (r.error.ValueError? && |r.error.msg| >= 20
                        && r.error.msg[..20] == "Cannot convert from ")
  {
    match ConvertValue(v, from, to, conv)
    case None => Err(ValueError("Cannot convert from '" + from + "' to '" + to + "'"))
    case Some(w) => Ok(w)
  }

  /** Some entry is below 0. */
  predicate AnyNegative(v: Value)
  {
    exists i :: 0 <= i < Size(v) && Elements(v)[i] < 0.0
  }

  /** Constructing a property: refuse PhysicalProperty itself, read the
      input, squeeze arrays, express the value in the class's default unit
      and, for Temperature, refuse entries below 0 K. */
  function Construct(c: ClassRef, input: Input, conv: UnitConverter): (r: Result<PhysicalProperty>)
    ensures c.AbstractBase? ==> r.Err? && r.error.NotImplementedError?
    ensures r.Ok? ==> c.Concrete? && r.value.cls == c.cls && r.value.unit == c.cls.defaultUnit
    ensures r.Ok? && c.cls.name == "Temperature" ==> !AnyNegative(r.value.value)
  {
    match c
    case AbstractBase => Err(NotImplementedError("Cannot initialise PhysicalProperty directly"))
    case Concrete(cls) =>
      var (m, given) :- ValueEntry(input);
      var raw := ArrayValidation(m);
      var unit := given.GetOr(cls.defaultUnit);
      var value :- if unit != cls.defaultUnit then UnitConversion(raw, unit, cls.defaultUnit, conv) else Ok(raw);
      if cls.name == "Temperature" && AnyNegative(value) then
        Err(ValueError("Temperature cannot be below 0 K"))
      else
        Ok(PhysicalProperty(cls, value, cls.defaultUnit))
  }

  /** A supported input in the default unit (or with no unit) keeps its
      value; in another unit its entries are the converted entries. */
  lemma {:induction false} ConstructValue(cls: PropertyClass, input: Input, conv: UnitConverter)
    requires ValueEntry(input).Ok?
    requires cls.name != "Temperature"
    ensures var (m, given) := ValueEntry(input).value;
      var unit := given.GetOr(cls.defaultUnit);
      var r := Construct(Concrete(cls), input, conv);
      (unit == cls.defaultUnit ==> r == Ok(PhysicalProperty(cls, ArrayValidation(m), cls.defaultUnit)))
      && (unit != cls.defaultUnit ==>
            (r.Ok? <==> ConvertValue(ArrayValidation(m), unit, cls.defaultUnit, conv).Some?)
            && (r.Ok? ==> r.value.value == ConvertValue(ArrayValidation(m), unit, cls.defaultUnit, conv).value))
  {
  }

  /** Temperature is refused exactly when an entry, in kelvin, is negative. */
  lemma {:induction false} TemperatureNonNegative(input: Input, conv: UnitConverter)
    requires ValueEntry(input).Ok?
    requires ValueEntry(input).value.1 in {None, Some("K")}
    ensures var r := Construct(Concrete(ClassOf(Temperature)), input, conv);
      r.Err? <==> AnyNegative(ArrayValidation(ValueEntry(input).value.0))
  {
  }

  /** `value_as(unit)`: the value converted to `unit`. */
  function ValueAs(p: PhysicalProperty, unit: Unit, conv: UnitConverter): (r: Result<Value>)
    ensures r.Ok? ==> Size(r.value) == Size(p.value)
    ensures r.Ok? ==> forall i :: 0 <= i < Size(p.value) ==>
      conv(Elements(p.value)[i], p.unit, unit) == Some(Elements(r.value)[i])
    ensures r.Err? <==> exists i :: 0 <= i < Size(p.value) && conv(Elements(p.value)[i], p.unit, unit).None?
    ensures r.Err? ==> r.error.ValueError?
  {
    UnitConversion(p.value, p.unit, unit, conv)
  }

  /** Asking for the property's own unit gives its value back. */
  lemma {:induction false} ValueAsOwnUnit(p: PhysicalProperty, conv: UnitConverter)
    requires IdentityOnSameUnit(conv)
    ensures ValueAs(p, p.unit, conv).Ok?
    ensures Elements(ValueAs(p, p.unit, conv).value) == Elements(p.value)
  {
    forall i | 0 <= i < Size(p.value)
      ensures conv(Elements(p.value)[i], p.unit, p.unit) == Some(Elements(p.value)[i])
    {
      var x := Elements(p.value)[i];
      assert conv(x, p.unit, p.unit) == Some(x);
    }
    var r := ValueAs(p, p.unit, conv);
    assert |Elements(r.value)| == |Elements(p.value)|;
  }

  /** `__eq__`: the class is compared first; comparing values that do not
      broadcast raises. */
  function Equal(a: PhysicalProperty, b: PhysicalProperty): (r: Result<bool>)
    ensures r.Err? <==> a.cls == b.cls && !Broadcastable(a.value, b.value)
  {
    if a.cls != b.cls then Ok(false)
    else
      var close :- AllClose(a.value, b.value);
      Ok(close && a.unit == b.unit)
  }

  /** Two properties are equal iff same class, all-close values and the same unit. */
  lemma {:induction false} EqualMeaning(a: PhysicalProperty, b: PhysicalProperty)
    ensures Equal(a, b) == Ok(true) <==>
      a.cls == b.cls && AllClose(a.value, b.value) == Ok(true) && a.unit == b.unit
  {
  }

  /** A one-entry temperature list equals a longer list of the same
      temperature: numpy broadcasts the single entry. */
  lemma {:induction false} EqualBroadcast()
    ensures Equal(PhysicalProperty(ClassOf(Temperature), Array([1], [300.0]), "K"),
                  PhysicalProperty(ClassOf(Temperature), Array([2], [300.0, 300.0]), "K")) == Ok(true)
  {
    var one := Array([1], [300.0]);
    var two := Array([2], [300.0, 300.0]);
    assert OneEntry(one) && First(one) == 300.0;
    var pairs := BroadcastPairs(one, two);
    forall p | p in pairs ensures IsClose(p.0, p.1) {
      var i :| 0 <= i < |pairs| && pairs[i] == p;
      assert Elements(two)[i] == 300.0;
    }
  }

  /** Every well-formed property equals itself. */
  lemma {:induction false} EqualReflexive(a: PhysicalProperty)
    requires WellFormed(a.value)
    ensures Equal(a, a) == Ok(true)
  {
    AllCloseReflexive(a.value);
  }
}
