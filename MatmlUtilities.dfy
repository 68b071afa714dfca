// The MatML helpers (tools/matml/utilities.py): reading delimited data,
// writing pint units as MatML units and back, the property and parameter
// records written for each property, the chemical formula of a
// composition, and the grouping of a document's property data by id.

module MatmlUtilities {
  import opened Wrappers
  import opened Strings
  import opened Dicts
  import Num = Values
  import opened MatmlDocument

  // ---------------------------------------------------------------------
  // Delimited data
  // ---------------------------------------------------------------------

  /** An item of a data list: a float, or text for the string format. */
  datatype Datum = Number(x: real) | Text(s: string)

  /** The pieces of a delimited value: split on the delimiter (the whole
      value when the delimiter is empty), quote characters stripped from
      both ends. */
  function Pieces(value: string, delimiter: string, quote: Option<string>): (r: seq<string>)
    ensures |r| >= 1
    ensures delimiter == [] ==> |r| == 1
    ensures quote.None? && delimiter == [] ==> r == [value]
    ensures quote.Some? ==> forall i :: 0 <= i < |r| ==> |r[i]| > 0 ==> r[i][0] !in quote.value
  {
    var split := if delimiter != [] then Split(value, delimiter) else [value];
    if quote.Some? then
      seq(|split|, i requires 0 <= i < |split| => Strip(split[i], quote.value))
    else split
  }

  /** Without a quote the pieces join back to the value. */
  lemma {:induction false} PiecesJoin(value: string, delimiter: string)
    ensures Join(Pieces(value, delimiter, None), delimiter) == value
  {
    if delimiter != [] {
      JoinSplit(value, delimiter);
    }
  }

  /** Each piece read in the given format: 10^v for the exponential
      format (which fails when the power overflows a float), the text for
      the string format, and a float otherwise; the first piece that does
      not read fails. */
  function ReadPieces(format: DataFormat, pieces: seq<string>, parseFloat: string -> Result<real>,
                      pow10: real -> Result<real>): (r: Result<seq<Datum>>)
    ensures format == StringFormat ==>
      (r.Ok? && |r.value| == |pieces| && forall i :: 0 <= i < |pieces| ==> r.value[i] == Text(pieces[i]))
    ensures format != StringFormat ==>
      (r.Ok? <==> forall i :: 0 <= i < |pieces| ==>
         parseFloat(pieces[i]).Ok? && (format == ExponentialFormat ==> pow10(parseFloat(pieces[i]).value).Ok?))
    ensures format != StringFormat && r.Ok? ==>
      (|r.value| == |pieces| && forall i :: 0 <= i < |pieces| ==>
         r.value[i] == Number(if format == ExponentialFormat then pow10(parseFloat(pieces[i]).value).value
                              else parseFloat(pieces[i]).value))
  {
    if |pieces| == 0 then Ok([])
    else
      var n := |pieces| - 1;
      assert forall i :: 0 <= i < n ==> pieces[..n][i] == pieces[i];
      var prev :- ReadPieces(format, pieces[..n], parseFloat, pow10);
      var item :-
        if format == StringFormat then Ok(Text(pieces[n]))
        else
          var v :- parseFloat(pieces[n]);
          if format == ExponentialFormat then
            var e :- pow10(v);
            Ok(Number(e))
          else Ok(Number(v));
      Ok(prev + [item])
  }

  /** `to_data`: a parameter value read with its property's delimiter and
      quote, in the format of its data (not the format attribute of the
      parameter value itself). */
  function ToData(pav: ParameterValue, prv: PropertyData, parseFloat: string -> Result<real>,
                  pow10: real -> Result<real>): (r: Result<seq<Datum>>)
    ensures r.Ok? ==> |r.value| >= 1
  {
    ToDataType(pav.dataFormat, pav.data, prv.delimiter, prv.quote, parseFloat, pow10)
  }

  /** `to_data_type`: a format that is not given reads floats. */
  function ToDataType(format: Option<DataFormat>, value: string, delimiter: string, quote: Option<string>,
                      parseFloat: string -> Result<real>, pow10: real -> Result<real>): (r: Result<seq<Datum>>)
    ensures r.Ok? ==> |r.value| >= 1
    ensures format.None? ==>
      (r.Ok? <==> forall i :: 0 <= i < |Pieces(value, delimiter, quote)| ==> parseFloat(Pieces(value, delimiter, quote)[i]).Ok?)
    ensures format.None? && r.Ok? ==> |r.value| == |Pieces(value, delimiter, quote)|
    ensures format.None? && r.Ok? ==>
      forall i :: 0 <= i < |r.value| ==> r.value[i] == Number(parseFloat(Pieces(value, delimiter, quote)[i]).value)
  {
    ReadPieces(if format.Some? then format.value else FloatFormat, Pieces(value, delimiter, quote), parseFloat, pow10)
  }

  /** The format attribute of a parameter value plays no part in reading
      it, and data without a format of its own reads as floats. */
  lemma {:induction false} ToDataFormat(pav: ParameterValue, prv: PropertyData, parseFloat: string -> Result<real>,
                                        pow10: real -> Result<real>)
    ensures forall f :: ToData(pav.(format := f), prv, parseFloat, pow10) == ToData(pav, prv, parseFloat, pow10)
    ensures pav.dataFormat.None? ==>
      ToData(pav, prv, parseFloat, pow10) == ToData(pav.(dataFormat := Some(FloatFormat)), prv, parseFloat, pow10)
  {
  }

  /** A parameter value whose format attribute says string, but whose data
      has no format, is read as floats: text that is not a float fails. */
  lemma {:induction false} StringAttributeReadsFloats(prv: PropertyData, parseFloat: string -> Result<real>,
                                                      pow10: real -> Result<real>)
    requires prv.delimiter == [] && prv.quote.None?
    requires parseFloat("abc").Err?
    ensures ToData(ParameterValue("p", StringFormat, "abc", None, []), prv, parseFloat, pow10).Err?
    ensures ToData(ParameterValue("p", StringFormat, "abc", Some(StringFormat), []), prv, parseFloat, pow10)
      == Ok([Text("abc")])
  {
    assert Pieces("abc", [], None) == ["abc"];
    var r := ToData(ParameterValue("p", StringFormat, "abc", Some(StringFormat), []), prv, parseFloat, pow10);
    assert |r.value| == 1 && r.value[0] == Text("abc");
    assert r.value == [Text("abc")];
  }

  /** Text read in the string format without quotes comes back as its
      pieces, which join to the text again; one item per piece in every
      format. */
  lemma {:induction false} ToDataTypeText(value: string, delimiter: string, parseFloat: string -> Result<real>, pow10: real -> Result<real>)
    requires delimiter != []
    ensures var r := ToDataType(Some(StringFormat), value, delimiter, None, parseFloat, pow10);
      r.Ok? && |r.value| == |Split(value, delimiter)|
      && Join(seq(|r.value|, i requires 0 <= i < |r.value| => r.value[i].s), delimiter) == value
  {
    var pieces := Pieces(value, delimiter, None);
    assert pieces == Split(value, delimiter);
    PiecesJoin(value, delimiter);
    var r := ToDataType(Some(StringFormat), value, delimiter, None, parseFloat, pow10);
    var texts := seq(|r.value|, i requires 0 <= i < |r.value| => r.value[i].s);
    assert forall i :: 0 <= i < |texts| ==> texts[i] == pieces[i];
    assert texts == pieces;
  }

  // ---------------------------------------------------------------------
  // Units
  // ---------------------------------------------------------------------

  /** The name a MatML unit is given to pint: "C" is Celsius when its
      power is absent or positive and kelvin otherwise; a missing name is
      written "None". */
  function UnitName(u: UnitEntry): string
  {
    if u.name == Some("C") then (if u.power.None? || u.power.value > 0.0 then "degC" else "K")
    else if u.name.Some? then u.name.value
    else "None"
  }

  /** `name^power`, the power defaulting to 1 when absent or zero. */
  function UnitTerm(u: UnitEntry, showPower: real -> string): string
  {
    UnitName(u) + "^" + (if u.power.None? || u.power.value == 0.0 then "1" else showPower(u.power.value))
  }

  function UnitTerms(units: seq<UnitEntry>, showPower: real -> string): (r: seq<string>)
    ensures |r| == |units| && forall i :: 0 <= i < |units| ==> r[i] == UnitTerm(units[i], showPower)
  {
    seq(|units|, i requires 0 <= i < |units| => UnitTerm(units[i], showPower))
  }

  /** `process_units`: the unit terms joined with "."; the text is what
      pint is asked to parse. */
  method ProcessUnits(units: Units, showPower: real -> string) returns (r: string)
    ensures r == Join(UnitTerms(units.unit, showPower), ".")
  {
    var terms: seq<string> := [];
    for i := 0 to |units.unit|
      invariant terms == UnitTerms(units.unit[..i], showPower)
    {
      terms := terms + [UnitTerm(units.unit[i], showPower)];
    }
    assert units.unit[..|units.unit|] == units.unit;
    r := Join(terms, ".");
  }

  /** The text of a single unit starts with its pint name: "degC" for a
      Celsius unit with positive or no power, "K" for one with a negative
      or zero power, and otherwise the unit's own name. */
  lemma {:induction false} UnitTermStart(u: UnitEntry, showPower: real -> string)
    ensures var t := UnitTerm(u, showPower);
      (u.name == Some("C") && (u.power.None? || u.power.value > 0.0) ==> t[..5] == "degC^")
      && (u.name == Some("C") && u.power.Some? && u.power.value <= 0.0 ==> t[..2] == "K^")
      && (u.name.Some? && u.name.value != "C" ==> t[..|u.name.value| + 1] == u.name.value + "^")
      && (u.power.None? ==> t[|t| - 2..] == "^1")
  {
    var t := UnitTerm(u, showPower);
    var p := if u.power.None? || u.power.value == 0.0 then "1" else showPower(u.power.value);
    assert t == (UnitName(u) + "^") + p;
    assert t[..|UnitName(u)| + 1] == UnitName(u) + "^";
  }

  /** `to_unit`: a unitless parameter is dimensionless; otherwise its
      units are processed as `process_units` does, and a parameter with
      neither fails on the missing units. */
  function ToUnit(pd: Details, showPower: real -> string): (r: Result<string>)
    ensures pd.unitless ==> r == Ok("dimensionless")
    ensures !pd.unitless && pd.units.None? ==> r == Err(AttributeError("unit"))
    ensures !pd.unitless && pd.units.Some? ==> r.Ok?
  {
    if pd.unitless then Ok("dimensionless")
    else if pd.units.None? then Err(AttributeError("unit"))
    else Ok(Join(UnitTerms(pd.units.value.unit, showPower), "."))
  }

  /** A pint unit as its `(unit name, power)` items; no items is
      dimensionless, which compares equal to "". */
  type PintUnit = seq<(string, real)>

  /** `to_ml_units`: one MatML unit per pint unit, in the SI system. */
  function ToMlUnits(unit: PintUnit, symbol: string -> string): (r: Units)
    ensures r.system == Some("SI") && |r.unit| == |unit|
    ensures forall i :: 0 <= i < |unit| ==> r.unit[i] == UnitEntry(Some(symbol(unit[i].0)), Some(unit[i].1))
  {
    Units(seq(|unit|, i requires 0 <= i < |unit| => UnitEntry(Some(symbol(unit[i].0)), Some(unit[i].1))), Some("SI"))
  }

  /** `details`: exactly one of `units` and `unitless` is set, `unitless`
      for a dimensionless unit. */
  function MakeDetails(name: string, id: string, units: PintUnit, symbol: string -> string): (r: Details)
    ensures r.name == name && r.id == id
    ensures r.unitless <==> |units| == 0
    ensures r.units.Some? <==> !r.unitless
    ensures r.units.Some? ==> r.units.value == ToMlUnits(units, symbol)
  {
    if |units| == 0 then Details(id, name, None, true)
    else Details(id, name, Some(ToMlUnits(units, symbol)), false)
  }

  /** The unit written into a parameter's details reads back through
      `to_unit`: "dimensionless" when it was dimensionless, and otherwise
      one `symbol^power` term per unit, in order (a non-zero power, and a
      symbol other than "C", which is reread as a temperature). */
  lemma {:induction false} DetailsUnitRoundTrip(name: string, id: string, units: PintUnit, symbol: string -> string,
                             showPower: real -> string)
    ensures |units| == 0 ==> ToUnit(MakeDetails(name, id, units, symbol), showPower) == Ok("dimensionless")
    ensures var d := MakeDetails(name, id, units, symbol);
      |units| > 0 ==> d.units.Some? && ToUnit(d, showPower) == Ok(Join(UnitTerms(d.units.value.unit, showPower), "."))
    ensures var d := MakeDetails(name, id, units, symbol);
      |units| > 0 ==> forall i :: 0 <= i < |units| && symbol(units[i].0) != "C" && units[i].1 != 0.0 ==>
        UnitTerms(d.units.value.unit, showPower)[i] == symbol(units[i].0) + "^" + showPower(units[i].1)
  {
  }

  // ---------------------------------------------------------------------
  // Parameter data
  // ---------------------------------------------------------------------

  /** A property's value as `parameter_data` receives it: a Python list,
      or anything else (a float or an ndarray, which is not a `Sequence`). */
  datatype PropertyValue = ListValue(items: seq<Num.Value>) | OtherValue(v: Num.Value)

  function ValueItems(p: PropertyValue): (r: seq<Num.Value>)
    ensures p.OtherValue? ==> r == [p.v]
  {
    if p.ListValue? then p.items else [p.v]
  }

  function Shown(items: seq<Num.Value>, show: Num.Value -> string): (r: seq<string>)
    ensures |r| == |items| && forall i :: 0 <= i < |items| ==> r[i] == show(items[i])
  {
    seq(|items|, i requires 0 <= i < |items| => show(items[i]))
  }

  function Repeat(s: string, n: nat): (r: seq<string>)
    ensures |r| == n && forall i :: 0 <= i < n ==> r[i] == s
  {
    seq(n, i requires 0 <= i < n => s)
  }

  /** The records `parameter_data` writes for one property. */
  datatype ParameterRecords = ParameterRecords(propertyValue: PropertyData, propertyDetails: Details, parameterDetails: Details)

  /** `parameter_data`: one "Dependent" parameter value holding the
      delimiter-joined values, the property described as unitless and the
      parameter with the property's unit. */
  function ParameterData(prId: string, paId: string, name: string, data: PropertyValue, units: PintUnit,
                         delim: string, show: Num.Value -> string, symbol: string -> string): (r: ParameterRecords)
    ensures var items := ValueItems(data);
      r.propertyValue.property == prId
      && r.propertyValue.parameterValue == [ParameterValue(paId, FloatFormat, Join(Shown(items, show), delim),
                                                           None, Repeat("Dependent", |items|))]
      && r.propertyDetails.unitless && r.propertyDetails.id == prId && r.propertyDetails.name == name
      && r.parameterDetails == MakeDetails(name, paId, units, symbol)
  {
    var items := ValueItems(data);
    var pav := ParameterValue(paId, FloatFormat, Join(Shown(items, show), delim), None, Repeat("Dependent", |items|));
    ParameterRecords(PropertyData(prId, "-", StringFormat, [], [pav], ",", None),
                     MakeDetails(name, prId, [], symbol),
                     MakeDetails(name, paId, units, symbol))
  }

  /** Written values read back: when every float is shown without the
      one-character delimiter and the float parser reads each shown value
      back, reading the parameter value gives the values again. */
  lemma {:induction false} ParameterDataRoundTrip(prId: string, paId: string, name: string, xs: seq<real>, units: PintUnit,
                               c: char, show: Num.Value -> string, symbol: string -> string,
                               parseFloat: string -> Result<real>, pow10: real -> Result<real>)
    requires |xs| >= 1
    requires forall i :: 0 <= i < |xs| ==> c !in show(Num.Scalar(xs[i]))
    requires forall i :: 0 <= i < |xs| ==> parseFloat(show(Num.Scalar(xs[i]))) == Ok(xs[i])
    ensures var items := seq(|xs|, i requires 0 <= i < |xs| => Num.Scalar(xs[i]));
      var pav := ParameterData(prId, paId, name, ListValue(items), units, [c], show, symbol).propertyValue.parameterValue[0];
      var read := ToDataType(pav.dataFormat, pav.data, [c], None, parseFloat, pow10);
      read.Ok? && |read.value| == |xs| && forall i :: 0 <= i < |xs| ==> read.value[i] == Number(xs[i])
  {
    var items := seq(|xs|, i requires 0 <= i < |xs| => Num.Scalar(xs[i]));
    var shown := Shown(items, show);
    SplitJoin(shown, c);
    assert Pieces(Join(shown, [c]), [c], None) == shown;
  }

  // ---------------------------------------------------------------------
  // Chemical formula
  // ---------------------------------------------------------------------

  type Pos = n: nat | n > 0 witness 1

  /** A `Fraction` in lowest terms: numerator and positive denominator. */
  datatype Frac = Frac(num: nat, den: Pos)

  /** `math.gcd` of two numbers, by Euclid's algorithm. */
  function Gcd(a: nat, b: nat): nat
    decreases b
  {
    if b == 0 then a else Gcd(b, a % b)
  }

  lemma {:induction false} GcdPositive(a: nat, b: nat)
    requires a > 0 || b > 0
    ensures Gcd(a, b) > 0
    decreases b
  {
    if b > 0 {
      GcdPositive(b, a % b);
    }
  }

  lemma {:induction false} Recombine(a: int, b: int, m: int, q: int, g: int, k1: int, k2: int)
    requires a == q * b + m && b == g * k1 && m == g * k2
    ensures a == g * (q * k1 + k2)
  {
    assert q * b == g * (q * k1);
  }

  /** The gcd divides both numbers: the cofactors are returned. */
  lemma {:induction false} GcdDivides(a: nat, b: nat) returns (ka: nat, kb: nat)
    ensures a == Gcd(a, b) * ka && b == Gcd(a, b) * kb
    decreases b
  {
    if b == 0 {
      ka, kb := 1, 0;
    } else {
      var q, m := a / b, a % b;
      assert a == q * b + m;
      var k1, k2 := GcdDivides(b, m);
      var g := Gcd(b, m);
      Recombine(a, b, m, q, g, k1, k2);
      ka, kb := q * k1 + k2, k1;
    }
  }

  lemma {:induction false} MulBounds(g: Pos, d: int)
    ensures d >= 1 ==> g * d >= g
    ensures d <= -1 ==> g * d + g <= 0
  {
    if d >= 1 {
      assert g * d == g * (d - 1) + g;
    } else if d <= -1 {
      assert g * d == g * (d + 1) - g;
    }
  }

  /** Dividing an exact multiple gives back the cofactor. */
  lemma {:induction false} MulDivExact(g: Pos, k: nat)
    ensures (g * k) / g == k
  {
    var x := g * k;
    var q, m := x / g, x % g;
    assert x == q * g + m && 0 <= m < g;
    assert g * (k - q) == m;
    MulBounds(g, k - q);
  }

  /** `math.gcd(*xs)`: 0 for no numbers. */
  function GcdAll(xs: seq<nat>): nat
  {
    if |xs| == 0 then 0 else Gcd(GcdAll(xs[..|xs| - 1]), xs[|xs| - 1])
  }

  /** `math.lcm` of two numbers. */
  function Lcm(a: nat, b: nat): nat
  {
    if a == 0 || b == 0 then 0
    else
      GcdPositive(a, b);
      var q: nat := b / Gcd(a, b);
      MulNonnegative(a, q);
      a * q
  }

  lemma {:induction false} MulNonnegative(x: nat, y: nat)
    ensures x * y >= 0
  {
  }

  lemma {:induction false} SwapProduct(g: int, ga: int, gb: int)
    ensures (g * ga) * gb == (g * gb) * ga
  {
  }

  /** Both numbers divide their lcm, which is positive. */
  lemma {:induction false} LcmMultiple(a: Pos, b: Pos) returns (ka: Pos, kb: Pos)
    ensures Lcm(a, b) == a * ka && Lcm(a, b) == b * kb
  {
    GcdPositive(a, b);
    var g: Pos := Gcd(a, b);
    var ga, gb := GcdDivides(a, b);
    MulDivExact(g, gb);
    assert b / g == gb;
    assert Lcm(a, b) == a * gb;
    SwapProduct(g, ga, gb);
    ka, kb := gb, ga;
  }

  lemma {:induction false} LcmPositive(a: Pos, b: Pos)
    ensures Lcm(a, b) > 0
  {
    var ka, kb := LcmMultiple(a, b);
    assert a * ka >= ka;
  }

  /** `math.lcm(*xs)`: 1 for no numbers. */
  function LcmAll(xs: seq<Pos>): Pos
  {
    if |xs| == 0 then 1
    else
      var l := LcmAll(xs[..|xs| - 1]);
      LcmPositive(l, xs[|xs| - 1]);
      Lcm(l, xs[|xs| - 1])
  }

  /** Every number divides the lcm of them all. */
  lemma {:induction false} LcmAllMultiple(xs: seq<Pos>, i: nat) returns (k: Pos)
    requires i < |xs|
    ensures LcmAll(xs) == xs[i] * k
  {
    var n := |xs| - 1;
    var init := xs[..n];
    var l := LcmAll(init);
    var ka, kb := LcmMultiple(l, xs[n]);
    assert LcmAll(xs) == Lcm(l, xs[n]);
    if i == n {
      k := kb;
    } else {
      var k0 := LcmAllMultiple(init, i);
      assert init[i] == xs[i];
      MulAssoc(xs[i], k0, ka);
      assert k0 * ka >= k0;
      k := k0 * ka;
    }
  }

  lemma {:induction false} MulAssoc(x: int, y: int, z: int)
    ensures (x * y) * z == x * (y * z)
  {
  }

  function Denominators(fractions: Dict<Frac>): (r: seq<Pos>)
    ensures |r| == |fractions| && forall i :: 0 <= i < |fractions| ==> r[i] == fractions[i].1.den
  {
    seq(|fractions|, i requires 0 <= i < |fractions| => fractions[i].1.den)
  }

  /** The numerator of `Fraction(n, d)` once reduced to lowest terms. */
  function ReducedNumerator(n: nat, d: Pos): nat
  {
    GcdPositive(n, d);
    n / Gcd(n, d)
  }

  /** The formula: each symbol followed by its subscript, a subscript of
      "1" being left out. */
  function Formula(elements: seq<(string, string)>): string
  {
    if |elements| == 0 then ""
    else
      var n := |elements| - 1;
      Formula(elements[..n]) + elements[n].0 + (if elements[n].1 != "1" then elements[n].1 else "")
  }

  function CharacterisationFrom(elements: seq<(string, string)>): Characterisation
  {
    Characterisation(Formula(elements), elements)
  }

  /** The subscripts as written: each fraction times the gcd of all the
      denominators, reduced, and its numerator kept. */
  function SubscriptsAsWritten(fractions: Dict<Frac>): (r: seq<(string, string)>)
    ensures |r| == |fractions|
  {
    var g := GcdAll(Denominators(fractions));
    seq(|fractions|, i requires 0 <= i < |fractions| =>
      (fractions[i].0, NatToString(ReducedNumerator(fractions[i].1.num * g, fractions[i].1.den))))
  }

  /** `to_characterisation` as written. */
  function ToCharacterisationAsWritten(fractions: Dict<Frac>): (r: Characterisation)
    ensures |r.elements| == |fractions| && forall i :: 0 <= i < |fractions| ==> r.elements[i].0 == fractions[i].0
    ensures r.formula == Formula(r.elements)
  {
    CharacterisationFrom(SubscriptsAsWritten(fractions))
  }

  /** The integer subscript of one element: its fraction scaled by the
      lcm of all denominators, which is a whole number. */
  function Scaled(f: Frac, l: nat): nat
  {
    f.num * (l / f.den)
  }

  function SubscriptCounts(fractions: Dict<Frac>): (r: seq<nat>)
    ensures |r| == |fractions|
  {
    var l := LcmAll(Denominators(fractions));
    seq(|fractions|, i requires 0 <= i < |fractions| => Scaled(fractions[i].1, l))
  }

  /** `to_characterisation` with the lcm of the denominators: whole
      numbers in the ratio of the fractions. */
  function ToCharacterisation(fractions: Dict<Frac>): (r: Characterisation)
    ensures |r.elements| == |fractions| && forall i :: 0 <= i < |fractions| ==> r.elements[i].0 == fractions[i].0
    ensures r.formula == Formula(r.elements)
  {
    var counts := SubscriptCounts(fractions);
    CharacterisationFrom(seq(|fractions|, i requires 0 <= i < |fractions| =>
      (fractions[i].0, NatToString(counts[i]))))
  }

  lemma {:induction false} ScaledRatio(f: Frac, l: nat, k: nat)
    requires l == f.den * k
    ensures Scaled(f, l) * f.den == f.num * l
  {
    MulDivExact(f.den, k);
    MulAssoc(f.num, k, f.den);
  }

  /** The subscripts keep the ratio of the fractions: every subscript is
      its fraction times one common positive factor, the lcm of the
      denominators. */
  lemma {:induction false} ToCharacterisationRatios(fractions: Dict<Frac>)
    ensures var l := LcmAll(Denominators(fractions));
      var counts := SubscriptCounts(fractions);
      forall i :: 0 <= i < |fractions| ==> counts[i] * fractions[i].1.den == fractions[i].1.num * l
  {
    var dens := Denominators(fractions);
    var l := LcmAll(dens);
    forall i | 0 <= i < |fractions|
      ensures SubscriptCounts(fractions)[i] * fractions[i].1.den == fractions[i].1.num * l
    {
      var k := LcmAllMultiple(dens, i);
      ScaledRatio(fractions[i].1, l, k);
    }
  }

  /** The subscripts read back from the written elements. */
  lemma {:induction false} ToCharacterisationElements(fractions: Dict<Frac>)
    ensures var c := ToCharacterisation(fractions);
      |c.elements| == |fractions|
      && forall i :: 0 <= i < |fractions| ==>
           c.elements[i].0 == fractions[i].0 && ParseNat(c.elements[i].1) == SubscriptCounts(fractions)[i]
  {
    forall i | 0 <= i < |fractions| {
      NatToStringRoundTrip(SubscriptCounts(fractions)[i]);
    }
  }

  lemma {:induction false} FormulaSnoc(elements: seq<(string, string)>, e: (string, string))
    ensures Formula(elements + [e]) == Formula(elements) + e.0 + (if e.1 != "1" then e.1 else "")
  {
    assert (elements + [e])[..|elements|] == elements;
  }

  const Water: Dict<Frac> := [("H", Frac(2, 3)), ("O", Frac(1, 3))]

  const Formaldehyde: Dict<Frac> := [("C", Frac(1, 4)), ("H", Frac(1, 2)), ("O", Frac(1, 4))]

  lemma {:induction false} WaterDenominators()
    ensures GcdAll(Denominators(Water)) == 3
    ensures LcmAll(Denominators(Water)) == 3
  {
    var dens := Denominators(Water);
    assert dens == [3, 3];
    assert dens[..1] == [3] && dens[..1][..0] == [];
    assert Gcd(0, 3) == 3 && Gcd(3, 3) == 3;
    assert GcdAll(dens[..1][..0]) == 0;
    assert GcdAll(dens[..1]) == 3;
    assert Gcd(1, 3) == 1 && Lcm(1, 3) == 3 && Lcm(3, 3) == 3;
    assert LcmAll(dens[..1][..0]) == 1;
    assert LcmAll(dens[..1]) == 3;
  }

  /** Two thirds hydrogen and one third oxygen is written H2O either way:
      here the gcd and the lcm of the denominators agree. */
  lemma {:induction false} WaterFormula()
    ensures ToCharacterisation(Water).formula == "H2O"
    ensures ToCharacterisationAsWritten(Water).formula == "H2O"
  {
    WaterSubscripts();
    WaterSubscriptsAsWritten();
    FormulaWater();
  }

  lemma {:induction false} WaterSubscripts()
    ensures ToCharacterisation(Water).elements == [("H", "2"), ("O", "1")]
  {
    WaterDenominators();
    assert NatToString(2) == "2" && NatToString(1) == "1";
    assert SubscriptCounts(Water) == [2, 1];
  }

  lemma {:induction false} WaterSubscriptsAsWritten()
    ensures SubscriptsAsWritten(Water) == [("H", "2"), ("O", "1")]
  {
    WaterDenominators();
    assert NatToString(2) == "2" && NatToString(1) == "1";
    assert ReducedNumerator(6, 3) == 2 && ReducedNumerator(3, 3) == 1;
  }

  lemma {:induction false} FormulaWater()
    ensures Formula([("H", "2"), ("O", "1")]) == "H2O"
  {
    FormulaSnoc([], ("H", "2"));
    FormulaSnoc([("H", "2")], ("O", "1"));
    assert [("H", "2")] + [("O", "1")] == [("H", "2"), ("O", "1")];
  }

  lemma {:induction false} FormaldehydeDenominators()
    ensures GcdAll(Denominators(Formaldehyde)) == 2
    ensures LcmAll(Denominators(Formaldehyde)) == 4
  {
    var dens := Denominators(Formaldehyde);
    assert dens == [4, 2, 4];
    assert dens[..2] == [4, 2] && dens[..2][..1] == [4] && dens[..2][..1][..0] == [];
    assert Gcd(0, 4) == 4 && Gcd(4, 2) == 2 && Gcd(2, 4) == 2;
    assert GcdAll(dens[..2][..1][..0]) == 0;
    assert GcdAll(dens[..2][..1]) == 4;
    assert GcdAll(dens[..2]) == 2;
    assert Gcd(1, 4) == 1 && Lcm(1, 4) == 4 && Lcm(4, 2) == 4 && Gcd(4, 4) == 4 && Lcm(4, 4) == 4;
    assert LcmAll(dens[..2][..1][..0]) == 1;
    assert LcmAll(dens[..2][..1]) == 4;
    assert LcmAll(dens[..2]) == 4;
  }

  /** C 1/4, H 1/2, O 1/4: the gcd of the denominators is 2, so the
      subscripts as written are 1, 1, 1 and the formula "CHO" although
      hydrogen is twice as abundant as carbon or oxygen. */
  lemma {:induction false} FormaldehydeAsWritten()
    ensures ToCharacterisationAsWritten(Formaldehyde).formula == "CHO"
  {
    FormaldehydeSubscriptsAsWritten();
    FormulaOnes();
  }

  lemma {:induction false} FormaldehydeSubscriptsAsWritten()
    ensures SubscriptsAsWritten(Formaldehyde) == [("C", "1"), ("H", "1"), ("O", "1")]
  {
    FormaldehydeDenominators();
    assert NatToString(1) == "1";
    assert ReducedNumerator(2, 4) == 1 && ReducedNumerator(2, 2) == 1;
  }

  lemma {:induction false} FormulaOnes()
    ensures Formula([("C", "1"), ("H", "1"), ("O", "1")]) == "CHO"
  {
    FormulaSnoc([], ("C", "1"));
    FormulaSnoc([("C", "1")], ("H", "1"));
    FormulaSnoc([("C", "1"), ("H", "1")], ("O", "1"));
    assert [("C", "1")] + [("H", "1")] == [("C", "1"), ("H", "1")];
    assert [("C", "1"), ("H", "1")] + [("O", "1")] == [("C", "1"), ("H", "1"), ("O", "1")];
  }

  /** With the lcm of the denominators, 4, the same composition is CH2O. */
  lemma {:induction false} FormaldehydeFormula()
    ensures ToCharacterisation(Formaldehyde).formula == "CH2O"
  {
    FormaldehydeSubscripts();
    FormulaFormaldehyde();
  }

  lemma {:induction false} FormaldehydeSubscripts()
    ensures ToCharacterisation(Formaldehyde).elements == [("C", "1"), ("H", "2"), ("O", "1")]
  {
    FormaldehydeDenominators();
    assert NatToString(1) == "1" && NatToString(2) == "2";
    assert SubscriptCounts(Formaldehyde) == [1, 2, 1];
  }

  lemma {:induction false} FormulaFormaldehyde()
    ensures Formula([("C", "1"), ("H", "2"), ("O", "1")]) == "CH2O"
  {
    FormulaSnoc([], ("C", "1"));
    FormulaSnoc([("C", "1")], ("H", "2"));
    FormulaSnoc([("C", "1"), ("H", "2")], ("O", "1"));
    assert [("C", "1")] + [("H", "2")] == [("C", "1"), ("H", "2")];
    assert [("C", "1"), ("H", "2")] + [("O", "1")] == [("C", "1"), ("H", "2"), ("O", "1")];
  }

  // ---------------------------------------------------------------------
  // Extracting a document's data
  // ---------------------------------------------------------------------

  /** The property data with the given property id, in document order. */
  function WithProperty(pds: seq<PropertyData>, id: string): seq<PropertyData>
  {
    if |pds| == 0 then []
    else
      var n := |pds| - 1;
      WithProperty(pds[..n], id) + (if pds[n].property == id then [pds[n]] else [])
  }

  /** Property data grouped by property id, groups in order of first
      appearance. */
  function Grouped(pds: seq<PropertyData>): (r: Dict<seq<PropertyData>>)
    ensures DistinctKeys(r)
  {
    if |pds| == 0 then []
    else
      var n := |pds| - 1;
      var prev := Grouped(pds[..n]);
      var k := pds[n].property;
      var group := if HasKey(prev, k) then Get(prev, k).value + [pds[n]] else [pds[n]];
      SetDistinct(prev, k, group);
      Set(prev, k, group)
  }

  /** The grouping loop of `extract_data`. */
  method GroupProperties(pds: seq<PropertyData>) returns (groups: Dict<seq<PropertyData>>)
    ensures groups == Grouped(pds)
  {
    groups := [];
    for i := 0 to |pds|
      invariant groups == Grouped(pds[..i])
    {
      assert pds[..i + 1][..i] == pds[..i];
      var p := pds[i];
      var current := Get(groups, p.property);
      if current.Some? {
        groups := Set(groups, p.property, current.value + [p]);
      } else {
        groups := Set(groups, p.property, [p]);
      }
    }
    assert pds[..|pds|] == pds;
  }

  /** Each id's group is exactly its property data in document order, and
      ids that do not occur have no group. */
  lemma {:induction false} GroupedMeaning(pds: seq<PropertyData>, id: string)
    ensures WithProperty(pds, id) == [] ==> Get(Grouped(pds), id) == None
    ensures WithProperty(pds, id) != [] ==> Get(Grouped(pds), id) == Some(WithProperty(pds, id))
  {
    if |pds| > 0 {
      var n := |pds| - 1;
      var init := pds[..n];
      GroupedMeaning(init, id);
      var prev := Grouped(init);
      var k := pds[n].property;
      var group := if HasKey(prev, k) then Get(prev, k).value + [pds[n]] else [pds[n]];
      assert Grouped(pds) == Set(prev, k, group);
      if k != id {
        assert WithProperty(pds, id) == WithProperty(init, id) + [];
        assert WithProperty(init, id) + [] == WithProperty(init, id);
        SetOther(prev, k, group, id);
      } else {
        assert WithProperty(pds, id) == WithProperty(init, id) + [pds[n]];
        if HasKey(prev, k) {
          assert group == WithProperty(init, id) + [pds[n]];
        } else {
          assert WithProperty(init, id) == [];
          assert group == WithProperty(init, id) + [pds[n]];
        }
        assert Get(Grouped(pds), id) == Some(group);
      }
    }
  }

  /** What `extract_data` records of a material. */
  datatype MaterialData = MaterialData(name: string, properties: Dict<seq<PropertyData>>)

  /** A material whose characterisation has a non-empty formula: the loop
      skips it. */
  predicate HasFormula(m: Material)
  {
    m.bulkDetails.characterisation.Some? && m.bulkDetails.characterisation.value.formula != []
  }

  /** The `(id, data)` entries of the materials the loop keeps. */
  function MaterialEntries(ms: seq<Material>): seq<(string, MaterialData)>
  {
    if |ms| == 0 then []
    else
      var n := |ms| - 1;
      var m := ms[n];
      MaterialEntries(ms[..n])
      + (if HasFormula(m) then [] else [(m.id, MaterialData(m.bulkDetails.name, Grouped(m.bulkDetails.propertyData)))])
  }

  /** Details keyed by their ids. */
  function DetailsById(ds: seq<Details>): (r: seq<(string, Details)>)
    ensures |r| == |ds| && forall i :: 0 <= i < |ds| ==> r[i] == (ds[i].id, ds[i])
  {
    seq(|ds|, i requires 0 <= i < |ds| => (ds[i].id, ds[i]))
  }

  datatype Extracted = Extracted(materials: Dict<MaterialData>, propertyDetails: Dict<Details>, parameterDetails: Dict<Details>)

  /** `extract_data`. The element list it builds is always empty (a
      formula makes the loop skip the material), so it is not recorded. */
  method ExtractData(doc: Document) returns (r: Extracted)
    ensures r.materials == FromList(MaterialEntries(doc.material))
    ensures doc.metadata.Some? ==>
      r.propertyDetails == FromList(DetailsById(doc.metadata.value.propertyDetails))
      && r.parameterDetails == FromList(DetailsById(doc.metadata.value.parameterDetails))
    ensures doc.metadata.None? ==> r.propertyDetails == [] && r.parameterDetails == []
  {
    var materials: Dict<MaterialData> := [];
    for i := 0 to |doc.material|
      invariant materials == FromList(MaterialEntries(doc.material[..i]))
    {
      var m := doc.material[i];
      assert doc.material[..i + 1] == doc.material[..i] + [m];
      assert doc.material[..i + 1][..i] == doc.material[..i];
      if HasFormula(m) {
        assert MaterialEntries(doc.material[..i + 1]) == MaterialEntries(doc.material[..i]);
        continue;
      }
      var properties := GroupProperties(m.bulkDetails.propertyData);
      var entry := (m.id, MaterialData(m.bulkDetails.name, properties));
      assert MaterialEntries(doc.material[..i + 1]) == MaterialEntries(doc.material[..i]) + [entry];
      FromListSnoc(MaterialEntries(doc.material[..i]), entry);
      materials := Set(materials, m.id, entry.1);
    }
    assert doc.material[..|doc.material|] == doc.material;
    if doc.metadata.Some? {
      r := Extracted(materials, FromList(DetailsById(doc.metadata.value.propertyDetails)),
                     FromList(DetailsById(doc.metadata.value.parameterDetails)));
    } else {
      r := Extracted(materials, [], []);
    }
  }

  /** A material is extracted under an id exactly when some material with
      that id has no formula; the last such material is the one kept. */
  lemma {:induction false} MaterialEntriesMeaning(ms: seq<Material>, id: string)
    ensures LastWith(MaterialEntries(ms), id).Some? <==>
      exists i :: 0 <= i < |ms| && ms[i].id == id && !HasFormula(ms[i])
  {
    if |ms| > 0 {
      var n := |ms| - 1;
      var init := ms[..n];
      MaterialEntriesMeaning(init, id);
      var m := ms[n];
      var tail := if HasFormula(m) then [] else [(m.id, MaterialData(m.bulkDetails.name, Grouped(m.bulkDetails.propertyData)))];
      assert MaterialEntries(ms) == MaterialEntries(init) + tail;
      if !HasFormula(m) && m.id == id {
        assert LastWith(MaterialEntries(ms), id).Some?;
        assert ms[n].id == id && !HasFormula(ms[n]);
      } else {
        if tail == [] {
          assert MaterialEntries(ms) == MaterialEntries(init);
        } else {
          var es := MaterialEntries(init) + tail;
          assert es[..|es| - 1] == MaterialEntries(init);
        }
        assert LastWith(MaterialEntries(ms), id) == LastWith(MaterialEntries(init), id);
        KeptBefore(ms, init, id);
      }
    }
  }

  /** When the last material is not kept under `id`, a kept one lies before it. */
  lemma {:induction false} KeptBefore(ms: seq<Material>, init: seq<Material>, id: string)
    requires |ms| > 0 && init == ms[..|ms| - 1] && !(ms[|ms| - 1].id == id && !HasFormula(ms[|ms| - 1]))
    ensures (exists i :: 0 <= i < |ms| && ms[i].id == id && !HasFormula(ms[i])) <==>
      exists i :: 0 <= i < |init| && init[i].id == id && !HasFormula(init[i])
  {
    if exists i :: 0 <= i < |ms| && ms[i].id == id && !HasFormula(ms[i]) {
      var i :| 0 <= i < |ms| && ms[i].id == id && !HasFormula(ms[i]);
      assert i < |ms| - 1 && init[i] == ms[i];
    }
    if exists i :: 0 <= i < |init| && init[i].id == id && !HasFormula(init[i]) {
      var i :| 0 <= i < |init| && init[i].id == id && !HasFormula(init[i]);
      assert ms[i] == init[i];
    }
  }
}
