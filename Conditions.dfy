// Operating conditions of a material and the validity domains of dependent
// properties: wrapping bare condition values, reconciling array lengths,
// parsing bound configurations, filling their default units, re-expressing
// conditions in configured units, checking bounds, and the fixed standard
// temperature and pressure conditions.

module Conditions {
  import opened Wrappers
  import opened Values
  import opened Independent
  import opened Dicts

  /** The condition fields of OperationalConditions, in declaration order. */
  const ConditionNames: seq<string> :=
    ["temperature", "pressure", "magnetic_field", "strain", "neutron_damage", "neutron_fluence"]

  const ConditionKinds: seq<Kind> :=
    [Temperature, Pressure, MagneticField, Strain, NeutronDamage, NeutronFluence]

  /** The condition fields of a constructed OperationalConditions, in order;
      `None` is an unset optional condition. */
  type Fields = seq<Option<PhysicalProperty>>

  /** Temperature, the first field, is required and always set. */
  predicate HasTemperature(f: Fields)
  {
    |f| >= 1 && f[0].Some?
  }

  predicate Shaped(f: Fields)
  {
    |f| == 6 && f[0].Some?
  }

  // ---------------------------------------------------------------------
  // Wrapping bare values (`_value_only`)
  // ---------------------------------------------------------------------

  /** A condition as the caller passes it: None, a constructed property, or
      any input a property accepts. */
  datatype ConditionInput =
    | Absent
    | GivenProperty(p: PhysicalProperty)
    | Given(input: Input)

  /** The `{"value": v}` entry a bare value is wrapped into. */
  function AsValueEntry(input: Input): Entry
    requires !input.Fields?
  {
    match input
    case Bare(m) => EntryMagnitude(m)
    case Quantity(m, u) => EntryQuantity(m, u)
    case Pair(m, u) => EntryPair(m, u)
    case Other => EntryOther
  }

  /** One entry of `_value_only`: anything that is neither None, a dict nor
      a property becomes `{"value": v}`. */
  function WrapBare(c: ConditionInput): (r: ConditionInput)
    ensures c.Given? && !c.input.Fields? ==> r == Given(Fields(Some(AsValueEntry(c.input)), None))
    ensures !(c.Given? && !c.input.Fields?) ==> r == c
  {
    match c
    case Given(input) => if input.Fields? then c else Given(Fields(Some(AsValueEntry(input)), None))
    case _ => c
  }

  /** `_value_only`: rewrites the input mapping entry by entry. */
  method ValueOnly(raw: map<string, ConditionInput>) returns (wrapped: map<string, ConditionInput>)
    ensures wrapped.Keys == raw.Keys
    ensures forall k :: k in raw ==> wrapped[k] == WrapBare(raw[k])
  {
    wrapped := raw;
    var todo := raw.Keys;
    while todo != {}
      invariant todo <= raw.Keys
      invariant wrapped.Keys == raw.Keys
      invariant forall k :: k in raw && k !in todo ==> wrapped[k] == WrapBare(raw[k])
      invariant forall k :: k in todo ==> wrapped[k] == raw[k]
      decreases todo
    {
      var k :| k in todo;
      wrapped := wrapped[k := WrapBare(wrapped[k])];
      todo := todo - {k};
    }
  }

  /** Wrapping does not change what a supported bare input stands for. */
  lemma {:induction false} WrapKeepsEntry(input: Input)
    requires !input.Fields? && !input.Other?
    ensures ValueEntry(WrapBare(Given(input)).input) == ValueEntry(input)
  {
  }

  /** A bare number, array or list given for a condition is taken in the
      condition's default unit, as it is. */
  lemma {:induction false} BareTakesDefaultUnit(k: Kind, m: Magnitude, conv: UnitConverter)
    requires k != Temperature || !AnyNegative(ArrayValidation(m))
    ensures ValidateField(k, WrapBare(Given(Bare(m))), conv)
         == Ok(Some(PhysicalProperty(ClassOf(k), ArrayValidation(m), DefaultUnit(k))))
  {
  }

  // ---------------------------------------------------------------------
  // Field validation
  // ---------------------------------------------------------------------

  /** The entry for `name`; a missing key is an unset condition. */
  function Lookup(m: map<string, ConditionInput>, name: string): ConditionInput
  {
    if name in m then m[name] else Absent
  }

  /** Validating one condition field of kind `k`. */
  function ValidateField(k: Kind, c: ConditionInput, conv: UnitConverter): (r: Result<Option<PhysicalProperty>>)
    ensures r.Ok? && r.value.Some? ==> r.value.value.cls == ClassOf(k)
    ensures k == Temperature && r.Ok? ==> r.value.Some?
    ensures c.Absent? ==> (r.Ok? <==> k != Temperature)
  {
    match c
    case Absent =>
      if k == Temperature then Err(ValidationError("temperature: Field required")) else Ok(None)
    case GivenProperty(p) =>
      if p.cls == ClassOf(k) then Ok(Some(p))
      else Err(ValidationError("Input should be an instance of " + KindName(k)))
    case Given(input) =>
      var p :- Construct(Concrete(ClassOf(k)), input, conv);
      Ok(Some(p))
  }

  /** The fields when every one validated, else the first error in field order. */
  function CollectFields(results: seq<Result<Option<PhysicalProperty>>>): (r: Result<Fields>)
    ensures r.Ok? <==> forall i :: 0 <= i < |results| ==> results[i].Ok?
    ensures r.Ok? ==> |r.value| == |results|
                      && forall i :: 0 <= i < |results| ==> r.value[i] == results[i].value
    ensures r.Err? ==> exists i :: 0 <= i < |results| && results[i] == Err(r.error)
                                   && forall j :: 0 <= j < i ==> results[j].Ok?
  {
    if |results| == 0 then Ok([])
    else if results[0].Err? then Err(results[0].error)
    else
      var tail := results[1..];
      assert forall i :: 1 <= i < |results| ==> results[i] == tail[i - 1];
      match CollectFields(tail)
      case Err(e) =>
        assert exists i :: 0 <= i < |results| && results[i] == Err(e)
                           && forall j :: 0 <= j < i ==> results[j].Ok? by {
          var i :| 0 <= i < |tail| && tail[i] == Err(e) && forall j :: 0 <= j < i ==> tail[j].Ok?;
          assert results[i + 1] == Err(e);
        }
        Err(e)
      case Ok(rest) => Ok([results[0].value] + rest)
  }

  /** The six field results of OperationalConditions. */
  function FieldResults(m: map<string, ConditionInput>, conv: UnitConverter): (r: seq<Result<Option<PhysicalProperty>>>)
    ensures |r| == 6
    ensures forall i :: 0 <= i < 6 ==> r[i] == ValidateField(ConditionKinds[i], Lookup(m, ConditionNames[i]), conv)
  {
    seq(6, i requires 0 <= i < 6 => ValidateField(ConditionKinds[i], Lookup(m, ConditionNames[i]), conv))
  }

  // ---------------------------------------------------------------------
  // Reconciling array lengths (`_all_values_same_length`)
  // ---------------------------------------------------------------------

  /** Field `j` holds an ndarray value. */
  predicate IsArr(f: Fields, j: int)
    requires 0 <= j < |f|
  {
    f[j].Some? && f[j].value.value.Array?
  }

  /** The size of field `j` (1 for a float). */
  function Sz(f: Fields, j: int): nat
    requires 0 <= j < |f|
  {
    if f[j].Some? then Size(f[j].value.value) else 0
  }

  /** The fields whose sizes take part in the length check: temperature and
      every array-valued field. */
  predicate Relevant(f: Fields, j: int)
    requires 0 <= j < |f|
  {
    j == 0 || IsArr(f, j)
  }

  /** No array among the first `n` fields conflicts with an earlier field of
      size other than 1. */
  predicate CompatibleUpTo(f: Fields, n: int)
    requires n <= |f|
  {
    forall i, j :: 0 <= i < j < n && Relevant(f, i) && IsArr(f, j) ==> Sz(f, i) == 1 || Sz(f, i) == Sz(f, j)
  }

  predicate Compatible(f: Fields)
  {
    CompatibleUpTo(f, |f|)
  }

  /** The running length after the first `n` fields. */
  function LengthAfter(f: Fields, n: int): nat
    requires HasTemperature(f) && 1 <= n <= |f|
  {
    if n == 1 then Sz(f, 0)
    else
      var l := LengthAfter(f, n - 1);
      if IsArr(f, n - 1) && l == 1 then Sz(f, n - 1) else l
  }

  /** The common length of the conditions. */
  function CommonLength(f: Fields): nat
    requires HasTemperature(f)
  {
    LengthAfter(f, |f|)
  }

  /** The length the conditions started with: 0 as soon as some optional
      field is unset or a float. */
  function OldLength(f: Fields): nat
    requires HasTemperature(f)
  {
    OldLengthAfter(f, |f|)
  }

  /** The starting length as seen after the first `n` fields. */
  function OldLengthAfter(f: Fields, n: int): nat
    requires HasTemperature(f) && n <= |f|
  {
    if exists j :: 1 <= j < n && !IsArr(f, j) then 0 else Sz(f, 0)
  }

  lemma {:induction false} OldLengthStep(f: Fields, n: int)
    requires HasTemperature(f) && 1 <= n < |f|
    ensures OldLengthAfter(f, n + 1) == if IsArr(f, n) then OldLengthAfter(f, n) else 0
  {
  }

  predicate Broadcasts(f: Fields)
    requires HasTemperature(f)
  {
    OldLength(f) != CommonLength(f)
  }

  /** A float or a size-1 array: the values that get broadcast. */
  predicate NeedsRebuild(p: PhysicalProperty)
  {
    p.value.Scalar? || Size(p.value) == 1
  }

  /** The property rebuilt from `np.full(n, value)`, squeezed on construction. */
  function Rebuild(p: PhysicalProperty, n: nat): (r: PhysicalProperty)
    ensures r.cls == p.cls && r.unit == p.unit && r.value.Array? && Size(r.value) == n
    ensures forall i :: 0 <= i < n ==> Elements(r.value)[i] == First(p.value)
  {
    PhysicalProperty(p.cls, Squeeze(Full(n, First(p.value))), p.unit)
  }

  /** Every float or size-1 field replaced by a constant array of length `n`. */
  function Spread(f: Fields, n: nat): (r: Fields)
    ensures |r| == |f|
  {
    seq(|f|, i requires 0 <= i < |f| =>
      if f[i].Some? && NeedsRebuild(f[i].value) then Some(Rebuild(f[i].value, n)) else f[i])
  }

  /** What `_all_values_same_length` leaves: an error when two array sizes
      conflict; otherwise the fields, broadcast when the starting length and
      the common length differ. */
  function SameLengthSpec(f: Fields): Result<Fields>
    requires HasTemperature(f)
  {
    if !Compatible(f) then Err(ValueError("All values must be of equal size or a singular value"))
    else if Broadcasts(f) then Ok(Spread(f, CommonLength(f)))
    else Ok(f)
  }

  lemma {:induction false} LengthWitness(f: Fields, n: int)
    requires HasTemperature(f) && 1 <= n <= |f|
    ensures LengthAfter(f, n) == 1
            || exists m :: 0 <= m < n && Relevant(f, m) && Sz(f, m) == LengthAfter(f, n)
  {
    if n > 1 {
      LengthWitness(f, n - 1);
    }
  }

  lemma {:induction false} LengthDominates(f: Fields, n: int)
    requires HasTemperature(f) && 1 <= n <= |f| && CompatibleUpTo(f, n)
    ensures forall i :: 0 <= i < n && Relevant(f, i) ==> Sz(f, i) == 1 || Sz(f, i) == LengthAfter(f, n)
  {
    if n > 1 {
      assert CompatibleUpTo(f, n - 1);
      LengthDominates(f, n - 1);
      var l := LengthAfter(f, n - 1);
      if IsArr(f, n - 1) && l != 1 {
        LengthWitness(f, n - 1);
        var m :| 0 <= m < n - 1 && Relevant(f, m) && Sz(f, m) == l;
        assert Sz(f, m) == 1 || Sz(f, m) == Sz(f, n - 1);
      }
    }
  }

  /** The check at field `n` extends compatibility exactly when the array
      there agrees with a running length other than 1. */
  lemma {:induction false} CompatibleStep(f: Fields, n: int)
    requires HasTemperature(f) && 1 <= n < |f| && CompatibleUpTo(f, n)
    ensures CompatibleUpTo(f, n + 1)
            <==> (IsArr(f, n) ==> LengthAfter(f, n) == 1 || Sz(f, n) == LengthAfter(f, n))
  {
    LengthDominates(f, n);
    var l := LengthAfter(f, n);
    if IsArr(f, n) && l != 1 && Sz(f, n) != l {
      LengthWitness(f, n);
      var m :| 0 <= m < n && Relevant(f, m) && Sz(f, m) == l;
      assert !(Sz(f, m) == 1 || Sz(f, m) == Sz(f, n));
    }
  }

  lemma {:induction false} CompatiblePrefix(f: Fields, n: int)
    requires n <= |f| && Compatible(f)
    ensures CompatibleUpTo(f, n)
  {
  }

  /** `_all_values_same_length`: the running-length scan, then the rewrite of
      every float or size-1 field. */
  method AllValuesSameLength(f: Fields) returns (r: Result<Fields>)
    requires HasTemperature(f)
    ensures r == SameLengthSpec(f)
  {
    var length := Sz(f, 0);
    var oldLength := length;
    var i := 1;
    while i < |f|
      invariant 1 <= i <= |f|
      invariant CompatibleUpTo(f, i)
      invariant length == LengthAfter(f, i)
      invariant oldLength == OldLengthAfter(f, i)
    {
      CompatibleStep(f, i);
      OldLengthStep(f, i);
      if IsArr(f, i) {
        if length == 1 {
          length := Sz(f, i);
        } else if Sz(f, i) != length {
          if Compatible(f) {
            CompatiblePrefix(f, i + 1);
          }
          return Err(ValueError("All values must be of equal size or a singular value"));
        }
      } else {
        oldLength := 0;
      }
      i := i + 1;
    }
    if oldLength != length {
      var out := SpreadFields(f, length);
      r := Ok(out);
    } else {
      r := Ok(f);
    }
  }

  /** The rewrite loop of `_all_values_same_length`: every float or
      size-1 field becomes an array of the common length. */
  method SpreadFields(f: Fields, length: nat) returns (out: Fields)
    ensures out == Spread(f, length)
  {
    out := f;
    var k := 0;
    while k < |f|
      invariant 0 <= k <= |f| && |out| == |f|
      invariant forall j :: 0 <= j < k ==> out[j] == Spread(f, length)[j]
      invariant forall j :: k <= j < |f| ==> out[j] == f[j]
    {
      if f[k].Some? && NeedsRebuild(f[k].value) {
        out := out[k := Some(Rebuild(f[k].value, length))];
      }
      k := k + 1;
    }
  }

  /** The common length is 1 or the size of some temperature or array field,
      and every such field has size 1 or the common length. */
  lemma {:induction false} CommonLengthMeaning(f: Fields)
    requires HasTemperature(f) && Compatible(f)
    ensures forall i :: 0 <= i < |f| && Relevant(f, i) ==> Sz(f, i) == 1 || Sz(f, i) == CommonLength(f)
    ensures CommonLength(f) == 1 || exists m :: 0 <= m < |f| && Relevant(f, m) && Sz(f, m) == CommonLength(f)
  {
    LengthDominates(f, |f|);
    LengthWitness(f, |f|);
  }

  /** Every set field is an array of length `n`, and a length-1 array is
      0-dimensional. */
  predicate Uniform(g: Fields, n: nat)
  {
    forall i :: 0 <= i < |g| && g[i].Some? ==>
      g[i].value.value.Array? && Size(g[i].value.value) == n && (n == 1 ==> g[i].value.value.shape == [])
  }

  lemma {:induction false} SqueezeFull(n: nat, x: real)
    ensures Squeeze(Full(n, x)).Array?
    ensures n == 1 ==> Squeeze(Full(n, x)) == Array([], [x])
  {
    if n == 1 {
      assert SqueezeShape([1]) == SqueezeShape([1][1..]);
      assert [1][1..] == [];
      assert seq(1, _ => x) == [x];
    }
  }

  /** After a broadcast every set field is an array of the common length. */
  lemma {:induction false} SpreadUniform(f: Fields)
    requires HasTemperature(f) && Compatible(f)
    ensures Uniform(Spread(f, CommonLength(f)), CommonLength(f))
  {
    var n := CommonLength(f);
    var g := Spread(f, n);
    CommonLengthMeaning(f);
    forall i | 0 <= i < |g| && g[i].Some?
      ensures g[i].value.value.Array? && Size(g[i].value.value) == n && (n == 1 ==> g[i].value.value.shape == [])
    {
      if f[i].Some? && NeedsRebuild(f[i].value) {
        SqueezeFull(n, First(f[i].value.value));
      } else {
        assert g[i] == f[i];
        assert Relevant(f, i);
      }
    }
  }

  lemma {:induction false} LengthUniform(g: Fields, n: nat, k: int)
    requires HasTemperature(g) && Uniform(g, n) && 1 <= k <= |g|
    ensures LengthAfter(g, k) == n
  {
    if k > 1 {
      LengthUniform(g, n, k - 1);
    }
  }

  /** Fields that are already uniform pass the length check unchanged. */
  lemma {:induction false} UniformSettled(g: Fields, n: nat)
    requires HasTemperature(g) && Uniform(g, n)
    ensures SameLengthSpec(g) == Ok(g)
  {
    LengthUniform(g, n, |g|);
    forall i | 0 <= i < |g|
      ensures Spread(g, n)[i] == g[i]
    {
      if g[i].Some? && NeedsRebuild(g[i].value) {
        var v := g[i].value.value;
        assert n == 1 && v.shape == [] && |v.data| == 1;
        assert v == Array([], [v.data[0]]);
        SqueezeFull(1, First(v));
      }
    }
    assert Spread(g, n) == g;
  }

  /** `_all_values_same_length` is idempotent: validating its own output
      changes nothing. */
  lemma {:induction false} SameLengthIdempotent(f: Fields)
    requires HasTemperature(f) && SameLengthSpec(f).Ok?
    ensures HasTemperature(SameLengthSpec(f).value)
    ensures SameLengthSpec(SameLengthSpec(f).value) == SameLengthSpec(f)
  {
    if Broadcasts(f) {
      SpreadUniform(f);
      UniformSettled(Spread(f, CommonLength(f)), CommonLength(f));
    }
  }

  /** After construction every set condition has the common length, except
      that nothing is broadcast when the common length is 0 and some optional
      condition is unset or a float. */
  lemma {:induction false} SameLengthSizes(f: Fields)
    requires HasTemperature(f) && SameLengthSpec(f).Ok?
    requires Broadcasts(f) || CommonLength(f) != 0
    ensures var g := SameLengthSpec(f).value;
      |g| == |f| && forall i :: 0 <= i < |g| && g[i].Some? ==> Sz(g, i) == CommonLength(f)
  {
    var n := CommonLength(f);
    if Broadcasts(f) {
      SpreadUniform(f);
    } else {
      CommonLengthMeaning(f);
      assert OldLength(f) == n;
      forall i | 0 <= i < |f| && f[i].Some? ensures Sz(f, i) == n {
        assert Relevant(f, i);
      }
    }
  }

  /** Two values agree in kind, size and shape. */
  predicate SameShape(a: Value, b: Value)
  {
    a.Scalar? == b.Scalar? && Size(a) == Size(b) && (a.Array? ==> a.shape == b.shape)
  }

  /** The same fields are set, each with a value of the same shape. */
  predicate SameProfile(f: Fields, h: Fields)
  {
    |f| == |h|
    && forall i :: 0 <= i < |f| ==>
         f[i].Some? == h[i].Some? && (f[i].Some? ==> SameShape(f[i].value.value, h[i].value.value))
  }

  lemma {:induction false} LengthProfile(f: Fields, h: Fields, k: int)
    requires HasTemperature(f) && SameProfile(f, h) && 1 <= k <= |f|
    ensures HasTemperature(h) && LengthAfter(f, k) == LengthAfter(h, k)
  {
    if k > 1 {
      LengthProfile(f, h, k - 1);
      assert IsArr(f, k - 1) == IsArr(h, k - 1) && Sz(f, k - 1) == Sz(h, k - 1);
    }
  }

  /** Fields the length check leaves unchanged stay so when every value is
      replaced by one of the same shape (a unit conversion, say). */
  lemma {:induction false} SettledByProfile(f: Fields, h: Fields)
    requires HasTemperature(f) && SameLengthSpec(f) == Ok(f) && SameProfile(f, h)
    ensures HasTemperature(h) && SameLengthSpec(h) == Ok(h)
  {
    LengthProfile(f, h, |f|);
    assert forall i :: 0 <= i < |f| ==> IsArr(f, i) == IsArr(h, i) && Sz(f, i) == Sz(h, i);
    assert Compatible(h) by {
      forall i, j | 0 <= i < j < |h| && Relevant(h, i) && IsArr(h, j)
        ensures Sz(h, i) == 1 || Sz(h, i) == Sz(h, j)
      {
        assert Relevant(f, i) && IsArr(f, j);
      }
    }
    assert OldLength(f) == OldLength(h) by {
      if exists j :: 1 <= j < |f| && !IsArr(f, j) {
        var j :| 1 <= j < |f| && !IsArr(f, j);
        assert !IsArr(h, j);
      }
      if exists j :: 1 <= j < |h| && !IsArr(h, j) {
        var j :| 1 <= j < |h| && !IsArr(h, j);
        assert !IsArr(f, j);
      }
    }
    if Broadcasts(h) {
      var n := CommonLength(f);
      assert Spread(f, n) == f;
      forall i | 0 <= i < |h| ensures Spread(h, n)[i] == h[i] {
        if h[i].Some? && NeedsRebuild(h[i].value) {
          assert Spread(f, n)[i] == f[i];
          var v := f[i].value.value;
          var w := h[i].value.value;
          assert Rebuild(f[i].value, n) == f[i].value;
          assert v.Array? && Size(v) == 1 && n == 1;
          SqueezeFull(1, First(v));
          assert v.shape == [] && w.shape == [] && |w.data| == 1;
          assert w == Array([], [w.data[0]]);
          SqueezeFull(1, First(w));
        }
      }
      assert Spread(h, n) == h;
    }
  }

  // ---------------------------------------------------------------------
  // Constructing OperationalConditions
  // ---------------------------------------------------------------------

  /** The construction pipeline: wrap bare values, validate the six fields,
      reconcile lengths. */
  function ConditionsSpec(raw: map<string, ConditionInput>, conv: UnitConverter): Result<Fields>
  {
    var wrapped := map k | k in raw :: WrapBare(raw[k]);
    var f :- CollectFields(FieldResults(wrapped, conv));
    assert HasTemperature(f) by { assert FieldResults(wrapped, conv)[0].Ok?; }
    SameLengthSpec(f)
  }

  method MakeConditions(raw: map<string, ConditionInput>, conv: UnitConverter) returns (r: Result<Fields>)
    ensures r == ConditionsSpec(raw, conv)
  {
    var wrapped := ValueOnly(raw);
    assert wrapped == map k | k in raw :: WrapBare(raw[k]);
    var f :- CollectFields(FieldResults(wrapped, conv));
    assert FieldResults(wrapped, conv)[0].Ok?;
    r := AllValuesSameLength(f);
  }

  /** A property whose unit is its class's default unit, as every
      constructed property is. */
  predicate Normalised(p: PhysicalProperty)
  {
    p.unit == p.cls.defaultUnit
  }

  /** Constructed conditions: six fields, temperature set, each set field of
      its condition's class and in that class's default unit, lengths
      reconciled. */
  lemma {:induction false} ConditionsMeaning(raw: map<string, ConditionInput>, conv: UnitConverter)
    requires forall k :: k in raw && raw[k].GivenProperty? ==> Normalised(raw[k].p)
    requires ConditionsSpec(raw, conv).Ok?
    ensures var g := ConditionsSpec(raw, conv).value;
      Shaped(g)
      && (forall i :: 0 <= i < 6 && g[i].Some? ==>
            g[i].value.cls == ClassOf(ConditionKinds[i]) && g[i].value.unit == DefaultUnit(ConditionKinds[i]))
      && SameLengthSpec(g) == Ok(g)
  {
    var wrapped := map k | k in raw :: WrapBare(raw[k]);
    var results := FieldResults(wrapped, conv);
    var f := CollectFields(results).value;
    assert results[0].Ok?;
    forall i | 0 <= i < 6 && f[i].Some?
      ensures f[i].value.cls == ClassOf(ConditionKinds[i]) && f[i].value.unit == DefaultUnit(ConditionKinds[i])
    {
      assert results[i].Ok? && f[i] == results[i].value;
    }
    SameLengthIdempotent(f);
  }

  // ---------------------------------------------------------------------
  // PropertyConfig (`_convert_to_structure`)
  // ---------------------------------------------------------------------

  /** Bounds of a dependent property in one condition, in a unit. */
  datatype PropertyConfig = PropertyConfig(unit: Option<Unit>, lower: Option<real>, upper: Option<real>)

  const EmptyConfig := PropertyConfig(None, None, None)

  datatype TupleItem = Text(s: string) | Num(x: real)

  /** The accepted ways of writing a PropertyConfig: a unit, a tuple, or a
      mapping or instance with the fields. */
  datatype ConfigInput =
    | UnitText(u: Unit)
    | Tuple(items: seq<TupleItem>)
    | Record(config: PropertyConfig)

  function AsBound(t: TupleItem): Result<real>
  {
    match t
    case Num(x) => Ok(x)
    case Text(_) => Err(ValidationError("Input should be a valid number"))
  }

  function AsUnit(t: TupleItem): Result<Unit>
  {
    match t
    case Text(s) => Ok(s)
    case Num(_) => Err(ValidationError("Input should be a valid string"))
  }

  /** `_convert_to_structure` followed by field validation. */
  function ConvertToStructure(ci: ConfigInput): (r: Result<PropertyConfig>)
    ensures ci.Tuple? && |ci.items| == 0 ==> r == Err(IndexError)
    ensures ci.Tuple? && (|ci.items| == 1 || |ci.items| > 3) ==> r.Err?
    ensures ci.Tuple? && r.Ok? ==> r.value.lower.Some?
  {
    match ci
    case UnitText(u) => Ok(PropertyConfig(Some(u), None, None))
    case Record(pc) => Ok(pc)
    case Tuple(items) =>
      if |items| == 0 then Err(IndexError)
      else if !items[0].Text? && |items| == 2 then
        var hi :- AsBound(items[1]);
        Ok(PropertyConfig(None, Some(items[0].x), Some(hi)))
      else if |items| == 2 then
        var lo :- AsBound(items[1]);
        Ok(PropertyConfig(Some(items[0].s), Some(lo), None))
      else if |items| == 3 then
        var u :- AsUnit(items[0]);
        var lo :- AsBound(items[1]);
        var hi :- AsBound(items[2]);
        Ok(PropertyConfig(Some(u), Some(lo), Some(hi)))
      else Err(ValidationError("Input should be a valid dictionary or instance of PropertyConfig"))
  }

  /** The shortest way of writing a configuration: a unit alone, a bounds
      pair, a (unit, lower) pair, a (unit, lower, upper) triple, or else the
      fields spelled out. */
  function Shorthand(pc: PropertyConfig): ConfigInput
  {
    match pc
    case PropertyConfig(Some(u), None, None) => UnitText(u)
    case PropertyConfig(None, Some(lo), Some(hi)) => Tuple([Num(lo), Num(hi)])
    case PropertyConfig(Some(u), Some(lo), None) => Tuple([Text(u), Num(lo)])
    case PropertyConfig(Some(u), Some(lo), Some(hi)) => Tuple([Text(u), Num(lo), Num(hi)])
    case _ => Record(pc)
  }

  /** Every shorthand reads back as the configuration it was written for. */
  lemma {:induction false} ShorthandRoundTrip(pc: PropertyConfig)
    ensures ConvertToStructure(Shorthand(pc)) == Ok(pc)
  {
  }

  /** The tuple forms: a numeric pair is (lower, upper); a pair led by a unit
      is (unit, lower); a triple is (unit, lower, upper). */
  lemma {:induction false} TupleForms(a: TupleItem, b: TupleItem, c: TupleItem)
    requires b.Num?
    ensures a.Num? ==> ConvertToStructure(Tuple([a, b])) == Ok(PropertyConfig(None, Some(a.x), Some(b.x)))
    ensures a.Text? ==> ConvertToStructure(Tuple([a, b])) == Ok(PropertyConfig(Some(a.s), Some(b.x), None))
    ensures a.Text? && c.Num? ==> ConvertToStructure(Tuple([a, b, c])) == Ok(PropertyConfig(Some(a.s), Some(b.x), Some(c.x)))
    ensures a.Num? ==> ConvertToStructure(Tuple([a, b, c])).Err?
  {
  }

  // ---------------------------------------------------------------------
  // DependentPropertyConditionConfig
  // ---------------------------------------------------------------------

  /** The declared fields of a condition configuration, in order. */
  const KnownConfigNames: seq<string> := ["temperature", "pressure", "magnetic_field", "strain", "neutron_damage"]

  /** The unit of each declared field's default configuration. */
  function KnownDefault(name: string): (r: Option<Unit>)
    ensures r.Some? <==> name in KnownConfigNames
  {
    if name == "temperature" then Some("K")
    else if name == "pressure" then Some("Pa")
    else if name == "magnetic_field" then Some("T")
    else if name == "strain" then Some("")
    else if name == "neutron_damage" then Some("dpa")
    else None
  }

  /** One entry after `_pass_int_default_unit`: parsed, and given its
      field's default unit when it has none. */
  function SettleEntry(name: string, ci: ConfigInput): (r: Result<PropertyConfig>)
    ensures r.Ok? ==> r.value.unit.Some?
  {
    var pc :- ConvertToStructure(ci);
    if pc.unit.Some? then Ok(pc)
    else
      match KnownDefault(name)
      case None => Err(ValueError("Unit required for unknown condition configuration"))
      case Some(u) => Ok(pc.(unit := Some(u)))
  }

  /** Every configuration carries a unit. */
  predicate UnitsSet(config: Dict<PropertyConfig>)
  {
    forall i :: 0 <= i < |config| ==> config[i].1.unit.Some?
  }

  /** A configured condition has a unit once the units are set. */
  lemma {:induction false} ConfiguredUnit(config: Dict<PropertyConfig>, name: string)
    requires UnitsSet(config) && HasKey(config, name)
    ensures Get(config, name).value.unit.Some?
  {
    GetFound(config, name);
  }

  /** The entries not named like a declared field, in order. */
  function Extras(supplied: Dict<ConfigInput>): (r: Dict<ConfigInput>)
    ensures forall i :: 0 <= i < |r| ==> r[i].0 !in KnownConfigNames && r[i] in supplied
  {
    if |supplied| == 0 then []
    else if supplied[0].0 in KnownConfigNames then Extras(supplied[1..])
    else [supplied[0]] + Extras(supplied[1..])
  }

  /** The configuration's entries as iteration yields them: the declared
      fields (supplied or default) in order, then the extras. */
  function ConfigEntries(supplied: Dict<ConfigInput>): (r: Dict<ConfigInput>)
    ensures |r| >= 5 && forall i :: 0 <= i < 5 ==> r[i].0 == KnownConfigNames[i]
  {
    var known := seq(5, i requires 0 <= i < 5 =>
      (KnownConfigNames[i], Get(supplied, KnownConfigNames[i]).GetOr(Record(PropertyConfig(KnownDefault(KnownConfigNames[i]), None, None)))));
    known + Extras(supplied)
  }

  /** `_pass_int_default_unit`: each entry in turn, stopping at the first
      failure. */
  method PassDefaultUnits(entries: Dict<ConfigInput>) returns (r: Result<Dict<PropertyConfig>>)
    ensures r.Ok? <==> forall i :: 0 <= i < |entries| ==> SettleEntry(entries[i].0, entries[i].1).Ok?
    ensures r.Ok? ==> (|r.value| == |entries| && UnitsSet(r.value)
                       && forall i :: 0 <= i < |entries| ==>
                            r.value[i] == (entries[i].0, SettleEntry(entries[i].0, entries[i].1).value))
    ensures r.Err? ==> exists i :: 0 <= i < |entries| && SettleEntry(entries[i].0, entries[i].1) == Err(r.error)
  {
    var out: Dict<PropertyConfig> := [];
    var i := 0;
    while i < |entries|
      invariant 0 <= i <= |entries| && |out| == i
      invariant forall j :: 0 <= j < i ==> SettleEntry(entries[j].0, entries[j].1).Ok?
      invariant forall j :: 0 <= j < i ==> out[j] == (entries[j].0, SettleEntry(entries[j].0, entries[j].1).value)
    {
      var (n, v) := entries[i];
      var settled := SettleEntry(n, v);
      if settled.Err? {
        return Err(settled.error);
      }
      out := out + [(n, settled.value)];
      i := i + 1;
    }
    r := Ok(out);
  }

  /** Building a DependentPropertyConditionConfig from the supplied entries. */
  method MakeConditionConfig(supplied: Dict<ConfigInput>) returns (r: Result<Dict<PropertyConfig>>)
    ensures r.Ok? ==> UnitsSet(r.value) && |r.value| >= 5
                      && forall i :: 0 <= i < 5 ==> r.value[i].0 == KnownConfigNames[i]
    ensures r.Ok? <==> forall i :: 0 <= i < |ConfigEntries(supplied)| ==>
                         SettleEntry(ConfigEntries(supplied)[i].0, ConfigEntries(supplied)[i].1).Ok?
    ensures r.Ok? ==> |r.value| == |ConfigEntries(supplied)| && forall i :: 0 <= i < |ConfigEntries(supplied)| ==>
      r.value[i] == (ConfigEntries(supplied)[i].0, SettleEntry(ConfigEntries(supplied)[i].0, ConfigEntries(supplied)[i].1).value)
  {
    r := PassDefaultUnits(ConfigEntries(supplied));
  }

  /** A declared condition that is not supplied gets its default
      configuration: its default unit (K, Pa, T, dimensionless, dpa), no bounds. */
  lemma {:induction false} KnownDefaults(supplied: Dict<ConfigInput>, i: nat)
    requires i < 5
    ensures var e := ConfigEntries(supplied)[i];
      var unit := KnownDefault(KnownConfigNames[i]);
      !HasKey(supplied, e.0) ==> SettleEntry(e.0, e.1) == Ok(PropertyConfig(unit, None, None))
  {
  }

  /** A declared condition supplied without a unit keeps its bounds and takes
      the default unit. */
  lemma {:induction false} KnownWithoutUnit(supplied: Dict<ConfigInput>, i: nat, lo: Option<real>, hi: Option<real>)
    requires i < 5 && HasKey(supplied, KnownConfigNames[i])
    requires ConvertToStructure(Get(supplied, KnownConfigNames[i]).value) == Ok(PropertyConfig(None, lo, hi))
    ensures var e := ConfigEntries(supplied)[i];
      SettleEntry(e.0, e.1) == Ok(PropertyConfig(KnownDefault(KnownConfigNames[i]), lo, hi))
  {
  }

  /** An extra condition that reads without a unit is refused. */
  lemma {:induction false} ExtraNeedsUnit(supplied: Dict<ConfigInput>, i: nat)
    requires 5 <= i < |ConfigEntries(supplied)|
    requires ConvertToStructure(ConfigEntries(supplied)[i].1).Ok?
    requires ConvertToStructure(ConfigEntries(supplied)[i].1).value.unit.None?
    ensures SettleEntry(ConfigEntries(supplied)[i].0, ConfigEntries(supplied)[i].1).Err?
    ensures SettleEntry(ConfigEntries(supplied)[i].0, ConfigEntries(supplied)[i].1).error.ValueError?
  {
    var e := ConfigEntries(supplied)[i];
    assert e == Extras(supplied)[i - 5];
  }

  // ---------------------------------------------------------------------
  // modify_conditions
  // ---------------------------------------------------------------------

  /** The configuration for a condition, or the empty configuration. */
  function ConfigFor(config: Dict<PropertyConfig>, name: string): PropertyConfig
  {
    Get(config, name).GetOr(EmptyConfig)
  }

  /** One condition of `modify_conditions`: re-expressed in the configured
      unit when the condition is configured and its unit differs. */
  function ModifyField(name: string, v: Option<PhysicalProperty>, config: Dict<PropertyConfig>, conv: UnitConverter)
    : (r: Result<Option<PhysicalProperty>>)
    requires UnitsSet(config)
    ensures r.Ok? ==> r.value.Some? == v.Some?
    ensures r.Ok? && v.Some? ==> SameShape(v.value.value, r.value.value.value)
  {
    match v
    case None => Ok(None)
    case Some(p) =>
      match Get(config, name)
      case None => Ok(v)
      case Some(pc) =>
        ConfiguredUnit(config, name);
        var newUnit := pc.unit.value;
        if newUnit == p.unit then Ok(v)
        else
          match ConvertValue(p.value, p.unit, newUnit, conv)
          case None => Err(DimensionalityError)
          case Some(w) =>
            Ok(Some(PhysicalProperty(PropertyClass("Modified_" + p.cls.name, newUnit), w, newUnit)))
  }

  function ModifyResults(f: Fields, config: Dict<PropertyConfig>, conv: UnitConverter)
    : (r: seq<Result<Option<PhysicalProperty>>>)
    requires |f| == 6 && UnitsSet(config)
    ensures |r| == 6 && forall i :: 0 <= i < 6 ==> r[i] == ModifyField(ConditionNames[i], f[i], config, conv)
  {
    seq(6, i requires 0 <= i < 6 => ModifyField(ConditionNames[i], f[i], config, conv))
  }

  /** `modify_conditions`: every field in turn, then the new conditions are
      validated again. */
  function ModifiedSpec(f: Fields, config: Dict<PropertyConfig>, conv: UnitConverter): Result<Fields>
    requires Shaped(f) && UnitsSet(config)
  {
    var g :- CollectFields(ModifyResults(f, config, conv));
    assert HasTemperature(g) by { assert ModifyResults(f, config, conv)[0].Ok?; }
    SameLengthSpec(g)
  }

  method ModifyConditions(f: Fields, config: Dict<PropertyConfig>, conv: UnitConverter) returns (r: Result<Fields>)
    requires Shaped(f) && UnitsSet(config)
    ensures r == ModifiedSpec(f, config, conv)
  {
    var results := ModifyResults(f, config, conv);
    var models: Fields := [];
    var i := 0;
    while i < 6
      invariant 0 <= i <= 6 && |models| == i
      invariant forall j :: 0 <= j < i ==> results[j].Ok? && models[j] == results[j].value
    {
      var m := ModifyField(ConditionNames[i], f[i], config, conv);
      if m.Err? {
        assert CollectFields(results).Err?;
        ghost var k :| 0 <= k < 6 && results[k] == Err(CollectFields(results).error)
                       && forall j :: 0 <= j < k ==> results[j].Ok?;
        assert k == i;
        return Err(m.error);
      }
      models := models + [m.value];
      i := i + 1;
    }
    assert forall j :: 0 <= j < 6 ==> results[j].Ok?;
    assert CollectFields(results).value == models;
    assert results[0].Ok?;
    r := AllValuesSameLength(models);
  }

  /** On constructed conditions, `modify_conditions` re-expresses exactly the
      configured conditions whose unit differs, passes every other condition
      through unchanged, and fails only on an impossible conversion. */
  lemma {:induction false} ModifyMeaning(f: Fields, config: Dict<PropertyConfig>, conv: UnitConverter)
    requires Shaped(f) && UnitsSet(config) && SameLengthSpec(f) == Ok(f)
    ensures var r := ModifiedSpec(f, config, conv);
      (r.Ok? <==> forall i :: 0 <= i < 6 ==> ModifyField(ConditionNames[i], f[i], config, conv).Ok?)
      && (r.Ok? ==> |r.value| == 6 && forall i :: 0 <= i < 6 ==>
            r.value[i] == ModifyField(ConditionNames[i], f[i], config, conv).value)
  {
    var results := ModifyResults(f, config, conv);
    var c := CollectFields(results);
    if c.Ok? {
      assert results[0].Ok?;
      assert SameProfile(f, c.value) by {
        forall i | 0 <= i < 6
          ensures f[i].Some? == c.value[i].Some?
          ensures f[i].Some? ==> SameShape(f[i].value.value, c.value[i].value.value)
        {
          assert results[i].Ok?;
        }
      }
      SettledByProfile(f, c.value);
    }
  }

  /** What one field becomes: unchanged unless configured in another unit;
      then converted entry by entry, in the new unit, under a "Modified_"
      class. */
  lemma {:induction false} ModifyFieldMeaning(name: string, p: PhysicalProperty, config: Dict<PropertyConfig>, conv: UnitConverter)
    requires UnitsSet(config)
    ensures HasKey(config, name) ==> Get(config, name).value.unit.Some?
    ensures var r := ModifyField(name, Some(p), config, conv);
      (Get(config, name).None? || Get(config, name).value.unit == Some(p.unit) ==> r == Ok(Some(p)))
      && (Get(config, name).Some? && Get(config, name).value.unit != Some(p.unit) ==>
            var u := Get(config, name).value.unit.value;
            (r.Ok? <==> ConvertValue(p.value, p.unit, u, conv).Some?)
            && (r.Ok? ==> r.value.value.unit == u && r.value.value.cls.name == "Modified_" + p.cls.name
                          && r.value.value.value == ConvertValue(p.value, p.unit, u, conv).value))
  {
    if Get(config, name).Some? {
      ConfiguredUnit(config, name);
    }
  }

  // ---------------------------------------------------------------------
  // modify_conditions as written: re-expressed conditions hold Quantities
  // ---------------------------------------------------------------------

  /** The conditions `modify_conditions` re-expresses: set, configured, and
      in another unit. */
  function Reexpressed(f: Fields, config: Dict<PropertyConfig>): (r: seq<bool>)
    requires UnitsSet(config)
    ensures |r| == |f|
    ensures forall i :: 0 <= i < |f| && r[i] ==> f[i].Some?
  {
    seq(|f|, i requires 0 <= i < |f| =>
      f[i].Some? && i < |ConditionNames| && HasKey(config, ConditionNames[i])
      && Get(config, ConditionNames[i]).value.unit != Some(f[i].value.unit))
  }

  /** The fields as the length check sees them when each re-expressed
      condition keeps the unvalidated `Quantity` default: not an ndarray, so
      a single value. */
  function AsQuantities(g: Fields, quantity: seq<bool>): (r: Fields)
    requires |quantity| == |g|
    ensures |r| == |g|
    ensures forall i :: 0 <= i < |g| ==> (r[i].Some? <==> g[i].Some?)
    ensures forall i :: 0 <= i < |g| && quantity[i] && g[i].Some? ==> !IsArr(r, i) && Sz(r, i) == 1
  {
    seq(|g|, i requires 0 <= i < |g| =>
      if quantity[i] && g[i].Some? then
        Some(PhysicalProperty(g[i].value.cls, Scalar(First(g[i].value.value)), g[i].value.unit))
      else g[i])
  }

  /** `np.full(n, w)` succeeds: `w` broadcasts to the shape `(n,)`. */
  predicate FillFits(w: Value, n: nat)
  {
    OneEntry(w)
    || (w.Array? && |w.shape| >= 1 && w.shape[|w.shape| - 1] == n
        && forall i :: 0 <= i < |w.shape| - 1 ==> w.shape[i] == 1)
  }

  /** The rewrite loop as written: a `Quantity` field is filled from its
      whole magnitude, any other float or size-1 field from its value. */
  function SpreadAsWritten(g: Fields, quantity: seq<bool>, n: nat): (r: Fields)
    requires |quantity| == |g|
    ensures |r| == |g|
  {
    seq(|g|, i requires 0 <= i < |g| =>
      if g[i].Some? && quantity[i] && !OneEntry(g[i].value.value) then
        Some(PhysicalProperty(g[i].value.cls, Squeeze(Array([n], Elements(g[i].value.value))), g[i].value.unit))
      else if g[i].Some? && (quantity[i] || NeedsRebuild(g[i].value)) then Some(Rebuild(g[i].value, n))
      else g[i])
  }

  /** `_all_values_same_length` on conditions whose `quantity` fields hold
      Quantities: those fields count as single values in the scan, and the
      rewrite fails when one of their magnitudes does not fit the common
      length. With no such field it is the check on arrays. */
  function SameLengthAsWritten(g: Fields, quantity: seq<bool>): (r: Result<Fields>)
    requires HasTemperature(g) && |quantity| == |g|
    ensures (forall i :: 0 <= i < |g| ==> !quantity[i]) ==> r == SameLengthSpec(g)
    ensures r.Ok? && Broadcasts(AsQuantities(g, quantity)) ==>
              forall i :: 0 <= i < |g| && quantity[i] && g[i].Some? ==>
                FillFits(g[i].value.value, CommonLength(AsQuantities(g, quantity)))
  {
    var h := AsQuantities(g, quantity);
    assert (forall i :: 0 <= i < |g| ==> !quantity[i]) ==>
             h == g && SpreadAsWritten(g, quantity, CommonLength(h)) == Spread(g, CommonLength(h)) by {
      if forall i :: 0 <= i < |g| ==> !quantity[i] {
        assert h == g;
      }
    }
    if !Compatible(h) then Err(ValueError("All values must be of equal size or a singular value"))
    else if !Broadcasts(h) then Ok(g)
    else if exists i :: 0 <= i < |g| && quantity[i] && g[i].Some? && !FillFits(g[i].value.value, CommonLength(h)) then
      Err(ValueError("could not broadcast input array"))
    else Ok(SpreadAsWritten(g, quantity, CommonLength(h)))
  }

  /** `modify_conditions` as written: the re-expressed conditions are
      rebuilt from a `Quantity` default that is never validated, so the
      length check of the new conditions does not see them as arrays. When
      no condition is re-expressed it agrees with the corrected model. */
  function ModifiedAsWrittenSpec(f: Fields, config: Dict<PropertyConfig>, conv: UnitConverter): (r: Result<Fields>)
    requires Shaped(f) && UnitsSet(config)
    ensures (forall i :: 0 <= i < 6 ==> !Reexpressed(f, config)[i]) ==> r == ModifiedSpec(f, config, conv)
  {
    var g :- CollectFields(ModifyResults(f, config, conv));
    assert HasTemperature(g) by { assert ModifyResults(f, config, conv)[0].Ok?; }
    SameLengthAsWritten(g, Reexpressed(f, config))
  }

  /** With no array after the first field and a first field of size 1, the
      running length stays 1. */
  lemma {:induction false} LengthStaysOne(f: Fields, n: int)
    requires HasTemperature(f) && Sz(f, 0) == 1 && 1 <= n <= |f|
    requires forall j :: 1 <= j < |f| ==> !IsArr(f, j)
    ensures LengthAfter(f, n) == 1
  {
    if n > 1 {
      LengthStaysOne(f, n - 1);
    }
  }

  /** A re-expressed temperature with more than one entry and no other
      condition set: the corrected check keeps the conditions, while as
      written the scan takes the length to be 1 and `np.full(1, ...)`
      refuses the magnitude. */
  lemma {:induction false} LoneQuantityRefused(g: Fields, quantity: seq<bool>)
    requires Shaped(g) && |quantity| == 6 && quantity[0] && !OneEntry(g[0].value.value)
    requires forall i :: 1 <= i < 6 ==> g[i].None?
    ensures SameLengthAsWritten(g, quantity) == Err(ValueError("could not broadcast input array"))
    ensures SameLengthSpec(g).Ok?
  {
    var h := AsQuantities(g, quantity);
    LengthStaysOne(h, 6);
    assert !IsArr(h, 1);
    assert OldLength(h) == 0;
    assert Compatible(h);
  }

  /** [300, 400] K in degrees Celsius, entry by entry. */
  lemma {:induction false} CelsiusPair(conv: UnitConverter)
    requires forall x: real, from: Unit, to: Unit :: conv(x, from, to) == Some(x - 273.15)
    ensures ConvertValue(Array([2], [300.0, 400.0]), "K", "degC", conv) == Some(Array([2], [26.85, 126.85]))
  {
    var w := ConvertValue(Array([2], [300.0, 400.0]), "K", "degC", conv);
    assert w.Some? && w.value.Array? && w.value.shape == [2] && |w.value.data| == 2;
    assert w.value.data[0] == 26.85 && w.value.data[1] == 126.85;
    assert w.value.data == [26.85, 126.85];
  }

  /** The conversion of the temperature [300, 400] K to degrees Celsius. */
  lemma {:induction false} TwoTemperaturesConverted(f: Fields, config: Dict<PropertyConfig>, conv: UnitConverter)
    requires f == [Some(PhysicalProperty(PropertyClass("Temperature", "K"), Array([2], [300.0, 400.0]), "K")),
                   None, None, None, None, None]
    requires config == [("temperature", PropertyConfig(Some("degC"), None, None))]
    requires forall x: real, from: Unit, to: Unit :: conv(x, from, to) == Some(x - 273.15)
    ensures UnitsSet(config)
    ensures CollectFields(ModifyResults(f, config, conv))
            == Ok([Some(PhysicalProperty(PropertyClass("Modified_" + "Temperature", "degC"), Array([2], [26.85, 126.85]), "degC")),
                   None, None, None, None, None])
    ensures Reexpressed(f, config)[0]
  {
    assert UnitsSet(config);
    var results := ModifyResults(f, config, conv);
    assert Get(config, "temperature") == Some(PropertyConfig(Some("degC"), None, None));
    CelsiusPair(conv);
    var t := PhysicalProperty(PropertyClass("Modified_" + "Temperature", "degC"), Array([2], [26.85, 126.85]), "degC");
    assert results[0] == ModifyField("temperature", f[0], config, conv) == Ok(Some(t));
    assert results[1] == Ok(None) && results[2] == Ok(None) && results[3] == Ok(None);
    assert results[4] == Ok(None) && results[5] == Ok(None);
    var g := [Some(t), None, None, None, None, None];
    assert CollectFields(results).value == g;
    assert HasKey(config, ConditionNames[0]);
  }

  /** Temperature [300, 400] K configured in degrees Celsius, every other
      condition unset: the corrected conditions hold the two converted
      temperatures, while as written `modify_conditions` raises a
      ValueError. */
  lemma {:induction false} ModifiedTwoTemperatures(f: Fields, config: Dict<PropertyConfig>, conv: UnitConverter)
    requires f == [Some(PhysicalProperty(PropertyClass("Temperature", "K"), Array([2], [300.0, 400.0]), "K")),
                   None, None, None, None, None]
    requires config == [("temperature", PropertyConfig(Some("degC"), None, None))]
    requires forall x: real, from: Unit, to: Unit :: conv(x, from, to) == Some(x - 273.15)
    ensures UnitsSet(config)
    ensures ModifiedAsWrittenSpec(f, config, conv) == Err(ValueError("could not broadcast input array"))
    ensures ModifiedSpec(f, config, conv).Ok?
    ensures ModifiedSpec(f, config, conv).value[0].value.value == Array([2], [26.85, 126.85])
  {
    TwoTemperaturesConverted(f, config, conv);
    var g := CollectFields(ModifyResults(f, config, conv)).value;
    assert g[0].value.value.shape[0] == 2;
    LoneQuantityRefused(g, Reexpressed(f, config));
  }

  // ---------------------------------------------------------------------
  // check_conditions
  // ---------------------------------------------------------------------

  /** Every entry is below `bound`; vacuously so for an empty array. */
  predicate AllBelow(v: Value, bound: real)
  {
    forall i :: 0 <= i < Size(v) ==> Elements(v)[i] < bound
  }

  predicate AllAbove(v: Value, bound: real)
  {
    forall i :: 0 <= i < Size(v) ==> Elements(v)[i] > bound
  }

  /** The bound check of one condition: the lower bound first, then the
      upper; comparing an unset condition raises a TypeError. */
  function CheckField(name: string, v: Option<PhysicalProperty>, pc: PropertyConfig): Outcome
  {
    if pc.lower.Some? && v.None? then Fail(TypeError("'<' not supported for 'NoneType'"))
    else if pc.lower.Some? && AllBelow(v.value.value, pc.lower.value) then
      Fail(ValueError("Operating condition '" + name + "' lower than lower bound"))
    else if pc.upper.Some? && v.None? then Fail(TypeError("'>' not supported for 'NoneType'"))
    else if pc.upper.Some? && AllAbove(v.value.value, pc.upper.value) then
      Fail(ValueError("Operating condition '" + name + "' higher than upper bound"))
    else Pass
  }

  /** A condition violates its configuration: a bound is set and every entry
      lies beyond it (or the condition is unset). */
  predicate Violates(v: Option<PhysicalProperty>, pc: PropertyConfig)
  {
    (pc.lower.Some? && (v.None? || AllBelow(v.value.value, pc.lower.value)))
    || (pc.upper.Some? && (v.None? || AllAbove(v.value.value, pc.upper.value)))
  }

  /** `check_conditions` from field `i` on. */
  function CheckFrom(f: Fields, config: Dict<PropertyConfig>, i: nat): (r: Outcome)
    requires i <= |f| <= |ConditionNames|
    ensures r.Pass? <==> forall j :: i <= j < |f| ==> !Violates(f[j], ConfigFor(config, ConditionNames[j]))
    decreases |f| - i
  {
    if i == |f| then Pass
    else
      var here := CheckField(ConditionNames[i], f[i], ConfigFor(config, ConditionNames[i]));
      if here.Fail? then here else CheckFrom(f, config, i + 1)
  }

  /** `check_conditions`: raises only for a condition whose every entry lies
      beyond a configured bound. */
  function CheckConditions(f: Fields, config: Dict<PropertyConfig>): (r: Outcome)
    requires Shaped(f)
    ensures r.Pass? <==> forall j :: 0 <= j < 6 ==> !Violates(f[j], ConfigFor(config, ConditionNames[j]))
  {
    CheckFrom(f, config, 0)
  }

  /** A condition with an entry within both of its bounds never fails the
      check, and neither does one with no configuration. */
  lemma {:induction false} CheckWithinBounds(name: string, p: PhysicalProperty, pc: PropertyConfig, k: nat)
    requires k < Size(p.value)
    requires pc.lower.Some? ==> Elements(p.value)[k] >= pc.lower.value
    requires pc.upper.Some? ==> Elements(p.value)[k] <= pc.upper.value
    ensures CheckField(name, Some(p), pc) == Pass
    ensures CheckField(name, None, EmptyConfig) == Pass
  {
  }

  // ---------------------------------------------------------------------
  // STPConditions
  // ---------------------------------------------------------------------

  /** IUPAC standard temperature, in kelvin. */
  const StandardTemperature: real := 273.15
  /** IUPAC standard pressure, 100 kPa, in pascal. */
  const StandardPressure: real := 100000.0

  const StpTemperature := PhysicalProperty(ClassOf(Temperature), Scalar(StandardTemperature), "K")
  const StpPressure := PhysicalProperty(ClassOf(Pressure), Scalar(StandardPressure), "Pa")

  /** STPConditions fields: a missing temperature or pressure takes the
      standard value; given as None it is refused. */
  function StpFieldResults(m: map<string, ConditionInput>, conv: UnitConverter): (r: seq<Result<Option<PhysicalProperty>>>)
    ensures |r| == 6
  {
    seq(6, i requires 0 <= i < 6 =>
      if i == 0 && ConditionNames[0] !in m then Ok(Some(StpTemperature))
      else if i == 1 && ConditionNames[1] !in m then Ok(Some(StpPressure))
      else if i == 1 && m[ConditionNames[1]].Absent? then Err(ValidationError("pressure: Input should be an instance of Pressure"))
      else ValidateField(ConditionKinds[i], Lookup(m, ConditionNames[i]), conv))
  }

  /** Temperature and pressure hold exactly the standard values. */
  predicate IsStandard(g: Fields)
    requires Shaped(g)
  {
    Elements(g[0].value.value) == [StandardTemperature]
    && g[1].Some? && Elements(g[1].value.value) == [StandardPressure]
  }

  function StpSpec(raw: map<string, ConditionInput>, conv: UnitConverter): Result<Fields>
  {
    var wrapped := map k | k in raw :: WrapBare(raw[k]);
    var results := StpFieldResults(wrapped, conv);
    var f :- CollectFields(results);
    if f[0].None? then Err(ValidationError("temperature: Field required"))
    else
      var g :- SameLengthSpec(f);
      if |g| == 6 && g[0].Some? && IsStandard(g) then Ok(g)
      else Err(ValueError("Standard temperature and pressure conditions cannot be modified"))
  }

  method MakeStp(raw: map<string, ConditionInput>, conv: UnitConverter) returns (r: Result<Fields>)
    ensures r == StpSpec(raw, conv)
  {
    var wrapped := ValueOnly(raw);
    assert wrapped == map k | k in raw :: WrapBare(raw[k]);
    var f :- CollectFields(StpFieldResults(wrapped, conv));
    if f[0].None? {
      return Err(ValidationError("temperature: Field required"));
    }
    var g :- AllValuesSameLength(f);
    if |g| == 6 && g[0].Some? && IsStandard(g) {
      r := Ok(g);
    } else {
      r := Err(ValueError("Standard temperature and pressure conditions cannot be modified"));
    }
  }

  /** STPConditions always hold 273.15 K and 100000 Pa. */
  lemma {:induction false} StpFixed(raw: map<string, ConditionInput>, conv: UnitConverter)
    requires StpSpec(raw, conv).Ok?
    ensures Shaped(StpSpec(raw, conv).value) && IsStandard(StpSpec(raw, conv).value)
  {
  }

  /** With nothing supplied, the conditions are the standard ones, each
      broadcast to a 0-dimensional array. */
  lemma {:induction false} StpDefault(conv: UnitConverter)
    ensures StpSpec(map[], conv)
         == Ok([Some(Rebuild(StpTemperature, 1)), Some(Rebuild(StpPressure, 1)), None, None, None, None])
  {
    var none: map<string, ConditionInput> := map[];
    var wrapped := map k | k in none :: WrapBare(none[k]);
    assert wrapped == map[];
    var results := StpFieldResults(wrapped, conv);
    var f := [Some(StpTemperature), Some(StpPressure), None, None, None, None];
    assert results == [Ok(Some(StpTemperature)), Ok(Some(StpPressure)), Ok(None), Ok(None), Ok(None), Ok(None)];
    assert CollectFields(results).value == f;
    StpDefaultLengths(f);
  }

  lemma {:induction false} StpDefaultLengths(f: Fields)
    requires f == [Some(StpTemperature), Some(StpPressure), None, None, None, None]
    ensures SameLengthSpec(f) == Ok([Some(Rebuild(StpTemperature, 1)), Some(Rebuild(StpPressure, 1)), None, None, None, None])
    ensures IsStandard(SameLengthSpec(f).value)
  {
    assert LengthAfter(f, 6) == 1 by {
      assert LengthAfter(f, 1) == 1;
      assert LengthAfter(f, 2) == 1;
      assert LengthAfter(f, 3) == 1;
      assert LengthAfter(f, 4) == 1;
      assert LengthAfter(f, 5) == 1;
    }
    assert Compatible(f);
    assert !IsArr(f, 2);
    assert OldLength(f) == 0;
    assert Spread(f, 1) == [Some(Rebuild(StpTemperature, 1)), Some(Rebuild(StpPressure, 1)), None, None, None, None];
    SqueezeFull(1, StandardTemperature);
    SqueezeFull(1, StandardPressure);
  }

  /** `__copy__`: the same fields, validated again as plain
      OperationalConditions. */
  function StpCopy(g: Fields): Result<Fields>
    requires HasTemperature(g)
  {
    SameLengthSpec(g)
  }

  /** Copying standard conditions gives plain conditions with the same values. */
  lemma {:induction false} StpCopyKeeps(raw: map<string, ConditionInput>, conv: UnitConverter)
    requires StpSpec(raw, conv).Ok?
    ensures HasTemperature(StpSpec(raw, conv).value)
    ensures StpCopy(StpSpec(raw, conv).value) == StpSpec(raw, conv)
  {
    var wrapped := map k | k in raw :: WrapBare(raw[k]);
    var f := CollectFields(StpFieldResults(wrapped, conv)).value;
    SameLengthIdempotent(f);
  }
}
