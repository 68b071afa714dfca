// Mixed properties: a property whose value is the fraction-weighted sum of
// its constituents' values, with scalar results broadcast against one array
// size and a warning, logged once, when the constituents' units differ.

module MixtureProperty {
  import opened Wrappers
  import opened Values
  import opened Group

  /** A constituent's `value_as(op_cond, unit)` at the operating conditions
      of the call. */
  type Evaluator = (Dpp, Unit) -> Result<Value>

  // ---------------------------------------------------------------------
  // _fix_sizes
  // ---------------------------------------------------------------------

  predicate AnyArray(out: seq<Value>)
  {
    exists i :: 0 <= i < |out| && out[i].Array?
  }

  /** The distinct sizes of the results (a float has size 1). */
  function Sizes(out: seq<Value>): set<nat>
  {
    set i | 0 <= i < |out| :: Size(out[i])
  }

  function MaxSize(out: seq<Value>): nat
  {
    if |out| == 0 then 0
    else
      var m := MaxSize(out[..|out| - 1]);
      var last := Size(out[|out| - 1]);
      if last > m then last else m
  }

  /** The larger of the sizes is one of them and bounds all of them. */
  lemma {:induction false} MaxSizeBounds(out: seq<Value>)
    ensures |out| > 0 ==> MaxSize(out) in Sizes(out)
    ensures forall i :: 0 <= i < |out| ==> Size(out[i]) <= MaxSize(out)
  {
    if |out| > 0 {
      var init := out[..|out| - 1];
      MaxSizeBounds(init);
      SizesSnoc(init, out[|out| - 1]);
      assert out == init + [out[|out| - 1]];
      assert forall i :: 0 <= i < |init| ==> out[i] == init[i];
    }
  }

  lemma {:induction false} SizesSnoc(init: seq<Value>, v: Value)
    ensures Sizes(init + [v]) == Sizes(init) + {Size(v)}
  {
    var s := init + [v];
    forall n | n in Sizes(s) ensures n in Sizes(init) + {Size(v)} {
      var i :| 0 <= i < |s| && Size(s[i]) == n;
      if i < |init| { assert s[i] == init[i]; }
    }
    forall n | n in Sizes(init) + {Size(v)} ensures n in Sizes(s) {
      if n == Size(v) {
        assert s[|init|] == v;
      } else {
        var i :| 0 <= i < |init| && Size(init[i]) == n;
        assert s[i] == init[i];
      }
    }
  }

  /** Every float replaced by a constant array of size `n`. */
  function Broadcast(out: seq<Value>, n: nat): (r: seq<Value>)
    ensures |r| == |out|
  {
    seq(|out|, i requires 0 <= i < |out| => if out[i].Scalar? then Full(n, out[i].x) else out[i])
  }

  /** `_fix_sizes` on the list of constituent results. */
  function FixSizesSpec(out: seq<Value>): (r: Result<seq<Value>>)
    ensures r.Err? <==> AnyArray(out) && |Sizes(out)| > 2
    ensures r.Err? ==> r.error == NotImplementedError("Cannot mix independently sized arrays")
    ensures r.Ok? ==> |r.value| == |out|
    ensures r.Ok? ==> forall i :: 0 <= i < |out| && out[i].Array? ==> r.value[i] == out[i]
    ensures !AnyArray(out) ==> r == Ok(out)
    ensures r.Ok? ==> forall i :: 0 <= i < |out| ==>
      r.value[i] == out[i] || (out[i].Scalar? && r.value[i] == Full(MaxSize(out), out[i].x))
  {
    if !AnyArray(out) then Ok(out)
    else if |Sizes(out)| > 2 then Err(NotImplementedError("Cannot mix independently sized arrays"))
    else if |Sizes(out)| == 2 && 1 in Sizes(out) then Ok(Broadcast(out, MaxSize(out)))
    else Ok(out)
  }

  /** With exactly two sizes, one of them 1, every float becomes a constant
      array of the other (larger) size; with one size nothing changes. */
  lemma {:induction false} FixSizesBroadcast(out: seq<Value>, m: nat)
    requires AnyArray(out) && Sizes(out) == {1, m} && m != 1
    ensures FixSizesSpec(out).Ok?
    ensures forall i :: 0 <= i < |out| && out[i].Scalar? ==>
      FixSizesSpec(out).value[i] == Full(if m > 1 then m else 1, out[i].x)
  {
    MaxSizeBounds(out);
    assert m in Sizes(out);
    var k :| 0 <= k < |out| && Size(out[k]) == m;
    assert |Sizes(out)| == 2;
  }

  lemma {:induction false} FixSizesOneSize(out: seq<Value>, m: nat)
    requires Sizes(out) == {m}
    ensures FixSizesSpec(out) == Ok(out)
  {
  }

  /** The first pass of `_fix_sizes`: whether any result is an array,
      the sizes seen and the largest of them. */
  method ScanSizes(out: array<Value>) returns (anyArray: bool, sizes: set<nat>, largest: nat)
    ensures anyArray <==> AnyArray(out[..])
    ensures sizes == Sizes(out[..])
    ensures largest == MaxSize(out[..])
  {
    anyArray, sizes, largest := false, {}, 0;
    var i := 0;
    while i < out.Length
      invariant 0 <= i <= out.Length
      invariant anyArray <==> AnyArray(out[..i])
      invariant sizes == Sizes(out[..i])
      invariant largest == MaxSize(out[..i])
    {
      assert out[..i + 1] == out[..i] + [out[i]];
      assert out[..i + 1][..i] == out[..i];
      SizesSnoc(out[..i], out[i]);
      if out[i].Array? { anyArray := true; }
      sizes := sizes + {Size(out[i])};
      if Size(out[i]) > largest { largest := Size(out[i]); }
      i := i + 1;
    }
    assert out[..out.Length] == out[..];
  }

  /** The second pass of `_fix_sizes`: every float in `out` replaced by a
      constant array of size `n`. */
  method BroadcastInPlace(out: array<Value>, n: nat)
    modifies out
    ensures out[..] == Broadcast(old(out[..]), n)
  {
    ghost var before := out[..];
    var i := 0;
    while i < out.Length
      invariant 0 <= i <= out.Length
      invariant forall j :: 0 <= j < i ==> out[j] == Broadcast(before, n)[j]
      invariant forall j :: i <= j < out.Length ==> out[j] == before[j]
    {
      if out[i].Scalar? {
        out[i] := Full(n, out[i].x);
      }
      i := i + 1;
    }
  }

  /** `_fix_sizes`, overwriting entries of `out` in place. */
  method FixSizes(out: array<Value>) returns (r: Outcome)
    modifies out
    ensures var spec := FixSizesSpec(old(out[..]));
      (r.Pass? <==> spec.Ok?)
      && (r.Pass? ==> out[..] == spec.value)
      && (r.Fail? ==> r.error == spec.error && out[..] == old(out[..]))
  {
    var anyArray, sizes, largest := ScanSizes(out);
    if !anyArray {
      return Pass;
    }
    if |sizes| > 2 {
      return Fail(NotImplementedError("Cannot mix independently sized arrays"));
    }
    if |sizes| == 2 && 1 in sizes {
      BroadcastInPlace(out, largest);
    }
    return Pass;
  }

  // ---------------------------------------------------------------------
  // _fractional_calc
  // ---------------------------------------------------------------------

  /** sum_i fs[i] * xs[i]. */
  function Dot(fs: seq<real>, xs: seq<real>): real
    requires |fs| == |xs|
  {
    if |fs| == 0 then 0.0 else fs[0] * xs[0] + Dot(fs[1..], xs[1..])
  }

  function Sum(fs: seq<real>): real
  {
    if |fs| == 0 then 0.0 else fs[0] + Sum(fs[1..])
  }

  predicate AllScalarLike(out: seq<Value>)
  {
    forall i :: 0 <= i < |out| ==> ScalarLike(out[i])
  }

  /** Arrays of one shape, which numpy stacks into one array. */
  predicate SameShapes(out: seq<Value>)
  {
    |out| > 0 && out[0].Array? && forall i :: 0 <= i < |out| ==>
      out[i].Array? && out[i].shape == out[0].shape && |out[i].data| == |out[0].data|
  }

  /** The `j`-th entry each result contributes: a float or 0-dimensional
      array contributes its single value to every entry. */
  function Column(out: seq<Value>, j: nat): (r: seq<real>)
    ensures |r| == |out|
  {
    seq(|out|, i requires 0 <= i < |out| =>
      if ScalarLike(out[i]) then First(out[i])
      else if j < Size(out[i]) then Elements(out[i])[j]
      else 0.0)
  }

  /** `np.einsum("i..., i", np.asarray(out), fractions)`. */
  function WeightedSum(out: seq<Value>, fs: seq<real>): (r: Result<Value>)
    ensures r.Ok? ==> |fs| == |out|
    ensures r.Ok? && AllScalarLike(out) ==> r.value == Scalar(Dot(fs, Column(out, 0)))
    ensures r.Ok? && !AllScalarLike(out) ==>
      (SameShapes(out) && r.value.Array? && r.value.shape == out[0].shape
       && Size(r.value) == Size(out[0])
       && forall j :: 0 <= j < Size(out[0]) ==> Elements(r.value)[j] == Dot(fs, Column(out, j)))
    ensures r.Err? <==> |fs| != |out| || (!AllScalarLike(out) && !SameShapes(out))
  {
    if |fs| != |out| then Err(ValueError("operands could not be broadcast together"))
    else if AllScalarLike(out) then Ok(Scalar(Dot(fs, Column(out, 0))))
    else if SameShapes(out) then
      Ok(Array(out[0].shape, seq(|out[0].data|, j requires 0 <= j < |out[0].data| => Dot(fs, Column(out, j)))))
    else Err(ValueError("setting an array element with a sequence"))
  }

  /** `_fractional_calc`. */
  function FractionalCalc(out: seq<Value>, fs: seq<real>): (r: Result<Value>)
    ensures AnyArray(out) && |Sizes(out)| > 2 ==> r == Err(NotImplementedError("Cannot mix independently sized arrays"))
    ensures r.Ok? ==> |fs| == |out|
  {
    var fixed :- FixSizesSpec(out);
    WeightedSum(fixed, fs)
  }

  /** Each entry of a mixed value is the fraction-weighted sum of the
      constituents' entries, a float constituent counting in every entry;
      every array constituent has the size of the result. */
  lemma {:induction false} FractionalCalcMeaning(out: seq<Value>, fs: seq<real>)
    requires FractionalCalc(out, fs).Ok?
    ensures |fs| == |out|
    ensures var r := FractionalCalc(out, fs).value;
      (forall i :: 0 <= i < |out| && !ScalarLike(out[i]) ==> Size(r) == Size(out[i]))
      && forall j :: 0 <= j < Size(r) ==> Elements(r)[j] == Dot(fs, Column(out, j))
  {
    FractionalSizes(out, fs);
    FractionalEntries(out, fs);
  }

  lemma {:induction false} FractionalSizes(out: seq<Value>, fs: seq<real>)
    requires FractionalCalc(out, fs).Ok?
    ensures forall i :: 0 <= i < |out| && !ScalarLike(out[i]) ==> Size(FractionalCalc(out, fs).value) == Size(out[i])
  {
    var fixed := FixSizesSpec(out).value;
    if !AllScalarLike(fixed) {
      forall i | 0 <= i < |out| && !ScalarLike(out[i]) ensures Size(FractionalCalc(out, fs).value) == Size(out[i]) {
        FixedEntry(out, fixed, i);
        assert fixed[i].shape == fixed[0].shape && |fixed[i].data| == |fixed[0].data|;
      }
    } else {
      forall i | 0 <= i < |out| ensures ScalarLike(out[i]) {
        FixedEntry(out, fixed, i);
      }
    }
  }

  lemma {:induction false} FractionalEntries(out: seq<Value>, fs: seq<real>)
    requires FractionalCalc(out, fs).Ok?
    ensures |fs| == |out|
    ensures forall j :: 0 <= j < Size(FractionalCalc(out, fs).value) ==>
      Elements(FractionalCalc(out, fs).value)[j] == Dot(fs, Column(out, j))
  {
    if AllScalarLike(FixSizesSpec(out).value) {
      ScalarEntries(out, fs);
    } else {
      ArrayEntries(out, fs);
    }
  }

  lemma {:induction false} ScalarEntries(out: seq<Value>, fs: seq<real>)
    requires FractionalCalc(out, fs).Ok? && AllScalarLike(FixSizesSpec(out).value)
    ensures forall j :: 0 <= j < Size(FractionalCalc(out, fs).value) ==>
      Elements(FractionalCalc(out, fs).value)[j] == Dot(fs, Column(out, j))
  {
    var fixed := FixSizesSpec(out).value;
    forall i | 0 <= i < |out| ensures fixed[i] == out[i] {
      FixedEntry(out, fixed, i);
    }
    assert fixed == out;
  }

  lemma {:induction false} ArrayEntries(out: seq<Value>, fs: seq<real>)
    requires FractionalCalc(out, fs).Ok? && !AllScalarLike(FixSizesSpec(out).value)
    ensures forall j :: 0 <= j < Size(FractionalCalc(out, fs).value) ==>
      Elements(FractionalCalc(out, fs).value)[j] == Dot(fs, Column(out, j))
  {
    var fixed := FixSizesSpec(out).value;
    var n := Size(fixed[0]);
    forall j | 0 <= j < n ensures Column(fixed, j) == Column(out, j) {
      forall i | 0 <= i < |out| ensures Column(fixed, j)[i] == Column(out, j)[i] {
        FixedEntry(out, fixed, i);
      }
    }
  }

  /** A result `_fix_sizes` replaced is a float turned into a constant array. */
  lemma {:induction false} FixedEntry(out: seq<Value>, fixed: seq<Value>, i: nat)
    requires FixSizesSpec(out).Ok? && fixed == FixSizesSpec(out).value && i < |out|
    ensures fixed[i] == out[i] || (out[i].Scalar? && fixed[i] == Full(MaxSize(out), out[i].x))
    ensures fixed[i] != out[i] ==>
      (!ScalarLike(fixed[i]) && Size(fixed[i]) == MaxSize(out)
       && forall j :: 0 <= j < Size(fixed[i]) ==> Elements(fixed[i])[j] == First(out[i]))
  {
  }

  lemma {:induction false} DotConstant(fs: seq<real>, c: real)
    ensures Dot(fs, seq(|fs|, _ => c)) == c * Sum(fs)
  {
    if |fs| > 0 {
      DotConstant(fs[1..], c);
      assert seq(|fs|, _ => c)[1..] == seq(|fs| - 1, _ => c);
    }
  }

  /** Constituents all evaluating to the same float, with fractions summing
      to 1, mix to that float. */
  lemma {:induction false} MixOfEqualScalars(out: seq<Value>, fs: seq<real>, c: real)
    requires |fs| == |out| && Sum(fs) == 1.0
    requires forall i :: 0 <= i < |out| ==> out[i] == Scalar(c)
    ensures FractionalCalc(out, fs) == Ok(Scalar(c))
  {
    assert !AnyArray(out);
    assert Column(out, 0) == seq(|fs|, _ => c);
    DotConstant(fs, c);
  }

  /** A single constituent at the default fraction [1] gives its own entries. */
  lemma {:induction false} MixOfOne(v: Value)
    requires WellFormed(v)
    ensures FractionalCalc([v], DefaultFractions).Ok?
    ensures Elements(FractionalCalc([v], DefaultFractions).value) == Elements(v)
  {
    assert Sizes([v]) == {Size(v)};
    assert FixSizesSpec([v]) == Ok([v]);
    var r := FractionalCalc([v], DefaultFractions).value;
    if !ScalarLike(v) {
      forall j | 0 <= j < Size(v) ensures Elements(r)[j] == Elements(v)[j] {
        assert Column([v], j) == [Elements(v)[j]];
        assert Dot(DefaultFractions, [Elements(v)[j]]) == 1.0 * Elements(v)[j] + Dot([], []);
      }
    } else {
      assert Column([v], 0) == [First(v)];
      assert Dot(DefaultFractions, [First(v)]) == 1.0 * First(v) + Dot([], []);
      if v.Array? { assert |v.data| == Product([]) == 1; }
    }
  }

  // ---------------------------------------------------------------------
  // The Mixture model
  // ---------------------------------------------------------------------

  const DefaultFractions: seq<real> := [1.0]

  /** Some constituent after the first has a unit other than the mixture's. */
  predicate UnitsDiffer(dpp: seq<Dpp>, unit: Unit)
  {
    exists i :: 1 <= i < |dpp| && dpp[i].kind.unit != unit
  }

  /** `_warn_on_unit_difference` on the (flag, warnings logged) pair. */
  function WarnStep(dpp: seq<Dpp>, unit: Unit, warned: bool, logged: nat): (r: (bool, nat))
    ensures r.1 <= logged + 1
    ensures r.0 <==> warned || UnitsDiffer(dpp, unit)
  {
    if UnitsDiffer(dpp, unit) && !warned then (true, logged + 1) else (warned, logged)
  }

  function WarnSteps(dpp: seq<Dpp>, unit: Unit, n: nat): (bool, nat)
  {
    if n == 0 then (false, 0)
    else
      var (w, c) := WarnSteps(dpp, unit, n - 1);
      WarnStep(dpp, unit, w, c)
  }

  /** However often the validator runs, the warning is logged at most once,
      and exactly once when some unit differs. */
  lemma {:induction false} WarnOnce(dpp: seq<Dpp>, unit: Unit, n: nat)
    ensures WarnSteps(dpp, unit, n).1 <= 1
    ensures n > 0 ==> (WarnSteps(dpp, unit, n).1 == 1 <==> UnitsDiffer(dpp, unit))
    ensures WarnSteps(dpp, unit, n).0 <==> WarnSteps(dpp, unit, n).1 == 1
  {
    if n > 0 {
      WarnOnce(dpp, unit, n - 1);
    }
  }

  /** The constituents' results, in order; the first failure is raised. */
  function Evaluate(dpp: seq<Dpp>, unit: Unit, eval: Evaluator): (r: Result<seq<Value>>)
    ensures r.Ok? ==> |r.value| == |dpp| && forall i :: 0 <= i < |dpp| ==> eval(dpp[i], unit) == Ok(r.value[i])
    ensures r.Err? ==> exists i :: 0 <= i < |dpp| && eval(dpp[i], unit) == Err(r.error)
  {
    if |dpp| == 0 then Ok([])
    else
      var first :- eval(dpp[0], unit);
      var rest :- Evaluate(dpp[1..], unit, eval);
      assert forall i :: 1 <= i < |dpp| ==> dpp[i] == dpp[1..][i - 1];
      Ok([first] + rest)
  }

  class Mixture {
    var dpp: seq<Dpp>
    var fractions: seq<real>
    var unit: Unit
    var unitWarn: bool
    /** How many times the unit warning has been logged. */
    var logged: nat

    /** Construction runs `_warn_on_unit_difference` once. */
    constructor(dpp: seq<Dpp>, fractions: Option<seq<real>>, unit: Unit)
      ensures this.dpp == dpp && this.fractions == fractions.GetOr(DefaultFractions) && this.unit == unit
      ensures (unitWarn, logged) == WarnSteps(dpp, unit, 1)
    {
      this.dpp := dpp;
      this.fractions := fractions.GetOr(DefaultFractions);
      this.unit := unit;
      if UnitsDiffer(dpp, unit) {
        unitWarn := true;
        logged := 1;
      } else {
        unitWarn := false;
        logged := 0;
      }
    }

    /** `_warn_on_unit_difference`, run again on revalidation. */
    method WarnOnUnitDifference()
      modifies this
      ensures (unitWarn, logged) == WarnStep(dpp, unit, old(unitWarn), old(logged))
      ensures dpp == old(dpp) && fractions == old(fractions) && unit == old(unit)
    {
      if UnitsDiffer(dpp, unit) && !unitWarn {
        unitWarn := true;
        logged := logged + 1;
      }
    }

    /** `value_as(op_cond, unit)`: every constituent in `u`, weighted. */
    function ValueAs(u: Unit, eval: Evaluator): (r: Result<Value>)
      reads this
      ensures Evaluate(dpp, u, eval).Err? ==> r.Err?
      ensures r.Ok? ==> |fractions| == |dpp| && forall j :: 0 <= j < Size(r.value) ==>
        Elements(r.value)[j] == Dot(fractions, Column(Evaluate(dpp, u, eval).value, j))
    {
      var out :- Evaluate(dpp, u, eval);
      var r := FractionalCalc(out, fractions);
      if r.Ok? then FractionalCalcMeaning(out, fractions); r else r
    }

    /** `__call__`: the mixture evaluated in its own unit. */
    function Call(eval: Evaluator): (r: Result<Value>)
      reads this
      ensures Evaluate(dpp, unit, eval).Err? ==> r.Err?
      ensures r.Ok? ==> |fractions| == |dpp| && forall j :: 0 <= j < Size(r.value) ==>
        Elements(r.value)[j] == Dot(fractions, Column(Evaluate(dpp, unit, eval).value, j))
    {
      ValueAs(unit, eval)
    }
  }
}
