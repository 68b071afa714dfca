// Mixing materials: the constituents' element compositions are blended as a
// fraction-weighted sum and renormalised, the input fractions are normalised
// for atomic and mass mixing, and every property name of the constituents is
// resolved to an override, an undefined value, or a weighted mixture.

module Mixing {
  import opened Wrappers
  import opened Dicts
  import opened Strings
  import opened Base
  import opened Group
  import opened ConvertersBase
  import opened Material
  import Num = Values

  // ---------------------------------------------------------------------
  // Sums
  // ---------------------------------------------------------------------

  /** `sum(xs)`, adding from the left. */
  function Total(xs: seq<real>): real
  {
    if |xs| == 0 then 0.0 else Total(xs[..|xs| - 1]) + xs[|xs| - 1]
  }

  /** Every entry divided by `t`. */
  function Scaled(xs: seq<real>, t: real): (r: seq<real>)
    requires t != 0.0
    ensures |r| == |xs| && forall i :: 0 <= i < |xs| ==> r[i] == xs[i] / t
  {
    seq(|xs|, i requires 0 <= i < |xs| => xs[i] / t)
  }

  /** Dividing every entry divides the sum. */
  lemma {:induction false} TotalScaled(xs: seq<real>, t: real)
    requires t != 0.0
    ensures Total(Scaled(xs, t)) == Total(xs) / t
  {
    if |xs| > 0 {
      var n := |xs| - 1;
      var init := xs[..n];
      var s := Scaled(xs, t);
      TotalScaled(init, t);
      assert s[..n] == Scaled(init, t);
      assert Total(s) == Total(Scaled(init, t)) + xs[n] / t;
      DivAdd(Total(init), xs[n], t);
    }
  }

  lemma {:induction false} DivAdd(a: real, b: real, t: real)
    requires t != 0.0
    ensures a / t + b / t == (a + b) / t
  {
  }

  // ---------------------------------------------------------------------
  // _atomic_to_inp_converter
  // ---------------------------------------------------------------------

  /** One constituent's composition added into the running blend with
      weight `f`: a present key grows by `x * f`, a new key starts at `x * f`. */
  function AddInto(acc: Dict<real>, d: Dict<real>, f: real): Dict<real>
  {
    if |d| == 0 then acc
    else
      var prev := AddInto(acc, d[..|d| - 1], f);
      var last := d[|d| - 1];
      Set(prev, last.0, Get(prev, last.0).GetOr(0.0) + last.1 * f)
  }

  /** The compositions, after `conversion`, paired with their fractions as
      `zip` pairs them (the shorter list decides). */
  function Pairs(els: seq<Elements>, fracs: seq<real>, conversion: Dict<real> -> Dict<real>): (r: seq<(Dict<real>, real)>)
    ensures |r| == if |els| < |fracs| then |els| else |fracs|
    ensures forall i :: 0 <= i < |r| ==> r[i] == (conversion(els[i].root), fracs[i])
  {
    var n := if |els| < |fracs| then |els| else |fracs|;
    seq(n, i requires 0 <= i < n => (conversion(els[i].root), fracs[i]))
  }

  /** The weighted sum of the compositions, before normalisation. */
  function Blend(pairs: seq<(Dict<real>, real)>): (r: Dict<real>)
    ensures DistinctKeys(r)
  {
    if |pairs| == 0 then []
    else
      var last := pairs[|pairs| - 1];
      AddIntoDistinct(Blend(pairs[..|pairs| - 1]), last.0, last.1);
      AddInto(Blend(pairs[..|pairs| - 1]), last.0, last.1)
  }

  /** The blend divided by its total; a total of zero over a non-empty blend
      is a division of a float by zero. */
  function Normalise(d: Dict<real>): (r: Result<Dict<real>>)
    ensures r.Err? <==> |d| > 0 && Total(Dicts.Values(d)) == 0.0
    ensures r.Err? ==> r.error == ZeroDivisionError
    ensures r.Ok? ==> |r.value| == |d| && forall i :: 0 <= i < |d| ==> r.value[i].0 == d[i].0
  {
    if |d| == 0 then Ok([])
    else
      var t := Total(Dicts.Values(d));
      if t == 0.0 then Err(ZeroDivisionError) else Ok(Divided(d, t))
  }

  function Divided(d: Dict<real>, t: real): (r: Dict<real>)
    requires t != 0.0
    ensures |r| == |d| && forall i :: 0 <= i < |d| ==> r[i].0 == d[i].0 && r[i].1 == d[i].1 / t
    ensures Keys(r) == Keys(d) && Dicts.Values(r) == Scaled(Dicts.Values(d), t)
  {
    seq(|d|, i requires 0 <= i < |d| => (d[i].0, d[i].1 / t))
  }

  /** What a composition adds to key `k` with weight `f`: `f` times the
      amount of each of its entries with that key. */
  function Contribution(d: Dict<real>, k: string, f: real): real
  {
    if |d| == 0 then 0.0
    else Contribution(d[..|d| - 1], k, f) + (if d[|d| - 1].0 == k then d[|d| - 1].1 * f else 0.0)
  }

  /** sum_i f_i * x_{i,k} over the constituents. */
  function WeightedSum(pairs: seq<(Dict<real>, real)>, k: string): real
  {
    if |pairs| == 0 then 0.0
    else WeightedSum(pairs[..|pairs| - 1], k) + Contribution(pairs[|pairs| - 1].0, k, pairs[|pairs| - 1].1)
  }

  lemma {:induction false} HasKeySnoc<V>(d: Dict<V>, k: string)
    requires |d| > 0
    ensures HasKey(d, k) <==> HasKey(d[..|d| - 1], k) || d[|d| - 1].0 == k
  {
    var init := d[..|d| - 1];
    if HasKey(init, k) {
      var i :| 0 <= i < |init| && init[i].0 == k;
      assert d[i] == init[i];
    }
    if HasKey(d, k) && d[|d| - 1].0 != k {
      var i :| 0 <= i < |d| && d[i].0 == k;
      assert init[i] == d[i];
    }
  }

  lemma {:induction false} AddIntoUnfold(acc: Dict<real>, d: Dict<real>, f: real)
    requires |d| > 0
    ensures AddInto(acc, d, f)
         == Set(AddInto(acc, d[..|d| - 1], f), d[|d| - 1].0,
                Get(AddInto(acc, d[..|d| - 1], f), d[|d| - 1].0).GetOr(0.0) + d[|d| - 1].1 * f)
  {
  }

  /** Adding one more entry of a composition. */
  lemma {:induction false} AddIntoStep(acc: Dict<real>, d: Dict<real>, f: real, j: nat)
    requires j < |d|
    ensures AddInto(acc, d[..j + 1], f)
         == Set(AddInto(acc, d[..j], f), d[j].0, Get(AddInto(acc, d[..j], f), d[j].0).GetOr(0.0) + d[j].1 * f)
  {
    var upto := d[..j + 1];
    assert upto[..|upto| - 1] == d[..j];
    assert upto[|upto| - 1] == d[j];
    AddIntoUnfold(acc, upto, f);
    var prev := AddInto(acc, d[..j], f);
    var v := Get(prev, d[j].0).GetOr(0.0) + d[j].1 * f;
    assert Get(AddInto(acc, upto[..|upto| - 1], f), upto[|upto| - 1].0).GetOr(0.0) + upto[|upto| - 1].1 * f == v;
    assert AddInto(acc, upto, f) == Set(prev, d[j].0, v);
  }

  /** The last entry's key grows by its amount times `f`. */
  lemma {:induction false} StepSame(acc: Dict<real>, d: Dict<real>, f: real)
    requires |d| > 0
    ensures Get(AddInto(acc, d, f), d[|d| - 1].0)
         == Some(Get(AddInto(acc, d[..|d| - 1], f), d[|d| - 1].0).GetOr(0.0) + d[|d| - 1].1 * f)
  {
    AddIntoUnfold(acc, d, f);
  }

  /** Every other key keeps its value. */
  lemma {:induction false} StepOther(acc: Dict<real>, d: Dict<real>, f: real, k: string)
    requires |d| > 0 && d[|d| - 1].0 != k
    ensures Get(AddInto(acc, d, f), k) == Get(AddInto(acc, d[..|d| - 1], f), k)
  {
    SetAnyOther(AddInto(acc, d[..|d| - 1], f), d[|d| - 1].0, k);
  }

  /** Setting one key to any amount leaves every other key's amount alone. */
  lemma SetAnyOther(d: Dict<real>, key: string, k: string)
    requires key != k
    ensures forall v :: Get(Set(d, key, v), k) == Get(d, k)
  {
    forall v {
      SetOther(d, key, v, k);
    }
  }

  /** Adding a composition adds its contribution to each key. */
  lemma {:induction false} AddIntoGet(acc: Dict<real>, d: Dict<real>, f: real, k: string)
    ensures Get(AddInto(acc, d, f), k).GetOr(0.0) == Get(acc, k).GetOr(0.0) + Contribution(d, k, f)
  {
    if |d| > 0 {
      AddIntoGet(acc, d[..|d| - 1], f, k);
      if d[|d| - 1].0 == k {
        StepSame(acc, d, f);
      } else {
        StepOther(acc, d, f, k);
      }
    }
  }

  /** Adding a composition makes the keys the union. */
  lemma {:induction false} AddIntoKeys(acc: Dict<real>, d: Dict<real>, f: real, k: string)
    ensures HasKey(AddInto(acc, d, f), k) <==> HasKey(acc, k) || HasKey(d, k)
  {
    if |d| > 0 {
      AddIntoKeys(acc, d[..|d| - 1], f, k);
      HasKeySnoc(d, k);
      if d[|d| - 1].0 == k {
        StepSame(acc, d, f);
      } else {
        StepOther(acc, d, f, k);
      }
    }
  }

  /** Adding a composition keeps the keys distinct. */
  lemma {:induction false} AddIntoDistinct(acc: Dict<real>, d: Dict<real>, f: real)
    requires DistinctKeys(acc)
    ensures DistinctKeys(AddInto(acc, d, f))
  {
    if |d| > 0 {
      AddIntoDistinct(acc, d[..|d| - 1], f);
      SetAnyDistinct(AddInto(acc, d[..|d| - 1], f), d[|d| - 1].0);
    }
  }

  /** Setting a key to any amount keeps the keys distinct. */
  lemma SetAnyDistinct(d: Dict<real>, k: string)
    requires DistinctKeys(d)
    ensures forall v :: DistinctKeys(Set(d, k, v))
  {
    forall v {
      SetDistinct(d, k, v);
    }
  }


  /** The blend holds, for every key any constituent has, the weighted sum
      of the constituents' amounts, and no other key. */
  lemma {:induction false} BlendMeaning(pairs: seq<(Dict<real>, real)>, k: string)
    ensures Get(Blend(pairs), k).GetOr(0.0) == WeightedSum(pairs, k)
    ensures HasKey(Blend(pairs), k) <==> exists i :: 0 <= i < |pairs| && HasKey(pairs[i].0, k)
    ensures DistinctKeys(Blend(pairs))
  {
    if |pairs| > 0 {
      var n := |pairs| - 1;
      BlendMeaning(pairs[..n], k);
      AddIntoGet(Blend(pairs[..n]), pairs[n].0, pairs[n].1, k);
      AddIntoKeys(Blend(pairs[..n]), pairs[n].0, pairs[n].1, k);
      AddIntoDistinct(Blend(pairs[..n]), pairs[n].0, pairs[n].1);
      if HasKey(Blend(pairs), k) && !HasKey(pairs[n].0, k) {
        var i :| 0 <= i < n && HasKey(pairs[..n][i].0, k);
        assert pairs[i] == pairs[..n][i];
      }
      if exists i :: 0 <= i < |pairs| && HasKey(pairs[i].0, k) {
        var i :| 0 <= i < |pairs| && HasKey(pairs[i].0, k);
        if i < n { assert pairs[..n][i] == pairs[i]; }
      }
    }
  }

  /** In a composition with distinct keys the contribution of a key is its
      value times the weight. */
  lemma {:induction false} ContributionOfDistinct(d: Dict<real>, k: string, f: real)
    requires DistinctKeys(d)
    ensures Contribution(d, k, f) == Get(d, k).GetOr(0.0) * f
  {
    if |d| > 0 {
      var n := |d| - 1;
      assert DistinctKeys(d[..n]);
      ContributionOfDistinct(d[..n], k, f);
      HasKeySnoc(d, k);
      if d[n].0 == k {
        assert !HasKey(d[..n], k);
        GetAt(d, n);
      } else {
        GetSnocOther(d, k);
      }
    }
  }

  lemma {:induction false} GetSnocOther<V>(d: Dict<V>, k: string)
    requires |d| > 0 && d[|d| - 1].0 != k
    ensures Get(d, k) == Get(d[..|d| - 1], k)
  {
    if |d| > 1 && d[0].0 != k {
      assert d[1..][..|d[1..]| - 1] == d[..|d| - 1][1..];
      GetSnocOther(d[1..], k);
    }
  }

  /** A normalised blend sums to one and keeps the blend's keys, each value
      divided by the blend's total. */
  lemma {:induction false} NormaliseMeaning(d: Dict<real>)
    requires |d| > 0 && Normalise(d).Ok?
    ensures Total(Dicts.Values(Normalise(d).value)) == 1.0
    ensures Keys(Normalise(d).value) == Keys(d)
    ensures forall i :: 0 <= i < |d| ==> Normalise(d).value[i].1 == d[i].1 / Total(Dicts.Values(d))
  {
    var t := Total(Dicts.Values(d));
    assert Normalise(d) == Ok(Divided(d, t));
    TotalScaled(Dicts.Values(d), t);
    assert t / t == 1.0;
  }

  /** One constituent's converted composition added into the running blend
      in place: the inner loop of `_atomic_to_inp_converter`. */
  method AddComposition(acc: Dict<real>, converted: Dict<real>, f: real) returns (elements: Dict<real>)
    ensures elements == AddInto(acc, converted, f)
  {
    elements := acc;
    for j := 0 to |converted|
      invariant elements == AddInto(acc, converted[..j], f)
    {
      var k := converted[j].0;
      var existing := Get(elements, k);
      AddIntoStep(acc, converted, f, j);
      if existing.Some? {
        elements := Set(elements, k, existing.value + converted[j].1 * f);
      } else {
        elements := Set(elements, k, converted[j].1 * f);
      }
    }
    assert converted[..|converted|] == converted;
  }

  /** `sum(elements.values())`, by a loop. */
  method SumValues(d: Dict<real>) returns (ttl: real)
    ensures ttl == Total(Dicts.Values(d))
  {
    ttl := 0.0;
    for m := 0 to |d|
      invariant ttl == Total(Dicts.Values(d)[..m])
    {
      ttl := ttl + d[m].1;
      assert Dicts.Values(d)[..m + 1][..m] == Dicts.Values(d)[..m];
    }
    assert Dicts.Values(d)[..|d|] == Dicts.Values(d);
  }

  /** Every value divided by `ttl`, in place. */
  method DivideAll(d: Dict<real>, ttl: real) returns (elements: Dict<real>)
    requires ttl != 0.0
    ensures elements == Divided(d, ttl)
  {
    elements := d;
    for m := 0 to |elements|
      invariant |elements| == |d|
      invariant forall l :: 0 <= l < m ==> elements[l].0 == d[l].0 && elements[l].1 == d[l].1 / ttl
      invariant forall l :: m <= l < |elements| ==> elements[l] == d[l]
    {
      elements := elements[m := (elements[m].0, elements[m].1 / ttl)];
    }
  }

  /** `_atomic_to_inp_converter`: the constituents' converted compositions
      are added up with their fractions, then every entry is divided by the
      grand total. The constituents' own compositions are values here and
      are not changed. */
  method AtomicToInp(els: seq<Elements>, fracs: seq<real>, conversion: Dict<real> -> Dict<real>) returns (r: Result<Dict<real>>)
    ensures r == Normalise(Blend(Pairs(els, fracs, conversion)))
  {
    var pairs := Pairs(els, fracs, conversion);
    var n := |pairs|;
    var elements: Dict<real> := [];
    for i := 0 to n
      invariant elements == Blend(pairs[..i])
    {
      elements := AddComposition(elements, conversion(els[i].root), fracs[i]);
      assert pairs[..i + 1][..i] == pairs[..i];
    }
    assert pairs[..n] == pairs;
    var ttl := SumValues(elements);
    if |elements| > 0 && ttl == 0.0 {
      return Err(ZeroDivisionError);
    }
    if |elements| == 0 {
      return Ok(elements);
    }
    elements := DivideAll(elements, ttl);
    return Ok(elements);
  }

  /** The first `n` entries of `d`, every amount multiplied by `c`. */
  function Weighted(d: Dict<real>, c: real, n: nat): (r: Dict<real>)
    requires n <= |d|
    ensures |r| == n && forall i :: 0 <= i < n ==> r[i].0 == d[i].0 && r[i].1 == d[i].1 * c
  {
    seq(n, i requires 0 <= i < n => (d[i].0, d[i].1 * c))
  }

  /** The entries of `d`, the first `n` amounts multiplied by `a + b`, the
      rest by `a`. */
  function PartlyWeighted(d: Dict<real>, a: real, b: real, n: nat): (r: Dict<real>)
    ensures |r| == |d|
    ensures forall i :: 0 <= i < |d| ==> r[i].0 == d[i].0 && r[i].1 == if i < n then d[i].1 * (a + b) else d[i].1 * a
  {
    seq(|d|, i requires 0 <= i < |d| => (d[i].0, if i < n then d[i].1 * (a + b) else d[i].1 * a))
  }

  /** A blend of two constituents adds the second into the first. */
  lemma {:induction false} BlendTwo(p: (Dict<real>, real), q: (Dict<real>, real))
    ensures Blend([p, q]) == AddInto(AddInto([], p.0, p.1), q.0, q.1)
  {
    var none: seq<(Dict<real>, real)> := [];
    var both := [p, q];
    assert both[..|both| - 1] == [p];
    assert Blend(both) == AddInto(Blend([p]), q.0, q.1);
    assert [p][..0] == none;
    assert Blend([p]) == AddInto(Blend(none), p.0, p.1);
  }

  lemma {:induction false} WeightedSnoc(d: Dict<real>, c: real, n: nat)
    requires 0 < n <= |d|
    ensures Weighted(d, c, n) == Weighted(d, c, n - 1) + [(d[n - 1].0, d[n - 1].1 * c)]
  {
  }

  /** Adding a composition with distinct keys to an empty blend scales it. */
  lemma {:induction false} AddIntoFresh(d: Dict<real>, f: real, n: nat)
    requires DistinctKeys(d) && n <= |d|
    ensures AddInto([], d[..n], f) == Weighted(d, f, n)
  {
    if n > 0 {
      var m := n - 1;
      AddIntoFresh(d, f, m);
      AddIntoStep([], d, f, m);
      var prev := Weighted(d, f, m);
      assert !HasKey(prev, d[m].0);
      var v := Get(prev, d[m].0).GetOr(0.0) + d[m].1 * f;
      assert v == d[m].1 * f;
      SetAbsent(prev, d[m].0, v);
      WeightedSnoc(d, f, n);
    }
  }

  /** Adding a composition to a scaled copy of itself adds the weights. */
  lemma {:induction false} AddIntoSame(d: Dict<real>, a: real, b: real, n: nat)
    requires DistinctKeys(d) && n <= |d|
    ensures AddInto(Weighted(d, a, |d|), d[..n], b) == PartlyWeighted(d, a, b, n)
  {
    if n == 0 {
      assert Weighted(d, a, |d|) == PartlyWeighted(d, a, b, 0);
    } else {
      AddIntoSame(d, a, b, n - 1);
      AddIntoSameStep(d, a, b, n - 1);
    }
  }

  /** The inductive step of `AddIntoSame`: one more entry of the second copy. */
  lemma AddIntoSameStep(d: Dict<real>, a: real, b: real, m: nat)
    requires DistinctKeys(d) && m < |d|
    requires AddInto(Weighted(d, a, |d|), d[..m], b) == PartlyWeighted(d, a, b, m)
    ensures AddInto(Weighted(d, a, |d|), d[..m + 1], b) == PartlyWeighted(d, a, b, m + 1)
  {
    var w := Weighted(d, a, |d|);
    calc {
      AddInto(w, d[..m + 1], b);
      { AddIntoStep(w, d, b, m); }
      Set(AddInto(w, d[..m], b), d[m].0, Get(AddInto(w, d[..m], b), d[m].0).GetOr(0.0) + d[m].1 * b);
      Set(PartlyWeighted(d, a, b, m), d[m].0, Get(PartlyWeighted(d, a, b, m), d[m].0).GetOr(0.0) + d[m].1 * b);
      { PartlyNext(d, a, b, m); }
      PartlyWeighted(d, a, b, m + 1);
    }
  }

  /** One more entry of the second copy added into the partly weighted blend. */
  lemma {:induction false} PartlyNext(d: Dict<real>, a: real, b: real, m: nat)
    requires DistinctKeys(d) && m < |d|
    ensures Set(PartlyWeighted(d, a, b, m), d[m].0, Get(PartlyWeighted(d, a, b, m), d[m].0).GetOr(0.0) + d[m].1 * b)
         == PartlyWeighted(d, a, b, m + 1)
  {
    PartlyGet(d, a, b, m);
    WeightsAdd(d[m].1, a, b);
    var v := Get(PartlyWeighted(d, a, b, m), d[m].0).GetOr(0.0) + d[m].1 * b;
    PartlySet(d, a, b, m, v);
    PartlyStep(d, a, b, m, v);
  }

  lemma {:induction false} PartlyGet(d: Dict<real>, a: real, b: real, m: nat)
    requires DistinctKeys(d) && m < |d|
    ensures Get(PartlyWeighted(d, a, b, m), d[m].0) == Some(d[m].1 * a)
  {
    var prev := PartlyWeighted(d, a, b, m);
    assert prev[m] == (d[m].0, d[m].1 * a);
    PartlyDistinct(d, a, b, m);
    GetAt(prev, m);
  }

  lemma {:induction false} PartlySet(d: Dict<real>, a: real, b: real, m: nat, v: real)
    requires DistinctKeys(d) && m < |d|
    ensures Set(PartlyWeighted(d, a, b, m), d[m].0, v) == PartlyWeighted(d, a, b, m)[m := (d[m].0, v)]
  {
    var prev := PartlyWeighted(d, a, b, m);
    assert prev[m].0 == d[m].0;
    PartlyDistinct(d, a, b, m);
    SetAt(prev, m, v);
  }

  lemma {:induction false} PartlyDistinct(d: Dict<real>, a: real, b: real, m: nat)
    requires DistinctKeys(d)
    ensures DistinctKeys(PartlyWeighted(d, a, b, m))
  {
    var p := PartlyWeighted(d, a, b, m);
    forall i, j | 0 <= i < j < |p| ensures p[i].0 != p[j].0 {
      assert p[i].0 == d[i].0 && p[j].0 == d[j].0;
    }
  }

  lemma {:induction false} PartlyStep(d: Dict<real>, a: real, b: real, m: nat, v: real)
    requires m < |d| && v == d[m].1 * (a + b)
    ensures PartlyWeighted(d, a, b, m)[m := (d[m].0, v)] == PartlyWeighted(d, a, b, m + 1)
  {
  }

  lemma {:induction false} WeightsAdd(x: real, a: real, b: real)
    ensures x * a + x * b == x * (a + b)
  {
  }

  lemma {:induction false} SetAbsent<V>(d: Dict<V>, k: string, v: V)
    requires !HasKey(d, k)
    ensures Set(d, k, v) == d + [(k, v)]
  {
    if |d| > 0 {
      assert d[0].0 != k;
      HasKeyTail(d, k);
      SetAbsent(d[1..], k, v);
      assert d == [d[0]] + d[1..];
    }
  }

  lemma {:induction false} SetAt<V>(d: Dict<V>, i: nat, v: V)
    requires DistinctKeys(d) && i < |d|
    ensures Set(d, d[i].0, v) == d[i := (d[i].0, v)]
  {
    if i > 0 {
      assert d[0].0 != d[i].0;
      assert d[1..][i - 1] == d[i];
      SetAt(d[1..], i - 1, v);
      UpdateCons(d, i, (d[i].0, v));
    }
  }

  /** Updating a later entry leaves the head in place. */
  lemma UpdateCons<T>(s: seq<T>, i: nat, x: T)
    requires 0 < i < |s|
    ensures s[i := x] == [s[0]] + s[1..][i - 1 := x]
  {
  }

  /** Scaling the first `n` amounts scales their sum. */
  lemma {:induction false} TotalWeighted(d: Dict<real>, c: real, n: nat)
    requires n <= |d|
    ensures Total(Dicts.Values(Weighted(d, c, n))) == Total(Dicts.Values(d)[..n]) * c
  {
    if n > 0 {
      var m := n - 1;
      TotalWeighted(d, c, m);
      var w := Dicts.Values(Weighted(d, c, n));
      assert w[..m] == Dicts.Values(Weighted(d, c, m));
      assert Dicts.Values(d)[..n][..m] == Dicts.Values(d)[..m];
      var t := Total(Dicts.Values(d)[..m]);
      var y := Dicts.Values(d)[..n][m];
      assert y == d[m].1;
      assert w[m] == d[m].1 * c;
      assert y * c == d[m].1 * c;
      assert (t + y) * c == t * c + y * c;
    }
  }

  /** Blending a composition with itself adds the two weights. */
  lemma {:induction false} BlendSelf(d: Dict<real>, a: real, b: real)
    requires DistinctKeys(d)
    ensures Blend([(d, a), (d, b)]) == Weighted(d, a + b, |d|)
  {
    BlendTwo((d, a), (d, b));
    assert d[..|d|] == d;
    AddIntoFresh(d, a, |d|);
    AddIntoSame(d, a, b, |d|);
    assert PartlyWeighted(d, a, b, |d|) == Weighted(d, a + b, |d|);
  }

  /** Normalising a scaled composition whose amounts sum to one undoes the
      scaling. */
  lemma {:induction false} NormaliseWeighted(d: Dict<real>, c: real)
    requires Total(Dicts.Values(d)) == 1.0 && c != 0.0
    ensures Normalise(Weighted(d, c, |d|)) == Ok(d)
  {
    var w := Weighted(d, c, |d|);
    assert Dicts.Values(d)[..|d|] == Dicts.Values(d);
    TotalWeighted(d, c, |d|);
    if |d| > 0 {
      assert Total(Dicts.Values(w)) == c;
      forall i | 0 <= i < |d| ensures Divided(w, c)[i] == d[i] {
        assert w[i].1 == d[i].1 * c;
        assert d[i].1 * c / c == d[i].1;
      }
      assert Divided(w, c) == d;
    }
  }

  /** Mixing a composition with itself gives it back, when its amounts sum
      to one and the two fractions do not sum to zero. */
  lemma {:induction false} SelfBlend(d: Dict<real>, a: real, b: real)
    requires DistinctKeys(d) && Total(Dicts.Values(d)) == 1.0 && a + b != 0.0
    ensures Normalise(Blend([(d, a), (d, b)])) == Ok(d)
  {
    BlendSelf(d, a, b);
    NormaliseWeighted(d, a + b);
  }

  /** The atomic-mixing example: {H: 0.5, O: 0.5} at 0.2 with
      {C: 0.2, O: 0.8} at 0.8. */
  lemma {:induction false} AtomicExample()
    ensures Normalise(Blend([([("H", 0.5), ("O", 0.5)], 0.2), ([("C", 0.2), ("O", 0.8)], 0.8)]))
         == Ok([("H", 0.1), ("O", 0.74), ("C", 0.16)])
  {
    var d1: Dict<real> := [("H", 0.5), ("O", 0.5)];
    var d2: Dict<real> := [("C", 0.2), ("O", 0.8)];
    BlendTwo((d1, 0.2), (d2, 0.8));
    ExampleFirst();
    ExampleSecond();
    var blended: Dict<real> := [("H", 0.1), ("O", 0.74), ("C", 0.16)];
    var zero: seq<real> := [];
    assert Dicts.Values(blended) == [0.1, 0.74, 0.16];
    assert Dicts.Values(blended)[..2] == [0.1, 0.74];
    assert Dicts.Values(blended)[..2][..1] == [0.1];
    assert Dicts.Values(blended)[..2][..1][..0] == zero;
    assert Total([0.1]) == 0.1;
    assert Total([0.1, 0.74]) == 0.84;
    assert Total(Dicts.Values(blended)) == 1.0;
    assert Divided(blended, 1.0) == blended;
  }

  lemma {:induction false} ExampleFirst()
    ensures AddInto([], [("H", 0.5), ("O", 0.5)], 0.2) == [("H", 0.1), ("O", 0.1)]
  {
    var d1: Dict<real> := [("H", 0.5), ("O", 0.5)];
    var empty: Dict<real> := [];
    assert d1[..0] == empty && d1[..2] == d1;
    AddIntoStep([], d1, 0.2, 0);
    AddIntoStep([], d1, 0.2, 1);
    SetAbsent([("H", 0.1)], "O", 0.0 + 0.5 * 0.2);
  }

  lemma {:induction false} ExampleSecond()
    ensures AddInto([("H", 0.1), ("O", 0.1)], [("C", 0.2), ("O", 0.8)], 0.8) == [("H", 0.1), ("O", 0.74), ("C", 0.16)]
  {
    var b1: Dict<real> := [("H", 0.1), ("O", 0.1)];
    var d2: Dict<real> := [("C", 0.2), ("O", 0.8)];
    var b2: Dict<real> := [("H", 0.1), ("O", 0.1), ("C", 0.16)];
    var c: Dict<real> := [("C", 0.2)];
    assert d2[..1] == c && d2[..2] == d2;
    calc {
      AddInto(b1, d2, 0.8);
      { AddIntoStep(b1, d2, 0.8, 1); }
      Set(AddInto(b1, c, 0.8), "O", Get(AddInto(b1, c, 0.8), "O").GetOr(0.0) + 0.8 * 0.8);
      { ExampleCarbon(); }
      Set(b2, "O", Get(b2, "O").GetOr(0.0) + 0.8 * 0.8);
      { ExampleOxygen(); }
      [("H", 0.1), ("O", 0.74), ("C", 0.16)];
    }
  }

  /** Carbon is new to the blend and is appended. */
  lemma {:induction false} ExampleCarbon()
    ensures AddInto([("H", 0.1), ("O", 0.1)], [("C", 0.2)], 0.8) == [("H", 0.1), ("O", 0.1), ("C", 0.16)]
  {
    var b1: Dict<real> := [("H", 0.1), ("O", 0.1)];
    var d2: Dict<real> := [("C", 0.2)];
    var empty: Dict<real> := [];
    assert d2[..0] == empty;
    AddIntoStep(b1, d2, 0.8, 0);
    SetAbsent(b1, "C", 0.0 + 0.2 * 0.8);
    assert d2[..1] == d2;
  }

  /** Oxygen is already in the blend and grows in place. */
  lemma {:induction false} ExampleOxygen()
    ensures Set([("H", 0.1), ("O", 0.1), ("C", 0.16)], "O", Get([("H", 0.1), ("O", 0.1), ("C", 0.16)], "O").GetOr(0.0) + 0.8 * 0.8)
         == [("H", 0.1), ("O", 0.74), ("C", 0.16)]
  {
    var b2: Dict<real> := [("H", 0.1), ("O", 0.1), ("C", 0.16)];
    var rest: Dict<real> := [("O", 0.1), ("C", 0.16)];
    assert b2[1..] == rest;
    assert Get(b2, "O") == Some(0.1);
    assert Set(rest, "O", 0.74) == [("O", 0.74), ("C", 0.16)];
  }

  // ---------------------------------------------------------------------
  // _void_check
  // ---------------------------------------------------------------------

  /** The fractions of the constituents. */
  function FractionsOf(mfs: seq<MaterialFraction>): (r: seq<real>)
    reads set mf | mf in mfs
    ensures |r| == |mfs| && forall i :: 0 <= i < |mfs| ==> r[i] == mfs[i].fraction
  {
    seq(|mfs|, i requires 0 <= i < |mfs| reads set mf | mf in mfs => mfs[i].fraction)
  }

  predicate NormalisedType(fractionType: string)
  {
    fractionType == "mass" || fractionType == "atomic"
  }

  /** The fractions after `_void_check`: for atomic and mass mixing,
      fractions not close to summing to one are divided by their sum (a
      zero sum makes them non-finite); for volume mixing the shortfall is
      left as void. */
  function VoidFractions(fracs: seq<real>, fractionType: string): (r: Result<seq<real>>)
    ensures !NormalisedType(fractionType) ==> r == Ok(fracs)
    ensures Num.IsClose(Total(fracs), 1.0) ==> r == Ok(fracs)
  {
    var s := Total(fracs);
    if Num.IsClose(s, 1.0) || !NormalisedType(fractionType) then Ok(fracs)
    else if s == 0.0 then (if |fracs| == 0 then Ok(fracs) else Err(NonFinite))
    else Ok(Scaled(fracs, s))
  }

  /** After the check, atomic and mass fractions sum to one (within
      `isclose`), and a second check changes nothing. */
  lemma {:induction false} VoidFractionsNormalise(fracs: seq<real>, fractionType: string)
    requires NormalisedType(fractionType) && |fracs| > 0 && VoidFractions(fracs, fractionType).Ok?
    ensures Num.IsClose(Total(VoidFractions(fracs, fractionType).value), 1.0)
  {
    var s := Total(fracs);
    if !Num.IsClose(s, 1.0) {
      TotalScaled(fracs, s);
    }
  }

  lemma {:induction false} VoidFractionsIdempotent(fracs: seq<real>, fractionType: string)
    requires VoidFractions(fracs, fractionType).Ok?
    ensures var once := VoidFractions(fracs, fractionType).value;
      VoidFractions(once, fractionType) == Ok(once)
  {
    if NormalisedType(fractionType) && |fracs| > 0 {
      VoidFractionsNormalise(fracs, fractionType);
    }
  }

  /** `_void_check`: the returned fractions, and every constituent's own
      fraction, become `VoidFractions` of the input fractions. */
  method VoidCheck(mfs: seq<MaterialFraction>, fractionType: string) returns (r: Result<seq<real>>)
    requires forall i, j :: 0 <= i < j < |mfs| ==> mfs[i] != mfs[j]
    modifies set mf | mf in mfs
    ensures r == VoidFractions(old(FractionsOf(mfs)), fractionType)
    ensures r.Ok? ==> FractionsOf(mfs) == r.value
    ensures r.Err? ==> FractionsOf(mfs) == old(FractionsOf(mfs))
  {
    var inpFrac := FractionsOf(mfs);
    var sumFrac := Total(inpFrac);
    if !Num.IsClose(sumFrac, 1.0) && NormalisedType(fractionType) {
      if sumFrac == 0.0 {
        if |mfs| > 0 {
          return Err(NonFinite);
        }
        return Ok(inpFrac);
      }
      inpFrac := Scaled(inpFrac, sumFrac);
      for i := 0 to |mfs|
        invariant forall l :: 0 <= l < i ==> mfs[l].fraction == old(mfs[l].fraction) / sumFrac
        invariant forall l :: i <= l < |mfs| ==> mfs[l].fraction == old(mfs[l].fraction)
      {
        mfs[i].fraction := mfs[i].fraction / sumFrac;
      }
    }
    return Ok(inpFrac);
  }
}
