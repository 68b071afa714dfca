// numpy-valued quantities: a Python float or an ndarray with a shape, and
// the few numpy operations the library relies on (size, squeeze, full,
// isclose/allclose with their default tolerances, element-wise unit
// conversion through pint).

module Values {
  import opened Wrappers

  /** A pint unit, kept as the text it is written with. */
  type Unit = string

  /** pint's conversion of one magnitude from one unit to another; `None`
      stands for the DimensionalityError of incompatible units. */
  type UnitConverter = (real, Unit, Unit) -> Option<real>

  datatype Value =
    | Scalar(x: real)
    | Array(shape: seq<nat>, data: seq<real>)

  function Product(shape: seq<nat>): nat
  {
    if |shape| == 0 then 1 else shape[0] * Product(shape[1..])
  }

  /** The data of an array holds exactly as many entries as its shape says. */
  predicate WellFormed(v: Value)
  {
    v.Array? ==> |v.data| == Product(v.shape)
  }

  /** The entries of a value in order; a float has one. */
  function Elements(v: Value): (r: seq<real>)
    ensures v.Scalar? ==> r == [v.x]
  {
    match v
    case Scalar(x) => [x]
    case Array(_, data) => data
  }

  /** `v.size` of an ndarray, and 1 for a float. */
  function Size(v: Value): nat
  {
    |Elements(v)|
  }

  /** A float, or a 0-dimensional array: broadcasts against any shape. */
  predicate ScalarLike(v: Value)
  {
    v.Scalar? || |v.shape| == 0
  }

  /** The shape with every dimension of length 1 removed. */
  function SqueezeShape(shape: seq<nat>): (r: seq<nat>)
    ensures forall i :: 0 <= i < |r| ==> r[i] != 1
    ensures |r| <= |shape|
  {
    if |shape| == 0 then []
    else if shape[0] == 1 then SqueezeShape(shape[1..])
    else [shape[0]] + SqueezeShape(shape[1..])
  }

  /** Removing dimensions of length 1 keeps the number of entries. */
  lemma {:induction false} SqueezeKeepsSize(shape: seq<nat>)
    ensures Product(SqueezeShape(shape)) == Product(shape)
  {
    if |shape| > 0 {
      SqueezeKeepsSize(shape[1..]);
      if shape[0] != 1 {
        assert ([shape[0]] + SqueezeShape(shape[1..]))[1..] == SqueezeShape(shape[1..]);
      }
    }
  }

  /** `np.squeeze(v)`: the same data under the squeezed shape. */
  function Squeeze(v: Value): (r: Value)
    ensures Elements(r) == Elements(v)
    ensures WellFormed(v) ==> WellFormed(r)
    ensures r.Array? ==> forall i :: 0 <= i < |r.shape| ==> r.shape[i] != 1
  {
    match v
    case Scalar(x) => v
    case Array(shape, data) =>
      SqueezeKeepsSize(shape);
      Array(SqueezeShape(shape), data)
  }

  /** `np.full(n, x)`. */
  function Full(n: nat, x: real): (r: Value)
    ensures WellFormed(r) && Size(r) == n
    ensures forall i :: 0 <= i < n ==> Elements(r)[i] == x
  {
    assert Product([n]) == n * Product([]);
    Array([n], seq(n, _ => x))
  }

  function Abs(x: real): real { if x < 0.0 then -x else x }

  /** `np.isclose(a, b)` with numpy's default tolerances rtol=1e-05, atol=1e-08. */
  predicate IsClose(a: real, b: real)
  {
    Abs(a - b) <= 0.00000001 + 0.00001 * Abs(b)
  }

  /** A float, or an array whose every axis has length 1: numpy broadcasts
      its single entry against any shape. */
  predicate OneEntry(v: Value)
  {
    v.Scalar? || forall i :: 0 <= i < |v.shape| ==> v.shape[i] == 1
  }

  /** The two values broadcast against each other: one of them has a single
      entry, or both have the same shape. */
  predicate Broadcastable(a: Value, b: Value)
  {
    OneEntry(a) || OneEntry(b) || (a.shape == b.shape && |a.data| == |b.data|)
  }

  function First(v: Value): real
  {
    if |Elements(v)| > 0 then Elements(v)[0] else 0.0
  }

  /** The element pairs numpy compares after broadcasting: a single entry
      is paired with every entry of the other value. */
  function BroadcastPairs(a: Value, b: Value): (r: seq<(real, real)>)
    requires Broadcastable(a, b)
  {
    if OneEntry(a) then seq(|Elements(b)|, i requires 0 <= i < |Elements(b)| => (First(a), Elements(b)[i]))
    else if OneEntry(b) then seq(|Elements(a)|, i requires 0 <= i < |Elements(a)| => (Elements(a)[i], First(b)))
    else seq(|a.data|, i requires 0 <= i < |a.data| => (a.data[i], b.data[i]))
  }

  /** `np.allclose(a, b)`: a ValueError when the shapes do not broadcast,
      otherwise whether every broadcast pair is close. */
  function AllClose(a: Value, b: Value): (r: Result<bool>)
    ensures r.Err? <==> !Broadcastable(a, b)
    ensures r.Ok? ==> (r.value <==> forall p :: p in BroadcastPairs(a, b) ==> IsClose(p.0, p.1))
  {
    if !Broadcastable(a, b) then Err(ValueError("operands could not be broadcast together"))
    else Ok(forall p :: p in BroadcastPairs(a, b) ==> IsClose(p.0, p.1))
  }

  /** A one-entry list broadcasts against a longer one, and an empty array
      against a one-entry one (nothing to compare). */
  lemma {:induction false} AllCloseBroadcasts()
    ensures AllClose(Array([1], [5.0]), Array([2], [5.0, 5.0])) == Ok(true)
    ensures AllClose(Array([1], [5.0]), Array([2], [5.0, 6.0])) == Ok(false)
    ensures AllClose(Array([0], []), Array([1], [5.0])) == Ok(true)
    ensures AllClose(Array([2], [5.0, 5.0]), Array([3], [5.0, 5.0, 5.0])).Err?
  {
    var one := Array([1], [5.0]);
    var two := Array([2], [5.0, 6.0]);
    var twins := Array([2], [5.0, 5.0]);
    var three := Array([3], [5.0, 5.0, 5.0]);
    assert OneEntry(one) && First(one) == 5.0;
    assert twins.shape[0] != 1 && three.shape[0] != 1;
    var empty: Value := Array([0], []);
    assert empty.shape[0] != 1 && BroadcastPairs(empty, one) == [];
    assert Elements(two) == [5.0, 6.0];
    var pairs := BroadcastPairs(one, two);
    assert pairs[1] == (5.0, 6.0);
    assert Abs(5.0 - 6.0) == 1.0;
    assert pairs[1] in pairs;
    var same := BroadcastPairs(one, twins);
    forall p | p in same ensures IsClose(p.0, p.1) {
      var i :| 0 <= i < |same| && same[i] == p;
      assert Elements(twins)[i] == 5.0;
    }
  }

  /** Every value is all-close to itself. */
  lemma {:induction false} AllCloseReflexive(a: Value)
    requires WellFormed(a)
    ensures AllClose(a, a) == Ok(true)
  {
    var pairs := BroadcastPairs(a, a);
    forall p | p in pairs ensures IsClose(p.0, p.1) {
      var i :| 0 <= i < |pairs| && pairs[i] == p;
      if OneEntry(a) {
        assert |Elements(a)| == 1 && i == 0 by { if a.Array? { AllOnesProduct(a.shape); } }
        assert p == (First(a), Elements(a)[0]);
      } else {
        assert p == (a.data[i], a.data[i]);
      }
      assert p.0 == p.1;
    }
  }

  /** A shape of ones describes a single entry. */
  lemma {:induction false} AllOnesProduct(shape: seq<nat>)
    requires forall i :: 0 <= i < |shape| ==> shape[i] == 1
    ensures Product(shape) == 1
  {
    if |shape| > 0 {
      AllOnesProduct(shape[1..]);
    }
  }

  /** Converts every entry; `None` as soon as one entry cannot be converted. */
  function ConvertAll(xs: seq<real>, from: Unit, to: Unit, conv: UnitConverter): (r: Option<seq<real>>)
    ensures r.Some? ==> |r.value| == |xs|
    ensures r.Some? <==> forall i :: 0 <= i < |xs| ==> conv(xs[i], from, to).Some?
    ensures r.Some? ==> forall i :: 0 <= i < |xs| ==> r.value[i] == conv(xs[i], from, to).value
  {
    if |xs| == 0 then Some([])
    else
      match conv(xs[0], from, to)
      case None => None
      case Some(y) =>
        match ConvertAll(xs[1..], from, to, conv)
        case None =>
          assert !conv(xs[1..][0], from, to).Some? || exists i :: 1 <= i < |xs| && !conv(xs[i], from, to).Some? by {
            var i :| 0 <= i < |xs[1..]| && !conv(xs[1..][i], from, to).Some?;
            assert xs[1..][i] == xs[i + 1];
          }
          None
        case Some(ys) =>
          assert forall i :: 1 <= i < |xs| ==> xs[i] == xs[1..][i - 1];
          Some([y] + ys)
  }

  /** A value re-expressed in another unit, entry by entry; the shape is kept. */
  function ConvertValue(v: Value, from: Unit, to: Unit, conv: UnitConverter): (r: Option<Value>)
    ensures r.Some? <==> forall i :: 0 <= i < Size(v) ==> conv(Elements(v)[i], from, to).Some?
    ensures r.Some? ==> Size(r.value) == Size(v) && r.value.Scalar? == v.Scalar?
    ensures r.Some? && v.Array? ==> r.value.shape == v.shape
    ensures r.Some? ==> forall i :: 0 <= i < Size(v) ==> Elements(r.value)[i] == conv(Elements(v)[i], from, to).value
  {
    match ConvertAll(Elements(v), from, to, conv)
    case None => None
    case Some(ys) =>
      match v
      case Scalar(_) => Some(Scalar(ys[0]))
      case Array(shape, _) => Some(Array(shape, ys))
  }

  /** pint converts a magnitude to its own unit without change. */
  ghost predicate IdentityOnSameUnit(conv: UnitConverter)
  {
    forall x: real, u: Unit {:trigger conv(x, u, u)} :: conv(x, u, u) == Some(x)
  }
}
