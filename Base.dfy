// The shared base of the library's models: reference collections keyed by
// id, iteration over a model's fields, the defined/undefined listing of a
// property group, and binding the owning group into dependent properties.

module Base {
  import opened Wrappers
  import opened Dicts

  // ---------------------------------------------------------------------
  // References
  // ---------------------------------------------------------------------

  /** A bibliographic reference; only its id matters to the collection. */
  datatype Reference = Reference(id: string, text: string)

  /** The inputs a reference collection accepts: a list of references, a
      single reference (or a dict with an "id"), or a mapping id -> reference. */
  datatype ReferencesInput =
    | RefList(items: seq<Reference>)
    | OneRecord(r: Reference)
    | RefMapping(root: Dict<Reference>)

  /** Every entry is stored under its own id. */
  predicate KeyedById(d: Dict<Reference>)
  {
    forall i :: 0 <= i < |d| ==> d[i].1.id == d[i].0
  }

  function ById(items: seq<Reference>): (r: seq<(string, Reference)>)
    ensures |r| == |items| && forall i :: 0 <= i < |items| ==> r[i] == (items[i].id, items[i])
  {
    seq(|items|, i requires 0 <= i < |items| => (items[i].id, items[i]))
  }

  /** `_list_to_dict`: a list is keyed by each entry's id (a later entry with
      the same id wins), a single reference becomes a one-entry map, and a
      mapping is kept. */
  function ListToDict(input: ReferencesInput): (r: Dict<Reference>)
    requires input.RefMapping? ==> DistinctKeys(input.root)
    ensures DistinctKeys(r)
    ensures input.OneRecord? ==> r == [(input.r.id, input.r)]
    ensures input.RefMapping? ==> r == input.root
  {
    match input
    case RefList(items) => FromList(ById(items))
    case OneRecord(ref) => [(ref.id, ref)]
    case RefMapping(root) => root
  }

  lemma {:induction false} FromListEntries<V>(entries: seq<(string, V)>)
    ensures forall e :: e in FromList(entries) ==> e in entries
  {
    if |entries| > 0 {
      var prefix := entries[..|entries| - 1];
      FromListEntries(prefix);
      SetEntries(FromList(prefix), entries[|entries| - 1].0, entries[|entries| - 1].1);
      assert forall e :: e in prefix ==> e in entries;
    }
  }

  /** A list of references is keyed by id: looking an id up gives the last
      reference with that id, and every entry sits under its own id. */
  lemma {:induction false} ListKeyedById(items: seq<Reference>, k: string)
    ensures Get(ListToDict(RefList(items)), k) == LastWith(ById(items), k)
    ensures KeyedById(ListToDict(RefList(items)))
  {
    FromListGet(ById(items), k);
    FromListEntries(ById(items));
    var d := ListToDict(RefList(items));
    forall i | 0 <= i < |d| ensures d[i].1.id == d[i].0 {
      assert d[i] in ById(items);
    }
  }

  /** What `combine` is given: another collection, or one reference. */
  datatype Addition = Collection(entries: Dict<Reference>) | Single(ref: Reference)

  /** The collection after setting every entry of `es`, in order. */
  function SetAll(d: Dict<Reference>, es: Dict<Reference>): Dict<Reference>
  {
    if |es| == 0 then d
    else
      var last := es[|es| - 1];
      Set(SetAll(d, es[..|es| - 1]), last.0, last.1)
  }

  /** After `combine`, an id of the addition maps to the addition's
      reference and every other id keeps its reference. */
  lemma {:induction false} SetAllGet(d: Dict<Reference>, es: Dict<Reference>, k: string)
    ensures Get(SetAll(d, es), k) == if LastWith(es, k).Some? then LastWith(es, k) else Get(d, k)
  {
    if |es| > 0 {
      var last := es[|es| - 1];
      SetAllGet(d, es[..|es| - 1], k);
      if last.0 != k {
        SetOther(SetAll(d, es[..|es| - 1]), last.0, last.1, k);
      }
    }
  }

  lemma {:induction false} SetAllKeyed(d: Dict<Reference>, es: Dict<Reference>)
    requires KeyedById(d) && KeyedById(es)
    ensures KeyedById(SetAll(d, es))
  {
    if |es| > 0 {
      var last := es[|es| - 1];
      var prev := SetAll(d, es[..|es| - 1]);
      SetAllKeyed(d, es[..|es| - 1]);
      SetEntries(prev, last.0, last.1);
      var r := Set(prev, last.0, last.1);
      forall i | 0 <= i < |r| ensures r[i].1.id == r[i].0 {
        assert r[i] in r;
        if r[i] in prev {
          var j :| 0 <= j < |prev| && prev[j] == r[i];
        }
      }
    }
  }

  /** The References model: a mapping from id to reference, updated in place. */
  class References {
    var root: Dict<Reference>

    constructor (input: ReferencesInput)
      requires input.RefMapping? ==> DistinctKeys(input.root)
      ensures root == ListToDict(input)
    {
      root := ListToDict(input);
    }

    /** `combine`: writes the addition's entries into `root`. */
    method Combine(addition: Addition)
      modifies this
      ensures addition.Collection? ==> root == SetAll(old(root), addition.entries)
      ensures addition.Single? ==> root == Set(old(root), addition.ref.id, addition.ref)
    {
      match addition
      case Collection(entries) =>
        var i := 0;
        while i < |entries|
          invariant 0 <= i <= |entries|
          invariant root == SetAll(old(root), entries[..i])
        {
          assert entries[..i + 1][..i] == entries[..i];
          root := Set(root, entries[i].0, entries[i].1);
          i := i + 1;
        }
        assert entries[..|entries|] == entries;
      case Single(ref) =>
        root := Set(root, ref.id, ref);
    }
  }

  /** Combining two collections keyed by id keeps the result keyed by id. */
  lemma {:induction false} CombineKeyed(d: Dict<Reference>, addition: Addition)
    requires KeyedById(d)
    requires addition.Collection? ==> KeyedById(addition.entries)
    ensures addition.Collection? ==> KeyedById(SetAll(d, addition.entries))
    ensures addition.Single? ==> KeyedById(Set(d, addition.ref.id, addition.ref))
  {
    match addition
    case Collection(es) => SetAllKeyed(d, es);
    case Single(ref) =>
      SetEntries(d, ref.id, ref);
      var r := Set(d, ref.id, ref);
      forall i | 0 <= i < |r| ensures r[i].1.id == r[i].0 {
        assert r[i] in r;
        if r[i] in d {
          var j :| 0 <= j < |d| && d[j] == r[i];
        }
      }
  }

  // ---------------------------------------------------------------------
  // Iteration over a model
  // ---------------------------------------------------------------------

  /** Declared fields yielded by iteration: not private, not "reference". */
  predicate Visible(name: string)
  {
    !(|name| > 0 && name[0] == '_') && name != "reference"
  }

  function VisibleFields<V(!new)>(fields: Dict<V>): (r: Dict<V>)
    ensures forall e :: e in r <==> e in fields && Visible(e.0)
  {
    if |fields| == 0 then []
    else
      var rest := VisibleFields(fields[1..]);
      assert forall e :: e in fields <==> e == fields[0] || e in fields[1..];
      if Visible(fields[0].0) then [fields[0]] + rest else rest
  }

  /** `__iter__`: the visible declared fields in order, then every extra. */
  function Iterate<V(!new)>(fields: Dict<V>, extras: Dict<V>): (r: Dict<V>)
    ensures forall e :: e in r <==> (e in fields && Visible(e.0)) || e in extras
    ensures |r| >= |extras| && r[|r| - |extras|..] == extras
  {
    VisibleFields(fields) + extras
  }

  // ---------------------------------------------------------------------
  // Listing defined and undefined properties
  // ---------------------------------------------------------------------

  /** The three values of `include_undefined`: False, None and True. */
  datatype IncludeUndefined = OnlyDefined | OnlyUndefined | Everything

  predicate Selected(mode: IncludeUndefined, undefined: bool)
  {
    match mode
    case OnlyDefined => !undefined
    case OnlyUndefined => undefined
    case Everything => true
  }

  /** `list(include_undefined=mode)`: the names, in order, of the entries the
      mode selects. */
  function ListNames<V>(entries: Dict<V>, undefined: V -> bool, mode: IncludeUndefined): (r: seq<string>)
    ensures forall k :: k in r <==> exists i :: 0 <= i < |entries| && entries[i].0 == k && Selected(mode, undefined(entries[i].1))
  {
    if |entries| == 0 then []
    else
      var rest := ListNames(entries[1..], undefined, mode);
      assert forall i :: 1 <= i < |entries| ==> entries[i] == entries[1..][i - 1];
      if Selected(mode, undefined(entries[0].1)) then [entries[0].0] + rest else rest
  }

  /** Listing everything lists every name in order; the defined and the
      undefined names together are exactly the names. */
  lemma {:induction false} ListPartition<V>(entries: Dict<V>, undefined: V -> bool)
    ensures ListNames(entries, undefined, Everything) == Keys(entries)
    ensures multiset(ListNames(entries, undefined, OnlyDefined)) + multiset(ListNames(entries, undefined, OnlyUndefined))
         == multiset(Keys(entries))
  {
    ListEverything(entries, undefined);
    ListSplit(entries, undefined);
  }

  lemma {:induction false} ListEverything<V>(entries: Dict<V>, undefined: V -> bool)
    ensures ListNames(entries, undefined, Everything) == Keys(entries)
  {
    if |entries| > 0 {
      ListEverything(entries[1..], undefined);
      assert Keys(entries) == [entries[0].0] + Keys(entries[1..]);
    }
  }

  lemma {:induction false} ListSplit<V>(entries: Dict<V>, undefined: V -> bool)
    ensures multiset(ListNames(entries, undefined, OnlyDefined)) + multiset(ListNames(entries, undefined, OnlyUndefined))
         == multiset(Keys(entries))
  {
    if |entries| > 0 {
      ListSplit(entries[1..], undefined);
      assert Keys(entries) == [entries[0].0] + Keys(entries[1..]);
    }
  }

  /** No name is listed both as defined and as undefined. */
  lemma {:induction false} ListDisjoint<V>(entries: Dict<V>, undefined: V -> bool)
    requires DistinctKeys(entries)
    ensures forall k :: k in ListNames(entries, undefined, OnlyDefined) ==> k !in ListNames(entries, undefined, OnlyUndefined)
  {
    forall k | k in ListNames(entries, undefined, OnlyDefined)
      ensures k !in ListNames(entries, undefined, OnlyUndefined)
    {
      var i :| 0 <= i < |entries| && entries[i].0 == k && !undefined(entries[i].1);
    }
  }

  // ---------------------------------------------------------------------
  // Injecting the owner into dependent properties
  // ---------------------------------------------------------------------

  /** A callable, seen through its signature: the names of the parameters it
      still takes, and whether it is a `functools.partial`. */
  datatype Fn = Fn(params: seq<string>, isPartial: bool)

  /** The value of a dependent property. */
  datatype DependentValue =
    | NoValue                                         // None
    | NoDependence                                    // a constant with no dependence
    | Direct(f: Fn)                                   // a callable
    | Wrapped(inner: Fn, callParams: seq<string>)     // a callable behind a wrapper

  /** `_injection_check`: some parameter is called "properties" or "self". */
  predicate InjectionCheck(params: seq<string>)
  {
    "properties" in params || "self" in params
  }

  /** `partial(f, owner)`: the first parameter is bound to the owner. */
  function Bind(params: seq<string>): (f: Fn)
    requires |params| > 0
    ensures f.isPartial && f.params == params[1..]
  {
    Fn(params[1..], true)
  }

  /** `_inject_group` on one dependent property value. */
  function Inject(v: DependentValue): DependentValue
  {
    match v
    case Direct(f) =>
      if !f.isPartial && InjectionCheck(f.params) then Direct(Bind(f.params)) else v
    case Wrapped(inner, callParams) =>
      if InjectionCheck(inner.params) then Wrapped(Bind(inner.params), callParams)
      else if InjectionCheck(callParams) then Direct(Bind(callParams))
      else v
    case _ => v
  }

  /** The owner is bound only into callables whose signature asks for it;
      values with no callable, with no dependence, or already partial are
      left alone. */
  lemma {:induction false} InjectMeaning(v: DependentValue)
    ensures v.NoValue? || v.NoDependence? || (v.Direct? && v.f.isPartial) ==> Inject(v) == v
    ensures v.Direct? && !v.f.isPartial ==>
      (Inject(v) != v <==> InjectionCheck(v.f.params))
      && (InjectionCheck(v.f.params) ==> Inject(v) == Direct(Fn(v.f.params[1..], true)))
    ensures v.Wrapped? ==> (Inject(v) != v <==> InjectionCheck(v.inner.params) || InjectionCheck(v.callParams))
  {
    if v.Direct? && !v.f.isPartial && InjectionCheck(v.f.params) {
      assert Inject(v).f.isPartial;
    }
  }

  /** An attribute of a group: a dependent property's value, or anything else. */
  datatype Attr = Dependent(value: DependentValue) | NotDependent

  function InjectAttr(name: string, a: Attr): Attr
  {
    if |name| > 0 && name[0] == '_' then a
    else
      match a
      case Dependent(v) => Dependent(Inject(v))
      case NotDependent => a
  }

  /** A model whose attributes get the owner bound in after validation. */
  class Group {
    var attrs: Dict<Attr>

    /** `_inject_group`: every public attribute holding a dependent property
        has its value rebound. */
    method InjectGroup()
      modifies this
      ensures |attrs| == |old(attrs)|
      ensures forall i :: 0 <= i < |attrs| ==>
        attrs[i] == (old(attrs)[i].0, InjectAttr(old(attrs)[i].0, old(attrs)[i].1))
    {
      var i := 0;
      while i < |attrs|
        invariant 0 <= i <= |attrs| == |old(attrs)|
        invariant forall j :: 0 <= j < i ==> attrs[j] == (old(attrs)[j].0, InjectAttr(old(attrs)[j].0, old(attrs)[j].1))
        invariant forall j :: i <= j < |attrs| ==> attrs[j] == old(attrs)[j]
      {
        attrs := attrs[i := (attrs[i].0, InjectAttr(attrs[i].0, attrs[i].1))];
        i := i + 1;
      }
    }
  }
}
