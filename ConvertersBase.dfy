// The converter registry a material carries: converters to other formats
// (neutronics codes, MatML) keyed by their names.

module ConvertersBase {
  import opened Wrappers
  import opened Dicts

  /** A converter to a secondary format, known to the registry by its name;
      `format` names the converter subclass. */
  datatype Converter = Converter(name: string, format: string)

  /** What a registry can be built from. */
  datatype ConvertersInput =
    | OneConverter(c: Converter)               // a single converter
    | ConverterList(items: seq<Converter>)     // any other iterable
    | ConverterMapping(root: Dict<Converter>)  // a dict, taken as it is

  /** Each converter keyed by its own name. */
  function ByName(items: seq<Converter>): (r: seq<(string, Converter)>)
    ensures |r| == |items| && forall i :: 0 <= i < |items| ==> r[i] == (items[i].name, items[i])
  {
    seq(|items|, i requires 0 <= i < |items| => (items[i].name, items[i]))
  }

  /** `Converters._validation`. */
  function Validation(input: ConvertersInput): (r: Dict<Converter>)
    ensures input.OneConverter? ==> r == [(input.c.name, input.c)]
    ensures input.ConverterMapping? ==> r == input.root
    ensures input.ConverterList? ==>
      (DistinctKeys(r) && forall k :: Get(r, k) == LastWith(ByName(input.items), k))
  {
    match input
    case OneConverter(c) => [(c.name, c)]
    case ConverterMapping(root) => root
    case ConverterList(items) =>
      forall k ensures Get(FromList(ByName(items)), k) == LastWith(ByName(items), k) {
        FromListGet(ByName(items), k);
      }
      FromList(ByName(items))
  }

  /** A list of converters is keyed by each converter's name: the entry at a
      name is a converter of that name. */
  lemma {:induction false} ListKeyedByName(items: seq<Converter>, k: string)
    ensures LastWith(ByName(items), k).Some? ==> LastWith(ByName(items), k).value.name == k
    ensures LastWith(ByName(items), k).Some? <==> exists i :: 0 <= i < |items| && items[i].name == k
  {
    if |items| > 0 {
      var last := |items| - 1;
      ListKeyedByName(items[..last], k);
      assert ByName(items) == ByName(items[..last]) + [(items[last].name, items[last])];
      assert forall i :: 0 <= i < last ==> items[..last][i] == items[i];
    }
  }

  /** `root[name]`, a KeyError when absent. */
  function Lookup(root: Dict<Converter>, name: string): (r: Result<Converter>)
    ensures r.Ok? <==> HasKey(root, name)
    ensures r.Ok? ==> Get(root, name) == Some(r.value)
    ensures r.Err? ==> r.error == KeyError(name)
  {
    match Get(root, name)
    case Some(c) => Ok(c)
    case None => Err(KeyError(name))
  }

  /** After adding a converter it is found under its name, and every other
      name finds what it found before. */
  lemma {:induction false} AddLookup(root: Dict<Converter>, c: Converter, name: string)
    ensures Lookup(Set(root, c.name, c), name) == if name == c.name then Ok(c) else Lookup(root, name)
  {
    if name != c.name {
      SetOther(root, c.name, c, name);
    }
  }

  /** What attribute access gives: the registry's dict itself for "root",
      an entry otherwise. */
  datatype Attribute = RootDict(root: Dict<Converter>) | Entry(c: Converter)

  class Converters {
    var root: Dict<Converter>

    /** The registry built from `input`. */
    constructor(input: ConvertersInput)
      ensures root == Validation(input)
    {
      root := Validation(input);
    }

    /** The default registry is empty. */
    constructor Empty()
      ensures root == []
    {
      root := [];
    }

    /** `add`: insert or replace the entry under the converter's name. */
    method Add(c: Converter)
      modifies this
      ensures root == Set(old(root), c.name, c)
      ensures Lookup(root, c.name) == Ok(c)
      ensures forall k :: k != c.name ==> Lookup(root, k) == Lookup(old(root), k)
    {
      root := Set(root, c.name, c);
      forall k | k != c.name ensures Lookup(root, k) == Lookup(old(root), k) {
        AddLookup(old(root), c, k);
      }
    }

    /** `__getitem__`. */
    function GetItem(name: string): (r: Result<Converter>)
      reads this
      ensures r.Ok? <==> HasKey(root, name)
      ensures r.Ok? ==> Get(root, name) == Some(r.value)
      ensures r.Err? ==> r.error == KeyError(name)
    {
      Lookup(root, name)
    }

    /** `__getattr__`: every name but "root" is looked up in the registry. */
    function GetAttr(name: string): (r: Result<Attribute>)
      reads this
      ensures name == "root" ==> r == Ok(RootDict(root))
      ensures name != "root" ==> (r.Ok? <==> GetItem(name).Ok?)
      ensures name != "root" && r.Ok? ==> r.value == Entry(GetItem(name).value)
    {
      if name == "root" then Ok(RootDict(root))
      else
        var c :- GetItem(name);
        Ok(Entry(c))
    }

    /** `__setattr__`: any other name stores the value in the registry; for
        "root" the value is installed as the root, and storing it under the
        key "root" of a converter fails. */
    method SetAttr(name: string, value: Converter) returns (r: Outcome)
      modifies this
      ensures name != "root" ==> r == Pass && root == Set(old(root), name, value)
      ensures name == "root" ==>
        (r == Fail(TypeError("object does not support item assignment")) && root == old(root))
    {
      if name == "root" {
        return Fail(TypeError("object does not support item assignment"));
      }
      root := Set(root, name, value);
      return Pass;
    }
  }
}
