// The parts of the MatML 3.1 document model (tools/matml/matml.py) that do
// more than declare fields: the counter that numbers materials without an
// id, the splitting of a single delimited qualifier when property data is
// validated, and the search for the document node when a file is read.

module MatmlDocument {
  import opened Wrappers
  import opened Strings

  /** `DataFormat`. */
  datatype DataFormat = FloatFormat | IntegerFormat | StringFormat | ExponentialFormat | MixedFormat

  /** A `Unit` of a `Units` element: name and optional power. */
  datatype UnitEntry = UnitEntry(name: Option<string>, power: Option<real>)

  datatype Units = Units(unit: seq<UnitEntry>, system: Option<string>)

  /** `ParameterDetails` and `PropertyDetails`: an id, a name, and units or
      the `Unitless` marker. */
  datatype Details = Details(id: string, name: string, units: Option<Units>, unitless: bool)

  /** `ParameterValue`: the parameter it refers to, its format attribute,
      its data with the data's own optional format, and qualifiers. */
  datatype ParameterValue = ParameterValue(
    parameter: string, format: DataFormat, data: string, dataFormat: Option<DataFormat>, qualifier: seq<string>)

  /** `PropertyData`. */
  datatype PropertyData = PropertyData(
    property: string, data: string, dataFormat: DataFormat, qualifier: seq<string>,
    parameterValue: seq<ParameterValue>, delimiter: string, quote: Option<string>)

  /** `Characterisation`: a formula and the element symbols with their
      subscripts. */
  datatype Characterisation = Characterisation(formula: string, elements: seq<(string, string)>)

  datatype BulkDetails = BulkDetails(name: string, propertyData: seq<PropertyData>, characterisation: Option<Characterisation>)

  datatype Material = Material(bulkDetails: BulkDetails, id: string)

  datatype Metadata = Metadata(propertyDetails: seq<Details>, parameterDetails: seq<Details>)

  /** `MatMLXML`. */
  datatype Document = Document(material: seq<Material>, metadata: Option<Metadata>)

  // ---------------------------------------------------------------------
  // Material numbering
  // ---------------------------------------------------------------------

  /** `mat_id`: the number the next material without an id receives. */
  class MaterialIds {
    var material: nat

    constructor()
      ensures material == 1
    {
      material := 1;
    }

    /** `material_id`: the current number as decimal text, then the
        counter moves on. */
    method MaterialId() returns (id: string)
      modifies this
      ensures id == NatToString(old(material)) && material == old(material) + 1
    {
      id := NatToString(material);
      material := material + 1;
    }

    /** A `Material` is given a fresh number only when it has no id. */
    method NewMaterial(bulkDetails: BulkDetails, id: Option<string>) returns (m: Material)
      modifies this
      ensures id.Some? ==> m == Material(bulkDetails, id.value) && material == old(material)
      ensures id.None? ==> m == Material(bulkDetails, NatToString(old(material))) && material == old(material) + 1
    {
      if id.Some? {
        m := Material(bulkDetails, id.value);
      } else {
        var newId := MaterialId();
        m := Material(bulkDetails, newId);
      }
    }
  }

  /** The ids `count` successive calls hand out from `start`. */
  function IdsFrom(start: nat, count: nat): (r: seq<string>)
    ensures |r| == count
    ensures forall i :: 0 <= i < count ==> r[i] == NatToString(start + i)
  {
    seq(count, i requires 0 <= i < count => NatToString(start + i))
  }

  /** Successive ids are pairwise different and read back as the numbers
      `start`, `start + 1`, ... */
  lemma {:induction false} IdsDistinct(start: nat, count: nat)
    ensures forall i, j :: 0 <= i < j < count ==> IdsFrom(start, count)[i] != IdsFrom(start, count)[j]
    ensures forall i :: 0 <= i < count ==> ParseNat(IdsFrom(start, count)[i]) == start + i
  {
    forall i, j | 0 <= i < j < count ensures IdsFrom(start, count)[i] != IdsFrom(start, count)[j] {
      if NatToString(start + i) == NatToString(start + j) {
        NatToStringInjective(start + i, start + j);
      }
    }
    forall i | 0 <= i < count ensures ParseNat(IdsFrom(start, count)[i]) == start + i {
      NatToStringRoundTrip(start + i);
    }
  }

  /** A fresh counter gives "1", "2", "3". */
  lemma {:induction false} FirstIds()
    ensures IdsFrom(1, 3) == ["1", "2", "3"]
  {
    assert NatToString(1) == "1" && NatToString(2) == "2" && NatToString(3) == "3";
  }

  // ---------------------------------------------------------------------
  // Qualifier validation
  // ---------------------------------------------------------------------

  /** A list holding a single qualifier is split on the delimiter; other
      lists are kept (and the delimiter is not used). */
  function SplitQualifier(q: seq<string>, delimiter: string): (r: seq<string>)
    requires |q| == 1 ==> |delimiter| > 0
    ensures |q| != 1 ==> r == q
    ensures |q| == 1 ==> |r| >= 1 && Join(r, delimiter) == q[0]
  {
    if |q| == 1 then
      JoinSplit(q[0], delimiter);
      SplitFrom(q[0], delimiter, [])
    else q
  }

  /** Validating twice changes nothing more: a split that gives one piece
      gives back the qualifier itself. */
  lemma {:induction false} SplitQualifierIdempotent(q: seq<string>, delimiter: string)
    requires |q| == 1 ==> |delimiter| > 0
    ensures SplitQualifier(SplitQualifier(q, delimiter), delimiter) == SplitQualifier(q, delimiter)
  {
    var r := SplitQualifier(q, delimiter);
    if |q| == 1 && |r| == 1 {
      assert r[0] == q[0];
      assert r == q;
    }
  }

  /** Some qualifier list of the property data, its own or a parameter
      value's, holds a single entry, which validation splits. */
  predicate HasSingleQualifier(pd: PropertyData)
  {
    |pd.qualifier| == 1 || exists i :: 0 <= i < |pd.parameterValue| && |pd.parameterValue[i].qualifier| == 1
  }

  /** The property data after `_qualifier_validation`. */
  function QualifiersSplit(pd: PropertyData): (r: PropertyData)
    requires |pd.delimiter| > 0 || !HasSingleQualifier(pd)
  {
    pd.(qualifier := SplitQualifier(pd.qualifier, pd.delimiter),
        parameterValue := seq(|pd.parameterValue|, i requires 0 <= i < |pd.parameterValue| =>
          pd.parameterValue[i].(qualifier := SplitQualifier(pd.parameterValue[i].qualifier, pd.delimiter))))
  }

  /** Validation of `PropertyData`: the qualifier lists of the property
      data and of each parameter value are split in place when they hold a
      single entry; splitting on an empty delimiter fails. The declared
      minimum length of the delimiter is not checked. */
  method ValidatePropertyData(pd: PropertyData) returns (r: Result<PropertyData>)
    ensures r.Err? <==> pd.delimiter == [] && HasSingleQualifier(pd)
    ensures r.Err? ==> r.error == ValidationError("empty separator")
    ensures r.Ok? ==> r.value == QualifiersSplit(pd)
  {
    var qualifier := pd.qualifier;
    if |qualifier| == 1 {
      if pd.delimiter == [] {
        return Err(ValidationError("empty separator"));
      }
      qualifier := SplitQualifier(qualifier, pd.delimiter);
    }
    var pvs := pd.parameterValue;
    for i := 0 to |pvs|
      invariant |pvs| == |pd.parameterValue|
      invariant forall j :: 0 <= j < i ==> |pd.parameterValue[j].qualifier| == 1 ==> pd.delimiter != []
      invariant forall j :: 0 <= j < i ==>
        pvs[j] == pd.parameterValue[j].(qualifier := SplitQualifier(pd.parameterValue[j].qualifier, pd.delimiter))
      invariant forall j :: i <= j < |pvs| ==> pvs[j] == pd.parameterValue[j]
    {
      if |pvs[i].qualifier| == 1 {
        if pd.delimiter == [] {
          assert |pd.parameterValue[i].qualifier| == 1;
          return Err(ValidationError("empty separator"));
        }
        pvs := pvs[i := pvs[i].(qualifier := SplitQualifier(pvs[i].qualifier, pd.delimiter))];
      }
    }
    ghost var expected := QualifiersSplit(pd);
    assert pvs == expected.parameterValue;
    r := Ok(pd.(qualifier := qualifier, parameterValue := pvs));
  }

  /** After validation no qualifier list holds one entry with the
      delimiter in it, and each list joins back to what was given. */
  lemma {:induction false} QualifiersSplitMeaning(pd: PropertyData)
    requires |pd.delimiter| > 0 || !HasSingleQualifier(pd)
    ensures var r := QualifiersSplit(pd);
      |r.parameterValue| == |pd.parameterValue|
      && (|pd.qualifier| == 1 ==> Join(r.qualifier, pd.delimiter) == pd.qualifier[0])
      && (|pd.qualifier| != 1 ==> r.qualifier == pd.qualifier)
      && forall i :: 0 <= i < |pd.parameterValue| ==>
           r.parameterValue[i].parameter == pd.parameterValue[i].parameter
           && r.parameterValue[i].data == pd.parameterValue[i].data
           && (|pd.parameterValue[i].qualifier| == 1 ==>
                 Join(r.parameterValue[i].qualifier, pd.delimiter) == pd.parameterValue[i].qualifier[0])
           && (|pd.parameterValue[i].qualifier| != 1 ==>
                 r.parameterValue[i].qualifier == pd.parameterValue[i].qualifier)
  {
  }

  // ---------------------------------------------------------------------
  // Reading a file
  // ---------------------------------------------------------------------

  /** An XML element: its tag and its child elements. */
  datatype XmlNode = XmlNode(tag: string, children: seq<XmlNode>)

  predicate TagIs(node: XmlNode, tagName: string)
  {
    Lower(node.tag) == Lower(tagName)
  }

  /** `find_xml_node`: the nodes with the tag, compared without regard to
      case, in document order; a matching node's descendants are not
      searched. */
  function FindXmlNode(node: XmlNode, tagName: string): (r: seq<XmlNode>)
    ensures forall i :: 0 <= i < |r| ==> TagIs(r[i], tagName)
    decreases node, 1
  {
    if TagIs(node, tagName) then [node] else FindInChildren(node.children, tagName)
  }

  function FindInChildren(nodes: seq<XmlNode>, tagName: string): (r: seq<XmlNode>)
    ensures forall i :: 0 <= i < |r| ==> TagIs(r[i], tagName)
    decreases nodes, 0
  {
    if |nodes| == 0 then []
    else FindXmlNode(nodes[0], tagName) + FindInChildren(nodes[1..], tagName)
  }

  /** Some node of the tree has the tag. */
  predicate Contains(node: XmlNode, tagName: string)
  {
    TagIs(node, tagName) || exists i :: 0 <= i < |node.children| && Contains(node.children[i], tagName)
  }

  /** Every node found has the tag, and a node is found exactly when the
      tree holds one. */
  lemma {:induction false} FindXmlNodeMeaning(node: XmlNode, tagName: string)
    ensures forall i :: 0 <= i < |FindXmlNode(node, tagName)| ==> TagIs(FindXmlNode(node, tagName)[i], tagName)
    ensures |FindXmlNode(node, tagName)| > 0 <==> Contains(node, tagName)
    decreases node, 1
  {
    if !TagIs(node, tagName) {
      FindInChildrenMeaning(node.children, tagName);
    }
  }

  lemma {:induction false} FindInChildrenMeaning(nodes: seq<XmlNode>, tagName: string)
    ensures forall i :: 0 <= i < |FindInChildren(nodes, tagName)| ==> TagIs(FindInChildren(nodes, tagName)[i], tagName)
    ensures |FindInChildren(nodes, tagName)| > 0 <==> exists i :: 0 <= i < |nodes| && Contains(nodes[i], tagName)
    decreases nodes, 0
  {
    if |nodes| > 0 {
      FindXmlNodeMeaning(nodes[0], tagName);
      FindInChildrenMeaning(nodes[1..], tagName);
      var here := FindXmlNode(nodes[0], tagName);
      var rest := FindInChildren(nodes[1..], tagName);
      assert forall i :: 0 <= i < |rest| ==> (here + rest)[|here| + i] == rest[i];
      if exists i :: 0 <= i < |nodes| && Contains(nodes[i], tagName) {
        var i :| 0 <= i < |nodes| && Contains(nodes[i], tagName);
        if i > 0 {
          assert nodes[1..][i - 1] == nodes[i];
        }
      }
      if exists i :: 0 <= i < |nodes[1..]| && Contains(nodes[1..][i], tagName) {
        var i :| 0 <= i < |nodes[1..]| && Contains(nodes[1..][i], tagName);
        assert nodes[i + 1] == nodes[1..][i];
      }
    }
  }

  const DocumentTag: string := "MatML_Doc"

  /** A parser failure is a `ValueError`, and so are its subclasses. */
  predicate IsValueError(e: Error)
  {
    e.ValueError? || e.ValidationError? || e.MatMLParserError?
  }

  function ValueErrorMessage(e: Error): string
    requires IsValueError(e)
  {
    match e
    case ValueError(msg) => msg
    case ValidationError(msg) => msg
    case MatMLParserError(msg) => msg
  }

  /** `MatMLXML.from_file` on a parsed tree: exactly one document node is
      read; the XML parser is a parameter, and its `ValueError`s become
      `MatMLParserError`. */
  function FromFile(root: XmlNode, parse: XmlNode -> Result<Document>): (r: Result<Document>)
    ensures |FindXmlNode(root, DocumentTag)| > 1 ==> r == Err(NotImplementedError("More than one MatML material found in xml file"))
    ensures |FindXmlNode(root, DocumentTag)| == 0 ==> r == Err(IndexError)
    ensures r.Ok? ==> |FindXmlNode(root, DocumentTag)| == 1 && r == parse(FindXmlNode(root, DocumentTag)[0])
  {
    var found := FindXmlNode(root, DocumentTag);
    if |found| > 1 then Err(NotImplementedError("More than one MatML material found in xml file"))
    else if |found| == 0 then Err(IndexError)
    else
      var parsed := parse(found[0]);
      if parsed.Err? && IsValueError(parsed.error) then
        Err(MatMLParserError("MatML3.1 xml file not in spec, " + ValueErrorMessage(parsed.error)))
      else parsed
  }

  /** Reading fails with `NotImplementedError` for several document nodes
      and with `IndexError` when the tree has none; otherwise the parser's
      result is passed on, with its value errors reported as
      `MatMLParserError`. */
  lemma {:induction false} FromFileMeaning(root: XmlNode, parse: XmlNode -> Result<Document>)
    ensures var r := FromFile(root, parse);
      var found := FindXmlNode(root, DocumentTag);
      (|found| > 1 ==> r == Err(NotImplementedError("More than one MatML material found in xml file")))
      && (!Contains(root, DocumentTag) ==> r == Err(IndexError))
      && (|found| == 1 ==>
            TagIs(found[0], DocumentTag)
            && (parse(found[0]).Ok? ==> r == parse(found[0]))
            && (parse(found[0]).Err? ==> r.Err? && (r.error.MatMLParserError? <==> IsValueError(parse(found[0]).error))))
  {
    FindXmlNodeMeaning(root, DocumentTag);
  }
}
