/**
 * The DATEV document-archive manifest (`datev_creator/archive.py`): the
 * records of `document.xml` and the `build_*` functions that turn them
 * into elements. Element and attribute names carry no namespace except
 * the `xsi` ones.
 *
 * The extension record carries the name of the file it references, which
 * the source's record lacks; the builder used by the rest of the model
 * writes that name into the `datafile`/`name` attribute. The extension
 * builder as written is modelled beside it (`ExtensionElementAsWritten`).
 */
module Archive {
  import opened Common
  import opened Xml
  import LedgerXml

  const ArchiveNameSpace: string := "http://xml.datev.de/bedi/tps/document/v06.0"
  const ArchiveSchemaLocation: string := "http://xml.datev.de/bedi/tps/document/v06.0 Document_v060.xsd"

  /** A name given as a plain string. */
  function Plain(name: string): Name
  {
    Name(None, name)
  }

  // ---------------------------------------------------------------------------
  // Extension types and the attribute naming the file
  // ---------------------------------------------------------------------------

  datatype XsiType = AccountsPayableLedger | AccountsReceivableLedger | CashLedger | File | Invoice | SepaFile

  /** The enum value, written into `xsi:type`. */
  function TypeValue(t: XsiType): string
  {
    match t
    case AccountsPayableLedger => "accountsPayableLedger"
    case AccountsReceivableLedger => "accountsReceivableLedger"
    case CashLedger => "cashLedger"
    case File => "File"
    case Invoice => "Invoice"
    case SepaFile => "SEPAFile"
  }

  lemma TypeValueInjective(s: XsiType, t: XsiType)
    ensures TypeValue(s) == TypeValue(t) <==> s == t
  {
  }

  /** `XSI_Type.attribute` as written: "datafile" for File and SEPAFile, "name" for the rest. */
  function AttributeAsWritten(t: XsiType): string
  {
    if t == File || t == SepaFile then "datafile" else "name"
  }

  /**
   * The attribute of the table in the extension's documentation: the
   * XML data files and invoices reference their file by `datafile`, plain
   * files and SEPA files by `name`.
   */
  function Attribute(t: XsiType): (r: string)
    ensures r == "name" <==> t == File || t == SepaFile
    ensures r == "datafile" <==> !(t == File || t == SepaFile)
  {
    if t == File || t == SepaFile then "name" else "datafile"
  }

  /** The two differ for every type: the lookup as written is the table reversed. */
  lemma AttributeReversed(t: XsiType)
    ensures AttributeAsWritten(t) != Attribute(t)
    ensures AttributeAsWritten(t) == (if Attribute(t) == "name" then "datafile" else "name")
  {
  }

  // ---------------------------------------------------------------------------
  // Records
  // ---------------------------------------------------------------------------

  datatype PropertyKey = InvoiceMonthFormat | CacheRegisterAccountNumber | InvoiceFolder

  function KeyValue(k: PropertyKey): (r: string)
    ensures r in ["1", "2", "3"]
  {
    match k
    case InvoiceMonthFormat => "1"
    case CacheRegisterAccountNumber => "2"
    case InvoiceFolder => "3"
  }

  datatype Property = Property(key: PropertyKey, value: string)

  /** The `property` field: None, a single property, or a tuple of them. */
  datatype Properties = NoProperty | Single(property: Property) | Several(properties: seq<Property>)

  /** The repository level ids "1", "2" and "3". */
  datatype Level = Category | Folder | Register

  function LevelValue(l: Level): string
  {
    match l
    case Category => "1"
    case Folder => "2"
    case Register => "3"
  }

  type LevelTriple = s: seq<Level> | |s| == 3 witness [Category, Folder, Register]
  type NameTriple = s: seq<string> | |s| == 3 witness ["", "", ""]

  datatype Repository = Repository(ids: LevelTriple, names: NameTriple)

  datatype Header = Header(
    date: string,
    description: Option<string>,
    consultantNumber: Option<string>,
    clientNumber: Option<string>,
    clientName: Option<string>)

  datatype Extension = Extension(xsiType: XsiType, property: Properties, filename: string)

  datatype Document = Document(
    extensions: seq<Extension>,
    repository: Option<Repository>,
    guid: Option<string>,
    docType: Option<string>,
    processId: Option<string>,
    description: Option<string>,
    keywords: Option<string>)

  datatype ArchiveRecord = ArchiveRecord(
    header: Header,
    documents: seq<Document>,
    xmlns: string,
    xmlnsXsi: string,
    xsiSchemaLocation: string,
    version: string,
    generatingSystem: Option<string>)

  /** `Archive(header, content, ...)` with the dataclass defaults. */
  function NewArchive(header: Header, documents: seq<Document>, generatingSystem: Option<string>): (r: ArchiveRecord)
    ensures r.version == "6.0" && r.xmlns == ArchiveNameSpace && r.xsiSchemaLocation == ArchiveSchemaLocation
  {
    ArchiveRecord(header, documents, ArchiveNameSpace, LedgerXml.XsiNameSpace, ArchiveSchemaLocation, "6.0",
                  generatingSystem)
  }

  // ---------------------------------------------------------------------------
  // What each element holds
  // ---------------------------------------------------------------------------

  /** The optional children of `<header>`, in the order the builder considers them. */
  function HeaderRun(h: Header): Run
  {
    var description := if h.description.Some? then Some(Prefix(h.description.value, 255)) else None;
    Then(Then(Then(Then(Start, Plain("description"), description), Plain("consultantNumber"), h.consultantNumber),
              Plain("clientNumber"), h.clientNumber), Plain("clientName"), h.clientName)
  }

  function HeaderElement(h: Header): Element
  {
    Element(Plain("header"), [], [], None, Grow([Leaf(Plain("date"), h.date)], HeaderRun(h)))
  }

  /** The `property` list the builder walks: none, the one, or the tuple's elements in order. */
  function PropertyList(p: Properties): (r: seq<Property>)
    ensures p.NoProperty? ==> r == []
    ensures p.Single? ==> r == [p.property]
    ensures p.Several? ==> r == p.properties
  {
    match p
    case NoProperty => []
    case Single(q) => [q]
    case Several(qs) => qs
  }

  function PropertyElement(p: Property): Element
  {
    Element(Plain("property"), [(Plain("value"), p.value), (Plain("key"), KeyValue(p.key))], [], None, [])
  }

  /** The extension element: its type, the file it references, then one child per property. */
  function ExtensionElement(x: Extension): Element
  {
    Element(Plain("extension"),
            [(Name(Some(LedgerXml.XsiNameSpace), "type"), TypeValue(x.xsiType)),
             (Plain(Attribute(x.xsiType)), x.filename)],
            [], None, Map(PropertyList(x.property), PropertyElement))
  }

  function LevelElement(id: Level, name: string): Element
  {
    Element(Plain("level"), [(Plain("id"), LevelValue(id)), (Plain("name"), name)], [], None, [])
  }

  function RepositoryElement(r: Repository): Element
  {
    Element(Plain("repository"), [], [], None,
            [LevelElement(r.ids[0], r.names[0]), LevelElement(r.ids[1], r.names[1]),
             LevelElement(r.ids[2], r.names[2])])
  }

  function DocumentAttributes(d: Document): seq<(Name, string)>
  {
    OptionalAttribute(Plain("guid"), d.guid)
    + OptionalAttribute(Plain("type"), d.docType)
    + OptionalAttribute(Plain("processID"), d.processId)
    + OptionalAttribute(Plain("description"), d.description)
    + OptionalAttribute(Plain("keywords"), d.keywords)
  }

  function DocumentChildren(d: Document): seq<Element>
  {
    Map(d.extensions, ExtensionElement)
    + (if d.repository.Some? then [RepositoryElement(d.repository.value)] else [])
  }

  function DocumentElement(d: Document): Element
  {
    Element(Plain("document"), DocumentAttributes(d), [], None, DocumentChildren(d))
  }

  function ContentElement(documents: seq<Document>): Element
  {
    Element(Plain("content"), [], [], None, Map(documents, DocumentElement))
  }

  /** The root: fixed schema location and version whatever the record says, header then content. */
  function ArchiveElement(a: ArchiveRecord): Element
  {
    Element(Plain("archive"),
            [(Name(Some(LedgerXml.XsiNameSpace), "schemaLocation"), ArchiveSchemaLocation), (Plain("version"), "6.0")],
            [(None, ArchiveNameSpace), (Some("xsi"), LedgerXml.XsiNameSpace)], None,
            [HeaderElement(a.header), ContentElement(a.documents)])
  }

  // ---------------------------------------------------------------------------
  // The builders
  // ---------------------------------------------------------------------------

  /** `build_archive_header_xml`. */
  method BuildHeader(h: Header) returns (e: Element)
    ensures e == HeaderElement(h)
  {
    var children := [Leaf(Plain("date"), h.date)];
    ghost var fixed, run := children, Start;
    var description := if h.description.Some? then Some(Prefix(h.description.value, 255)) else None;
    children, run := AppendOptional(children, fixed, run, Plain("description"), description);
    children, run := AppendOptional(children, fixed, run, Plain("consultantNumber"), h.consultantNumber);
    children, run := AppendOptional(children, fixed, run, Plain("clientNumber"), h.clientNumber);
    children, run := AppendOptional(children, fixed, run, Plain("clientName"), h.clientName);
    e := Element(Plain("header"), [], [], None, children);
  }

  /** `build_archive_content_document_extension_xml`, writing the file name into the attribute. */
  method BuildExtension(x: Extension) returns (e: Element)
    ensures e == ExtensionElement(x)
  {
    var attributes := [(Name(Some(LedgerXml.XsiNameSpace), "type"), TypeValue(x.xsiType)),
                       (Plain(Attribute(x.xsiType)), x.filename)];
    var props: seq<Property> := [];
    if x.property.Single? {
      props := [x.property.property];
    } else if x.property.Several? {
      props := x.property.properties;
    }
    var children: seq<Element> := [];
    for i := 0 to |props|
      invariant children == Map(props[..i], PropertyElement)
    {
      assert props[..i + 1][..i] == props[..i];
      children := children + [PropertyElement(props[i])];
    }
    assert props[..|props|] == props;
    e := Element(Plain("extension"), attributes, [], None, children);
  }

  /** The attribute dict of `build_archive_content_document_xml`. */
  method BuildDocumentAttributes(d: Document) returns (attributes: seq<(Name, string)>)
    ensures attributes == DocumentAttributes(d)
  {
    attributes := [];
    attributes := AppendAttribute(attributes, Plain("guid"), d.guid);
    attributes := AppendAttribute(attributes, Plain("type"), d.docType);
    attributes := AppendAttribute(attributes, Plain("processID"), d.processId);
    attributes := AppendAttribute(attributes, Plain("description"), d.description);
    attributes := AppendAttribute(attributes, Plain("keywords"), d.keywords);
  }

  /** The `repository` child with its three `level` children. */
  method BuildRepository(r: Repository) returns (e: Element)
    ensures e == RepositoryElement(r)
  {
    var levels: seq<Element> := [];
    for i := 0 to 3
      invariant |levels| == i
      invariant forall j :: 0 <= j < i ==> levels[j] == LevelElement(r.ids[j], r.names[j])
    {
      levels := levels + [LevelElement(r.ids[i], r.names[i])];
    }
    e := Element(Plain("repository"), [], [], None, levels);
  }

  /** `build_archive_content_document_xml`. */
  method BuildDocument(d: Document) returns (e: Element)
    ensures e == DocumentElement(d)
  {
    var attributes := BuildDocumentAttributes(d);
    var children: seq<Element> := [];
    for i := 0 to |d.extensions|
      invariant children == Map(d.extensions[..i], ExtensionElement)
    {
      var x := BuildExtension(d.extensions[i]);
      assert d.extensions[..i + 1][..i] == d.extensions[..i];
      children := children + [x];
    }
    assert d.extensions[..|d.extensions|] == d.extensions;
    if d.repository.Some? {
      var repository := BuildRepository(d.repository.value);
      children := children + [repository];
    }
    e := Element(Plain("document"), attributes, [], None, children);
  }

  /** `build_archive_content_xml`. */
  method BuildContent(documents: seq<Document>) returns (e: Element)
    ensures e == ContentElement(documents)
  {
    var children: seq<Element> := [];
    for i := 0 to |documents|
      invariant children == Map(documents[..i], DocumentElement)
    {
      var d := BuildDocument(documents[i]);
      assert documents[..i + 1][..i] == documents[..i];
      children := children + [d];
    }
    assert documents[..|documents|] == documents;
    e := Element(Plain("content"), [], [], None, children);
  }

  /** `build_archive_xml`. */
  method BuildArchive(a: ArchiveRecord) returns (e: Element)
    ensures e == ArchiveElement(a)
  {
    var header := BuildHeader(a.header);
    var content := BuildContent(a.documents);
    e := Element(Plain("archive"),
                 [(Name(Some(LedgerXml.XsiNameSpace), "schemaLocation"), ArchiveSchemaLocation),
                  (Plain("version"), "6.0")],
                 [(None, ArchiveNameSpace), (Some("xsi"), LedgerXml.XsiNameSpace)], None,
                 [header, content]);
  }

  // ---------------------------------------------------------------------------
  // Properties of the manifest
  // ---------------------------------------------------------------------------

  const HeaderTags: seq<Name> := [Plain("description"), Plain("consultantNumber"), Plain("clientNumber"),
                                  Plain("clientName")]

  /** Reads a header element back: the date leaf, then the optional leaves. */
  function ReadHeader(e: Element): (r: Option<Header>)
  {
    if e.tag != Plain("header") || e.attributes != [] || e.nsmap != [] || e.text.Some? then None
    else
      var (front, run) := ReadRun(e.children, HeaderTags);
      if |front| != 1 then None
      else
        var date :- LeafText(front[0], Plain("date"));
        match run
        case Then(Then(Then(Then(Start, _, description), _, consultant), _, clientNumber), _, clientName) =>
          Some(Header(date, description, consultant, clientNumber, clientName))
        case _ => None
  }

  /**
   * The header element holds the date and exactly the present optional
   * fields: reading it back gives the header with its description cut to
   * 255 characters, and a header whose description fits comes back whole.
   */
  lemma HeaderRoundTrip(h: Header)
    ensures ReadHeader(HeaderElement(h)) == Some(h.(description := LedgerXml.Cut(h.description, 255)))
    ensures h.description.None? || |h.description.value| <= 255 ==> ReadHeader(HeaderElement(h)) == Some(h)
  {
    var run := HeaderRun(h);
    assert Tags(run.init.init.init) == [Plain("description")];
    assert Tags(run.init.init) == [Plain("description"), Plain("consultantNumber")];
    assert Tags(run.init) == [Plain("description"), Plain("consultantNumber"), Plain("clientNumber")];
    assert Tags(run) == HeaderTags;
    assert Distinct(HeaderTags);
    ReadRunOfGrow([Leaf(Plain("date"), h.date)], run);
  }

  /** `get` after one optional assignment, for one key. */
  lemma GetAfter(attributes: seq<(Name, string)>, key: Name, value: Option<string>, k: Name)
    ensures Get(attributes + OptionalAttribute(key, value), k)
            == if k == key && value.Some? then value else Get(attributes, k)
  {
    GetOptional(attributes, key, value);
  }

  /** What `get` finds among a document's attributes under any one name. */
  lemma DocumentAttributeRead(d: Document, k: Name)
    ensures Get(DocumentAttributes(d), k)
            == if k == Plain("keywords") && d.keywords.Some? then d.keywords
               else if k == Plain("description") && d.description.Some? then d.description
               else if k == Plain("processID") && d.processId.Some? then d.processId
               else if k == Plain("type") && d.docType.Some? then d.docType
               else if k == Plain("guid") && d.guid.Some? then d.guid
               else None
  {
    var a0: seq<(Name, string)> := [];
    var a1 := a0 + OptionalAttribute(Plain("guid"), d.guid);
    var a2 := a1 + OptionalAttribute(Plain("type"), d.docType);
    var a3 := a2 + OptionalAttribute(Plain("processID"), d.processId);
    var a4 := a3 + OptionalAttribute(Plain("description"), d.description);
    assert a4 + OptionalAttribute(Plain("keywords"), d.keywords) == DocumentAttributes(d);
    GetAfter(a0, Plain("guid"), d.guid, k);
    GetAfter(a1, Plain("type"), d.docType, k);
    GetAfter(a2, Plain("processID"), d.processId, k);
    GetAfter(a3, Plain("description"), d.description, k);
    GetAfter(a4, Plain("keywords"), d.keywords, k);
  }

  /** Each of the five attributes of a document is present exactly when its field is, with the field's value. */
  lemma DocumentAttributesRead(d: Document)
    ensures var a := DocumentAttributes(d);
      && Get(a, Plain("guid")) == d.guid
      && Get(a, Plain("type")) == d.docType
      && Get(a, Plain("processID")) == d.processId
      && Get(a, Plain("description")) == d.description
      && Get(a, Plain("keywords")) == d.keywords
  {
    DocumentAttributeRead(d, Plain("guid"));
    DocumentAttributeRead(d, Plain("type"));
    DocumentAttributeRead(d, Plain("processID"));
    DocumentAttributeRead(d, Plain("description"));
    DocumentAttributeRead(d, Plain("keywords"));
  }

  /**
   * A document element holds one extension element per extension, in
   * order, followed by the repository when there is one, with its three
   * levels pairing the i-th id with the i-th name.
   */
  lemma {:induction false} DocumentShape(d: Document)
    ensures var cs := DocumentElement(d).children;
      && |cs| == |d.extensions| + (if d.repository.Some? then 1 else 0)
      && (forall i :: 0 <= i < |d.extensions| ==> cs[i] == ExtensionElement(d.extensions[i]))
      && (d.repository.Some? ==>
            && cs[|cs| - 1].tag == Plain("repository")
            && |cs[|cs| - 1].children| == 3
            && forall i :: 0 <= i < 3 ==>
                 cs[|cs| - 1].children[i] == LevelElement(d.repository.value.ids[i], d.repository.value.names[i]))
  {
    forall i | 0 <= i < |d.extensions|
      ensures DocumentElement(d).children[i] == ExtensionElement(d.extensions[i])
    {
      MapAt(d.extensions, ExtensionElement, i);
    }
  }

  /**
   * An extension element carries its type in `xsi:type` and the file in
   * the attribute the table names, and has one `property` child per
   * property, in order, each with the property's value and key.
   */
  lemma {:induction false} ExtensionShape(x: Extension)
    ensures var e := ExtensionElement(x);
      && Get(e.attributes, Name(Some(LedgerXml.XsiNameSpace), "type")) == Some(TypeValue(x.xsiType))
      && Get(e.attributes, Plain(Attribute(x.xsiType))) == Some(x.filename)
      && |e.children| == |PropertyList(x.property)|
      && forall i :: 0 <= i < |e.children| ==>
           Get(e.children[i].attributes, Plain("value")) == Some(PropertyList(x.property)[i].value)
           && Get(e.children[i].attributes, Plain("key")) == Some(KeyValue(PropertyList(x.property)[i].key))
  {
    var ps := PropertyList(x.property);
    forall i | 0 <= i < |ps|
      ensures ExtensionElement(x).children[i] == PropertyElement(ps[i])
    {
      MapAt(ps, PropertyElement, i);
    }
  }

  /** Content holds one document element per document, in order. */
  lemma ContentShape(documents: seq<Document>)
    ensures |ContentElement(documents).children| == |documents|
    ensures forall i :: 0 <= i < |documents| ==> ContentElement(documents).children[i] == DocumentElement(documents[i])
  {
    forall i | 0 <= i < |documents|
      ensures ContentElement(documents).children[i] == DocumentElement(documents[i])
    {
      MapAt(documents, DocumentElement, i);
    }
  }

  /**
   * The root has version "6.0" and the fixed schema location, and exactly
   * the header then the content as children; the record's own version,
   * namespace and generating system are not written.
   */
  lemma ArchiveShape(a: ArchiveRecord, b: ArchiveRecord)
    ensures var e := ArchiveElement(a);
      && Get(e.attributes, Plain("version")) == Some("6.0")
      && Get(e.attributes, Name(Some(LedgerXml.XsiNameSpace), "schemaLocation")) == Some(ArchiveSchemaLocation)
      && e.children == [HeaderElement(a.header), ContentElement(a.documents)]
    ensures a.header == b.header && a.documents == b.documents ==> ArchiveElement(a) == ArchiveElement(b)
  {
  }

  /** The names of the corrected manifest all pass lxml's name check. */
  lemma ExtensionNamesValid(x: Extension)
    ensures NamesValid(ExtensionElement(x))
  {
    var e := ExtensionElement(x);
    assert ValidName(Plain(Attribute(x.xsiType))) by {
      if Attribute(x.xsiType) == "name" {
        assert "name"[0] != ':' && "name"[1] != ':' && "name"[2] != ':' && "name"[3] != ':';
      } else {
        assert forall k :: 0 <= k < 8 ==> "datafile"[k] != ':';
      }
    }
    assert ValidName(Name(Some(LedgerXml.XsiNameSpace), "type")) by {
      assert forall k :: 0 <= k < 4 ==> "type"[k] != ':';
    }
    assert ValidName(Plain("extension")) by {
      assert forall k :: 0 <= k < 9 ==> "extension"[k] != ':';
    }
    forall c <- e.children
      ensures NamesValid(c)
    {
      var i :| 0 <= i < |e.children| && e.children[i] == c;
      MapAt(PropertyList(x.property), PropertyElement, i);
      assert forall k :: 0 <= k < 8 ==> "property"[k] != ':';
      assert forall k :: 0 <= k < 5 ==> "value"[k] != ':';
      assert forall k :: 0 <= k < 3 ==> "key"[k] != ':';
    }
  }

  // ---------------------------------------------------------------------------
  // The extension builder as written
  // ---------------------------------------------------------------------------

  /**
   * The element the extension builder asks lxml for: tag "document",
   * attribute "xsi:type" given as a plain string, and the attribute named
   * by the reversed lookup holding that same word.
   */
  function ExtensionElementAsWritten(x: Extension): Element
  {
    Element(Plain("document"),
            [(Plain("xsi:type"), TypeValue(x.xsiType)),
             (Plain(AttributeAsWritten(x.xsiType)), AttributeAsWritten(x.xsiType))],
            [], None, Map(PropertyList(x.property), PropertyElement))
  }

  /** lxml refuses an element whose attribute names are not valid names. */
  function ExtensionBuildAsWritten(x: Extension): Result<Element>
  {
    var e := ExtensionElementAsWritten(x);
    if forall a <- e.attributes :: ValidName(a.0) then Ok(e)
    else Err(ValueError("Invalid attribute name 'xsi:type'"))
  }

  /** As written, building any extension raises: "xsi:type" is not a valid attribute name. */
  lemma ExtensionBuildAsWrittenFails(x: Extension)
    ensures ExtensionBuildAsWritten(x) == Err(ValueError("Invalid attribute name 'xsi:type'"))
  {
    var e := ExtensionElementAsWritten(x);
    assert e.attributes[0].0 == Plain("xsi:type");
    assert "xsi:type"[3] == ':';
    assert !ValidName(e.attributes[0].0);
  }

  /**
   * As written, the element would not reference its file: two extensions
   * of one type and properties but different files give the same element,
   * tagged like the enclosing document; the corrected one tells them apart.
   */
  lemma ExtensionAsWrittenLosesFile(x: Extension, y: Extension)
    requires x.xsiType == y.xsiType && x.property == y.property && x.filename != y.filename
    ensures ExtensionElementAsWritten(x) == ExtensionElementAsWritten(y)
    ensures ExtensionElementAsWritten(x).tag == Plain("document")
    ensures ExtensionElement(x) != ExtensionElement(y)
    ensures ExtensionElement(x).tag == Plain("extension")
  {
    assert ExtensionElement(x).attributes[1].1 == x.filename;
    assert ExtensionElement(y).attributes[1].1 == y.filename;
  }
}
