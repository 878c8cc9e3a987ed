/**
 * The manifest assembly of `converter_app/archive_builder.py`: one archive
 * document per converted invoice, in the order of the input mapping, and
 * the list of ledger files handed to the zip writer. The input mapping is
 * a sequence of (PDF file name, (ledger import, (year, month))) entries;
 * the clock reading for the header date is a parameter.
 */
module ArchiveAssembly {
  import opened Common
  import opened Dates
  import opened Archive
  import LedgerXml
  import Zugferd

  /** One entry of the input mapping: the PDF's file name, its ledger import and (year, month). */
  type Entry = (string, (LedgerXml.LedgerImport, (int, int)))

  const InvoiceFolderName: string := "Kundenrechnungen"

  // ---------------------------------------------------------------------------
  // File names
  // ---------------------------------------------------------------------------

  /** Python `name.rfind(c)`: the last position of `c`, or -1. */
  function RFind(s: string, c: char): (r: int)
    ensures -1 <= r < |s|
    ensures r >= 0 ==> s[r] == c && NoChar(s[r + 1..], c)
    ensures r == -1 ==> NoChar(s, c)
  {
    if |s| == 0 then -1
    else if s[|s| - 1] == c then |s| - 1
    else
      var r := RFind(s[..|s| - 1], c);
      assert r >= 0 ==> s[r + 1..] == s[..|s| - 1][r + 1..] + [s[|s| - 1]];
      r
  }

  /** `PurePath.stem`: the name without its suffix, a suffix being a last dot neither first nor last. */
  function Stem(name: string): string
  {
    var i := RFind(name, '.');
    if 0 < i < |name| - 1 then name[..i] else name
  }

  /** `Path(name).with_suffix(".xml").name`: ValueError for an empty name. */
  function XmlName(name: string): (r: Result<string>)
    ensures r.Ok? <==> name != ""
    ensures r.Ok? ==> EndsWith(r.value, ".xml")
  {
    if name == "" then Err(ValueError("'" + name + "' has an empty name"))
    else
      var n := Stem(name) + ".xml";
      assert n[|n| - 4..] == ".xml";
      Ok(n)
  }

  /** A PDF name "x.pdf" with a non-empty stem becomes "x.xml"; a name without a dot gets ".xml" appended. */
  lemma XmlNameOfPdf(stem: string)
    requires |stem| > 0
    ensures XmlName(stem + ".pdf") == Ok(stem + ".xml")
    ensures NoChar(stem, '.') && stem[0] != '.' ==> XmlName(stem) == Ok(stem + ".xml")
  {
    var name := stem + ".pdf";
    assert name[|stem|] == '.';
    assert name[|stem| + 1..] == "pdf";
    assert RFind(name, '.') == |stem| by {
      assert name[..|name| - 1] == stem + ".pd";
      assert name[..|name| - 2] == stem + ".p";
      assert name[..|name| - 3] == stem + ".";
    }
    assert name[..|stem|] == stem;
  }

  // ---------------------------------------------------------------------------
  // The invoice-month property
  // ---------------------------------------------------------------------------

  /** `f"{n:0{width}d}"`: zero-padded to the width, the sign counting towards it. */
  function PadInt(n: int, width: nat): string
  {
    if n < 0 then "-" + PadNat(-n, if width > 0 then width - 1 else 0) else PadNat(n, width)
  }

  /** `f"{year:04d}-{month:02d}"`. */
  function MonthValue(year: int, month: int): string
  {
    PadInt(year, 4) + "-" + PadInt(month, 2)
  }

  /**
   * For a valid date the invoice-month property is the date's "YYYY-MM"
   * prefix, seven characters long.
   */
  lemma MonthValueOfDate(d: Date)
    requires Valid(d)
    ensures MonthValue(d.year, d.month) == FormatIso(d)[..7]
    ensures |MonthValue(d.year, d.month)| == 7
  {
    PadNatLength(d.year, 4);
    PadNatLength(d.month, 2);
  }

  /**
   * An invoice issued on a valid date written "%Y-%m-%d" yields the (year,
   * month) the manifest files it under, and that month property is the
   * issue date's "YYYY-MM" prefix.
   */
  lemma IssueMonthProperty(d: Date)
    requires Valid(d)
    ensures Zugferd.IssueYearMonth(FormatIso(d)) == Ok((d.year, d.month))
    ensures MonthValue(d.year, d.month) == FormatIso(d)[..7]
  {
    Zugferd.IssueYearMonthOfIso(d);
    MonthValueOfDate(d);
  }

  // ---------------------------------------------------------------------------
  // The documents
  // ---------------------------------------------------------------------------

  /** The manifest document of one entry: the ledger XML with its two properties, then the PDF. */
  function EntryDocument(e: Entry): Result<Document>
  {
    var xml :- XmlName(e.0);
    var (year, month) := e.1.1;
    Ok(Document(
      extensions := [
        Extension(AccountsReceivableLedger,
                  Several([Property(InvoiceMonthFormat, MonthValue(year, month)), Property(InvoiceFolder, InvoiceFolderName)]),
                  xml),
        Extension(File, NoProperty, e.0)],
      repository := None,
      guid := None,
      docType := None,
      processId := None,
      description := None,
      keywords := None))
  }

  /**
   * Every entry's document has exactly two extensions: the receivable
   * ledger referencing the ".xml" name with the month and folder
   * properties, then the PDF as a File with none; no other field is set.
   */
  lemma EntryDocumentShape(e: Entry)
    ensures EntryDocument(e).Ok? <==> e.0 != ""
    ensures EntryDocument(e).Ok? ==>
      var d := EntryDocument(e).value;
      && |d.extensions| == 2
      && d.extensions[0].xsiType == AccountsReceivableLedger
      && d.extensions[0].filename == XmlName(e.0).value
      && PropertyList(d.extensions[0].property)
         == [Property(InvoiceMonthFormat, MonthValue(e.1.1.0, e.1.1.1)), Property(InvoiceFolder, "Kundenrechnungen")]
      && d.extensions[1].xsiType == File
      && d.extensions[1].filename == e.0
      && PropertyList(d.extensions[1].property) == []
      && d.repository.None? && d.guid.None? && d.docType.None? && d.processId.None?
      && d.description.None? && d.keywords.None?
  {
  }

  /** The document loop of `build_archive_and_save`: one document per entry, in order. */
  method BuildDocuments(data: seq<Entry>) returns (r: Result<seq<Document>>)
    ensures r == MapAll(data, EntryDocument)
  {
    var documents: seq<Document> := [];
    for i := 0 to |data|
      invariant MapAll(data[..i], EntryDocument) == Ok(documents)
    {
      assert data[..i + 1][..i] == data[..i];
      var d := EntryDocument(data[i]);
      if d.Err? {
        MapAllPrefixError(data, i + 1, EntryDocument);
        return Err(d.error);
      }
      documents := documents + [d.value];
    }
    assert data[..|data|] == data;
    return Ok(documents);
  }

  /** The archive record: header dated `now`, the documents, and this software as generating system. */
  function Manifest(data: seq<Entry>, now: string): (r: Result<ArchiveRecord>)
  {
    var documents :- MapAll(data, EntryDocument);
    Ok(NewArchive(Header(now, None, None, None, None), documents, Some(Zugferd.SoftwareName)))
  }

  /**
   * The manifest exists exactly when every PDF has a name; it then holds
   * one document per entry, in order, and a header with only the date.
   */
  lemma ManifestDocuments(data: seq<Entry>, now: string)
    ensures Manifest(data, now).Ok? <==> forall i :: 0 <= i < |data| ==> data[i].0 != ""
    ensures Manifest(data, now).Ok? ==>
      var a := Manifest(data, now).value;
      && |a.documents| == |data|
      && (forall i :: 0 <= i < |data| ==> Ok(a.documents[i]) == EntryDocument(data[i]))
      && a.header == Header(now, None, None, None, None)
      && a.generatingSystem == Some("BombelczykDatevCreator")
  {
    MapAllOk(data, EntryDocument);
    forall i | 0 <= i < |data|
      ensures EntryDocument(data[i]).Ok? <==> data[i].0 != ""
    {
      EntryDocumentShape(data[i]);
    }
  }

  // ---------------------------------------------------------------------------
  // The zip's ledger files
  // ---------------------------------------------------------------------------

  function ZipEntry(e: Entry): Result<(string, LedgerXml.LedgerImport)>
  {
    var xml :- XmlName(e.0);
    Ok((xml, e.1.0))
  }

  /** `[(pdf.with_suffix(".xml").name, ledger[0]) for pdf, ledger in data.items()]`. */
  function ZipDocuments(data: seq<Entry>): Result<seq<(string, LedgerXml.LedgerImport)>>
  {
    MapAll(data, ZipEntry)
  }

  /**
   * The ledger files written into the zip are exactly the files the
   * manifest's ledger extensions reference, each with its entry's ledger
   * import, in the same order.
   */
  lemma ZipNamesMatchManifest(data: seq<Entry>, now: string)
    ensures ZipDocuments(data).Ok? <==> Manifest(data, now).Ok?
    ensures ZipDocuments(data).Ok? ==>
      var z := ZipDocuments(data).value;
      var a := Manifest(data, now).value;
      && |z| == |a.documents|
      && (forall i :: 0 <= i < |z| ==> |a.documents[i].extensions| == 2)
      && forall i :: 0 <= i < |z| ==> z[i].0 == a.documents[i].extensions[0].filename && z[i].1 == data[i].1.0
  {
    MapAllOk(data, ZipEntry);
    ManifestDocuments(data, now);
    forall i | 0 <= i < |data|
      ensures ZipEntry(data[i]).Ok? <==> data[i].0 != ""
    {
      EntryDocumentShape(data[i]);
    }
  }

  /**
   * In the manifest element, an entry's ledger extension names its ".xml"
   * file in `datafile`, and its PDF extension names the PDF in `name`.
   */
  lemma EntryExtensionsReferenceFiles(e: Entry)
    requires EntryDocument(e).Ok?
    ensures var d := EntryDocument(e).value;
      && Xml.Get(ExtensionElement(d.extensions[0]).attributes, Plain("datafile")) == Some(XmlName(e.0).value)
      && Xml.Get(ExtensionElement(d.extensions[1]).attributes, Plain("name")) == Some(e.0)
      && |ExtensionElement(d.extensions[0]).children| == 2
      && |ExtensionElement(d.extensions[1]).children| == 0
  {
    var d := EntryDocument(e).value;
    ExtensionShape(d.extensions[0]);
    ExtensionShape(d.extensions[1]);
  }
}
