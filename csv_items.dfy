/**
 * The booking-batch items and the batch itself
 * (`datev_creator/csv_builder.py`): `BuchungsstapelItem`, its CSV line in
 * the `QUOTE_ALL` dialect and back, its derivation from a ledger import,
 * `ledger_get_date`, and `Buchungsstapel` with its header and its text.
 */
module CsvItems {
  import opened Common
  import opened Dates
  import opened CsvDialect
  import opened CsvHeader
  import opened LedgerXml

  // ---------------------------------------------------------------------------
  // Items
  // ---------------------------------------------------------------------------

  /** Number of fields of a `BuchungsstapelItem`. */
  const ItemFieldCount: nat := 125

  /**
   * A `BuchungsstapelItem`: its fields in declaration order, the order in
   * which `asdict(...).values()` hands them to the CSV writer.
   */
  datatype BookingItem = BookingItem(fields: seq<string>)

  /** The dataclass constructor takes exactly 125 fields. */
  predicate WellFormed(item: BookingItem)
  {
    |item.fields| == ItemFieldCount
  }

  // Zero-based positions of the fields the converter fills in.
  const Umsatz: nat := 0
  const SollHabenKennzeichen: nat := 1
  const Konto: nat := 6
  const Gegenkonto: nat := 7
  const BuSchluessel: nat := 8
  const Belegdatum: nat := 9
  const Belegfeld1: nat := 10
  const Buchungstext: nat := 13
  const UstSchluesselAnzahlungen: nat := 96
  const ErloeskontoAnzahlungen: nat := 100
  const HerkunftKz: nat := 101
  const Skontosperre: nat := 105
  const Festschreibung: nat := 113
  const Generalumkehr: nat := 117
  const BvvPosition: nat := 121

  /** `to_csv_line`: the fields written with `QUOTE_ALL` and stripped of the line end. */
  function ToCsvLine(item: BookingItem): string
  {
    StripSpace(WriteRow(item.fields))
  }

  /**
   * `from_csv_line`: the first row `csv.reader` yields, which must have
   * exactly 125 fields. An empty line has no row at all (StopIteration).
   */
  function FromCsvLine(data: string): (r: Result<BookingItem>)
    ensures r.Ok? <==> ReadFirstRow(data).Ok? && |ReadFirstRow(data).value| == ItemFieldCount
    ensures r.Ok? ==> r.value.fields == ReadFirstRow(data).value && WellFormed(r.value)
    ensures ReadFirstRow(data).Ok? && |ReadFirstRow(data).value| != ItemFieldCount ==>
      r == Err(ValueError("Expected 125 fields, got " + NatToString(|ReadFirstRow(data).value|)))
  {
    var row :- ReadFirstRow(data);
    if |row| != ItemFieldCount then
      Err(ValueError("Expected 125 fields, got " + NatToString(|row|)))
    else
      Ok(BookingItem(row))
  }

  /**
   * Reading back a written item line gives the same item, whatever its
   * fields hold, as long as each fits the reader's field size limit.
   */
  lemma ItemRoundTrip(item: BookingItem)
    requires WellFormed(item) && FieldsFit(item.fields)
    ensures FromCsvLine(ToCsvLine(item)) == Ok(item)
  {
    ReadWrittenRow(item.fields);
  }

  /** An item line with a field over the reader's limit raises the reader's error instead. */
  lemma ItemTooLargeRejected(item: BookingItem, k: nat)
    requires WellFormed(item) && k < |item.fields|
    requires FieldsFit(item.fields[..k]) && |item.fields[k]| > FieldLimit
    ensures FromCsvLine(ToCsvLine(item)) == Err(CsvError(FieldTooLarge))
  {
    ReadWrittenRowTooLarge(item.fields, k);
  }

  /** A field other than one of the item's 125 is rejected with the count it saw. */
  lemma WrongWidthRejected(fields: seq<string>)
    requires |fields| >= 1 && |fields| != ItemFieldCount && FieldsFit(fields)
    ensures FromCsvLine(StripSpace(WriteRow(fields)))
         == Err(ValueError("Expected 125 fields, got " + NatToString(|fields|)))
  {
    ReadWrittenRow(fields);
  }

  /** The value every item field has when `from_ledger_import` does not set it from the ledger. */
  function DefaultField(i: int): string
  {
    if i == UstSchluesselAnzahlungen || i == ErloeskontoAnzahlungen || i == Skontosperre
       || i == Generalumkehr || i == BvvPosition then "0"
    else if i == HerkunftKz then "RE"
    else if i == Festschreibung then "1"
    else ""
  }

  /** The first `n` fields of an item no ledger has filled in yet. */
  function Defaults(n: nat): (r: seq<string>)
    ensures |r| == n
    ensures forall i :: 0 <= i < n ==> r[i] == DefaultField(i)
  {
    if n == 0 then [] else Defaults(n - 1) + [DefaultField(n - 1)]
  }

  const DefaultFields: seq<string> := Defaults(ItemFieldCount)

  // ---------------------------------------------------------------------------
  // From a ledger import
  // ---------------------------------------------------------------------------

  /** Python truthiness of an optional text: neither None nor "". */
  predicate Truthy(o: Option<string>)
  {
    o.Some? && o.value != ""
  }

  /** The booking text of the first ledger, when that ledger is a receivable one. */
  function FirstBookingText(c: Consolidate): Option<string>
  {
    if |c.ledgers| > 0 && c.ledgers[0].Receivable? then c.ledgers[0].receivable.bookingText else None
  }

  /**
   * The checks `from_ledger_import` makes before it builds the item, in
   * order: the consolidated date parses as "%Y-%m-%d", there is an invoice
   * id, `ledgers[0]` exists and is a receivable ledger, and it has a
   * booking text. Gives the parsed date.
   */
  function CheckLedgerImport(li: LedgerImport): (r: Result<Date>)
    ensures r.Ok? <==>
      && ParseIso(li.consolidate.consolidatedDate).Ok?
      && Truthy(li.consolidate.consolidatedInvoiceId)
      && |li.consolidate.ledgers| > 0
      && li.consolidate.ledgers[0].Receivable?
      && Truthy(li.consolidate.ledgers[0].receivable.bookingText)
    ensures r.Ok? ==> r == ParseIso(li.consolidate.consolidatedDate)
    ensures ParseIso(li.consolidate.consolidatedDate).Ok? && !Truthy(li.consolidate.consolidatedInvoiceId) ==>
      r == Err(ValueError("LedgerImport must have an invoice ID"))
    ensures (ParseIso(li.consolidate.consolidatedDate).Ok? && Truthy(li.consolidate.consolidatedInvoiceId)
             && |li.consolidate.ledgers| > 0 && !li.consolidate.ledgers[0].Receivable?) ==>
      r == Err(ValueError("The ledger consolidate.ledgers[0] must be an AccountsPayableLedger"))
  {
    var c := li.consolidate;
    var created :- ParseIso(c.consolidatedDate);
    if !Truthy(c.consolidatedInvoiceId) then Err(ValueError("LedgerImport must have an invoice ID"))
    else if |c.ledgers| == 0 then Err(IndexError("list index out of range"))
    else if !c.ledgers[0].Receivable? then
      Err(ValueError("The ledger consolidate.ledgers[0] must be an AccountsPayableLedger"))
    else if !Truthy(c.ledgers[0].receivable.bookingText) then Err(ValueError("The ledger must have a booking text"))
    else Ok(created)
  }

  /**
   * `from_ledger_import` as written: once every check passes it reads
   * `settings.gegenkonto`, an attribute `Settings` does not have.
   */
  function FromLedgerImportAsWritten(li: LedgerImport, buchungskonto: int): (r: Result<BookingItem>)
  {
    var created :- CheckLedgerImport(li);
    Err(AttributeError("'Settings' object has no attribute 'gegenkonto'"))
  }

  /**
   * `from_ledger_import` with the counter account given by the caller
   * (the setting `Settings` lacks): the amount with a decimal comma, "H",
   * both accounts, the document date as DDMM, the invoice id and the
   * booking text; every other field keeps its default.
   */
  function FromLedgerImport(li: LedgerImport, buchungskonto: int, gegenkonto: int): (r: Result<BookingItem>)
  {
    match CheckLedgerImport(li)
    case Err(e) => Err(e)
    case Ok(created) => Ok(LedgerItem(li.consolidate, created, buchungskonto, gegenkonto))
  }

  /** The item of a consolidation that passed the checks. */
  function LedgerItem(c: Consolidate, created: Date, buchungskonto: int, gegenkonto: int): BookingItem
    requires Valid(created) && Truthy(c.consolidatedInvoiceId) && Truthy(FirstBookingText(c))
  {
    BookingItem(DefaultFields[Umsatz := ReplaceChar(c.consolidatedAmount, '.', ',')]
                             [SollHabenKennzeichen := "H"]
                             [Konto := IntToString(buchungskonto)]
                             [Gegenkonto := IntToString(gegenkonto)]
                             [Belegdatum := FormatDdMm(created)]
                             [Belegfeld1 := c.consolidatedInvoiceId.value]
                             [Buchungstext := FirstBookingText(c).value])
  }

  /** The positions `from_ledger_import` fills from the ledger and the settings. */
  predicate FilledFromLedger(i: int)
  {
    i == Umsatz || i == SollHabenKennzeichen || i == Konto || i == Gegenkonto
    || i == Belegdatum || i == Belegfeld1 || i == Buchungstext
  }

  /** The fields of the item of a checked ledger import that come from the ledger and the settings. */
  lemma LedgerItemFields(c: Consolidate, created: Date, buchungskonto: int, gegenkonto: int)
    requires Valid(created) && Truthy(c.consolidatedInvoiceId) && Truthy(FirstBookingText(c))
    ensures var f := LedgerItem(c, created, buchungskonto, gegenkonto).fields;
      && |f| == ItemFieldCount
      && |f[Umsatz]| == |c.consolidatedAmount|
      && (forall k :: 0 <= k < |f[Umsatz]| ==>
            f[Umsatz][k] == if c.consolidatedAmount[k] == '.' then ',' else c.consolidatedAmount[k])
      && f[SollHabenKennzeichen] == "H"
      && f[Konto] == IntToString(buchungskonto)
      && f[Gegenkonto] == IntToString(gegenkonto)
      && f[BuSchluessel] == ""
      && f[Belegdatum] == FormatDdMm(created)
      && Some(f[Belegfeld1]) == c.consolidatedInvoiceId
      && Some(f[Buchungstext]) == FirstBookingText(c)
  {
  }

  /** Every field not filled from the ledger keeps its default. */
  lemma LedgerItemDefaults(c: Consolidate, created: Date, buchungskonto: int, gegenkonto: int)
    requires Valid(created) && Truthy(c.consolidatedInvoiceId) && Truthy(FirstBookingText(c))
    ensures var f := LedgerItem(c, created, buchungskonto, gegenkonto).fields;
      && |f| == ItemFieldCount
      && forall i :: 0 <= i < ItemFieldCount && !FilledFromLedger(i) ==> f[i] == DefaultField(i)
  {
  }

  /**
   * `from_ledger_import` fails exactly when one of its checks does, with
   * that check's exception; otherwise it fills the item from the ledger.
   */
  lemma FromLedgerImportFields(li: LedgerImport, buchungskonto: int, gegenkonto: int)
    ensures FromLedgerImport(li, buchungskonto, gegenkonto).Ok? <==> CheckLedgerImport(li).Ok?
    ensures FromLedgerImport(li, buchungskonto, gegenkonto).Err? ==>
      FromLedgerImport(li, buchungskonto, gegenkonto).error == CheckLedgerImport(li).error
    ensures FromLedgerImport(li, buchungskonto, gegenkonto).Ok? ==>
      && WellFormed(FromLedgerImport(li, buchungskonto, gegenkonto).value)
      && FromLedgerImport(li, buchungskonto, gegenkonto).value
         == LedgerItem(li.consolidate, ParseIso(li.consolidate.consolidatedDate).value, buchungskonto, gegenkonto)
  {
    if CheckLedgerImport(li).Ok? {
      LedgerItemFields(li.consolidate, CheckLedgerImport(li).value, buchungskonto, gegenkonto);
    }
  }

  /**
   * As written, no ledger import ever becomes an item: where the corrected
   * derivation builds one, the source raises AttributeError instead.
   */
  lemma AsWrittenNeverBuilds(li: LedgerImport, buchungskonto: int, gegenkonto: int)
    ensures FromLedgerImportAsWritten(li, buchungskonto).Err?
    ensures FromLedgerImport(li, buchungskonto, gegenkonto).Ok? ==>
      FromLedgerImportAsWritten(li, buchungskonto).error == AttributeError("'Settings' object has no attribute 'gegenkonto'")
  {
  }

  // ---------------------------------------------------------------------------
  // Dates of ledger imports
  // ---------------------------------------------------------------------------

  /** `ledger_get_date`: the consolidated date, or a ValueError naming it. */
  function LedgerGetDate(li: LedgerImport): (r: Result<Date>)
    ensures r.Ok? <==> ParseIso(li.consolidate.consolidatedDate).Ok?
    ensures r.Ok? ==> r == ParseIso(li.consolidate.consolidatedDate) && Valid(r.value)
    ensures r.Err? ==> r.error == ValueError("Invalid date format in ledger: " + li.consolidate.consolidatedDate)
  {
    match ParseIso(li.consolidate.consolidatedDate)
    case Ok(d) => Ok(d)
    case Err(_) => Err(ValueError("Invalid date format in ledger: " + li.consolidate.consolidatedDate))
  }

  /** A ledger import whose date was written with "%Y-%m-%d" gives that date back. */
  lemma LedgerGetDateOfFormat(li: LedgerImport, d: Date)
    requires Valid(d) && li.consolidate.consolidatedDate == FormatIso(d)
    ensures LedgerGetDate(li) == Ok(d)
  {
    ParseIsoOfFormat(d);
  }

  /** A ledger import with its metadata: the (year, month) it was filed under. */
  type Entry = (LedgerImport, (int, int))

  /** The keys `min`/`max` compute, in order; the first that fails is the error. */
  function EntryDates(data: seq<Entry>): (r: Result<seq<Date>>)
    ensures r.Ok? ==> |r.value| == |data|
    ensures r.Ok? ==> forall i :: 0 <= i < |data| ==> LedgerGetDate(data[i].0) == Ok(r.value[i]) && Valid(r.value[i])
  {
    MapAllOk(data, EntryDate);
    MapAll(data, EntryDate)
  }

  function EntryDate(e: Entry): Result<Date>
  {
    LedgerGetDate(e.0)
  }

  predicate Less(a: Date, b: Date)
  {
    LessEq(a, b) && a != b
  }

  /** Python's `min(...)`: the first position holding a least date. */
  function ArgMin(ds: seq<Date>): (k: nat)
    requires |ds| > 0
    ensures k < |ds|
    ensures forall j :: 0 <= j < |ds| ==> LessEq(ds[k], ds[j])
    ensures forall j :: 0 <= j < k ==> ds[j] != ds[k]
  {
    if |ds| == 1 then 0
    else
      var k := ArgMin(ds[..|ds| - 1]);
      if Less(ds[|ds| - 1], ds[k]) then |ds| - 1 else k
  }

  /** Python's `max(...)`: the first position holding a greatest date. */
  function ArgMax(ds: seq<Date>): (k: nat)
    requires |ds| > 0
    ensures k < |ds|
    ensures forall j :: 0 <= j < |ds| ==> LessEq(ds[j], ds[k])
    ensures forall j :: 0 <= j < k ==> ds[j] != ds[k]
  {
    if |ds| == 1 then 0
    else
      var k := ArgMax(ds[..|ds| - 1]);
      if Less(ds[k], ds[|ds| - 1]) then |ds| - 1 else k
  }

  // ---------------------------------------------------------------------------
  // The batch
  // ---------------------------------------------------------------------------

  /** A `Buchungsstapel`: its header and its items. */
  datatype Batch = Batch(header: Header, items: seq<BookingItem>)

  /** `date(year, 1, 1)`: ValueError for a year outside 1..9999. */
  function NewYear(year: int): (r: Result<Date>)
    ensures r.Ok? <==> 1 <= year <= 9999
    ensures r.Ok? ==> r.value == Date(year, 1, 1) && Valid(r.value)
  {
    if 1 <= year <= 9999 then Ok(Date(year, 1, 1))
    else Err(ValueError("year " + IntToString(year) + " is out of range"))
  }

  /** The header `from_ledger_import_w_metadata` writes for a batch running from `oldest` to `newest`. */
  function BatchHeader(created: Date, wjBeginn: Date, oldest: Date, newest: Date): Header
  {
    Header(
      kennzeichen := Dtvf,
      version := "700",
      formatKategory := BookingBatch,
      formatname := "Buchungsstapel",
      formatversion := 13,
      erzeugtAm := created,
      herkunft := "RE",
      exportiertVon := "1001919U00113",
      importiertVon := "",
      beraterNummer := 12191,
      mandantNummer := 45061,
      wjBeginn := wjBeginn,
      sachkontenlaenge := 4,
      datumVon := oldest,
      datumBis := newest,
      bezeichnung := "Fibu " + IntToString(newest.month) + "." + IntToString(newest.year),
      diktatkuerzel := Some("SG"),
      buchungstyp := Finanzbuchfuehrung,
      rechnungslegungszweck := Unabhaengig,
      festschreibung := 1,
      wkz := "EUR",
      derivatskennzeichen := None,
      sachkontenrahmen := Some("3"),
      idDerBranchenloesung := None,
      reserviert5 := None,
      anwendungsinformation := None)
  }

  /** One item per entry, in order; the first entry that fails is the error. */
  function EntryItems(data: seq<Entry>, buchungskonto: int, gegenkonto: int): (r: Result<seq<BookingItem>>)
    ensures r.Ok? ==> |r.value| == |data|
  {
    MapAll(data, ItemMaker(buchungskonto, gegenkonto))
  }

  /** `from_ledger_import` applied to an entry's ledger import. */
  function ItemMaker(buchungskonto: int, gegenkonto: int): Entry -> Result<BookingItem>
  {
    (e: Entry) => FromLedgerImport(e.0, buchungskonto, gegenkonto)
  }

  /**
   * `Buchungsstapel.from_ledger_import_w_metadata`, with the clock's date
   * `today` and the two accounts as parameters: `min` over no entries
   * fails, then every date is parsed, the first year of the oldest entry's
   * metadata opens the fiscal year, and every entry becomes an item.
   */
  function FromLedgerImports(data: seq<Entry>, today: Date, buchungskonto: int, gegenkonto: int): (r: Result<Batch>)
    requires Valid(today)
    ensures r.Ok? ==> DatesValid(r.value.header) && |r.value.items| == |data| && |data| > 0
  {
    if |data| == 0 then Err(ValueError("min() iterable argument is empty"))
    else
      var dates :- EntryDates(data);
      var oldest := ArgMin(dates);
      var newest := ArgMax(dates);
      var wjBeginn :- NewYear(data[oldest].1.0);
      var items :- EntryItems(data, buchungskonto, gegenkonto);
      Ok(Batch(BatchHeader(today, wjBeginn, dates[oldest], dates[newest]), items))
  }

  /** The pieces a built batch is made of. */
  lemma BatchOf(data: seq<Entry>, today: Date, buchungskonto: int, gegenkonto: int)
    requires Valid(today)
    requires FromLedgerImports(data, today, buchungskonto, gegenkonto).Ok?
    ensures EntryDates(data).Ok? && EntryItems(data, buchungskonto, gegenkonto).Ok? && |data| > 0
    ensures var dates := EntryDates(data).value;
      var oldest := ArgMin(dates);
      FromLedgerImports(data, today, buchungskonto, gegenkonto).value
        == Batch(BatchHeader(today, Date(data[oldest].1.0, 1, 1), dates[oldest], dates[ArgMax(dates)]),
                 EntryItems(data, buchungskonto, gegenkonto).value)
  {
  }

  /**
   * The batch spans the entries' dates: it runs from the earliest to the
   * latest, and its fiscal year opens on 1 January of the year filed with
   * the first of the earliest entries.
   */
  lemma BatchSpansEntries(data: seq<Entry>, today: Date, buchungskonto: int, gegenkonto: int)
    requires Valid(today)
    requires FromLedgerImports(data, today, buchungskonto, gegenkonto).Ok?
    ensures var h := FromLedgerImports(data, today, buchungskonto, gegenkonto).value.header;
      && (exists i :: 0 <= i < |data| && LedgerGetDate(data[i].0) == Ok(h.datumVon)
            && h.wjBeginn == Date(data[i].1.0, 1, 1)
            && forall j :: 0 <= j < i ==> LedgerGetDate(data[j].0) != Ok(h.datumVon))
      && (exists i :: 0 <= i < |data| && LedgerGetDate(data[i].0) == Ok(h.datumBis))
      && (forall i :: 0 <= i < |data| ==>
            LedgerGetDate(data[i].0).Ok?
            && LessEq(h.datumVon, LedgerGetDate(data[i].0).value)
            && LessEq(LedgerGetDate(data[i].0).value, h.datumBis))
  {
    BatchOf(data, today, buchungskonto, gegenkonto);
    var dates := EntryDates(data).value;
    var oldest := ArgMin(dates);
    assert LedgerGetDate(data[oldest].0) == Ok(dates[oldest]);
    assert LedgerGetDate(data[ArgMax(dates)].0) == Ok(dates[ArgMax(dates)]);
  }

  /** The batch holds one item per entry, the entry's item, in order. */
  lemma BatchItems(data: seq<Entry>, today: Date, buchungskonto: int, gegenkonto: int)
    requires Valid(today)
    requires FromLedgerImports(data, today, buchungskonto, gegenkonto).Ok?
    ensures var items := FromLedgerImports(data, today, buchungskonto, gegenkonto).value.items;
      && |items| == |data|
      && forall i :: 0 <= i < |data| ==> FromLedgerImport(data[i].0, buchungskonto, gegenkonto) == Ok(items[i])
  {
    BatchOf(data, today, buchungskonto, gegenkonto);
    MapAllOk(data, ItemMaker(buchungskonto, gegenkonto));
  }

  /** A batch is built exactly when there is an entry, every date parses, the year is valid and every item builds. */
  lemma BatchBuilds(data: seq<Entry>, today: Date, buchungskonto: int, gegenkonto: int)
    requires Valid(today)
    ensures FromLedgerImports(data, today, buchungskonto, gegenkonto).Ok? <==>
      && |data| > 0
      && EntryDates(data).Ok?
      && 1 <= data[ArgMin(EntryDates(data).value)].1.0 <= 9999
      && (forall i :: 0 <= i < |data| ==> FromLedgerImport(data[i].0, buchungskonto, gegenkonto).Ok?)
  {
    MapAllOk(data, ItemMaker(buchungskonto, gegenkonto));
  }

  /** The column-name line written after the header. */
  const DataDescriptionHead: string := "Umsatz (ohne Soll/Haben-Kz);Soll/Haben-Kennzeichen;WKZ Umsatz;Kurs;Basis-Umsatz;WKZ Basis-Umsatz;Konto;Gegenkonto (ohne BU-Schlüssel);BU-Schlüssel;Belegdatum;Belegfeld 1;Belegfeld 2;Skonto;Buchungstext;Postensperre;Diverse Adressnummer;Geschäftspartnerbank;Sachverhalt;Zinssperre;Beleglink;Beleginfo-Art 1;Beleginfo-Inhalt 1;Beleginfo-Art 2;Beleginfo-Inhalt 2;Beleginfo-Art 3;Beleginfo-Inhalt 3;Beleginfo-Art 4;Beleginfo-Inhalt 4;Beleginfo-Art 5;Beleginfo-Inhalt 5;Beleginfo-Art 6;Beleginfo-Inhalt 6;Beleginfo-Art 7;Beleginfo-Inhalt 7;Beleginfo-Art 8;Beleginfo-Inhalt 8;KOST1-Kostenstelle;KOST2-Kostenstelle;KOST-Menge;EU-Mitgliedstaat u. UStID (Bestimmung);EU-Steuersatz (Bestimmung);Abw. Versteuerungsart;Sachverhalt L+L;Funktionsergänzung L+L;BU 49 Hauptfunktiontyp;BU 49 Hauptfunktionsnummer;BU 49 Funktionsergänzung;Zusatzinformation – Art 1;Zusatzinformation – Inhalt 1;Zusatzinformation – Art 2;Zusatzinformation – Inhalt 2;Zusatzinformation – Art 3;Zusatzinformation – Inhalt 3;Zusatzinformation – Art 4;Zusatzinformation – Inhalt 4;Zusatzinformation – Art 5;Zusatzinformation – Inhalt 5;Zusatzinformation – Art 6;Zusatzinformation – Inhalt 6;Zusatzinformation – Art 7;Zusatzinformation – Inhalt 7;Zusatzinformation – Art 8;Zusatzinformation – Inhalt 8;Zusatzinformation – Art 9;Zusatzinformation – Inhalt 9;Zusatzinformation – Art 10;Zusatzinformation – Inhalt 10;Zusatzinformation – Art 11;Zusatzinformation – Inhalt 11;Zusatzinformation – Art 12;Zusatzinformation – Inhalt 12;Zusatzinformation – Art 13;Zusatzinformation – Inhalt 13;Zusatzinformation – Art 14;Zusatzinformation – Inhalt 14;Zusatzinformation – Art 15;Zusatzinformation – Inhalt 15;Zusatzinformation – Art 16;Zusatzinformation – Inhalt 16;Zusatzinformation – Art 17;Zusatzinformation – Inhalt 17;Zusatzinformation – Art 18;Zusatzinformation – Inhalt 18;Zusatzinformation – Art 19;Zusatzinformation – Inhalt 19;Zusatzinformation – Art 20;Zusatzinformation – Inhalt 20;Stück;Gewicht;Zahlweise;Forderungsart;Veranlagungsjahr;Zugeordnete Fälligkeit;Skontotyp;Auftragsnummer;Buchungstyp;USt-Schlüssel (Anzahlungen);EU-Mitgliedstaat (Anzahlungen);Sachverhalt L+L (Anzahlungen);EU-Steuersatz (Anzahlungen);Erlöskonto (Anzahlungen);Herkunft-Kz;Leerfeld;KOST-Datum;SEPA-Mandatsreferenz;Skontosperre;Gesellschaftername;Beteiligtennummer;Identifikationsnummer;Zeichnernummer;Postensperre bis;Bezeichnung SoBil-Sachverhalt;Kennzeichen SoBil-Buchung;Festschreibung;Leistungsdatum;Datum Zuord. Steuerperiode;Fälligkeit;Generalumkehr;Steuersatz;Land;Abrechnungsreferenz;BVV-Position (Betriebsvermögensvergleich);EU-Mitgliedstaat u. UStID (Ursprung);EU-Steuersatz (Ursprung);Abw. Skontokonto"

  /** The item lines of a batch, in order. */
  function ItemLines(items: seq<BookingItem>): (r: seq<string>)
    ensures |r| == |items|
  {
    if |items| == 0 then [] else ItemLines(items[..|items| - 1]) + [ToCsvLine(items[|items| - 1])]
  }

  /** The lines of the batch text: the header, the column names `head`, then one line per item. */
  function BatchLines(b: Batch, head: string): (r: seq<string>)
    requires DatesValid(b.header)
    ensures |r| == 2 + |b.items|
  {
    [ToCsvHeader(b.header), head] + ItemLines(b.items)
  }

  /** `Buchungsstapel.to_csv`: the lines gathered one item at a time, joined by "\n". */
  method ToCsv(b: Batch) returns (text: string)
    requires DatesValid(b.header)
    ensures text == Join(BatchLines(b, DataDescriptionHead), '\n')
  {
    var head := DataDescriptionHead;
    var lines := [ToCsvHeader(b.header), head];
    for i := 0 to |b.items|
      invariant lines == [ToCsvHeader(b.header), head] + ItemLines(b.items[..i])
    {
      assert b.items[..i + 1][..i] == b.items[..i];
      lines := lines + [ToCsvLine(b.items[i])];
    }
    assert b.items[..|b.items|] == b.items;
    text := Join(lines, '\n');
  }

  // ---------------------------------------------------------------------------
  // Reading the batch text back
  // ---------------------------------------------------------------------------

  lemma {:induction false} EscapeNoChar(f: string, c: char)
    requires NoChar(f, c) && c != '"'
    ensures NoChar(Escape(f), c)
  {
    if f != [] {
      EscapeNoChar(f[1..], c);
      var h := if f[0] == '"' then "\"\"" else [f[0]];
      assert Escape(f) == h + Escape(f[1..]);
    }
  }

  lemma {:induction false} JoinNoChar(parts: seq<string>, sep: char, c: char)
    requires NoneContain(parts, c) && sep != c
    ensures NoChar(Join(parts, sep), c)
  {
    if |parts| > 1 {
      JoinNoChar(parts[1..], sep, c);
      assert Join(parts, sep) == parts[0] + [sep] + Join(parts[1..], sep);
    }
  }

  /** An item whose fields hold no line break is written on one line. */
  lemma ItemLineSingle(item: BookingItem)
    requires WellFormed(item) && NoneContain(item.fields, '\n')
    ensures NoChar(ToCsvLine(item), '\n')
  {
    StripWrittenRow(item.fields);
    var q := QuoteAll(item.fields);
    forall k | 0 <= k < |q|
      ensures NoChar(q[k], '\n')
    {
      EscapeNoChar(item.fields[k], '\n');
    }
    JoinNoChar(q, ';', '\n');
  }

  lemma {:induction false} ItemLinesAt(items: seq<BookingItem>, i: nat)
    requires i < |items|
    ensures ItemLines(items)[i] == ToCsvLine(items[i])
  {
    if i < |items| - 1 {
      ItemLinesAt(items[..|items| - 1], i);
    }
  }

  /** Items without line breaks in their fields give item lines without line breaks. */
  lemma {:induction false} ItemLinesSingle(items: seq<BookingItem>)
    requires forall i :: 0 <= i < |items| ==> WellFormed(items[i]) && NoneContain(items[i].fields, '\n')
    ensures NoneContain(ItemLines(items), '\n')
  {
    if |items| > 0 {
      ItemLinesSingle(items[..|items| - 1]);
      ItemLineSingle(items[|items| - 1]);
    }
  }

  /** Every item line reads back as its item. */
  lemma ItemLinesReadBack(items: seq<BookingItem>)
    requires forall i :: 0 <= i < |items| ==> WellFormed(items[i]) && FieldsFit(items[i].fields)
    ensures forall i :: 0 <= i < |items| ==> FromCsvLine(ItemLines(items)[i]) == Ok(items[i])
  {
    forall i | 0 <= i < |items|
      ensures FromCsvLine(ItemLines(items)[i]) == Ok(items[i])
    {
      ItemLinesAt(items, i);
      ItemRoundTrip(items[i]);
    }
  }

  /**
   * Split at line breaks, the batch text gives back its 2 + n lines when
   * neither the header line, the column names nor any item field holds a
   * line break; every item line then reads back as its item.
   */
  lemma BatchTextLines(b: Batch, head: string, text: string)
    requires DatesValid(b.header) && text == Join(BatchLines(b, head), '\n')
    requires NoChar(ToCsvHeader(b.header), '\n') && NoChar(head, '\n')
    requires forall i :: 0 <= i < |b.items| ==>
      WellFormed(b.items[i]) && FieldsFit(b.items[i].fields) && NoneContain(b.items[i].fields, '\n')
    ensures |Split(text, '\n')| == 2 + |b.items|
    ensures Split(text, '\n') == BatchLines(b, head)
    ensures forall i :: 0 <= i < |b.items| ==> FromCsvLine(Split(text, '\n')[2 + i]) == Ok(b.items[i])
  {
    var lines := BatchLines(b, head);
    var items := ItemLines(b.items);
    ItemLinesSingle(b.items);
    assert forall k :: 2 <= k < |lines| ==> lines[k] == items[k - 2];
    assert NoneContain(lines, '\n');
    SplitJoin(lines, '\n');
    ItemLinesReadBack(b.items);
  }
}
