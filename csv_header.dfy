/**
 * The first line of a DATEV booking-batch file: the 31-field header that
 * `Header.to_csv_herder` writes and `Header.from_csv_header` reads
 * (datev_creator/csv_builder.py), together with the enumerations it carries.
 */
module CsvHeader {
  import opened Common
  import opened Dates

  // ---------------------------------------------------------------------------
  // Enumerations
  // ---------------------------------------------------------------------------

  datatype Buchungstyp = Finanzbuchfuehrung | Jahresabschluss

  function BuchungstypValue(t: Buchungstyp): int
  {
    match t
    case Finanzbuchfuehrung => 1
    case Jahresabschluss => 2
  }

  /** `Buchungstyp(v)`: the member whose value is `v`, or ValueError. */
  function BuchungstypOf(v: int): (r: Result<Buchungstyp>)
    ensures r.Ok? <==> v == 1 || v == 2
    ensures r.Ok? ==> BuchungstypValue(r.value) == v
    ensures r.Err? ==> r.error.ValueError?
  {
    if v == 1 then Ok(Finanzbuchfuehrung)
    else if v == 2 then Ok(Jahresabschluss)
    else Err(ValueError(IntToString(v) + " is not a valid Buchungstyp"))
  }

  datatype Rechnungslegungszweck = Unabhaengig | Steuerrecht | Kalkulatorik | Handelsrecht | Ifrs

  function ZweckValue(z: Rechnungslegungszweck): int
  {
    match z
    case Unabhaengig => 0
    case Steuerrecht => 30
    case Kalkulatorik => 40
    case Handelsrecht => 50
    case Ifrs => 64
  }

  /** `Rechnungslegungszweck(v)`: the member whose value is `v`, or ValueError. */
  function ZweckOf(v: int): (r: Result<Rechnungslegungszweck>)
    ensures r.Ok? <==> v in {0, 30, 40, 50, 64}
    ensures r.Ok? ==> ZweckValue(r.value) == v
    ensures r.Err? ==> r.error.ValueError?
  {
    if v == 0 then Ok(Unabhaengig)
    else if v == 30 then Ok(Steuerrecht)
    else if v == 40 then Ok(Kalkulatorik)
    else if v == 50 then Ok(Handelsrecht)
    else if v == 64 then Ok(Ifrs)
    else Err(ValueError(IntToString(v) + " is not a valid Rechnungslegungszweck"))
  }

  datatype FormatCategory =
    | DebitorsCreditors
    | AccountDescriptions
    | BookingBatch
    | PaymentTerms
    | MiscAddresses
    | RecurringBookings

  function CategoryValue(c: FormatCategory): int
  {
    match c
    case DebitorsCreditors => 16
    case AccountDescriptions => 20
    case BookingBatch => 21
    case PaymentTerms => 46
    case MiscAddresses => 48
    case RecurringBookings => 65
  }

  /** `FormatCategory(v)`: the member whose value is `v`, or ValueError. */
  function CategoryOf(v: int): (r: Result<FormatCategory>)
    ensures r.Ok? <==> v in {16, 20, 21, 46, 48, 65}
    ensures r.Ok? ==> CategoryValue(r.value) == v
    ensures r.Err? ==> r.error.ValueError?
  {
    if v == 16 then Ok(DebitorsCreditors)
    else if v == 20 then Ok(AccountDescriptions)
    else if v == 21 then Ok(BookingBatch)
    else if v == 46 then Ok(PaymentTerms)
    else if v == 48 then Ok(MiscAddresses)
    else if v == 65 then Ok(RecurringBookings)
    else Err(ValueError(IntToString(v) + " is not a valid FormatCategory"))
  }

  const CategoryNames: set<string> :=
    {"Debitoren/Kreditoren", "Kontenbeschriftungen", "Buchungsstapel", "Zahlungsbedingungen",
     "Diverse Adressen", "Wiederkehrende Buchungen"}

  /** `FormatCategory.get_name`: the German name DATEV expects, one per category. */
  function CategoryName(c: FormatCategory): (r: string)
    ensures r in CategoryNames
    ensures r == "Buchungsstapel" <==> c == BookingBatch
  {
    match c
    case DebitorsCreditors => "Debitoren/Kreditoren"
    case AccountDescriptions => "Kontenbeschriftungen"
    case BookingBatch => "Buchungsstapel"
    case PaymentTerms => "Zahlungsbedingungen"
    case MiscAddresses => "Diverse Adressen"
    case RecurringBookings => "Wiederkehrende Buchungen"
  }

  /** `FormatCategory.get_format_version`. */
  function FormatVersion(c: FormatCategory): (r: int)
    ensures r in {2, 3, 4, 5, 13}
    ensures r == 13 <==> c == BookingBatch
  {
    match c
    case DebitorsCreditors => 5
    case AccountDescriptions => 3
    case BookingBatch => 13
    case PaymentTerms => 2
    case MiscAddresses => 2
    case RecurringBookings => 4
  }

  /** No two categories share a name, so the name identifies the category. */
  lemma CategoryNameInjective(a: FormatCategory, b: FormatCategory)
    requires CategoryName(a) == CategoryName(b)
    ensures a == b
  {
    match a
    case DebitorsCreditors => assert CategoryName(b)[0] == 'D' && CategoryName(b)[1] == 'e';
    case AccountDescriptions =>
    case BookingBatch =>
    case PaymentTerms =>
    case MiscAddresses => assert CategoryName(b)[0] == 'D' && CategoryName(b)[1] == 'i';
    case RecurringBookings =>
  }

  /** Every member is found again from its value. */
  lemma BuchungstypRoundTrip(t: Buchungstyp)
    ensures BuchungstypOf(BuchungstypValue(t)) == Ok(t)
  {
    match t
    case Finanzbuchfuehrung =>
    case Jahresabschluss =>
  }

  lemma ZweckRoundTrip(z: Rechnungslegungszweck)
    ensures ZweckOf(ZweckValue(z)) == Ok(z)
  {
    match z
    case Unabhaengig =>
    case Steuerrecht =>
    case Kalkulatorik =>
    case Handelsrecht =>
    case Ifrs =>
  }

  lemma CategoryRoundTrip(c: FormatCategory)
    ensures CategoryOf(CategoryValue(c)) == Ok(c)
  {
    match c
    case DebitorsCreditors =>
    case AccountDescriptions =>
    case BookingBatch =>
    case PaymentTerms =>
    case MiscAddresses =>
    case RecurringBookings =>
  }

  // ---------------------------------------------------------------------------
  // The header record
  // ---------------------------------------------------------------------------

  datatype Kennzeichen = Extf | Dtvf

  function KennzeichenText(k: Kennzeichen): string
  {
    match k
    case Extf => "EXTF"
    case Dtvf => "DTVF"
  }

  /**
   * The `Header` dataclass. The reserved fields that `to_csv_herder` never
   * reads are not part of the record; the two it does read
   * (`derivatskennzeichen` and `reserviert_5`) are.
   */
  datatype Header = Header(
    kennzeichen: Kennzeichen,
    version: string,
    formatKategory: FormatCategory,
    formatname: string,
    formatversion: int,
    erzeugtAm: Date,
    herkunft: string,
    exportiertVon: string,
    importiertVon: string,
    beraterNummer: int,
    mandantNummer: int,
    wjBeginn: Date,
    sachkontenlaenge: int,
    datumVon: Date,
    datumBis: Date,
    bezeichnung: string,
    diktatkuerzel: Option<string>,
    buchungstyp: Buchungstyp,
    rechnungslegungszweck: Rechnungslegungszweck,
    festschreibung: int,
    wkz: string,
    derivatskennzeichen: Option<string>,
    sachkontenrahmen: Option<string>,
    idDerBranchenloesung: Option<string>,
    reserviert5: Option<string>,
    anwendungsinformation: Option<string>)

  /** Python `date` objects are always valid calendar dates. */
  predicate DatesValid(h: Header)
  {
    Valid(h.erzeugtAm) && Valid(h.wjBeginn) && Valid(h.datumVon) && Valid(h.datumBis)
  }

  const FieldCount: nat := 31

  function Quoted(s: string): string
  {
    "\"" + s + "\""
  }

  /** Python `x or ""` for an optional string. */
  function OrEmpty(o: Option<string>): string
  {
    if o.Some? then o.value else ""
  }

  /** Python `s or None`. */
  function NoneIfEmpty(s: string): (r: Option<string>)
    ensures r.None? <==> s == ""
    ensures r.Some? ==> r.value == s
  {
    if s == "" then None else Some(s)
  }

  /** The 31 items `to_csv_herder` joins, in order. */
  function HeaderFields(h: Header): (r: seq<string>)
    requires DatesValid(h)
    ensures |r| == FieldCount
  {
    HeaderHead(h) + HeaderMiddle(h) + HeaderTail(h)
  }

  /** Items 1 to 10: the format and its origin. */
  function HeaderHead(h: Header): seq<string>
    requires DatesValid(h)
  {
    [ Quoted(KennzeichenText(h.kennzeichen)),
      h.version,
      IntToString(CategoryValue(h.formatKategory)),
      Quoted(h.formatname),
      IntToString(h.formatversion),
      FormatStamp(h.erzeugtAm),
      "",
      Quoted(h.herkunft),
      Quoted(h.exportiertVon),
      Quoted(h.importiertVon) ]
  }

  /** Items 11 to 21: client, period and booking kind. */
  function HeaderMiddle(h: Header): seq<string>
    requires DatesValid(h)
  {
    [ IntToString(h.beraterNummer),
      IntToString(h.mandantNummer),
      FormatYmd(h.wjBeginn),
      IntToString(h.sachkontenlaenge),
      FormatYmd(h.datumVon),
      FormatYmd(h.datumBis),
      Quoted(h.bezeichnung),
      Quoted(OrEmpty(h.diktatkuerzel)),
      IntToString(BuchungstypValue(h.buchungstyp)),
      IntToString(ZweckValue(h.rechnungslegungszweck)),
      IntToString(h.festschreibung) ]
  }

  /** Items 22 to 31: currency and the mostly reserved tail. */
  function HeaderTail(h: Header): seq<string>
  {
    [ Quoted(h.wkz),
      "",
      Quoted(OrEmpty(h.derivatskennzeichen)),
      "",
      "",
      Quoted(OrEmpty(h.sachkontenrahmen)),
      OrEmpty(h.idDerBranchenloesung),
      "",
      Quoted(OrEmpty(h.reserviert5)),
      Quoted(OrEmpty(h.anwendungsinformation)) ]
  }

  /** `Header.to_csv_herder`: the 31 items joined by ";". */
  function ToCsvHeader(h: Header): (r: string)
    requires DatesValid(h)
    ensures NoneContain(HeaderFields(h), ';') ==> Split(r, ';') == HeaderFields(h)
  {
    var line := Join(HeaderFields(h), ';');
    assert NoneContain(HeaderFields(h), ';') ==> Split(line, ';') == HeaderFields(h) by {
      if NoneContain(HeaderFields(h), ';') {
        SplitJoin(HeaderFields(h), ';');
      }
    }
    line
  }

  // ---------------------------------------------------------------------------
  // Reading a header line
  // ---------------------------------------------------------------------------

  /**
   * The length rules of `from_csv_header`: more than 31 parts are allowed
   * only when every part beyond the 31st is blank, and are then cut to 31;
   * anything else but exactly 31 parts is a ValueError.
   */
  function SplitHeader(data: string): (r: Result<seq<string>>)
    ensures var parts := Split(data, ';');
      && (r.Ok? <==>
            (|parts| == FieldCount
             || (|parts| > FieldCount && forall i :: FieldCount <= i < |parts| ==> StripSpace(parts[i]) == "")))
      && (r.Ok? ==> r.value == parts[..FieldCount])
      && (r.Err? ==> r.error.ValueError?)
  {
    var parts := Split(data, ';');
    if |parts| > FieldCount && exists i :: FieldCount <= i < |parts| && StripSpace(parts[i]) != "" then
      Err(ValueError("Invalid header length: " + IntToString(|parts|)))
    else if |parts| < FieldCount then
      Err(ValueError("Invalid header length: " + IntToString(|parts|)))
    else
      Ok(parts[..FieldCount])
  }

  /** The first field, quotes stripped, must be "EXTF" or "DTVF". */
  function ParseKennzeichen(field: string): (r: Result<Kennzeichen>)
    ensures r.Ok? <==> StripChar(field, '"') in {"EXTF", "DTVF"}
    ensures r.Ok? ==> KennzeichenText(r.value) == StripChar(field, '"')
    ensures r.Err? ==> r.error.ValueError?
  {
    var k := StripChar(field, '"');
    if k == "EXTF" then Ok(Extf)
    else if k == "DTVF" then Ok(Dtvf)
    else Err(ValueError("Invalid kennzeichen: " + k))
  }

  /** The 21st field must be an integer that is 0 or 1. */
  function ParseFestschreibung(field: string): (r: Result<int>)
    ensures r.Ok? <==> ParseInt(field).Ok? && ParseInt(field).value in {0, 1}
    ensures r.Ok? ==> r.value == ParseInt(field).value
    ensures r.Err? ==> r.error.ValueError?
  {
    var v :- ParseInt(field);
    if v == 0 || v == 1 then Ok(v) else Err(ValueError("Invalid festschreibung: " + IntToString(v)))
  }

  /** The reserved positions (0-based) whose non-empty content only draws a warning. */
  const ReservedPositions: seq<nat> := [6, 22, 23, 24, 25, 28, 29]

  /** The 1-based positions reported by the warnings, in the order they are printed. */
  function ReservedWarnings(fields: seq<string>, positions: seq<nat>): seq<nat>
  {
    if positions == [] then []
    else
      var p := positions[0];
      (if p < |fields| && fields[p] != "" then [p + 1] else []) + ReservedWarnings(fields, positions[1..])
  }

  /** A warning is printed for a reserved position exactly when its item is not empty. */
  lemma {:induction false} ReservedWarningsExact(fields: seq<string>, positions: seq<nat>, w: nat)
    requires forall p <- positions :: p < |fields|
    ensures w in ReservedWarnings(fields, positions) <==> w >= 1 && w - 1 in positions && fields[w - 1] != ""
  {
    if positions != [] {
      assert positions == [positions[0]] + positions[1..];
      assert forall p <- positions[1..] :: p in positions;
      ReservedWarningsExact(fields, positions[1..], w);
    }
  }

  /** The warnings `from_csv_header` prints once the length, kennzeichen and festschreibung checks pass. */
  function HeaderWarnings(data: string): seq<nat>
  {
    match SplitHeader(data)
    case Err(_) => []
    case Ok(fields) =>
      if ParseKennzeichen(fields[0]).Ok? && ParseFestschreibung(fields[20]).Ok?
      then ReservedWarnings(fields, ReservedPositions)
      else []
  }

  /** `FormatCategory(int(field))` and its siblings. */
  function CategoryOfText(field: string): Result<FormatCategory>
  {
    var v :- ParseInt(field);
    CategoryOf(v)
  }

  function BuchungstypOfText(field: string): Result<Buchungstyp>
  {
    var v :- ParseInt(field);
    BuchungstypOf(v)
  }

  function ZweckOfText(field: string): Result<Rechnungslegungszweck>
  {
    var v :- ParseInt(field);
    ZweckOf(v)
  }

  /** Format category, format version and creation time, in the order `from_csv_header` converts them. */
  function ParseFormat(f: seq<string>): (r: Result<(FormatCategory, int, Date)>)
    requires |f| == FieldCount
    ensures r.Ok? ==> Valid(r.value.2)
  {
    var category :- CategoryOfText(f[2]);
    var formatversion :- ParseInt(f[4]);
    var erzeugtAm :- ParseStamp(f[5]);
    Ok((category, formatversion, erzeugtAm))
  }

  /** Advisor, client, start of the fiscal year and account length. */
  function ParseClient(f: seq<string>): (r: Result<(int, int, Date, int)>)
    requires |f| == FieldCount
    ensures r.Ok? ==> Valid(r.value.2)
  {
    var berater :- ParseInt(f[10]);
    var mandant :- ParseInt(f[11]);
    var wjBeginn :- ParseYmd(f[12]);
    var sachkontenlaenge :- ParseInt(f[13]);
    Ok((berater, mandant, wjBeginn, sachkontenlaenge))
  }

  /** First and last day of the booking period. */
  function ParsePeriod(f: seq<string>): (r: Result<(Date, Date)>)
    requires |f| == FieldCount
    ensures r.Ok? ==> Valid(r.value.0) && Valid(r.value.1)
  {
    var datumVon :- ParseYmd(f[14]);
    var datumBis :- ParseYmd(f[15]);
    Ok((datumVon, datumBis))
  }

  /** Booking type and accounting purpose. */
  function ParseKinds(f: seq<string>): Result<(Buchungstyp, Rechnungslegungszweck)>
    requires |f| == FieldCount
  {
    var buchungstyp :- BuchungstypOfText(f[18]);
    var zweck :- ZweckOfText(f[19]);
    Ok((buchungstyp, zweck))
  }

  /** The keyword arguments of the `Header(...)` call, evaluated in the order written. */
  function ParseHeaderFields(f: seq<string>, k: Kennzeichen, festschreibung: int): (r: Result<Header>)
    requires |f| == FieldCount
    ensures r.Ok? ==> DatesValid(r.value) && r.value.kennzeichen == k
    ensures r.Ok? ==> r.value.festschreibung == 0 || r.value.festschreibung == 1
    ensures r.Ok? ==> r.value.derivatskennzeichen.None? && r.value.reserviert5.None?
  {
    var format :- ParseFormat(f);
    var client :- ParseClient(f);
    var period :- ParsePeriod(f);
    var kinds :- ParseKinds(f);
    Ok(Header(
      k, f[1], format.0, StripChar(f[3], '"'), format.1, format.2,
      StripChar(f[7], '"'), StripChar(f[8], '"'), StripChar(f[9], '"'),
      client.0, client.1, client.2, client.3, period.0, period.1,
      StripChar(f[16], '"'), NoneIfEmpty(StripChar(f[17], '"')), kinds.0, kinds.1,
      if festschreibung == 0 then 0 else 1,
      StripChar(f[21], '"'), None, NoneIfEmpty(StripChar(f[26], '"')), NoneIfEmpty(f[27]),
      None, NoneIfEmpty(StripChar(f[30], '"'))))
  }

  /** `Header.from_csv_header`. */
  function FromCsvHeader(data: string): (r: Result<Header>)
    ensures r.Ok? ==> SplitHeader(data).Ok?
    ensures r.Ok? ==> ParseKennzeichen(SplitHeader(data).value[0]) == Ok(r.value.kennzeichen)
    ensures r.Ok? ==> r.value.festschreibung == 0 || r.value.festschreibung == 1
    ensures r.Ok? ==> r.value.derivatskennzeichen.None? && r.value.reserviert5.None?
    ensures r.Ok? ==> DatesValid(r.value)
  {
    var fields :- SplitHeader(data);
    var kennzeichen :- ParseKennzeichen(fields[0]);
    var festschreibung :- ParseFestschreibung(fields[20]);
    ParseHeaderFields(fields, kennzeichen, festschreibung)
  }

  // ---------------------------------------------------------------------------
  // Writing, then reading back
  // ---------------------------------------------------------------------------

  /** Text that survives being wrapped in quotes and `strip('"')`-ed, and holds no separator. */
  predicate Quotable(s: string)
  {
    NoChar(s, ';') && (|s| == 0 || (s[0] != '"' && s[|s| - 1] != '"'))
  }

  /** What the round trip needs of the text fields. */
  predicate TextFree(h: Header)
  {
    && NoChar(h.version, ';')
    && Quotable(h.formatname)
    && Quotable(h.herkunft)
    && Quotable(h.exportiertVon)
    && Quotable(h.importiertVon)
    && Quotable(h.bezeichnung)
    && Quotable(OrEmpty(h.diktatkuerzel))
    && Quotable(h.wkz)
    && NoChar(OrEmpty(h.derivatskennzeichen), ';')
    && Quotable(OrEmpty(h.sachkontenrahmen))
    && NoChar(OrEmpty(h.idDerBranchenloesung), ';')
    && NoChar(OrEmpty(h.reserviert5), ';')
    && Quotable(OrEmpty(h.anwendungsinformation))
  }

  /** Python `s or None` on the way back turns an empty optional text into None. */
  function Normal(o: Option<string>): Option<string>
  {
    if o == Some("") then None else o
  }

  /** The header as `from_csv_header` rebuilds it: the reserved fields are None again. */
  function Normalized(h: Header): Header
  {
    h.(diktatkuerzel := Normal(h.diktatkuerzel),
       derivatskennzeichen := None,
       sachkontenrahmen := Normal(h.sachkontenrahmen),
       idDerBranchenloesung := Normal(h.idDerBranchenloesung),
       reserviert5 := None,
       anwendungsinformation := Normal(h.anwendungsinformation))
  }

  lemma QuotedFree(s: string)
    requires NoChar(s, ';')
    ensures NoChar(Quoted(s), ';')
  {
    assert forall i :: 0 <= i < |Quoted(s)| ==> Quoted(s)[i] == '"' || Quoted(s)[i] == s[i - 1];
  }

  lemma DigitsFree(s: string)
    requires AllDigits(s)
    ensures NoChar(s, ';')
  {
  }

  lemma {:induction false} IntToStringFree(i: int)
    ensures NoChar(IntToString(i), ';')
  {
    if i < 0 {
      var d := NatToString(-i);
      assert forall k :: 0 <= k < |"-" + d| ==> ("-" + d)[k] == '-' || ("-" + d)[k] == d[k - 1];
    }
  }

  lemma NoneContainConcat(a: seq<string>, b: seq<string>, c: char)
    requires NoneContain(a, c) && NoneContain(b, c)
    ensures NoneContain(a + b, c)
  {
    assert forall k :: 0 <= k < |a + b| ==> (a + b)[k] == (if k < |a| then a[k] else b[k - |a|]);
  }

  lemma HeadFree(h: Header)
    requires DatesValid(h) && TextFree(h)
    ensures NoneContain(HeaderHead(h), ';')
  {
    QuotedFree(KennzeichenText(h.kennzeichen));
    QuotedFree(h.formatname);
    QuotedFree(h.herkunft);
    QuotedFree(h.exportiertVon);
    QuotedFree(h.importiertVon);
    IntToStringFree(CategoryValue(h.formatKategory));
    IntToStringFree(h.formatversion);
    StampFree(h.erzeugtAm);
  }

  lemma MiddleFree(h: Header)
    requires DatesValid(h) && TextFree(h)
    ensures NoneContain(HeaderMiddle(h), ';')
  {
    QuotedFree(h.bezeichnung);
    QuotedFree(OrEmpty(h.diktatkuerzel));
    IntToStringFree(h.beraterNummer);
    IntToStringFree(h.mandantNummer);
    IntToStringFree(h.sachkontenlaenge);
    IntToStringFree(BuchungstypValue(h.buchungstyp));
    IntToStringFree(ZweckValue(h.rechnungslegungszweck));
    IntToStringFree(h.festschreibung);
    FormatYmdShape(h.wjBeginn);
    FormatYmdShape(h.datumVon);
    FormatYmdShape(h.datumBis);
    DigitsFree(FormatYmd(h.wjBeginn));
    DigitsFree(FormatYmd(h.datumVon));
    DigitsFree(FormatYmd(h.datumBis));
  }

  lemma TailFree(h: Header)
    requires TextFree(h)
    ensures NoneContain(HeaderTail(h), ';')
  {
    QuotedFree(h.wkz);
    QuotedFree(OrEmpty(h.derivatskennzeichen));
    QuotedFree(OrEmpty(h.sachkontenrahmen));
    QuotedFree(OrEmpty(h.reserviert5));
    QuotedFree(OrEmpty(h.anwendungsinformation));
  }

  /** Where each item of `HeaderFields` comes from. */
  lemma HeaderFieldsAt(h: Header)
    requires DatesValid(h)
    ensures forall k | 0 <= k < 10 :: HeaderFields(h)[k] == HeaderHead(h)[k]
    ensures forall k | 10 <= k < 21 :: HeaderFields(h)[k] == HeaderMiddle(h)[k - 10]
    ensures forall k | 21 <= k < FieldCount :: HeaderFields(h)[k] == HeaderTail(h)[k - 21]
  {
  }

  /** No item of a header whose text is free of ";" contains ";". */
  lemma HeaderFieldsFree(h: Header)
    requires DatesValid(h) && TextFree(h)
    ensures NoneContain(HeaderFields(h), ';')
  {
    HeadFree(h);
    MiddleFree(h);
    TailFree(h);
    NoneContainConcat(HeaderHead(h), HeaderMiddle(h), ';');
    NoneContainConcat(HeaderHead(h) + HeaderMiddle(h), HeaderTail(h), ';');
  }

  lemma StampFree(d: Date)
    requires Valid(d)
    ensures NoChar(FormatStamp(d), ';')
  {
    FormatYmdShape(d);
    assert AllDigits(FormatStamp(d));
  }

  /**
   * The header line splits into exactly the 31 items written, once no text
   * field holds a ";".
   */
  lemma ToCsvHeaderSplits(h: Header)
    requires DatesValid(h) && TextFree(h)
    ensures Split(ToCsvHeader(h), ';') == HeaderFields(h)
    ensures |Split(ToCsvHeader(h), ';')| == FieldCount
  {
    HeaderFieldsFree(h);
    SplitJoin(HeaderFields(h), ';');
  }

  /** A header written by `to_csv_herder` warns about positions 24 and 30, its own `""` items, and no others. */
  lemma OwnHeaderWarnings(h: Header)
    requires DatesValid(h) && TextFree(h) && h.festschreibung in {0, 1}
    ensures HeaderWarnings(ToCsvHeader(h)) == [24, 30]
  {
    var f := HeaderFields(h);
    HeaderFieldsAt(h);
    ToCsvHeaderSplits(h);
    assert f[..FieldCount] == f;
    assert SplitHeader(ToCsvHeader(h)) == Ok(f);
    KennzeichenReadBack(h.kennzeichen);
    ParseIntOfIntToString(h.festschreibung);
    assert f[23] == Quoted(OrEmpty(h.derivatskennzeichen)) && f[29] == Quoted(OrEmpty(h.reserviert5));
    assert f[6] == "" && f[22] == "" && f[24] == "" && f[25] == "" && f[28] == "";
    WarningsOfFields(f);
  }

  /** The warnings for a line whose reserved items are empty except the 24th and the 30th. */
  lemma WarningsOfFields(f: seq<string>)
    requires |f| == FieldCount
    requires f[6] == "" && f[22] == "" && f[23] != "" && f[24] == "" && f[25] == "" && f[28] == "" && f[29] != ""
    ensures ReservedWarnings(f, ReservedPositions) == [24, 30]
  {
    WarningsOfTail(f);
    assert ReservedPositions == [6, 22] + [23, 24, 25, 28, 29];
    assert ReservedWarnings(f, [6, 22] + [23, 24, 25, 28, 29]) == ReservedWarnings(f, [23, 24, 25, 28, 29]) by {
      assert [6, 22, 23, 24, 25, 28, 29][1..] == [22, 23, 24, 25, 28, 29];
      assert [22, 23, 24, 25, 28, 29][1..] == [23, 24, 25, 28, 29];
    }
  }

  /** One more reserved position in front. */
  lemma ReservedWarningsCons(fields: seq<string>, p: nat, ps: seq<nat>)
    ensures ReservedWarnings(fields, [p] + ps)
         == (if p < |fields| && fields[p] != "" then [p + 1] else []) + ReservedWarnings(fields, ps)
  {
    assert ([p] + ps)[1..] == ps;
  }

  lemma WarningsOfLastThree(f: seq<string>)
    requires |f| == FieldCount
    requires f[25] == "" && f[28] == "" && f[29] != ""
    ensures ReservedWarnings(f, [25, 28, 29]) == [30]
  {
    ReservedWarningsCons(f, 29, []);
    ReservedWarningsCons(f, 28, [29]);
    ReservedWarningsCons(f, 25, [28, 29]);
    assert [25, 28, 29] == [25] + [28, 29];
    assert [28, 29] == [28] + [29];
    assert [29] == [29] + [];
  }

  lemma WarningsOfTail(f: seq<string>)
    requires |f| == FieldCount
    requires f[23] != "" && f[24] == "" && f[25] == "" && f[28] == "" && f[29] != ""
    ensures ReservedWarnings(f, [23, 24, 25, 28, 29]) == [24, 30]
  {
    WarningsOfLastThree(f);
    ReservedWarningsCons(f, 24, [25, 28, 29]);
    ReservedWarningsCons(f, 23, [24, 25, 28, 29]);
    assert [23, 24, 25, 28, 29] == [23] + [24, 25, 28, 29];
    assert [24, 25, 28, 29] == [24] + [25, 28, 29];
  }

  lemma KennzeichenReadBack(k: Kennzeichen)
    ensures ParseKennzeichen(Quoted(KennzeichenText(k))) == Ok(k)
  {
    StripCharOfWrapped(KennzeichenText(k), '"');
    assert Quoted(KennzeichenText(k)) == ['"'] + KennzeichenText(k) + ['"'];
  }

  lemma QuotedReadBack(s: string)
    requires Quotable(s)
    ensures StripChar(Quoted(s), '"') == s
  {
    StripCharOfWrapped(s, '"');
    assert Quoted(s) == ['"'] + s + ['"'];
  }

  lemma OptionalReadBack(o: Option<string>)
    requires Quotable(OrEmpty(o))
    ensures NoneIfEmpty(StripChar(Quoted(OrEmpty(o)), '"')) == Normal(o)
  {
    QuotedReadBack(OrEmpty(o));
  }

  lemma FormatReadBack(h: Header)
    requires DatesValid(h)
    ensures ParseFormat(HeaderFields(h)) == Ok((h.formatKategory, h.formatversion, h.erzeugtAm))
  {
    var f := HeaderFields(h);
    HeaderFieldsAt(h);
    assert f[2] == IntToString(CategoryValue(h.formatKategory));
    assert f[4] == IntToString(h.formatversion);
    assert f[5] == FormatStamp(h.erzeugtAm);
    ParseIntOfIntToString(CategoryValue(h.formatKategory));
    ParseIntOfIntToString(h.formatversion);
    ParseStampOfFormat(h.erzeugtAm);
    CategoryRoundTrip(h.formatKategory);
  }

  lemma ClientReadBack(h: Header)
    requires DatesValid(h)
    ensures ParseClient(HeaderFields(h)) == Ok((h.beraterNummer, h.mandantNummer, h.wjBeginn, h.sachkontenlaenge))
  {
    var f := HeaderFields(h);
    HeaderFieldsAt(h);
    assert f[10] == IntToString(h.beraterNummer);
    assert f[11] == IntToString(h.mandantNummer);
    assert f[12] == FormatYmd(h.wjBeginn);
    assert f[13] == IntToString(h.sachkontenlaenge);
    ParseIntOfIntToString(h.beraterNummer);
    ParseIntOfIntToString(h.mandantNummer);
    ParseYmdOfFormat(h.wjBeginn);
    ParseIntOfIntToString(h.sachkontenlaenge);
  }

  lemma PeriodReadBack(h: Header)
    requires DatesValid(h)
    ensures ParsePeriod(HeaderFields(h)) == Ok((h.datumVon, h.datumBis))
  {
    var f := HeaderFields(h);
    HeaderFieldsAt(h);
    assert f[14] == FormatYmd(h.datumVon);
    assert f[15] == FormatYmd(h.datumBis);
    ParseYmdOfFormat(h.datumVon);
    ParseYmdOfFormat(h.datumBis);
  }

  lemma KindsReadBack(h: Header)
    requires DatesValid(h)
    ensures ParseKinds(HeaderFields(h)) == Ok((h.buchungstyp, h.rechnungslegungszweck))
  {
    var f := HeaderFields(h);
    HeaderFieldsAt(h);
    assert f[18] == IntToString(BuchungstypValue(h.buchungstyp));
    assert f[19] == IntToString(ZweckValue(h.rechnungslegungszweck));
    ParseIntOfIntToString(BuchungstypValue(h.buchungstyp));
    ParseIntOfIntToString(ZweckValue(h.rechnungslegungszweck));
    BuchungstypRoundTrip(h.buchungstyp);
    ZweckRoundTrip(h.rechnungslegungszweck);
  }

  /** The texts `ParseHeaderFields` strips of their quotes read back as written. */
  lemma TextsReadBack(h: Header)
    requires DatesValid(h) && TextFree(h)
    ensures var f := HeaderFields(h);
      && StripChar(f[3], '"') == h.formatname
      && StripChar(f[7], '"') == h.herkunft
      && StripChar(f[8], '"') == h.exportiertVon
      && StripChar(f[9], '"') == h.importiertVon
      && StripChar(f[16], '"') == h.bezeichnung
      && NoneIfEmpty(StripChar(f[17], '"')) == Normal(h.diktatkuerzel)
      && StripChar(f[21], '"') == h.wkz
      && NoneIfEmpty(StripChar(f[26], '"')) == Normal(h.sachkontenrahmen)
      && NoneIfEmpty(f[27]) == Normal(h.idDerBranchenloesung)
      && NoneIfEmpty(StripChar(f[30], '"')) == Normal(h.anwendungsinformation)
  {
    HeaderFieldsAt(h);
    QuotedReadBack(h.formatname);
    QuotedReadBack(h.herkunft);
    QuotedReadBack(h.exportiertVon);
    QuotedReadBack(h.importiertVon);
    QuotedReadBack(h.bezeichnung);
    QuotedReadBack(h.wkz);
    OptionalReadBack(h.diktatkuerzel);
    OptionalReadBack(h.sachkontenrahmen);
    OptionalReadBack(h.anwendungsinformation);
  }

  /** Every field `ParseHeaderFields` converts reads back as the value written. */
  lemma {:induction false} ParseHeaderFieldsOf(h: Header)
    requires DatesValid(h) && TextFree(h) && h.festschreibung in {0, 1}
    ensures ParseHeaderFields(HeaderFields(h), h.kennzeichen, h.festschreibung) == Ok(Normalized(h))
  {
    var f := HeaderFields(h);
    HeaderFieldsAt(h);
    FormatReadBack(h);
    ClientReadBack(h);
    PeriodReadBack(h);
    KindsReadBack(h);
    TextsReadBack(h);
    assert f[1] == h.version;
  }

  /**
   * `from_csv_header(to_csv_herder(h))` gives back `h`, up to the reserved
   * fields and empty optional texts, whenever the texts hold no ";" and do
   * not begin or end with a quote.
   */
  lemma {:induction false} HeaderRoundTrip(h: Header)
    requires DatesValid(h) && TextFree(h) && h.festschreibung in {0, 1}
    ensures FromCsvHeader(ToCsvHeader(h)) == Ok(Normalized(h))
  {
    var f := HeaderFields(h);
    HeaderFieldsAt(h);
    ToCsvHeaderSplits(h);
    assert f[..FieldCount] == f;
    assert SplitHeader(ToCsvHeader(h)) == Ok(f);
    assert f[0] == Quoted(KennzeichenText(h.kennzeichen));
    assert f[20] == IntToString(h.festschreibung);
    KennzeichenReadBack(h.kennzeichen);
    ParseIntOfIntToString(h.festschreibung);
    assert ParseFestschreibung(f[20]) == Ok(h.festschreibung);
    ParseHeaderFieldsOf(h);
  }
}
