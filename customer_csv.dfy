/**
 * The customer-master export (`database_kunden_csv_generator.py`): database
 * rows become `DBData` records, the default collective accounts are added,
 * every record becomes one row of the DATEV "Debitoren/Kreditoren" CSV, and
 * the text is scanned for characters ISO/IEC 8859-1 (Latin-1) cannot hold.
 * The database query and the clock are parameters: rows arrive as the text
 * `str()` makes of each column, the time as a date and a time of day.
 */
module CustomerCsv {
  import opened Common
  import opened Dates
  import CsvDialect
  import opened CustomerColumns

  /** A customer record as `build_csv_data` reads it. */
  datatype DbData = DbData(
    kontoNr: Option<int>,
    name: string,
    kundennr: string,
    street: string,
    postalCode: string,
    city: string,
    country: string)

  // ---------------------------------------------------------------------------
  // The default collective accounts
  // ---------------------------------------------------------------------------


  function DefaultEntry(kv: (string, int)): DbData
  {
    DbData(Some(kv.1), kv.0, "", "", "", "", "DE")
  }

  /** `DEFAULT_KTR_DB_DATA`: one record per default account. */
  function DefaultKtrDbData(): seq<DbData>
  {
    Map(DefaultKtr(), DefaultEntry)
  }

  /**
   * One record per key of `DEFAULT_KTR`, in order: the key as name, the
   * value as account number, every address field empty and country "DE".
   */
  lemma DefaultKtrDbDataShape()
    ensures |DefaultKtrDbData()| == |DefaultKtr()| == 26
    ensures forall i :: 0 <= i < |DefaultKtr()| ==>
      DefaultKtrDbData()[i] == DbData(Some(DefaultKtr()[i].1), DefaultKtr()[i].0, "", "", "", "", "DE")
  {
    forall i | 0 <= i < |DefaultKtr()|
      ensures DefaultKtrDbData()[i] == DefaultEntry(DefaultKtr()[i])
    {
      MapAt(DefaultKtr(), DefaultEntry, i);
    }
  }

  // ---------------------------------------------------------------------------
  // Database rows
  // ---------------------------------------------------------------------------

  /**
   * A row of `SELECT KdNr, KdNme1, KdNme2, KdStr, KdPlz, KdOrt, DatevKtrNr`:
   * the text columns as `str()` renders them, the account number as stored.
   */
  datatype DbRow = DbRow(kdNr: string, name1: string, name2: string, street: string, postalCode: string,
                         city: string, datevKtrNr: Option<int>)

  /** The per-row transform of `database_get_entries`. */
  function RowEntry(row: DbRow): (r: Result<DbData>)
    ensures r.Err? <==> row.datevKtrNr.None?
  {
    if row.datevKtrNr.None? then
      // `int(None)` raises a TypeError; its message is named by its cause
      Err(TypeError("int(None)"))
    else
      var name := if row.name2 != "" then row.name1 + " " + row.name2 else row.name1;
      var konto := row.datevKtrNr.value;
      Ok(DbData(if konto != 0 then Some(konto) else None, Prefix(name, 50), row.kdNr, row.street,
                row.postalCode, row.city, "DE"))
  }

  /**
   * The name is the two name columns joined by a space when the second is
   * non-empty, cut to 50 characters; account 0 becomes None; the customer
   * number and address are copied; the country is "DE".
   */
  lemma RowEntryFields(row: DbRow)
    requires row.datevKtrNr.Some?
    ensures var e := RowEntry(row).value;
      && e.name == Prefix(if row.name2 != "" then row.name1 + " " + row.name2 else row.name1, 50)
      && |e.name| <= 50
      && (e.kontoNr.None? <==> row.datevKtrNr.value == 0)
      && (e.kontoNr.Some? ==> e.kontoNr.value == row.datevKtrNr.value)
      && e.kundennr == row.kdNr && e.street == row.street && e.postalCode == row.postalCode && e.city == row.city
      && e.country == "DE"
  {
  }

  /** A short name pair survives whole: a name that fits is not cut. */
  lemma RowNameFits(row: DbRow)
    requires row.datevKtrNr.Some? && row.name2 != "" && |row.name1| + 1 + |row.name2| <= 50
    ensures RowEntry(row).value.name == row.name1 + " " + row.name2
  {
  }

  /** `database_get_entries`: the loop over the fetched rows. */
  method DatabaseEntries(rows: seq<DbRow>) returns (r: Result<seq<DbData>>)
    ensures r == MapAll(rows, RowEntry)
  {
    var entries: seq<DbData> := [];
    for i := 0 to |rows|
      invariant MapAll(rows[..i], RowEntry) == Ok(entries)
    {
      assert rows[..i + 1][..i] == rows[..i];
      var e := RowEntry(rows[i]);
      if e.Err? {
        MapAllPrefixError(rows, i + 1, RowEntry);
        return Err(e.error);
      }
      entries := entries + [e.value];
    }
    assert rows[..|rows|] == rows;
    return Ok(entries);
  }

  // ---------------------------------------------------------------------------
  // The CSV rows
  // ---------------------------------------------------------------------------


  /** A cell value: a text, a number or None. */
  datatype Value = Text(text: string) | Number(number: int) | Null

  /** The eight columns a data row fills. */
  predicate Assigned(column: string)
  {
    || column == "Konto" || column == "Name (Adressattyp Unternehmen)" || column == "Kurzbezeichnung"
    || column == "Kunden-/Lief.-Nr." || column == "Straße" || column == "Postleitzahl" || column == "Ort"
    || column == "Land"
  }

  /** `csv_dict`: every column "" first, then the eight assignments. */
  function RowDict(columns: seq<string>, e: DbData): map<string, Value>
  {
    (map column | column in columns :: Text(""))
      ["Konto" := if e.kontoNr.Some? then Number(e.kontoNr.value) else Null]
      ["Name (Adressattyp Unternehmen)" := Text(e.name)]
      ["Kurzbezeichnung" := Text(Prefix(e.name, 15))]
      ["Kunden-/Lief.-Nr." := Text(e.kundennr)]
      ["Straße" := Text(e.street)]
      ["Postleitzahl" := Text(e.postalCode)]
      ["Ort" := Text(e.city)]
      ["Land" := Text("DE")]
  }

  /**
   * With every assigned column among the columns, the row's dict has
   * exactly the columns as keys, so `DictWriter` finds no extra key to
   * reject.
   */
  lemma RowDictKeys(columns: seq<string>, e: DbData)
    requires forall c :: Assigned(c) ==> c in columns
    ensures forall c :: c in RowDict(columns, e) <==> c in columns
  {
  }

  /** The program's column list has 146 columns and holds every assigned column. */
  lemma HeaderListAssigned()
    ensures |CsvHeaderList()| == 146
    ensures forall c :: Assigned(c) ==> c in CsvHeaderList()
  {
    var first, second, tenth := Columns0(), Columns1(), Columns9();
    assert first[0] == "Konto" && first[1] == "Name (Adressattyp Unternehmen)" && first[7] == "Kurzbezeichnung";
    assert second[5] == "Straße" && second[7] == "Postleitzahl" && second[8] == "Ort" && second[9] == "Land";
    assert tenth[8] == "Kunden-/Lief.-Nr.";
  }

  /** `DictWriter`'s lookup of one column: the value, or the empty `restval`. */
  function Lookup(d: map<string, Value>, column: string): Value
  {
    if column in d then d[column] else Text("")
  }

  function RowLookup(columns: seq<string>, e: DbData): string -> Value
  {
    (column: string) => Lookup(RowDict(columns, e), column)
  }

  /** The values of one data row, one per column in column order. */
  function DataRow(columns: seq<string>, e: DbData): (r: seq<Value>)
    ensures |r| == |columns|
  {
    Map(columns, RowLookup(columns, e))
  }

  /**
   * Every column has a value in the row's dict; a data row holds the
   * account number (or None), the name, its first 15 characters, the
   * customer number, the address and "DE" in their columns, whatever the
   * record's country, and "" in every other column.
   */
  lemma DataRowValues(columns: seq<string>, e: DbData, i: nat)
    requires i < |columns|
    ensures columns[i] in RowDict(columns, e)
    ensures var c, v := columns[i], DataRow(columns, e)[i];
      && (c == "Konto" ==> v == if e.kontoNr.Some? then Number(e.kontoNr.value) else Null)
      && (c == "Name (Adressattyp Unternehmen)" ==> v == Text(e.name))
      && (c == "Kurzbezeichnung" ==> v == Text(Prefix(e.name, 15)))
      && (c == "Kunden-/Lief.-Nr." ==> v == Text(e.kundennr))
      && (c == "Straße" ==> v == Text(e.street))
      && (c == "Postleitzahl" ==> v == Text(e.postalCode))
      && (c == "Ort" ==> v == Text(e.city))
      && (c == "Land" ==> v == Text("DE"))
      && (!Assigned(c) ==> v == Text(""))
  {
    MapAt(columns, RowLookup(columns, e), i);
  }

  /** A cell as `QUOTE_NONNUMERIC` writes it: numbers bare, text and None quoted. */
  function Cell(v: Value): string
  {
    match v
    case Text(s) => CsvDialect.QuoteField(s)
    case Number(n) => IntToString(n)
    case Null => "\"\""
  }

  /** One written row: the cells joined by ";", then "\r\n". */
  function RowText(values: seq<Value>): string
  {
    Join(Map(values, Cell), ';') + "\r\n"
  }

  /** `writeheader`: the column names as a row of texts. */
  function HeaderRow(columns: seq<string>): string
  {
    RowText(Map(columns, (c: string) => Text(c)))
  }

  /** The text of one data row. */
  function DataLine(columns: seq<string>): DbData -> string
  {
    (e: DbData) => RowText(DataRow(columns, e))
  }

  /** Rows written one after another, one per record in order. */
  function Lines<T>(xs: seq<T>, line: T -> string): string
  {
    if |xs| == 0 then "" else Lines(xs[..|xs| - 1], line) + line(xs[|xs| - 1])
  }

  /** The lines of a prefix of the records come first: more records only add text at the end. */
  lemma {:induction false} LinesExtend<T>(xs: seq<T>, k: nat, line: T -> string)
    requires k <= |xs|
    ensures Lines(xs[..k], line) <= Lines(xs, line)
    decreases |xs| - k
  {
    if k < |xs| {
      LinesExtend(xs, k + 1, line);
      assert xs[..k + 1][..k] == xs[..k];
    } else {
      assert xs[..k] == xs;
    }
  }

  /** `build_csv_data`: the column-name row, then one row per record in order. */
  function CsvData(columns: seq<string>, data: seq<DbData>): string
  {
    HeaderRow(columns) + Lines(data, DataLine(columns))
  }

  /** The writer loop: one `writerow` per record, in order. */
  method WriteLines<T>(xs: seq<T>, line: T -> string) returns (body: string)
    ensures body == Lines(xs, line)
  {
    body := "";
    for i := 0 to |xs|
      invariant body == Lines(xs[..i], line)
    {
      assert xs[..i + 1][..i] == xs[..i];
      body := body + line(xs[i]);
    }
    assert xs[..|xs|] == xs;
  }

  /** `build_csv_data`: `writeheader`, then the writer loop. */
  method BuildCsvData(columns: seq<string>, data: seq<DbData>) returns (text: string)
    ensures text == CsvData(columns, data)
  {
    var body := WriteLines(data, DataLine(columns));
    text := HeaderRow(columns) + body;
  }

  /**
   * The text starts with the column-name row, followed by the rows of any
   * prefix of the records: the records are written in order.
   */
  lemma CsvDataExtends(columns: seq<string>, data: seq<DbData>, k: nat)
    requires k <= |data|
    ensures CsvData(columns, data[..k]) <= CsvData(columns, data)
    ensures CsvData(columns, data)[..|HeaderRow(columns)|] == HeaderRow(columns)
  {
    LinesExtend(data, k, DataLine(columns));
  }

  // ---------------------------------------------------------------------------
  // The Latin-1 scan
  // ---------------------------------------------------------------------------

  predicate Latin1(c: char)
  {
    c as int < 256
  }

  predicate AllLatin1(s: string)
  {
    forall i :: 0 <= i < |s| ==> Latin1(s[i])
  }

  function Max(a: int, b: int): int { if a >= b then a else b }

  /** `data_str[max(0, idx - 20) : idx + 20]`. */
  function Context(s: string, idx: nat): (r: string)
    requires idx < |s|
    ensures |r| <= 40
  {
    s[Max(0, idx - 20)..Min(|s|, idx + 20)]
  }

  /** What the scan prints for one character: its position, code point and surrounding text. */
  datatype Report = Report(position: nat, codePoint: int, context: string)

  /** The reports for the first `n` characters, in position order. */
  function Reports(s: string, n: nat): seq<Report>
    requires n <= |s|
  {
    if n == 0 then []
    else Reports(s, n - 1) + (if Latin1(s[n - 1]) then [] else [Report(n - 1, s[n - 1] as int, Context(s, n - 1))])
  }

  /** The warning loop of `build_csv`: it runs only when encoding the whole text fails. */
  method ScanLatin1(s: string) returns (reports: seq<Report>)
    ensures reports == Reports(s, |s|)
  {
    reports := [];
    if AllLatin1(s) {
      NoReports(s, |s|);
      return;
    }
    for idx := 0 to |s|
      invariant reports == Reports(s, idx)
    {
      if !Latin1(s[idx]) {
        reports := reports + [Report(idx, s[idx] as int, Context(s, idx))];
      }
    }
  }

  lemma {:induction false} NoReports(s: string, n: nat)
    requires n <= |s| && AllLatin1(s)
    ensures Reports(s, n) == []
  {
    if n > 0 {
      NoReports(s, n - 1);
    }
  }

  /** Every report names a character outside Latin-1, with its code point and the up to 20 characters on either side. */
  lemma {:induction false} ReportsSound(s: string, n: nat)
    requires n <= |s|
    ensures forall k :: 0 <= k < |Reports(s, n)| ==>
      var r := Reports(s, n)[k];
      r.position < n && !Latin1(s[r.position]) && r.codePoint == s[r.position] as int
      && r.context == Context(s, r.position)
  {
    if n > 0 {
      ReportsSound(s, n - 1);
      var front := Reports(s, n - 1);
      var all := Reports(s, n);
      forall k | 0 <= k < |all|
        ensures all[k].position < n && !Latin1(s[all[k].position]) && all[k].codePoint == s[all[k].position] as int
          && all[k].context == Context(s, all[k].position)
      {
        if k < |front| {
          assert all[k] == front[k];
        } else {
          assert all == front + [Report(n - 1, s[n - 1] as int, Context(s, n - 1))];
        }
      }
    }
  }

  /** Some report names position `i`. */
  predicate Reported(reports: seq<Report>, i: nat)
  {
    exists k :: 0 <= k < |reports| && reports[k].position == i
  }

  /** Every character outside Latin-1 is reported. */
  lemma {:induction false} ReportsComplete(s: string, n: nat)
    requires n <= |s|
    ensures forall i :: 0 <= i < n && !Latin1(s[i]) ==> Reported(Reports(s, n), i)
  {
    if n > 0 {
      ReportsComplete(s, n - 1);
      var front := Reports(s, n - 1);
      var all := Reports(s, n);
      forall i | 0 <= i < n && !Latin1(s[i])
        ensures Reported(all, i)
      {
        if i < n - 1 {
          var k :| 0 <= k < |front| && front[k].position == i;
          assert all[k] == front[k];
        } else {
          assert all == front + [Report(n - 1, s[n - 1] as int, Context(s, n - 1))];
          assert all[|front|].position == i;
        }
      }
    }
  }

  /** The reports come in increasing position, so no character is reported twice. */
  lemma {:induction false} ReportsIncreasing(s: string, n: nat)
    requires n <= |s|
    ensures forall k, l :: 0 <= k < l < |Reports(s, n)| ==> Reports(s, n)[k].position < Reports(s, n)[l].position
  {
    if n > 0 {
      ReportsIncreasing(s, n - 1);
      ReportsSound(s, n - 1);
      assert Reports(s, n)[..|Reports(s, n - 1)|] == Reports(s, n - 1);
    }
  }

  // ---------------------------------------------------------------------------
  // The file
  // ---------------------------------------------------------------------------

  /** The clock reading the module takes at import. */
  datatype Now = Now(date: Date, hour: nat, minute: nat, second: nat, microsecond: nat)

  predicate NowValid(now: Now)
  {
    Valid(now.date) && now.hour < 24 && now.minute < 60 && now.second < 60 && now.microsecond < 1000000
  }

  /** `now.strftime("%Y%m%d%H%M%S%f")[:-3]`. */
  function Timestamp(now: Now): string
    requires NowValid(now)
  {
    var full := FormatYmd(now.date) + PadNat(now.hour, 2) + PadNat(now.minute, 2) + PadNat(now.second, 2)
                + PadNat(now.microsecond, 6);
    full[..Max(0, |full| - 3)]
  }

  /** The timestamp is YYYYMMDDHHMMSSFFF: 17 digits, milliseconds last. */
  lemma TimestampShape(now: Now)
    requires NowValid(now)
    ensures |Timestamp(now)| == 17 && AllDigits(Timestamp(now))
    ensures Timestamp(now)[..8] == FormatYmd(now.date)
  {
    PadNatLength(now.date.year, 4);
    PadNatLength(now.date.month, 2);
    PadNatLength(now.date.day, 2);
    PadNatLength(now.hour, 2);
    PadNatLength(now.minute, 2);
    PadNatLength(now.second, 2);
    PadNatLength(now.microsecond, 6);
  }

  /** The fields of `HEADER_LINE` around the creation timestamp and the start of the year. */
  function HeaderFieldsOf(timestamp: string, startOfYear: string): seq<string>
  {
    ["\"EXTF\"", "700", "16", "\"Debitoren/Kreditoren\"", "4", timestamp, "", "", "", "", "12191", "45061",
     startOfYear, "4", "", "", "\"\"", "\"\"", "", "", "", "\"\"", "", "", "", "0", ""]
  }

  /** `HEADER_LINE`: the DATEV header of format category 16, version 4, its fields joined by ";". */
  function HeaderLine(now: Now): string
    requires NowValid(now)
  {
    Join(HeaderFieldsOf(Timestamp(now), FormatYmd(Date(now.date.year, 1, 1))), ';')
  }

  /** With digits for timestamp and date, no header field holds the separator. */
  lemma HeaderFieldsClean(timestamp: string, startOfYear: string)
    requires AllDigits(timestamp) && AllDigits(startOfYear)
    ensures NoneContain(HeaderFieldsOf(timestamp, startOfYear), ';')
  {
    var f := HeaderFieldsOf(timestamp, startOfYear);
    forall k | 0 <= k < |f|
      ensures NoChar(f[k], ';')
    {
      if k == 5 || k == 12 {
        assert AllDigits(f[k]);
      }
    }
  }

  /**
   * Split at ";", the header line gives back its 27 fields, the 17-digit
   * creation timestamp and the first of January of the current year among
   * them.
   */
  lemma HeaderLineFields(now: Now)
    requires NowValid(now)
    ensures Split(HeaderLine(now), ';') == HeaderFieldsOf(Timestamp(now), FormatYmd(Date(now.date.year, 1, 1)))
    ensures |Timestamp(now)| == 17 && AllDigits(Timestamp(now))
  {
    var ts, soy := Timestamp(now), FormatYmd(Date(now.date.year, 1, 1));
    TimestampShape(now);
    FormatYmdShape(Date(now.date.year, 1, 1));
    HeaderFieldsClean(ts, soy);
    SplitJoin(HeaderFieldsOf(ts, soy), ';');
  }

  /** What `build_csv` leaves behind: the file's contents, the reported characters, and the exception it raised, if any. */
  datatype Written = Written(contents: string, reports: seq<Report>, raised: Option<Error>)

  /**
   * The file part of `build_csv` as written: the header line is written,
   * the data is scanned, then writing the data to a file opened with the
   * strict Latin-1 codec raises on the first character outside Latin-1,
   * so that only the header line reaches the file.
   */
  function WriteLatin1AsWritten(header: string, text: string): Written
  {
    var reports := Reports(text, |text|);
    if AllLatin1(text) then Written(header + "\r\n" + text, reports, None)
    else Written(header + "\r\n", reports, Some(UnicodeEncodeError("'latin-1' codec can't encode character")))
  }

  /** `text` with every character outside Latin-1 replaced by '?'. */
  function ReplaceNonLatin1(text: string): (r: string)
    ensures |r| == |text|
    ensures forall i :: 0 <= i < |text| ==> r[i] == if Latin1(text[i]) then text[i] else '?'
  {
    if |text| == 0 then ""
    else ReplaceNonLatin1(text[..|text| - 1]) + [if Latin1(text[|text| - 1]) then text[|text| - 1] else '?']
  }

  /**
   * The file part of `build_csv` as its warning announces it: characters
   * outside Latin-1 are written as '?', and the whole data follows the
   * header line.
   */
  function WriteLatin1(header: string, text: string): Written
  {
    Written(header + "\r\n" + ReplaceNonLatin1(text), Reports(text, |text|), None)
  }

  /**
   * The corrected write never raises and puts the header line and then
   * the whole data in the file, all of the data in Latin-1, with '?'
   * exactly where the scan reports a character and the data unchanged
   * everywhere else.
   */
  lemma WriteLatin1All(header: string, text: string)
    ensures var w := WriteLatin1(header, text);
      && w.raised.None?
      && w.contents[..|header| + 2] == header + "\r\n"
      && |w.contents| == |header| + 2 + |text|
      && AllLatin1(w.contents[|header| + 2..])
      && (forall i :: 0 <= i < |text| ==> (Reported(w.reports, i) <==> !Latin1(text[i])))
      && (forall i :: 0 <= i < |text| ==> w.contents[|header| + 2 + i] == if Reported(w.reports, i) then '?' else text[i])
  {
    var w := WriteLatin1(header, text);
    assert w.contents[|header| + 2..] == ReplaceNonLatin1(text);
    ReportsSound(text, |text|);
    ReportsComplete(text, |text|);
    forall i | 0 <= i < |text| && Reported(w.reports, i)
      ensures !Latin1(text[i])
    {
      var k :| 0 <= k < |w.reports| && w.reports[k].position == i;
    }
  }

  /**
   * When the data holds a character outside Latin-1, the program as
   * written reports at least one character, then raises and leaves a file
   * holding only the header line, while the corrected write keeps the
   * data. Data wholly in Latin-1 is written the same by both.
   */
  lemma AsWrittenLosesData(header: string, text: string)
    ensures var w := WriteLatin1AsWritten(header, text);
      && (!AllLatin1(text) ==>
           && w.contents == header + "\r\n"
           && w.raised.Some?
           && |w.reports| > 0
           && WriteLatin1(header, text).raised.None?
           && |WriteLatin1(header, text).contents| == |header| + 2 + |text|)
      && (AllLatin1(text) ==> w == WriteLatin1(header, text))
  {
    if !AllLatin1(text) {
      ReportsComplete(text, |text|);
    } else {
      NoReports(text, |text|);
      assert ReplaceNonLatin1(text) == text;
    }
  }

  /**
   * The records `build_csv` exports: the database records, then the
   * default accounts (`DEFAULT_KTR_DB_DATA` in the program).
   */
  function Records(rows: seq<DbRow>, defaults: seq<DbData>): (r: Result<seq<DbData>>)
  {
    var entries :- MapAll(rows, RowEntry);
    Ok(entries + defaults)
  }

  /**
   * The export fails exactly when a database row has no account number;
   * otherwise it holds one record per database row, in order, followed by
   * the default accounts.
   */
  lemma RecordsOrder(rows: seq<DbRow>, defaults: seq<DbData>)
    ensures Records(rows, defaults).Ok? <==> forall i :: 0 <= i < |rows| ==> rows[i].datevKtrNr.Some?
    ensures Records(rows, defaults).Ok? ==>
      var data := Records(rows, defaults).value;
      && |data| == |rows| + |defaults|
      && (forall i :: 0 <= i < |rows| ==> Ok(data[i]) == RowEntry(rows[i]))
      && data[|rows|..] == defaults
  {
    MapAllOk(rows, RowEntry);
  }

  /** `build_csv` as written, with the column list and the default records as parameters. */
  function BuildCsvAsWritten(columns: seq<string>, defaults: seq<DbData>, rows: seq<DbRow>, now: Now): Result<Written>
    requires NowValid(now)
  {
    var data :- Records(rows, defaults);
    Ok(WriteLatin1AsWritten(HeaderLine(now), CsvData(columns, data)))
  }

  /** `build_csv` corrected to write what its warning announces. */
  function BuildCsv(columns: seq<string>, defaults: seq<DbData>, rows: seq<DbRow>, now: Now): Result<Written>
    requires NowValid(now)
  {
    var data :- Records(rows, defaults);
    Ok(WriteLatin1(HeaderLine(now), CsvData(columns, data)))
  }

  /** The corrected export fails only when a database row has no account number, and then as written does too. */
  lemma BuildCsvFails(columns: seq<string>, defaults: seq<DbData>, rows: seq<DbRow>, now: Now)
    requires NowValid(now)
    ensures BuildCsv(columns, defaults, rows, now).Err?
      <==> exists i :: 0 <= i < |rows| && rows[i].datevKtrNr.None?
    ensures BuildCsv(columns, defaults, rows, now).Err? ==>
      BuildCsvAsWritten(columns, defaults, rows, now) == BuildCsv(columns, defaults, rows, now)
  {
    RecordsOrder(rows, defaults);
  }
}
