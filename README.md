# bombelZugfert2Datev core, modelled in Dafny

The program turns ZUGFeRD e-invoices into the artifacts the German
accounting service DATEV imports. This project models its core and proves
properties of the model:

- **Booking batch CSV** (`datev_creator/csv_builder.py`): the header's 31
  fields written and read back, the code enums, the 125-field posting lines
  written with `QUOTE_ALL` and read back with `csv.reader`, one posting built
  from a ledger import, and the batch built from many of them.
  - Modules: `CsvHeader`, `CsvDialect`, `CsvItems`, `Dates`.
- **Ledger-import XML** (`datev_creator/ledger_import.py`): the element tree
  the builders produce, and a reader proving that the tree holds every field
  (cut to the builders' lengths).
  - Modules: `Xml`, `LedgerXml`, `LedgerRead`.
- **Invoice to ledger derivation** (`datev_creator/zugfert2ledger_import.py`):
  shared values, item mode and single mode, booking keys, and the ledger
  import with its (year, month).
  - Module: `Zugferd`.
- **Document archive manifest** (`datev_creator/archive.py`,
  `converter_app/archive_builder.py`): the records, the builders, and the
  manifest and zip list assembled from converted invoices.
  - Modules: `Archive`, `ArchiveAssembly`.
- **Customer master-data export** (`database_kunden_csv_generator.py`):
  database rows become records, records become `QUOTE_NONNUMERIC` rows, and
  the output is written in Latin-1.
  - Modules: `CustomerColumns`, `CustomerCsv`.
- **Account reconciliation script** (`database_kunden_new_konto_nr.py`):
  export rows are read, merged with database accounts, and classified.
  - Module: `Reconciliation`.
- **Settings** (`converter_app/settings.py`): settings are loaded from and
  saved to a JSON file, the singleton accessor is modelled, and so are the
  dialog's handlers.
  - Module: `AppSettings`.

## How the model is built

- **Exceptions** are the `Error` datatype of `Common`. A raising Python
  function becomes a function returning `Result`, and `:-` propagates the
  first exception, as Python does.
- **Loops that call something that may raise** are `Common.MapAll`. The
  first failing element's exception is the result.
- **Loop-based source stays a loop.** Where the source builds state step by
  step (the XML builders, the item loop of `retrieve_ledgers`, the CSV
  writer loops, the settings loading, the reconciliation loop), the model is
  a `method` with a loop. Each such method is proved equal to a
  specification function, and the lemmas are about that function.
- **lxml elements** are the `Xml.Element` datatype: tag, optional text,
  ordered attributes, children. `get` on attributes is `Xml.Get`.
- **The settings object** is a class whose fields the methods assign.
  - The settings file is a second object holding the saved JSON object's
    entries.
  - Every assignment saves through `__setattr__`, and the handlers then call
    `save()` once more. The methods do both.
- **Outside inputs are parameters.** These are: the clock (`today`, `now`),
  the account resolver, the database rows, and the directory chosen in a
  dialog (`""` when cancelled).
- **Tax rates** are integers in hundredths of a percent. The source's
  floats are compared only with 19.0 and 0.0, and they are written with two
  decimals.
- **`str(None)` is `"None"`** for the database's NULL values, as Python
  writes them.

Facts about the program that the model follows:

- The booking-batch CSV is written in UTF-8 (`datev_creator/csv_builder.py:771`).
- The batch takes `min` and `max` over the entries' dates, so its input
  need not be sorted.
- The customer export's strict Latin-1 write raises on a character outside
  Latin-1 (Findings, last row). The corrected export replaces such
  characters by `?`, as the program's own warning announces
  (`database_kunden_csv_generator.py:306-308`).
- `LedgerImportWMetadata` is imported from `datev_creator/ledger_import.py`,
  but it is defined only in `converter_app/xml_inspector.py:12`. It is
  modelled as a (ledger import, (year, month)) pair.
- A stored path is `str(Path(text))` on a POSIX system: a trailing `/` is
  dropped and `//` and `/./` inside the path collapse
  (`converter_app/settings.py:48-50`).

## Model

| member | source | states |
|---|---|---|
| Common.Prefix | datev_creator/ledger_import.py:73 | `s[:n]` has length min(\|s\|, n) and is a prefix of `s` |
| Common.PrefixIdempotent | datev_creator/ledger_import.py:73 | cutting an already cut text again changes nothing |
| Common.PrefixOfShort | datev_creator/zugfert2ledger_import.py:96 | a text no longer than the limit is not cut |
| Common.Split | datev_creator/csv_builder.py:202 | `str.split` always gives at least one part |
| Common.SplitCount | datev_creator/csv_builder.py:202 | the number of parts is one more than the number of separators |
| Common.SplitJoin | datev_creator/csv_builder.py:198-202 | `split` undoes `join` when no part contains the separator |
| Common.JoinSplit | datev_creator/csv_builder.py:198-202 | `join` undoes `split` for every text |
| Common.MapAll | datev_creator/csv_builder.py:750-754 | a loop that may raise yields one result per element, or an exception |
| Common.MapAllOk | datev_creator/csv_builder.py:750-754 | the loop succeeds exactly when every call does, with their values in order |
| Common.MapAllFirstError | datev_creator/csv_builder.py:750-754 | a failing loop reports the exception of the first call that raises, all earlier calls having succeeded |
| Common.MapAllPrefixError | datev_creator/csv_builder.py:750-754 | once a prefix of the loop raises, the whole loop raises that exception |
| Common.ReplaceChar | datev_creator/csv_builder.py:562 | `replace` of one character keeps the length and changes exactly the matching positions |
| Common.StripCharOfWrapped | datev_creator/csv_builder.py:163-212 | quoting a text and stripping the quotes again gives the text back, unless it begins or ends with a quote |
| Common.StripSpaceEmpty | database_kunden_new_konto_nr.py:39 | `s.strip()` is empty exactly when `s` is all whitespace |
| Common.StripSpaceOfPadded | datev_creator/zugfert2ledger_import.py:204-215 | stripping a trimmed text padded with whitespace gives the text back |
| Common.StripSpaceIdempotent | datev_creator/zugfert2ledger_import.py:204-215 | `s.strip()` has no whitespace at either end, so stripping again changes nothing |
| Common.RemoveSuffix | datev_creator/zugfert2ledger_import.py:214 | `removesuffix` drops the suffix when present and nothing otherwise |
| Common.PadNatValue | datev_creator/csv_builder.py:175 | reading back a zero-padded number gives the number |
| Common.PadNatLength | datev_creator/csv_builder.py:175 | a number below 10^w is written in exactly w digits |
| Common.ParseIntOfDigits | datev_creator/csv_builder.py:240 | `int()` of a digit string, leading zeros allowed, is its value |
| Common.ParseIntOfSignedDigits | datev_creator/csv_builder.py:240 | `int("-" + d)` is minus the value of `d` |
| Common.ParseIntOfIntToString | datev_creator/csv_builder.py:173-240 | `int(str(i)) == i` for every integer |
| Dates.MakeDate | datev_creator/csv_builder.py:729 | `date(y, m, d)` succeeds exactly for a day that exists, and gives that day |
| Dates.LessEqTotal | datev_creator/csv_builder.py:713-714 | any two dates are ordered, so `min` and `max` are defined |
| Dates.LessEqTransitive | datev_creator/csv_builder.py:713-714 | date order is transitive |
| Dates.FormatYmdShape | datev_creator/csv_builder.py:175-178 | `strftime("%Y%m%d")` is eight digits: year, month and day, each zero-padded |
| Dates.FormatDdMmShape | datev_creator/csv_builder.py:571 | `strftime("%d%m")` is four digits, the day then the month |
| Dates.MatchFrom | datev_creator/csv_builder.py:235-245 | a successful pattern match captures one text per directive, and together they are the matched prefix |
| Dates.MatchWhole | datev_creator/csv_builder.py:235-245 | `strptime` matches the whole text or raises ValueError |
| Dates.ParseYmd | datev_creator/csv_builder.py:242-245 | a parsed `%Y%m%d` date is a valid calendar date, and a failure is a ValueError |
| Dates.ParseStamp | datev_creator/csv_builder.py:235 | a parsed `%Y%m%d%H%M%S%f` stamp gives a valid date, and a failure is a ValueError |
| Dates.ParseIso | datev_creator/csv_builder.py:695-697 | a parsed `%Y-%m-%d` date is valid, and a failure is a ValueError |
| Dates.ParseYmdOfFormat | datev_creator/csv_builder.py:175-245 | what `%Y%m%d` wrote reads back as the same date |
| Dates.ParseStampOfFormat | datev_creator/csv_builder.py:168-235 | the stamp written with `%Y%m%d%H%M%S000` reads back as the same date under `%f` |
| Dates.ParseIsoOfFormat | datev_creator/csv_builder.py:695-697 | what `%Y-%m-%d` wrote reads back as the same date |
| CsvDialect.QuoteField | datev_creator/csv_builder.py:526-531 | `QUOTE_ALL` wraps every field in quotes |
| CsvDialect.QuoteAll | datev_creator/csv_builder.py:526-531 | each field is quoted on its own, in order |
| CsvDialect.StripWrittenRow | datev_creator/csv_builder.py:526-531 | stripping a written row drops exactly the line terminator |
| CsvDialect.Step | datev_creator/csv_builder.py:533-540 | a reader transition fails exactly on a character after a line break inside the record, or on a character added to a field already at the 131072-character limit, both with the reader's error |
| CsvDialect.EndOfData | datev_creator/csv_builder.py:533-540 | input that ends before any record is StopIteration |
| CsvDialect.ReadFirstRowOfEmpty | datev_creator/csv_builder.py:533-540 | an empty line has no first row |
| CsvDialect.ReadQuotedFields | datev_creator/csv_builder.py:526-540 | a run of quoted fields reads back as those fields |
| CsvDialect.ReadWrittenRow | datev_creator/csv_builder.py:526-540 | a row written with `QUOTE_ALL` and stripped reads back as the same fields, whatever characters they hold, when each field fits the reader's 131072-character limit |
| CsvDialect.ReadWrittenRowTooLarge | datev_creator/csv_builder.py:533-540 | a written row with a field over the limit raises the reader's error at the first such field |
| CsvHeader.BuchungstypOf | datev_creator/csv_builder.py:17-19 | `Buchungstyp(v)` succeeds exactly for 1 and 2, giving the member of that value, and otherwise raises ValueError |
| CsvHeader.ZweckOf | datev_creator/csv_builder.py:28-33 | `Rechnungslegungszweck(v)` succeeds exactly for 0, 30, 40, 50 and 64 |
| CsvHeader.CategoryOf | datev_creator/csv_builder.py:42-56 | `FormatCategory(v)` succeeds exactly for 16, 20, 21, 46, 48 and 65 |
| CsvHeader.CategoryName | datev_creator/csv_builder.py:58-77 | every category has one of the six DATEV names, and "Buchungsstapel" is the booking batch's and no other's |
| CsvHeader.FormatVersion | datev_creator/csv_builder.py:79-103 | every category's format version is 2, 3, 4, 5 or 13, and 13 is the booking batch's and no other's |
| CsvHeader.CategoryNameInjective | datev_creator/csv_builder.py:58-77 | no two categories share a name |
| CsvHeader.BuchungstypRoundTrip | datev_creator/csv_builder.py:17-19 | every member is found again from its value |
| CsvHeader.ZweckRoundTrip | datev_creator/csv_builder.py:28-33 | every member is found again from its value |
| CsvHeader.CategoryRoundTrip | datev_creator/csv_builder.py:42-56 | every member is found again from its value |
| CsvHeader.NoneIfEmpty | datev_creator/csv_builder.py:247 | `s or None` is None exactly for the empty text |
| CsvHeader.HeaderFields | datev_creator/csv_builder.py:162-196 | the header is written as 31 items |
| CsvHeader.ToCsvHeader | datev_creator/csv_builder.py:161-198 | when no item holds a `;`, the header line splits at `;` into exactly the header's items |
| CsvHeader.SplitHeader | datev_creator/csv_builder.py:202-210 | the length rule is exact: 31 parts, or more when every extra part is blank, cut to 31; anything else raises ValueError |
| CsvHeader.ParseKennzeichen | datev_creator/csv_builder.py:212-214 | the first field, quotes stripped, is accepted exactly when it is "EXTF" or "DTVF" |
| CsvHeader.ParseFestschreibung | datev_creator/csv_builder.py:216-218 | the 21st field is accepted exactly when it is an integer that is 0 or 1 |
| CsvHeader.ReservedWarningsExact | datev_creator/csv_builder.py:221-226 | a warning names a reserved position exactly when its item is not empty |
| CsvHeader.ParseHeaderFields | datev_creator/csv_builder.py:228-261 | a parsed header has valid dates, the checked flags, and no derivative marker or fifth reserved field |
| CsvHeader.FromCsvHeader | datev_creator/csv_builder.py:201-261 | a header read from a line passed the length and flag checks and has valid dates |
| CsvHeader.ToCsvHeaderSplits | datev_creator/csv_builder.py:198-202 | a header whose texts hold no `;` splits back into exactly the 31 items written |
| CsvHeader.OwnHeaderWarnings | datev_creator/csv_builder.py:186-226 | a line the program wrote itself warns about positions 24 and 30, from its own `""` items, and nothing else |
| CsvHeader.FormatReadBack | datev_creator/csv_builder.py:165-235 | the category, version and creation date read back as written |
| CsvHeader.ClientReadBack | datev_creator/csv_builder.py:173-243 | advisor, client, fiscal-year start and account length read back as written |
| CsvHeader.PeriodReadBack | datev_creator/csv_builder.py:177-245 | the booking period reads back as written |
| CsvHeader.KindsReadBack | datev_creator/csv_builder.py:181-249 | booking type and purpose read back as written |
| CsvHeader.TextsReadBack | datev_creator/csv_builder.py:163-260 | every quoted text reads back as written, with empty optional texts read as None |
| CsvHeader.HeaderRoundTrip | datev_creator/csv_builder.py:161-261 | reading back a written header gives the header, up to reserved fields and empty optional texts, when its texts hold no `;` and do not start or end with a quote |
| CsvItems.FromCsvLine | datev_creator/csv_builder.py:533-540 | a line is an item exactly when its first row has 125 fields; other widths raise ValueError with the count; an empty line raises StopIteration |
| CsvItems.ItemRoundTrip | datev_creator/csv_builder.py:526-540 | reading back a written item line gives the same item when each field fits the reader's limit |
| CsvItems.ItemTooLargeRejected | datev_creator/csv_builder.py:533-540 | an item line with a field over the reader's limit raises the reader's error |
| CsvItems.WrongWidthRejected | datev_creator/csv_builder.py:536-539 | a row of any other width is rejected with the number of fields it had |
| CsvItems.Defaults | datev_creator/csv_builder.py:268-524 | an unfilled item holds each field's default |
| CsvItems.CheckLedgerImport | datev_creator/csv_builder.py:545-559 | the checks pass exactly when the date parses, there is an invoice id, and the first ledger is a receivable with a booking text; each check raises its own message |
| CsvItems.LedgerItemFields | datev_creator/csv_builder.py:562-600 | the item carries the amount with `.` replaced by `,`, "H", both accounts, the `%d%m` date, the invoice id and the booking text |
| CsvItems.LedgerItemDefaults | datev_creator/csv_builder.py:543-687 | every field not filled from the ledger keeps its default |
| CsvItems.FromLedgerImportFields | datev_creator/csv_builder.py:543-687 | the corrected conversion fails exactly when a check does, with that check's exception, and otherwise gives the filled item |
| CsvItems.AsWrittenNeverBuilds | datev_creator/csv_builder.py:569 | as written, no ledger import becomes an item; where the corrected one builds an item, the source raises AttributeError |
| CsvItems.LedgerGetDate | datev_creator/csv_builder.py:693-702 | the date is the parsed consolidated date, or a ValueError naming the text |
| CsvItems.LedgerGetDateOfFormat | datev_creator/csv_builder.py:693-702 | a date written as `%Y-%m-%d` comes back unchanged |
| CsvItems.EntryDates | datev_creator/csv_builder.py:713-714 | the keys `min` and `max` compute, one valid date per entry |
| CsvItems.ArgMin | datev_creator/csv_builder.py:713 | `min` picks the first position holding a least date |
| CsvItems.ArgMax | datev_creator/csv_builder.py:714 | `max` picks the first position holding a greatest date |
| CsvItems.NewYear | datev_creator/csv_builder.py:729 | `date(year, 1, 1)` exists exactly for years 1 to 9999 |
| CsvItems.FromLedgerImports | datev_creator/csv_builder.py:710-755 | a built batch has valid header dates and one item per entry, and there is at least one entry |
| CsvItems.BatchSpansEntries | datev_creator/csv_builder.py:713-732 | the batch runs from the earliest to the latest entry date, every entry lies inside it, and the fiscal year opens on 1 January of the first earliest entry's year |
| CsvItems.BatchItems | datev_creator/csv_builder.py:750-755 | the batch holds each entry's own item, in order |
| CsvItems.BatchBuilds | datev_creator/csv_builder.py:710-755 | a batch is built exactly when there is an entry, every date parses, the year is valid and every item builds |
| CsvItems.ToCsv | datev_creator/csv_builder.py:757-765 | the text is the header line, the column names and one line per item, joined by line breaks |
| CsvItems.ItemLinesReadBack | datev_creator/csv_builder.py:526-540 | every item line reads back as its item when its fields fit the reader's limit |
| CsvItems.BatchTextLines | datev_creator/csv_builder.py:757-765 | split at line breaks, the text gives back its 2 + n lines, and each item line reads back as its item, when no field holds a line break and every field fits the reader's limit |
| Xml.Leaf | datev_creator/ledger_import.py:55 | `SubElement(...).text = t` creates a childless, attribute-free child with that tag and text |
| Xml.IndexOf | datev_creator/ledger_import.py:16-17 | the search finds the first occurrence, or reports that there is none |
| Xml.ClarkSplits | datev_creator/ledger_import.py:16-17 | a `{ns}tag` name splits back into its namespace and local name |
| Xml.Optional | datev_creator/ledger_import.py:58-73 | an optional child is added exactly when its value is present |
| Xml.OptionalAttribute | datev_creator/ledger_import.py:445-446 | an optional attribute is set exactly when its value is present |
| Xml.AppendAttribute | datev_creator/ledger_import.py:445-446 | setting an optional attribute appends exactly that pair, or nothing |
| Xml.AppendChildren | datev_creator/ledger_import.py:158-159 | moving the children over appends them, in order |
| Xml.GetFinds | datev_creator/ledger_import.py:438-446 | `get` finds a value exactly when the key was set, and only a value set under that key |
| Xml.GetSet | datev_creator/ledger_import.py:438-446 | setting one more key changes what `get` gives for that key only |
| Xml.LeafText | datev_creator/ledger_import.py:55 | the text of a leaf is read back exactly from a leaf of that tag |
| Xml.TakeLastOptional | datev_creator/ledger_import.py:58-73 | an optional child appended after another tag is taken off again with its value |
| Xml.AppendOptional | datev_creator/ledger_import.py:58-73 | one optional assignment extends the grown children by that child, or by nothing |
| Xml.ReadRunOfGrow | datev_creator/ledger_import.py:58-73 | reading the optional children back gives the fixed children and every value, absent ones included, when the tags are distinct |
| LedgerXml.QnIsClark | datev_creator/ledger_import.py:16-17 | the text `qn` builds is the ledger namespace's qualified name |
| LedgerXml.Cut | datev_creator/ledger_import.py:73-167 | an optional text stays present or absent, and a present one is cut to at most n characters |
| LedgerXml.NewLedgerImport | datev_creator/ledger_import.py:426-433 | a new ledger import has version "6.0", the ledger namespace and the fixed schema location |
| LedgerXml.BuildBase | datev_creator/ledger_import.py:52-75 | the `<base>` builder produces the base element specification |
| LedgerXml.BuildBase1 | datev_creator/ledger_import.py:154-235 | the `<base1>` builder produces the base1 element, starting with the moved `<base>` children |
| LedgerXml.BuildLedger | datev_creator/ledger_import.py:258-350 | each ledger builder produces its ledger element |
| LedgerXml.BuildConsolidate | datev_creator/ledger_import.py:381-404 | the `<consolidate>` builder produces its attributes and one child per ledger, in order |
| LedgerXml.BuildLedgerImport | datev_creator/ledger_import.py:437-459 | the root builder produces the root element with its attributes and the one `<consolidate>` |
| LedgerRead.ReadBaseOf | datev_creator/ledger_import.py:52-75 | reading `<base>`'s children gives back the base, with the information cut to 120 |
| LedgerRead.ReadBase1Of | datev_creator/ledger_import.py:154-235 | reading `<base1>`'s children gives back the record, with the booking text cut to 30 |
| LedgerRead.ReadLedgerOf | datev_creator/ledger_import.py:258-350 | reading a ledger element gives back the ledger, whatever its kind |
| LedgerRead.ReadLedgersOf | datev_creator/ledger_import.py:396-398 | reading the ledger elements gives back every ledger, in order |
| LedgerRead.ReadConsolidateOf | datev_creator/ledger_import.py:381-404 | reading `<consolidate>` gives back its attributes and ledgers |
| LedgerRead.LedgerImportAttributesGet | datev_creator/ledger_import.py:438-446 | each root attribute holds its field, and `generating_system` is present exactly when set |
| LedgerRead.ReadLedgerImportOf | datev_creator/ledger_import.py:437-459 | reading the built tree gives back the ledger import, with texts cut as the builders cut them |
| Zugferd.GetTaxRate | datev_creator/zugfert2ledger_import.py:148-162 | an item with a rate gives the rate and its two-decimal text; one without raises ValueError |
| Zugferd.BuCode | datev_creator/zugfert2ledger_import.py:323-367 | the booking key is "3" exactly for 19 %, "200" exactly for 0 %, and any other rate raises ValueError |
| Zugferd.SellerTaxId | datev_creator/zugfert2ledger_import.py:204-215 | there is a seller tax id exactly when the seller has a registration |
| Zugferd.SellerTaxIdValue | datev_creator/zugfert2ledger_import.py:204-215 | a registration " t (VA) " gives the tax id `t`, and one without the suffix comes back stripped |
| Zugferd.BuyerTaxId | datev_creator/zugfert2ledger_import.py:217-228 | the buyer tax id is the first registration, unchanged, when there is one |
| Zugferd.DueDate | datev_creator/zugfert2ledger_import.py:247-256 | as intended, the due date is the first payment term's, present exactly when there is a term |
| Zugferd.DueDateNeverRead | datev_creator/zugfert2ledger_import.py:254 | as written, no invoice yields a due date; an invoice with a payment term tells the two apart |
| Zugferd.SharedFields | datev_creator/zugfert2ledger_import.py:191-276 | the shared values exist exactly when the invoice has an id, and each holds its invoice value, the due date that of the first payment term (corrected; see Findings) |
| Zugferd.CreateLedger | datev_creator/zugfert2ledger_import.py:31-98 | the result is always a receivable ledger |
| Zugferd.CreateLedgerFields | datev_creator/zugfert2ledger_import.py:31-98 | the account comes from the resolver, the information is cut to 120 (None when empty), the customer name to 50, and every bank, discount and cost field is unset |
| Zugferd.CurrencyDefault | datev_creator/zugfert2ledger_import.py:119-125 | the currency is the invoice's, or "EUR" when it has none |
| Zugferd.NameCut | datev_creator/zugfert2ledger_import.py:346-351 | the product name is cut to n characters, or None without a name |
| Zugferd.ItemLedgerFields | datev_creator/zugfert2ledger_import.py:281-353 | an item's ledger fails exactly on a rate other than 0 % or 19 %, and otherwise carries the item's amount, rate, key and cut names |
| Zugferd.ItemAmountPriority | datev_creator/zugfert2ledger_import.py:282-304 | the amount is the line total, else the gross price, else the net price, else "" |
| Zugferd.ItemLedgers | datev_creator/zugfert2ledger_import.py:278-354 | the item loop gives one ledger per item, in order, or the first error |
| Zugferd.SingleLedger | datev_creator/zugfert2ledger_import.py:355-390 | single mode gives exactly one ledger |
| Zugferd.SingleLedgerFields | datev_creator/zugfert2ledger_import.py:355-390 | single mode succeeds exactly when every item has a rate, all share it, and it is 0 % or 19 %; the ledger holds the grand total and the invoice-named texts |
| Zugferd.Ledgers | datev_creator/zugfert2ledger_import.py:165-390 | an invoice without an id raises, and single mode yields one ledger (corrected; see Findings) |
| Zugferd.RetrieveLedgers | datev_creator/zugfert2ledger_import.py:165-390 | the loop version equals the specification of both modes (corrected; see Findings) |
| Zugferd.ItemsModeLedgers | datev_creator/zugfert2ledger_import.py:278-354 | items mode gives each item's own ledger, in order, and fails exactly when some rate is neither 0 % nor 19 % |
| Zugferd.IssueYearMonthOfIso | datev_creator/zugfert2ledger_import.py:435-439 | an issue date written `%Y-%m-%d` gives back its year and month |
| Zugferd.ZugferdToLedgerImportFields | datev_creator/zugfert2ledger_import.py:393-439 | the import succeeds exactly when single mode and the date split do; it holds that one ledger, the grand total, date and id, and this software's name (corrected; see Findings) |
| Archive.TypeValueInjective | datev_creator/archive.py:11-17 | distinct extension types have distinct values |
| Archive.Attribute | datev_creator/archive.py:120-127 | as the documentation's table says, File and SEPAFile reference their file by `name`, every other type by `datafile` |
| Archive.AttributeReversed | datev_creator/archive.py:19-24 | the lookup as written gives the other attribute for every type |
| Archive.KeyValue | datev_creator/archive.py:27-32 | every property key is written as "1", "2" or "3" |
| Archive.NewArchive | datev_creator/archive.py:176-188 | a new archive has version "6.0", the archive namespace and the fixed schema location |
| Archive.PropertyList | datev_creator/archive.py:221-225 | no property, one property or a tuple becomes an empty, single or ordered list |
| Archive.BuildHeader | datev_creator/archive.py:191-206 | the header builder produces the header element specification |
| Archive.BuildExtension | datev_creator/archive.py:209-235 | the extension builder produces the extension element specification (corrected; see Findings) |
| Archive.BuildDocumentAttributes | datev_creator/archive.py:239-250 | the document's attribute dict holds exactly the present optional fields |
| Archive.BuildRepository | datev_creator/archive.py:260-271 | the repository gets three levels |
| Archive.BuildDocument | datev_creator/archive.py:238-273 | the document builder produces the document element specification (corrected; see Findings) |
| Archive.BuildContent | datev_creator/archive.py:276-281 | the content builder produces one document element per document (corrected; see Findings) |
| Archive.BuildArchive | datev_creator/archive.py:284-300 | the root builder produces the archive element (corrected; see Findings) |
| Archive.HeaderRoundTrip | datev_creator/archive.py:191-206 | reading the header back gives the header with its description cut to 255 characters, whole when it fits |
| Archive.DocumentAttributesRead | datev_creator/archive.py:239-250 | each of the five document attributes is present exactly when its field is, with the field's value |
| Archive.DocumentShape | datev_creator/archive.py:238-273 | a document holds its extensions in order, then the repository, whose three levels pair the i-th id with the i-th name |
| Archive.ExtensionShape | datev_creator/archive.py:209-235 | an extension carries its type, its file in the attribute the table names, and one property child per property, in order (corrected; see Findings) |
| Archive.ContentShape | datev_creator/archive.py:276-281 | content holds one document element per document, in order |
| Archive.ArchiveShape | datev_creator/archive.py:284-300 | the root has version "6.0", the fixed schema location and exactly the header then the content; the record's other fields are not written |
| Archive.ExtensionNamesValid | datev_creator/archive.py:209-235 | every name in the corrected extension passes lxml's name check |
| Archive.ExtensionBuildAsWrittenFails | datev_creator/archive.py:210-219 | as written, building any extension raises ValueError for the attribute name "xsi:type" |
| Archive.ExtensionAsWrittenLosesFile | datev_creator/archive.py:212-216 | as written, two extensions differing only in their file give the same element, tagged "document"; the corrected ones differ |
| ArchiveAssembly.RFind | converter_app/archive_builder.py:26 | the last position of a character, or -1 when there is none |
| ArchiveAssembly.XmlName | converter_app/archive_builder.py:26 | `with_suffix(".xml")` succeeds exactly for a non-empty name and ends in ".xml" |
| ArchiveAssembly.XmlNameOfPdf | converter_app/archive_builder.py:26 | "x.pdf" becomes "x.xml", and a name without a dot gets ".xml" appended |
| ArchiveAssembly.MonthValueOfDate | converter_app/archive_builder.py:35 | the month property of a valid date is its seven-character "YYYY-MM" prefix |
| ArchiveAssembly.IssueMonthProperty | converter_app/archive_builder.py:35 | an invoice's (year, month) gives the issue date's "YYYY-MM" as month property |
| ArchiveAssembly.EntryDocumentShape | converter_app/archive_builder.py:25-57 | each document has the receivable ledger extension with its two properties, then the PDF as a File, and nothing else set |
| ArchiveAssembly.BuildDocuments | converter_app/archive_builder.py:22-57 | the document loop gives one document per entry, in order, or the first error |
| ArchiveAssembly.ManifestDocuments | converter_app/archive_builder.py:59-69 | the manifest exists exactly when every PDF has a name; it holds one document per entry, a header with only the date, and this software |
| ArchiveAssembly.ZipNamesMatchManifest | converter_app/archive_builder.py:103-108 | the zip's ledger files are exactly the files the manifest references, in order, each with its entry's ledger import |
| ArchiveAssembly.EntryExtensionsReferenceFiles | converter_app/archive_builder.py:42-47 | the ledger extension names its ".xml" file in `datafile` and the PDF extension names the PDF in `name` (corrected; see Findings) |
| CustomerCsv.DefaultKtrDbDataShape | database_kunden_csv_generator.py:29-69 | one record per default account, in order, with the key as name, the value as account, empty address and "DE" |
| CustomerCsv.RowEntry | database_kunden_csv_generator.py:266-289 | a row fails exactly when its account number is NULL |
| CustomerCsv.RowEntryFields | database_kunden_csv_generator.py:266-289 | the name is both name columns joined by a space when the second is set, cut to 50; account 0 becomes None; the rest is copied; the country is "DE" |
| CustomerCsv.RowNameFits | database_kunden_csv_generator.py:270-274 | a name pair that fits in 50 characters survives whole |
| CustomerCsv.DatabaseEntries | database_kunden_csv_generator.py:259-292 | the row loop gives one record per row, in order, or the first error |
| CustomerCsv.HeaderListAssigned | database_kunden_csv_generator.py:72-219 | the column list has 146 columns and holds every column the rows assign |
| CustomerCsv.RowDictKeys | database_kunden_csv_generator.py:244-252 | the row dict has exactly the columns as keys, so `DictWriter` finds no extra key |
| CustomerCsv.DataRowValues | database_kunden_csv_generator.py:234-252 | each data row holds the account (or None), the name, its first 15 characters, the customer number, the address and "DE", and "" elsewhere |
| CustomerCsv.WriteLines | database_kunden_csv_generator.py:234-254 | the writer loop writes one row per record, in order |
| CustomerCsv.BuildCsvData | database_kunden_csv_generator.py:222-256 | the text is the column-name row and then the records' rows |
| CustomerCsv.CsvDataExtends | database_kunden_csv_generator.py:222-256 | the text starts with the column-name row, and the records are written in order |
| CustomerCsv.ScanLatin1 | database_kunden_csv_generator.py:310-315 | the scan loop gives the report specification |
| CustomerCsv.NoReports | database_kunden_csv_generator.py:303-304 | text wholly in Latin-1 gives no report |
| CustomerCsv.ReportsSound | database_kunden_csv_generator.py:310-315 | every report names a character outside Latin-1, with its code point and up to 20 characters on either side |
| CustomerCsv.ReportsComplete | database_kunden_csv_generator.py:310-315 | every character outside Latin-1 is reported |
| CustomerCsv.ReportsIncreasing | database_kunden_csv_generator.py:310-315 | reports come in increasing position, so none is repeated |
| CustomerCsv.TimestampShape | database_kunden_csv_generator.py:9-11 | the timestamp is 17 digits, starting with the `%Y%m%d` date |
| CustomerCsv.HeaderLineFields | database_kunden_csv_generator.py:12-16 | the header line splits into its 27 fields, with the timestamp and 1 January of the current year among them |
| CustomerCsv.ReplaceNonLatin1 | database_kunden_csv_generator.py:306-308 | the replacement keeps the length and puts `?` exactly where a character is outside Latin-1 |
| CustomerCsv.WriteLatin1All | database_kunden_csv_generator.py:295-317 | the corrected write never raises and writes the header line and then all the data in Latin-1, with `?` exactly at the reported characters |
| CustomerCsv.AsWrittenLosesData | database_kunden_csv_generator.py:298-317 | with a character outside Latin-1, the write as written reports it, raises and leaves only the header line; Latin-1 data is written the same by both |
| CustomerCsv.RecordsOrder | database_kunden_csv_generator.py:296 | the records exist exactly when every row has an account number; they are the rows' records in order, then the defaults |
| CustomerCsv.BuildCsvFails | database_kunden_csv_generator.py:295-317 | the corrected export fails exactly when a row has no account number, and then the export as written fails the same way |
| Reconciliation.RowOf | database_kunden_new_konto_nr.py:34 | a row has exactly the header's columns as keys |
| Reconciliation.RowOfAt | database_kunden_new_konto_nr.py:34 | a column named once holds the field at its position, or None past the end of the line |
| Reconciliation.DataRowsColumns | database_kunden_new_konto_nr.py:34 | every row read has exactly the header's columns |
| Reconciliation.FirstLineSkipped | database_kunden_new_konto_nr.py:34 | the file's first line plays no part in what is read |
| Reconciliation.LookupKeys | database_kunden_new_konto_nr.py:53 | a key is found exactly when it is among the keys |
| Reconciliation.PutSpec | database_kunden_new_konto_nr.py:50 | `d[k] = v` keeps keys distinct and in place, adds `k` when new, and changes only what `k` finds |
| Reconciliation.CsvAccountsOk | database_kunden_new_konto_nr.py:36-40 | reading the accounts fails exactly when some row cannot be filtered |
| Reconciliation.CsvAccountsLast | database_kunden_new_konto_nr.py:36-40 | each customer maps to the account of its last complete row, and is a key exactly when one of its rows is complete |
| Reconciliation.DbAccountsLast | database_kunden_new_konto_nr.py:47-50 | each customer maps to the account of its last database row, and one not there finds None |
| Reconciliation.Merge | database_kunden_new_konto_nr.py:52-54 | the merge has one entry per export customer |
| Reconciliation.MergeEntries | database_kunden_new_konto_nr.py:52-54 | each export customer is paired, in order, with its export account and its database account or None |
| Reconciliation.StripZerosEmpty | database_kunden_new_konto_nr.py:69 | `s.strip("0")` is empty exactly when `s` is zeros only, the empty text included |
| Reconciliation.Reconcile | database_kunden_new_konto_nr.py:60-80 | the loop computes the missing list and the conflict count of the classification |
| Reconciliation.NoConflictsIffAllMatch | database_kunden_new_konto_nr.py:88-89 | "no conflicts" is printed exactly when every customer's accounts match |
| Reconciliation.MissingCounted | database_kunden_new_konto_nr.py:69-74 | every customer in the missing list is also counted as a conflict |
| Reconciliation.MissingSound | database_kunden_new_konto_nr.py:69-74 | every missing entry is a customer whose database account is zeros only, with its export account |
| Reconciliation.MissingComplete | database_kunden_new_konto_nr.py:69-74 | every customer whose database account is zeros only is in the missing list |
| Reconciliation.MergeDistinctCustomers | database_kunden_new_konto_nr.py:52-54 | the merge of the export's dict has no customer number twice |
| Reconciliation.NotInDatabaseNotMissing | database_kunden_new_konto_nr.py:65-68 | a customer the database lacks is classified as such, counts as a conflict, and no entry of the missing list carries its number |
| Reconciliation.MergedDataShape | database_kunden_new_konto_nr.py:36-54 | with no complete export row the query `KdNr in ()` raises the database's ProgrammingError; otherwise the loop gets the non-empty merge of distinct customers |
| AppSettings.PathOf | converter_app/settings.py:47-50 | `Path(value)` accepts exactly a text, and the stored path is one pathlib leaves as it is |
| AppSettings.NormPathIdempotent | converter_app/settings.py:47-74 | a path written back with `str` reads as the same path |
| AppSettings.NormPathTrailingSlash | converter_app/settings.py:47-50 | `Path("a/")` is stored and saved as "a" |
| AppSettings.NormPathRoots | converter_app/settings.py:47-50 | two leading slashes are kept, three become one |
| AppSettings.ApplyEntryFields | converter_app/settings.py:45-58 | each known key sets exactly its own field from the converted value (paths normalised by `Path`), and an unknown key changes nothing |
| AppSettings.ApplyKeepsPaths | converter_app/settings.py:45-58 | one entry keeps the stored paths normalised |
| AppSettings.LoadKeepsPaths | converter_app/settings.py:45-58 | loading keeps the stored paths normalised |
| AppSettings.LoadOfSave | converter_app/settings.py:40-74 | loading what `save` wrote gives back the same settings, without an exception, for settings whose paths came through `Path` |
| AppSettings.LoadUnknown | converter_app/settings.py:46-58 | entries with unknown keys only leave the settings unchanged |
| AppSettings.LoadStops | converter_app/settings.py:45-58 | once an entry raises, later entries are never applied |
| AppSettings.Settings.Save | converter_app/settings.py:64-74 | the file then holds the current settings |
| AppSettings.Settings.ApplyOne | converter_app/settings.py:46-78 | one `match` arm assigns its field and saves, an unknown key does nothing, and a refused value raises with nothing changed |
| AppSettings.Settings.LoadJson | converter_app/settings.py:40-58 | a missing file is first written; the settings become the load of the file's entries up to the first exception, each assignment saved |
| AppSettings.Settings.IncreaseSachkontenlaenge | converter_app/settings.py:109-113 | "+" adds one below 8 and saves, and otherwise changes nothing |
| AppSettings.Settings.DecreaseSachkontenlaenge | converter_app/settings.py:115-119 | "-" subtracts one above 4 and saves, and otherwise changes nothing |
| AppSettings.Settings.SaveNumber | converter_app/settings.py:137-144 | an integer text is stored in its field and saved; other text changes nothing |
| AppSettings.Settings.ChangePdfPath | converter_app/settings.py:156-161 | the chosen directory, normalised by `Path`, replaces the PDF path and is saved; cancelling changes nothing |
| AppSettings.Settings.ChangeXmlFolder | converter_app/settings.py:163-168 | the chosen directory, normalised by `Path`, replaces the XML folder and is saved; cancelling changes nothing |
| AppSettings.CheckCsvSettingsIff | converter_app/settings.py:22-31 | the check holds exactly when all four numbers are positive |
| AppSettings.StepsStayInRange | converter_app/settings.py:109-119 | starting between 4 and 8, any run of presses stays between 4 and 8 |
| AppSettings.StepBounds | converter_app/settings.py:109-119 | a press only moves the value towards the range, never past 8 or under 4 |
| AppSettings.Registry.GetInstance | converter_app/settings.py:33-62 | the first call creates and loads the settings; later calls return the same object and change nothing; when loading raises no instance is kept; the file afterwards is as the load left it, written when it was missing or a known key was applied |

## Left out

- **Printing, dialogs and Tk labels.** Warnings and messages are returned as values (header warnings, encoding reports, reconciliation outcomes) or dropped. File dialogs become a path parameter.
- **File and database I/O.** The database query and the file reads and writes are parameters and results. The settings file is a value on an object.
- **The zip, PDF embedding and XSD validation.** `datev_creator/zip_builder.py`, `datev_creator/xml_validator.py`, `converter_app/main_app.py` and `converter_app/xml_inspector.py` are not part of this model. `build_zip` is modelled only through the list of ledger files it is given.
- **Parsing the ZUGFeRD XML itself.** Parsing by the `drafthorse` library is not modelled. The invoice is a record holding the values the derivation reads, optional where the source tests `hasattr` or truthiness.
- **Floating point.** Tax rates are integers in hundredths of a percent. Rates that are not exact hundredths are not modelled.
- **The clock.** `datetime.now()` is a parameter. Only its date part is used in the booking batch.
- CsvItems.FromLedgerImports: the `isinstance(ledger, LedgerImport)` filter of `datev_creator/csv_builder.py:753` is not modelled. Every entry holds a ledger import by type.
- CsvHeader.HeaderRoundTrip: the round trip covers headers whose texts hold no `;` and neither begin nor end with a quote. Other texts do not read back in the source either.
- Reconciliation.DataRowsColumns: each line of the reconciliation input is one record. Quoted fields spanning several lines are not modelled.
- AppSettings.ApplyEntryFields: `int()` of a JSON float (which truncates), and `Path()` of anything other than a string, are modelled as TypeError. A JSON file whose top level is not an object, and invalid JSON, are not modelled.
- **Shortened exception messages.** Some exception messages are shortened to their kind and cause: `int(None)`, `None.strip()`, `int()`, `Path()`, the UnicodeEncodeError of the strict Latin-1 write, and the database's ProgrammingError for `KdNr in ()`. The exception kinds are those of the source.
- **`converter_app/archive_builder.py` as written.** It imports `XsiType`, which `datev_creator/archive.py:11` defines as `XSI_Type`, so the import itself fails. Its record calls also pass keywords the records lack: `property_=`, `filename=`, `process_id=`, `consultant_number=` and `generating_system=`. The model reads these calls as meaning the records' own fields, and gives the extension record the file-name field the builder needs.
- AppSettings.Settings.LoadJson: for a JSON object with a key twice, `json.load` keeps only the last value, while the model applies every entry in order. The final settings are the same, but the model may make more assignments and saves, and may raise at an earlier entry whose value is later overwritten.
- AppSettings.PathOf: paths are POSIX paths. Windows drive letters and backslashes are not modelled.
- **Unicode.** No normalisation or case folding. Latin-1 is the characters below U+0100.
- **The `build_csv` write of `datev_creator/csv_builder.py:768-772`.** Only the text it writes is modelled (CsvItems.ToCsv).

## Findings

| source | as written | input that shows it | evidently intended | confidence | as-written member | corrected member |
|---|---|---|---|---|---|---|
| datev_creator/csv_builder.py:569 | the counter-account is read from `settings.gegenkonto`, but `Settings` has no such attribute | any ledger import that passes the checks of lines 545-559 | a counter-account supplied by the caller | high, not executed | CsvItems.FromLedgerImportAsWritten | CsvItems.FromLedgerImport |
| datev_creator/zugfert2ledger_import.py:254 | `hasattr(terms, "due")` is asked of the list of payment terms, which has no `due` attribute | an invoice with one payment term that has a due date | the due date of the first payment term | high, not executed | Zugferd.DueDateAsWritten | Zugferd.DueDate |
| datev_creator/archive.py:19-24 | `File` and `SEPAFile` get `datafile` and every other type gets `name` | an extension of type `accountsReceivableLedger` | the documentation's table at lines 120-127: `name` for File and SEPAFile, `datafile` otherwise | high, not executed | Archive.AttributeAsWritten | Archive.Attribute |
| datev_creator/archive.py:210-213 | the attribute dict uses the key "xsi:type", which lxml rejects as an attribute name | any extension | the attribute `{http://www.w3.org/2001/XMLSchema-instance}type` | high, not executed | Archive.ExtensionBuildAsWritten | Archive.ExtensionElement |
| datev_creator/archive.py:212-216 | the attribute's value is the word "datafile" or "name", not the file name, and the element is tagged "document" | two extensions of one type that reference different files | an `extension` element whose attribute holds the referenced file's name | high, not executed | Archive.ExtensionElementAsWritten | Archive.ExtensionElement |
| database_kunden_csv_generator.py:298-317 | the file is opened with strict `iso-8859-1`; after the warning scan, `f.write(data_str)` raises, leaving only the header line | a customer name containing "€" | the data written with `?` for each reported character, as the warning announces | high, not executed | CustomerCsv.WriteLatin1AsWritten | CustomerCsv.WriteLatin1 |
