/**
 * The semicolon CSV dialect of the booking-batch rows: Python's `csv.writer`
 * with `delimiter=";"` and `quoting=QUOTE_ALL`, and the first row that
 * `csv.reader(StringIO(data), delimiter=";")` yields.  The reader is the
 * character-level state machine of CPython's `_csv` module with the default
 * dialect (quote character `"`, doubled quotes, no escape character,
 * non-strict), fed one line of the `StringIO` at a time, each line followed
 * by an end-of-line event.
 */
module CsvDialect {
  import opened Common

  // ---------------------------------------------------------------------------
  // Writer
  // ---------------------------------------------------------------------------

  /** Doubles every quote character of a field (`doublequote=True`). */
  function Escape(f: string): (r: string)
    ensures |r| >= |f|
  {
    if f == [] then []
    else (if f[0] == '"' then "\"\"" else [f[0]]) + Escape(f[1..])
  }

  /** A field as `QUOTE_ALL` writes it. */
  function QuoteField(f: string): (r: string)
    ensures |r| >= 2 && r[0] == '"' && r[|r| - 1] == '"'
  {
    "\"" + Escape(f) + "\""
  }

  function QuoteAll(fields: seq<string>): (r: seq<string>)
    ensures |r| == |fields|
    ensures forall i :: 0 <= i < |r| ==> r[i] == QuoteField(fields[i])
  {
    if fields == [] then [] else [QuoteField(fields[0])] + QuoteAll(fields[1..])
  }

  /** `writer.writerow(fields)`: quoted fields, `;` between them, `\r\n` after. */
  function WriteRow(fields: seq<string>): string
  {
    Join(QuoteAll(fields), ';') + "\r\n"
  }

  lemma {:induction false} JoinQuotedEnds(fields: seq<string>)
    requires |fields| >= 1
    ensures var j := Join(QuoteAll(fields), ';');
      |j| >= 2 && j[0] == '"' && j[|j| - 1] == '"'
  {
    if |fields| > 1 {
      JoinQuotedEnds(fields[1..]);
      assert QuoteAll(fields)[1..] == QuoteAll(fields[1..]);
    }
  }

  /**
   * `writerow(...)` followed by `.strip()` drops exactly the line terminator:
   * a non-empty row begins and ends with a quote.
   */
  lemma {:induction false} StripWrittenRow(fields: seq<string>)
    requires |fields| >= 1
    ensures StripSpace(WriteRow(fields)) == Join(QuoteAll(fields), ';')
  {
    var j := Join(QuoteAll(fields), ';');
    JoinQuotedEnds(fields);
    var w := j + "\r\n";
    assert DropLeadingSpace(w) == w;
    assert w[..|w| - 1] == j + "\r";
    assert DropTrailingSpace(w) == DropTrailingSpace(j + "\r");
    assert (j + "\r")[..|j|] == j;
    assert DropTrailingSpace(j + "\r") == DropTrailingSpace(j);
    assert DropTrailingSpace(j) == j;
  }

  // ---------------------------------------------------------------------------
  // Reader
  // ---------------------------------------------------------------------------

  datatype ParserState =
    | StartRecord | StartField | EscapedChar | InField | InQuotedField
    | QuoteInQuotedField | EatCrnl

  /** The reader's state: parsed fields of the current record and the open field. */
  datatype Parser = Parser(state: ParserState, fields: seq<string>, field: string)

  /** What the reader is fed: a character, or the end of a line. */
  datatype Input = Char(c: char) | EndOfLine

  const Initial := Parser(StartRecord, [], "")

  const NewlineInUnquoted := "new-line character seen in unquoted field - do you need to open the file with newline=''?"

  predicate IsLineBreak(e: Input)
  {
    e == EndOfLine || e == Char('\n') || e == Char('\r')
  }

  function SaveField(p: Parser, next: ParserState): (q: Parser)
    ensures q.fields == p.fields + [p.field] && q.field == "" && q.state == next
  {
    Parser(next, p.fields + [p.field], "")
  }

  /** After a line break a record ends; after `\r` or `\n` more line-break characters may follow. */
  function AfterLineBreak(e: Input): ParserState
  {
    if e == EndOfLine then StartRecord else EatCrnl
  }

  /** `csv.field_size_limit()` at its default. */
  const FieldLimit := 131072

  const FieldTooLarge := "field larger than field limit (131072)"

  /** Adds one character to the open field; a field already at the limit raises instead. */
  function AddChar(p: Parser, next: ParserState, c: char): (r: Result<Parser>)
    ensures r.Err? <==> |p.field| >= FieldLimit
    ensures r.Ok? ==> r.value == p.(state := next, field := p.field + [c])
  {
    if |p.field| >= FieldLimit then Err(CsvError(FieldTooLarge)) else Ok(p.(state := next, field := p.field + [c]))
  }

  function StartFieldStep(p: Parser, e: Input): Result<Parser>
  {
    if IsLineBreak(e) then Ok(SaveField(p, AfterLineBreak(e)))
    else if e == Char('"') then Ok(p.(state := InQuotedField))
    else if e == Char(';') then Ok(SaveField(p, StartField))
    else AddChar(p, InField, e.c)
  }

  /** Whether the transition on `e` adds a character to the open field. */
  predicate Appends(p: Parser, e: Input)
  {
    match p.state
    case StartRecord => !IsLineBreak(e) && e != Char('"') && e != Char(';')
    case StartField => !IsLineBreak(e) && e != Char('"') && e != Char(';')
    case EscapedChar => true
    case InField => !IsLineBreak(e) && e != Char(';')
    case InQuotedField => e != EndOfLine && e != Char('"')
    case QuoteInQuotedField => e == Char('"') || (e != Char(';') && !IsLineBreak(e))
    case EatCrnl => false
  }

  /**
   * One transition of the reader. It fails on a stray character after a
   * line break, and on a character added to a field already at the limit.
   */
  function Step(p: Parser, e: Input): (r: Result<Parser>)
    ensures r.Err? <==> (p.state == EatCrnl && !IsLineBreak(e)) || (Appends(p, e) && |p.field| >= FieldLimit)
    ensures r.Err? ==> r.error.CsvError?
  {
    match p.state
    case StartRecord =>
      if e == EndOfLine then Ok(p)
      else if e == Char('\n') || e == Char('\r') then Ok(p.(state := EatCrnl))
      else StartFieldStep(p, e)
    case StartField => StartFieldStep(p, e)
    case EscapedChar =>
      // Unreachable without an escape character; kept so the match is total.
      if e == EndOfLine then AddChar(p, InField, '\n')
      else AddChar(p, InField, e.c)
    case InField =>
      if IsLineBreak(e) then Ok(SaveField(p, AfterLineBreak(e)))
      else if e == Char(';') then Ok(SaveField(p, StartField))
      else AddChar(p, InField, e.c)
    case InQuotedField =>
      if e == EndOfLine then Ok(p)
      else if e == Char('"') then Ok(p.(state := QuoteInQuotedField))
      else AddChar(p, InQuotedField, e.c)
    case QuoteInQuotedField =>
      if e == Char('"') then AddChar(p, InQuotedField, '"')
      else if e == Char(';') then Ok(SaveField(p, StartField))
      else if IsLineBreak(e) then Ok(SaveField(p, AfterLineBreak(e)))
      else AddChar(p, InField, e.c)
    case EatCrnl =>
      if e == Char('\n') || e == Char('\r') then Ok(p)
      else if e == EndOfLine then Ok(p.(state := StartRecord))
      else Err(CsvError(NewlineInUnquoted))
  }

  /**
   * The input is exhausted before a record ended: a pending field (or an open
   * quoted field) is saved, otherwise there is no row at all.
   */
  function EndOfData(p: Parser): (r: Result<seq<string>>)
    ensures r.Err? ==> r.error == StopIteration
  {
    if |p.field| != 0 || p.state == InQuotedField then Ok(p.fields + [p.field]) else Err(StopIteration)
  }

  /** After an end-of-line event: a finished record is returned, otherwise reading goes on. */
  function AfterLine(q: Parser, rest: string): Result<seq<string>>
    decreases |rest| + 1, 0
  {
    if q.state == StartRecord then Ok(q.fields) else ReadFrom(q, rest, false)
  }

  /**
   * Feeds `rest` to the reader; `lineOpen` says whether characters of the
   * current line have been read, so that the last line gets its end-of-line
   * event even without a trailing `\n`.
   */
  function ReadFrom(p: Parser, rest: string, lineOpen: bool): Result<seq<string>>
    decreases |rest|, 1
  {
    if rest == [] then
      if lineOpen then
        match Step(p, EndOfLine)
        case Err(e) => Err(e)
        case Ok(q) => if q.state == StartRecord then Ok(q.fields) else EndOfData(q)
      else
        EndOfData(p)
    else
      match Step(p, Char(rest[0]))
      case Err(e) => Err(e)
      case Ok(q) =>
        if rest[0] == '\n' then
          match Step(q, EndOfLine)
          case Err(e) => Err(e)
          case Ok(q2) => AfterLine(q2, rest[1..])
        else
          ReadFrom(q, rest[1..], true)
  }

  /** `next(csv.reader(StringIO(data), delimiter=";"))`. */
  function ReadFirstRow(data: string): Result<seq<string>>
  {
    ReadFrom(Initial, data, false)
  }

  /** An empty string has no first row. */
  lemma ReadFirstRowOfEmpty()
    ensures ReadFirstRow("") == Err(StopIteration)
  {
  }

  /** A field body with doubled quotes reads back as the original text, up to its closing quote. */
  lemma {:induction false} ReadEscaped(acc: seq<string>, fld: string, f: string, rest: string, lineOpen: bool)
    requires |fld| + |f| <= FieldLimit
    ensures ReadFrom(Parser(InQuotedField, acc, fld), Escape(f) + "\"" + rest, lineOpen)
         == ReadFrom(Parser(QuoteInQuotedField, acc, fld + f), rest, true)
    decreases |f|
  {
    var s := Escape(f) + "\"" + rest;
    var p := Parser(InQuotedField, acc, fld);
    if f == [] {
      assert s == "\"" + rest;
      assert s[1..] == rest;
      assert fld + f == fld;
    } else if f[0] == '"' {
      assert s == "\"\"" + (Escape(f[1..]) + "\"" + rest);
      assert s[2..] == Escape(f[1..]) + "\"" + rest;
      var q := Parser(QuoteInQuotedField, acc, fld);
      assert ReadFrom(p, s, lineOpen) == ReadFrom(q, s[1..], true);
      assert s[1..][0] == '"' && s[1..][1..] == s[2..];
      assert ReadFrom(q, s[1..], true) == ReadFrom(Parser(InQuotedField, acc, fld + "\""), s[2..], true);
      ReadEscaped(acc, fld + "\"", f[1..], rest, true);
      assert fld + "\"" + f[1..] == fld + f;
    } else {
      assert s == [f[0]] + (Escape(f[1..]) + "\"" + rest);
      assert s[1..] == Escape(f[1..]) + "\"" + rest;
      var q := Parser(InQuotedField, acc, fld + [f[0]]);
      if f[0] == '\n' {
        assert ReadFrom(p, s, lineOpen) == AfterLine(q, s[1..]);
        ReadEscaped(acc, fld + [f[0]], f[1..], rest, false);
      } else {
        assert ReadFrom(p, s, lineOpen) == ReadFrom(q, s[1..], true);
        ReadEscaped(acc, fld + [f[0]], f[1..], rest, true);
      }
      assert fld + [f[0]] + f[1..] == fld + f;
    }
  }

  /** Every field is within the reader's field size limit. */
  predicate FieldsFit(fields: seq<string>)
  {
    forall i :: 0 <= i < |fields| ==> |fields[i]| <= FieldLimit
  }

  /** An opening quote at the start of a field enters the quoted state. */
  lemma OpeningQuote(acc: seq<string>, st: ParserState, x: string)
    requires st == StartRecord || st == StartField
    ensures ReadFrom(Parser(st, acc, ""), "\"" + x, true) == ReadFrom(Parser(InQuotedField, acc, ""), x, true)
  {
    assert ("\"" + x)[1..] == x;
  }

  /** After a closing quote, a `;` starts the next field. */
  lemma ClosingQuoteThenDelimiter(acc: seq<string>, f: string, x: string)
    ensures ReadFrom(Parser(QuoteInQuotedField, acc, f), ";" + x, true) == ReadFrom(Parser(StartField, acc + [f], ""), x, true)
  {
    assert (";" + x)[1..] == x;
  }

  /** A closing quote at the end of the data ends the record. */
  lemma ClosingQuoteAtEnd(acc: seq<string>, f: string)
    ensures ReadFrom(Parser(QuoteInQuotedField, acc, f), "", true) == Ok(acc + [f])
  {
  }

  lemma {:induction false} JoinQuotedUnfold(fields: seq<string>)
    requires |fields| >= 1
    ensures Join(QuoteAll(fields), ';')
         == "\"" + (Escape(fields[0]) + "\"" + (if |fields| == 1 then "" else ";" + Join(QuoteAll(fields[1..]), ';')))
  {
    assert QuoteAll(fields)[1..] == QuoteAll(fields[1..]);
  }

  /** Reading the first quoted field of a run leaves the parser just after its closing quote. */
  lemma ReadFirstQuoted(acc: seq<string>, fields: seq<string>, st: ParserState)
    requires |fields| >= 1 && |fields[0]| <= FieldLimit
    requires st == StartRecord || st == StartField
    ensures var tail := if |fields| == 1 then "" else ";" + Join(QuoteAll(fields[1..]), ';');
      ReadFrom(Parser(st, acc, ""), Join(QuoteAll(fields), ';'), true)
      == ReadFrom(Parser(QuoteInQuotedField, acc, fields[0]), tail, true)
  {
    var f := fields[0];
    var tail := if |fields| == 1 then "" else ";" + Join(QuoteAll(fields[1..]), ';');
    calc {
      ReadFrom(Parser(st, acc, ""), Join(QuoteAll(fields), ';'), true);
      { JoinQuotedUnfold(fields); }
      ReadFrom(Parser(st, acc, ""), "\"" + (Escape(f) + "\"" + tail), true);
      { OpeningQuote(acc, st, Escape(f) + "\"" + tail); }
      ReadFrom(Parser(InQuotedField, acc, ""), Escape(f) + "\"" + tail, true);
      { ReadEscaped(acc, "", f, tail, true); assert "" + f == f; }
      ReadFrom(Parser(QuoteInQuotedField, acc, f), tail, true);
    }
  }

  /** The step between two fields of a run: the rest of the run is read after the `;`. */
  lemma NextQuoted(acc: seq<string>, fields: seq<string>)
    requires |fields| >= 2
    requires ReadFrom(Parser(StartField, acc + [fields[0]], ""), Join(QuoteAll(fields[1..]), ';'), true) == Ok(acc + fields)
    ensures ReadFrom(Parser(QuoteInQuotedField, acc, fields[0]), ";" + Join(QuoteAll(fields[1..]), ';'), true) == Ok(acc + fields)
  {
    ClosingQuoteThenDelimiter(acc, fields[0], Join(QuoteAll(fields[1..]), ';'));
  }

  /** A run of one quoted field reads back as that field. */
  lemma ReadLastQuoted(acc: seq<string>, fields: seq<string>, st: ParserState)
    requires |fields| == 1 && FieldsFit(fields)
    requires st == StartRecord || st == StartField
    ensures ReadFrom(Parser(st, acc, ""), Join(QuoteAll(fields), ';'), true) == Ok(acc + fields)
  {
    ReadFirstQuoted(acc, fields, st);
    ClosingQuoteAtEnd(acc, fields[0]);
    assert fields == [fields[0]];
  }

  /** A run of quoted fields, read from the start of a field, gives back those fields. */
  lemma {:induction false} ReadQuotedFields(acc: seq<string>, fields: seq<string>, st: ParserState)
    requires |fields| >= 1 && FieldsFit(fields)
    requires st == StartRecord || st == StartField
    ensures ReadFrom(Parser(st, acc, ""), Join(QuoteAll(fields), ';'), true) == Ok(acc + fields)
    decreases |fields|
  {
    if |fields| == 1 {
      ReadLastQuoted(acc, fields, st);
    } else {
      ReadQuotedFields(acc + [fields[0]], fields[1..], StartField);
      assert acc + [fields[0]] + fields[1..] == acc + fields;
      NextQuoted(acc, fields);
      ReadFirstQuoted(acc, fields, st);
    }
  }

  /**
   * Reading back a row written with `QUOTE_ALL` and stripped gives the same
   * fields, whatever characters they hold (separators, quotes, line
   * breaks), as long as each fits the reader's field size limit.
   */
  lemma ReadWrittenRow(fields: seq<string>)
    requires |fields| >= 1 && FieldsFit(fields)
    ensures ReadFirstRow(StripSpace(WriteRow(fields))) == Ok(fields)
  {
    StripWrittenRow(fields);
    ReadQuotedFields([], fields, StartRecord);
    JoinQuotedEnds(fields);
    var j := Join(QuoteAll(fields), ';');
    // The first character is a quote, so whether a line was open does not matter.
    assert ReadFrom(Initial, j, false) == ReadFrom(Parser(InQuotedField, [], ""), j[1..], true);
    assert ReadFrom(Initial, j, true) == ReadFrom(Parser(InQuotedField, [], ""), j[1..], true);
    assert [] + fields == fields;
  }

  /** A quoted field body longer than the limit raises the reader's error before its closing quote. */
  lemma {:induction false} ReadEscapedTooLarge(acc: seq<string>, fld: string, f: string, rest: string, lineOpen: bool)
    requires |fld| <= FieldLimit < |fld| + |f|
    ensures ReadFrom(Parser(InQuotedField, acc, fld), Escape(f) + "\"" + rest, lineOpen) == Err(CsvError(FieldTooLarge))
    decreases |f|
  {
    var s := Escape(f) + "\"" + rest;
    var p := Parser(InQuotedField, acc, fld);
    if f[0] == '"' {
      assert s == "\"\"" + (Escape(f[1..]) + "\"" + rest);
      assert s[2..] == Escape(f[1..]) + "\"" + rest;
      var q := Parser(QuoteInQuotedField, acc, fld);
      assert ReadFrom(p, s, lineOpen) == ReadFrom(q, s[1..], true);
      assert s[1..][0] == '"' && s[1..][1..] == s[2..];
      if |fld| < FieldLimit {
        assert ReadFrom(q, s[1..], true) == ReadFrom(Parser(InQuotedField, acc, fld + "\""), s[2..], true);
        ReadEscapedTooLarge(acc, fld + "\"", f[1..], rest, true);
      }
    } else {
      assert s == [f[0]] + (Escape(f[1..]) + "\"" + rest);
      assert s[1..] == Escape(f[1..]) + "\"" + rest;
      if |fld| < FieldLimit {
        var q := Parser(InQuotedField, acc, fld + [f[0]]);
        if f[0] == '\n' {
          assert ReadFrom(p, s, lineOpen) == AfterLine(q, s[1..]);
          ReadEscapedTooLarge(acc, fld + [f[0]], f[1..], rest, false);
        } else {
          assert ReadFrom(p, s, lineOpen) == ReadFrom(q, s[1..], true);
          ReadEscapedTooLarge(acc, fld + [f[0]], f[1..], rest, true);
        }
      }
    }
  }

  /** A first field that fits is read and its `;` passed: reading goes on at the next field. */
  lemma ReadPastFirst(acc: seq<string>, fields: seq<string>, st: ParserState)
    requires |fields| >= 2 && |fields[0]| <= FieldLimit
    requires st == StartRecord || st == StartField
    ensures ReadFrom(Parser(st, acc, ""), Join(QuoteAll(fields), ';'), true)
         == ReadFrom(Parser(StartField, acc + [fields[0]], ""), Join(QuoteAll(fields[1..]), ';'), true)
  {
    ReadFirstQuoted(acc, fields, st);
    ClosingQuoteThenDelimiter(acc, fields[0], Join(QuoteAll(fields[1..]), ';'));
  }

  /** A first field over the limit raises. */
  lemma ReadFirstTooLarge(acc: seq<string>, fields: seq<string>, st: ParserState)
    requires |fields| >= 1 && |fields[0]| > FieldLimit
    requires st == StartRecord || st == StartField
    ensures ReadFrom(Parser(st, acc, ""), Join(QuoteAll(fields), ';'), true) == Err(CsvError(FieldTooLarge))
  {
    var tail := if |fields| == 1 then "" else ";" + Join(QuoteAll(fields[1..]), ';');
    JoinQuotedUnfold(fields);
    OpeningQuote(acc, st, Escape(fields[0]) + "\"" + tail);
    ReadEscapedTooLarge(acc, "", fields[0], tail, true);
  }

  /** The fields before the `k`-th are read; a `k`-th field over the limit then raises. */
  lemma {:induction false} ReadQuotedTooLarge(acc: seq<string>, fields: seq<string>, st: ParserState, k: nat)
    requires k < |fields| && FieldsFit(fields[..k]) && |fields[k]| > FieldLimit
    requires st == StartRecord || st == StartField
    ensures ReadFrom(Parser(st, acc, ""), Join(QuoteAll(fields), ';'), true) == Err(CsvError(FieldTooLarge))
    decreases k
  {
    if k == 0 {
      ReadFirstTooLarge(acc, fields, st);
    } else {
      assert fields[..k][0] == fields[0];
      ReadPastFirst(acc, fields, st);
      assert fields[1..][..k - 1] == fields[..k][1..];
      ReadQuotedTooLarge(acc + [fields[0]], fields[1..], StartField, k - 1);
    }
  }

  /**
   * A written row with a field over the reader's limit does not read back:
   * the reader raises on the first such field.
   */
  lemma ReadWrittenRowTooLarge(fields: seq<string>, k: nat)
    requires k < |fields| && FieldsFit(fields[..k]) && |fields[k]| > FieldLimit
    ensures ReadFirstRow(StripSpace(WriteRow(fields))) == Err(CsvError(FieldTooLarge))
  {
    StripWrittenRow(fields);
    ReadQuotedTooLarge([], fields, StartRecord, k);
    JoinQuotedEnds(fields);
    var j := Join(QuoteAll(fields), ';');
    assert ReadFrom(Initial, j, false) == ReadFrom(Parser(InQuotedField, [], ""), j[1..], true);
    assert ReadFrom(Initial, j, true) == ReadFrom(Parser(InQuotedField, [], ""), j[1..], true);
  }
}
