/**
 * Calendar dates as the converter reads and writes them with Python's
 * `datetime.strptime` / `strftime`: "%Y%m%d" in the booking-batch header,
 * "%Y%m%d%H%M%S000" for its creation stamp, "%d%m" for an item's document
 * date, and "%Y-%m-%d" for the date of a ledger record.
 */
module Dates {
  import opened Common

  datatype Date = Date(year: int, month: int, day: int)

  predicate IsLeap(y: int)
  {
    (y % 4 == 0 && y % 100 != 0) || y % 400 == 0
  }

  function DaysInMonth(y: int, m: int): int
    requires 1 <= m <= 12
  {
    if m == 2 then (if IsLeap(y) then 29 else 28)
    else if m == 4 || m == 6 || m == 9 || m == 11 then 30
    else 31
  }

  /** What `datetime.date(y, m, d)` accepts. */
  predicate Valid(d: Date)
  {
    1 <= d.year <= 9999 && 1 <= d.month <= 12 && 1 <= d.day <= DaysInMonth(d.year, d.month)
  }

  /** `datetime.date(y, m, d)`: ValueError for a day that does not exist. */
  function MakeDate(y: int, m: int, d: int): (r: Result<Date>)
    ensures r.Ok? <==> Valid(Date(y, m, d))
    ensures r.Ok? ==> r.value == Date(y, m, d)
  {
    if Valid(Date(y, m, d)) then Ok(Date(y, m, d)) else Err(ValueError("day is out of range for month"))
  }

  /** Python's ordering of `date` values: by year, then month, then day. */
  predicate LessEq(a: Date, b: Date)
  {
    a.year < b.year || (a.year == b.year && (a.month < b.month || (a.month == b.month && a.day <= b.day)))
  }

  lemma LessEqTotal(a: Date, b: Date)
    ensures LessEq(a, b) || LessEq(b, a)
  {
  }

  lemma LessEqTransitive(a: Date, b: Date, c: Date)
    requires LessEq(a, b) && LessEq(b, c)
    ensures LessEq(a, c)
  {
  }

  // ---------------------------------------------------------------------------
  // Formatting
  // ---------------------------------------------------------------------------

  /** `strftime("%Y%m%d")`. */
  function FormatYmd(d: Date): string
    requires Valid(d)
  {
    PadNat(d.year, 4) + PadNat(d.month, 2) + PadNat(d.day, 2)
  }

  /** `strftime("%Y%m%d%H%M%S000")` of a `date`: the time of day is midnight. */
  function FormatStamp(d: Date): string
    requires Valid(d)
  {
    FormatYmd(d) + "000000" + "000"
  }

  /** `strftime("%d%m")`. */
  function FormatDdMm(d: Date): string
    requires Valid(d)
  {
    PadNat(d.day, 2) + PadNat(d.month, 2)
  }

  /** `strftime("%Y-%m-%d")`. */
  function FormatIso(d: Date): string
    requires Valid(d)
  {
    PadNat(d.year, 4) + "-" + PadNat(d.month, 2) + "-" + PadNat(d.day, 2)
  }

  lemma {:induction false} FormatYmdShape(d: Date)
    requires Valid(d)
    ensures |FormatYmd(d)| == 8 && AllDigits(FormatYmd(d))
    ensures FormatYmd(d)[..4] == PadNat(d.year, 4)
    ensures FormatYmd(d)[4..6] == PadNat(d.month, 2)
    ensures FormatYmd(d)[6..] == PadNat(d.day, 2)
  {
    PadNatLength(d.year, 4);
    PadNatLength(d.month, 2);
    PadNatLength(d.day, 2);
  }

  /** `strftime("%d%m")` is always four digits, day first. */
  lemma FormatDdMmShape(d: Date)
    requires Valid(d)
    ensures |FormatDdMm(d)| == 4 && AllDigits(FormatDdMm(d))
    ensures DigitsValue(FormatDdMm(d)[..2]) == d.day
    ensures DigitsValue(FormatDdMm(d)[2..]) == d.month
  {
    PadNatLength(d.day, 2);
    PadNatLength(d.month, 2);
    PadNatValue(d.day, 2);
    PadNatValue(d.month, 2);
    assert FormatDdMm(d)[..2] == PadNat(d.day, 2);
    assert FormatDdMm(d)[2..] == PadNat(d.month, 2);
  }

  // ---------------------------------------------------------------------------
  // Parsing: the regular expressions of Python's `_strptime`
  // ---------------------------------------------------------------------------

  datatype CharClass = AnyDigit | Span(lo: char, hi: char) | Exactly(c: char)

  predicate InClass(k: CharClass, c: char)
  {
    match k
    case AnyDigit => IsDigit(c)
    case Span(lo, hi) => lo <= c <= hi
    case Exactly(x) => c == x
  }

  /** One alternative of a directive's pattern: one character class per character. */
  type Alternative = seq<CharClass>

  /** A directive's pattern: its alternatives in the order the regular expression tries them. */
  type Directive = seq<Alternative>

  /** `%Y`: `\d\d\d\d`. */
  const YearPattern: Directive := [[AnyDigit, AnyDigit, AnyDigit, AnyDigit]]
  /** `%m`: `1[0-2]|0[1-9]|[1-9]`. */
  const MonthPattern: Directive := [[Exactly('1'), Span('0', '2')], [Exactly('0'), Span('1', '9')], [Span('1', '9')]]
  /** `%d`: `3[01]|[12]\d|0[1-9]|[1-9]| [1-9]`. */
  const DayPattern: Directive :=
    [[Exactly('3'), Span('0', '1')], [Span('1', '2'), AnyDigit], [Exactly('0'), Span('1', '9')],
     [Span('1', '9')], [Exactly(' '), Span('1', '9')]]
  /** `%H`: `2[0-3]|[0-1]\d|\d`. */
  const HourPattern: Directive := [[Exactly('2'), Span('0', '3')], [Span('0', '1'), AnyDigit], [AnyDigit]]
  /** `%M`: `[0-5]\d|\d`. */
  const MinutePattern: Directive := [[Span('0', '5'), AnyDigit], [AnyDigit]]
  /** `%S`: `6[0-1]|[0-5]\d|\d`. */
  const SecondPattern: Directive := [[Exactly('6'), Span('0', '1')], [Span('0', '5'), AnyDigit], [AnyDigit]]
  /** `%f`: `[0-9]{1,6}`, greedy, so the longest run is tried first. */
  const FractionPattern: Directive :=
    [[AnyDigit, AnyDigit, AnyDigit, AnyDigit, AnyDigit, AnyDigit], [AnyDigit, AnyDigit, AnyDigit, AnyDigit, AnyDigit],
     [AnyDigit, AnyDigit, AnyDigit, AnyDigit], [AnyDigit, AnyDigit, AnyDigit], [AnyDigit, AnyDigit], [AnyDigit]]
  /** A literal `-` of the format. */
  const DashPattern: Directive := [[Exactly('-')]]

  predicate AltMatches(a: Alternative, s: string, pos: nat)
  {
    pos + |a| <= |s| && forall i :: 0 <= i < |a| ==> InClass(a[i], s[pos + i])
  }

  function Concat(caps: seq<string>): string
  {
    if caps == [] then "" else caps[0] + Concat(caps[1..])
  }

  /**
   * `re.match` of the directives one after another from `pos`: the first
   * combination of alternatives, in the order a backtracking matcher tries
   * them, with which every directive matches.  The result holds the text each
   * directive captured; together they are the matched prefix of `s[pos..]`.
   */
  function MatchFrom(ds: seq<Directive>, s: string, pos: nat): (r: Option<seq<string>>)
    requires pos <= |s|
    ensures r.Some? ==> |r.value| == |ds| && pos + |Concat(r.value)| <= |s|
                        && s[pos..pos + |Concat(r.value)|] == Concat(r.value)
    decreases |ds|, if ds == [] then 0 else |ds[0]| + 1
  {
    if ds == [] then Some([]) else MatchAlternatives(ds, 0, s, pos)
  }

  function MatchAlternatives(ds: seq<Directive>, k: nat, s: string, pos: nat): (r: Option<seq<string>>)
    requires |ds| > 0 && k <= |ds[0]| && pos <= |s|
    ensures r.Some? ==> |r.value| == |ds| && pos + |Concat(r.value)| <= |s|
                        && s[pos..pos + |Concat(r.value)|] == Concat(r.value)
    decreases |ds|, |ds[0]| - k
  {
    if k == |ds[0]| then None
    else
      var a := ds[0][k];
      if AltMatches(a, s, pos) then
        match MatchFrom(ds[1..], s, pos + |a|)
        case Some(caps) =>
          var r := [s[pos..pos + |a|]] + caps;
          assert r[1..] == caps;
          Some(r)
        case None => MatchAlternatives(ds, k + 1, s, pos)
      else
        MatchAlternatives(ds, k + 1, s, pos)
  }

  /**
   * The matching half of `datetime.strptime(s, format)`: the pattern must
   * match at the start of `s`, and nothing may be left over after the match.
   */
  function MatchWhole(ds: seq<Directive>, s: string, format: string): (r: Result<seq<string>>)
    ensures r.Ok? ==> |r.value| == |ds| && Concat(r.value) == s
    ensures r.Err? ==> r.error.ValueError?
  {
    match MatchFrom(ds, s, 0)
    case None => Err(ValueError("time data does not match format " + format))
    case Some(caps) =>
      if |Concat(caps)| != |s| then Err(ValueError("unconverted data remains"))
      else Ok(caps)
  }

  function DigitsOnly(c: string): (r: string)
    ensures AllDigits(r)
  {
    if c == [] then [] else (if IsDigit(c[0]) then [c[0]] else []) + DigitsOnly(c[1..])
  }

  /** `int()` of a captured group: its digits (a `%d` capture may start with a space). */
  function CaptureValue(c: string): nat
  {
    DigitsValue(DigitsOnly(c))
  }

  /** `datetime.strptime(s, "%Y%m%d").date()`. */
  function ParseYmd(s: string): (r: Result<Date>)
    ensures r.Ok? ==> Valid(r.value)
    ensures r.Err? ==> r.error.ValueError?
  {
    match MatchWhole([YearPattern, MonthPattern, DayPattern], s, "'%Y%m%d'")
    case Err(e) => Err(e)
    case Ok(caps) => MakeDate(CaptureValue(caps[0]), CaptureValue(caps[1]), CaptureValue(caps[2]))
  }

  /**
   * `datetime.strptime(s, "%Y%m%d%H%M%S%f").date()`: the time of day is
   * dropped, but a second of 60 or 61, which the pattern lets through, makes
   * the `datetime` constructor fail.
   */
  function ParseStamp(s: string): (r: Result<Date>)
    ensures r.Ok? ==> Valid(r.value)
    ensures r.Err? ==> r.error.ValueError?
  {
    match MatchWhole([YearPattern, MonthPattern, DayPattern, HourPattern, MinutePattern, SecondPattern, FractionPattern],
                     s, "'%Y%m%d%H%M%S%f'")
    case Err(e) => Err(e)
    case Ok(caps) =>
      match MakeDate(CaptureValue(caps[0]), CaptureValue(caps[1]), CaptureValue(caps[2]))
      case Err(e) => Err(e)
      case Ok(d) => if CaptureValue(caps[5]) > 59 then Err(ValueError("second must be in 0..59")) else Ok(d)
  }

  /** `datetime.strptime(s, "%Y-%m-%d").date()`. */
  function ParseIso(s: string): (r: Result<Date>)
    ensures r.Ok? ==> Valid(r.value)
    ensures r.Err? ==> r.error.ValueError?
  {
    match MatchWhole([YearPattern, DashPattern, MonthPattern, DashPattern, DayPattern], s, "'%Y-%m-%d'")
    case Err(e) => Err(e)
    case Ok(caps) => MakeDate(CaptureValue(caps[0]), CaptureValue(caps[2]), CaptureValue(caps[4]))
  }

  // ---------------------------------------------------------------------------
  // Reading back what was written
  // ---------------------------------------------------------------------------

  lemma {:induction false} SkipAlternatives(ds: seq<Directive>, j: nat, k: nat, s: string, pos: nat)
    requires |ds| > 0 && j <= k <= |ds[0]| && pos <= |s|
    requires forall i :: j <= i < k ==> !AltMatches(ds[0][i], s, pos)
    ensures MatchAlternatives(ds, j, s, pos) == MatchAlternatives(ds, k, s, pos)
    decreases k - j
  {
    if j < k {
      SkipAlternatives(ds, j + 1, k, s, pos);
    }
  }

  /**
   * When the `k`-th alternative of the first directive is the first one that
   * matches, and the remaining directives match after it, the match takes it.
   */
  lemma {:induction false} TakesAlternative(d: Directive, rest: seq<Directive>, k: nat, s: string, pos: nat, caps: seq<string>)
    requires k < |d| && pos <= |s|
    requires forall i :: 0 <= i < k ==> !AltMatches(d[i], s, pos)
    requires AltMatches(d[k], s, pos)
    requires MatchFrom(rest, s, pos + |d[k]|) == Some(caps)
    ensures MatchFrom([d] + rest, s, pos) == Some([s[pos..pos + |d[k]|]] + caps)
  {
    var ds := [d] + rest;
    assert ds[0] == d && ds[1..] == rest;
    SkipAlternatives(ds, 0, k, s, pos);
  }

  lemma {:induction false} ConcatCons(x: string, caps: seq<string>)
    ensures Concat([x] + caps) == x + Concat(caps)
  {
    assert ([x] + caps)[1..] == caps;
  }

  lemma {:induction false} DigitsOnlyOfDigits(c: string)
    requires AllDigits(c)
    ensures DigitsOnly(c) == c
  {
    if c != [] {
      DigitsOnlyOfDigits(c[1..]);
      assert c == [c[0]] + c[1..];
    }
  }

  lemma CaptureValueOfPad(n: nat, width: nat)
    ensures CaptureValue(PadNat(n, width)) == n
  {
    DigitsOnlyOfDigits(PadNat(n, width));
    PadNatValue(n, width);
  }

  /** A four-digit year is taken whole by `%Y`. */
  lemma YearTaken(s: string, pos: nat, rest: seq<Directive>, caps: seq<string>)
    requires pos + 4 <= |s| && AllDigits(s[pos..pos + 4])
    requires MatchFrom(rest, s, pos + 4) == Some(caps)
    ensures MatchFrom([YearPattern] + rest, s, pos) == Some([s[pos..pos + 4]] + caps)
  {
    forall i | 0 <= i < 4
      ensures InClass(YearPattern[0][i], s[pos + i])
    {
      assert s[pos + i] == s[pos..pos + 4][i];
    }
    TakesAlternative(YearPattern, rest, 0, s, pos, caps);
  }

  /** A zero-padded month is taken whole by `%m`. */
  lemma MonthTaken(s: string, pos: nat, m: nat, rest: seq<Directive>, caps: seq<string>)
    requires 1 <= m <= 12 && pos + 2 <= |s| && s[pos..pos + 2] == PadNat(m, 2)
    requires MatchFrom(rest, s, pos + 2) == Some(caps)
    ensures MatchFrom([MonthPattern] + rest, s, pos) == Some([s[pos..pos + 2]] + caps)
  {
    PadTwo(m);
    assert s[pos] == s[pos..pos + 2][0] == DigitChar(m / 10);
    assert s[pos + 1] == s[pos..pos + 2][1] == DigitChar(m % 10);
    if m >= 10 {
      assert InClass(MonthPattern[0][0], s[pos]) && InClass(MonthPattern[0][1], s[pos + 1]);
      TakesAlternative(MonthPattern, rest, 0, s, pos, caps);
    } else {
      assert !InClass(MonthPattern[0][0], s[pos]);
      assert InClass(MonthPattern[1][0], s[pos]) && InClass(MonthPattern[1][1], s[pos + 1]);
      TakesAlternative(MonthPattern, rest, 1, s, pos, caps);
    }
  }

  /** A zero-padded day is taken whole by `%d`. */
  lemma DayTaken(s: string, pos: nat, d: nat, rest: seq<Directive>, caps: seq<string>)
    requires 1 <= d <= 31 && pos + 2 <= |s| && s[pos..pos + 2] == PadNat(d, 2)
    requires MatchFrom(rest, s, pos + 2) == Some(caps)
    ensures MatchFrom([DayPattern] + rest, s, pos) == Some([s[pos..pos + 2]] + caps)
  {
    PadTwo(d);
    assert s[pos] == s[pos..pos + 2][0] == DigitChar(d / 10);
    assert s[pos + 1] == s[pos..pos + 2][1] == DigitChar(d % 10);
    if d >= 30 {
      assert InClass(DayPattern[0][0], s[pos]) && InClass(DayPattern[0][1], s[pos + 1]);
      TakesAlternative(DayPattern, rest, 0, s, pos, caps);
    } else if d >= 10 {
      assert !InClass(DayPattern[0][0], s[pos]);
      assert InClass(DayPattern[1][0], s[pos]) && InClass(DayPattern[1][1], s[pos + 1]);
      TakesAlternative(DayPattern, rest, 1, s, pos, caps);
    } else {
      assert !InClass(DayPattern[0][0], s[pos]) && !InClass(DayPattern[1][0], s[pos]);
      assert InClass(DayPattern[2][0], s[pos]) && InClass(DayPattern[2][1], s[pos + 1]);
      TakesAlternative(DayPattern, rest, 2, s, pos, caps);
    }
  }

  lemma DashTaken(s: string, pos: nat, rest: seq<Directive>, caps: seq<string>)
    requires pos + 1 <= |s| && s[pos] == '-'
    requires MatchFrom(rest, s, pos + 1) == Some(caps)
    ensures MatchFrom([DashPattern] + rest, s, pos) == Some([s[pos..pos + 1]] + caps)
  {
    TakesAlternative(DashPattern, rest, 0, s, pos, caps);
  }

  lemma DayPadBound(d: Date)
    requires Valid(d)
    ensures 1 <= d.day <= 31 && d.year < Pow10(4) && d.month < Pow10(2) && d.day < Pow10(2)
  {
  }

  /** Reading back what `strftime("%Y%m%d")` wrote gives the same date. */
  lemma ParseYmdOfFormat(d: Date)
    requires Valid(d)
    ensures ParseYmd(FormatYmd(d)) == Ok(d)
  {
    var s := FormatYmd(d);
    var y, m, dd := PadNat(d.year, 4), PadNat(d.month, 2), PadNat(d.day, 2);
    DayPadBound(d);
    PadNatLength(d.year, 4);
    PadNatLength(d.month, 2);
    PadNatLength(d.day, 2);
    assert |s| == 8;
    assert s[0..4] == y && s[4..6] == m && s[6..8] == dd;
    assert AllDigits(s[0..4]);
    assert MatchFrom([], s, 8) == Some([]);
    DayTaken(s, 6, d.day, [], []);
    assert [DayPattern] + [] == [DayPattern] && [s[6..8]] + [] == [dd];
    MonthTaken(s, 4, d.month, [DayPattern], [dd]);
    assert [MonthPattern] + [DayPattern] == [MonthPattern, DayPattern] && [s[4..6]] + [dd] == [m, dd];
    YearTaken(s, 0, [MonthPattern, DayPattern], [m, dd]);
    assert [YearPattern] + [MonthPattern, DayPattern] == [YearPattern, MonthPattern, DayPattern];
    var caps := [y, m, dd];
    assert [s[0..4]] + [m, dd] == caps;
    assert MatchFrom([YearPattern, MonthPattern, DayPattern], s, 0) == Some(caps);
    ConcatCons(dd, []);
    ConcatCons(m, [dd]);
    ConcatCons(y, [m, dd]);
    assert [y] + [m, dd] == caps && [m] + [dd] == [m, dd] && [dd] + [] == [dd];
    assert Concat(caps) == s;
    CaptureValueOfPad(d.year, 4);
    CaptureValueOfPad(d.month, 2);
    CaptureValueOfPad(d.day, 2);
  }

  /** Two zeros are taken whole by `%H`, `%M` and `%S`. */
  lemma ZerosTaken(p: Directive, k: nat, s: string, pos: nat, rest: seq<Directive>, caps: seq<string>)
    requires p == HourPattern || p == MinutePattern || p == SecondPattern
    requires k == (if p == MinutePattern then 0 else 1)
    requires pos + 2 <= |s| && s[pos] == '0' && s[pos + 1] == '0'
    requires MatchFrom(rest, s, pos + 2) == Some(caps)
    ensures MatchFrom([p] + rest, s, pos) == Some(["00"] + caps)
  {
    assert InClass(p[k][0], s[pos]) && InClass(p[k][1], s[pos + 1]);
    if k == 1 {
      assert !InClass(p[0][0], s[pos]);
    }
    TakesAlternative(p, rest, k, s, pos, caps);
    assert s[pos..pos + 2] == "00";
  }

  /** Three zeros at the end are taken by `%f`, after the longer runs fail. */
  lemma FractionTaken(s: string)
    requires |s| == 17 && s[14] == '0' && s[15] == '0' && s[16] == '0'
    ensures MatchFrom([FractionPattern], s, 14) == Some(["000"])
  {
    assert MatchFrom([], s, 17) == Some([]);
    assert InClass(FractionPattern[3][0], s[14]) && InClass(FractionPattern[3][1], s[15]);
    assert InClass(FractionPattern[3][2], s[16]);
    TakesAlternative(FractionPattern, [], 3, s, 14, []);
    assert [FractionPattern] + [] == [FractionPattern];
    assert s[14..17] == "000";
    assert [s[14..17]] + [] == ["000"];
  }

  const TimePatterns: seq<Directive> := [HourPattern, MinutePattern, SecondPattern, FractionPattern]
  const MidnightCaptures: seq<string> := ["00", "00", "00", "000"]

  /** The nine zeros after the date are read as midnight. */
  lemma MidnightTaken(s: string)
    requires |s| == 17 && forall i :: 8 <= i < 17 ==> s[i] == '0'
    ensures MatchFrom(TimePatterns, s, 8) == Some(MidnightCaptures)
  {
    FractionTaken(s);
    ZerosTaken(SecondPattern, 1, s, 12, [FractionPattern], ["000"]);
    assert [SecondPattern] + [FractionPattern] == TimePatterns[2..];
    assert ["00"] + ["000"] == MidnightCaptures[2..];
    ZerosTaken(MinutePattern, 0, s, 10, TimePatterns[2..], MidnightCaptures[2..]);
    assert [MinutePattern] + TimePatterns[2..] == TimePatterns[1..];
    assert ["00"] + MidnightCaptures[2..] == MidnightCaptures[1..];
    ZerosTaken(HourPattern, 1, s, 8, TimePatterns[1..], MidnightCaptures[1..]);
    assert [HourPattern] + TimePatterns[1..] == TimePatterns;
    assert ["00"] + MidnightCaptures[1..] == MidnightCaptures;
  }

  lemma MidnightConcat()
    ensures Concat(MidnightCaptures) == "000000000"
  {
    ConcatCons("000", []);
    ConcatCons("00", ["000"]);
    ConcatCons("00", ["00", "000"]);
    ConcatCons("00", ["00", "00", "000"]);
    assert ["000"] + [] == ["000"];
    assert ["00"] + ["000"] == ["00", "000"];
    assert ["00"] + ["00", "000"] == ["00", "00", "000"];
    assert ["00"] + ["00", "00", "000"] == MidnightCaptures;
  }

  /** The eight digits of `%Y%m%d` are taken as year, month and day. */
  lemma DateTaken(d: Date, s: string, rest: seq<Directive>, tail: seq<string>)
    requires Valid(d) && |s| >= 8 && s[..8] == FormatYmd(d)
    requires MatchFrom(rest, s, 8) == Some(tail)
    ensures MatchFrom([YearPattern, MonthPattern, DayPattern] + rest, s, 0)
            == Some([PadNat(d.year, 4), PadNat(d.month, 2), PadNat(d.day, 2)] + tail)
  {
    var y, m, dd := PadNat(d.year, 4), PadNat(d.month, 2), PadNat(d.day, 2);
    FormatYmdShape(d);
    assert s[0..4] == y && s[4..6] == m && s[6..8] == dd;
    DayPadBound(d);
    DayTaken(s, 6, d.day, rest, tail);
    MonthTaken(s, 4, d.month, [DayPattern] + rest, [dd] + tail);
    YearTaken(s, 0, [MonthPattern] + ([DayPattern] + rest), [m] + ([dd] + tail));
    assert [YearPattern] + ([MonthPattern] + ([DayPattern] + rest)) == [YearPattern, MonthPattern, DayPattern] + rest;
    assert [y] + ([m] + ([dd] + tail)) == [y, m, dd] + tail;
  }

  /** The millisecond stamp of a date reads back as the same date. */
  lemma ParseStampOfFormat(d: Date)
    requires Valid(d)
    ensures ParseStamp(FormatStamp(d)) == Ok(d)
  {
    var s := FormatStamp(d);
    var y, m, dd := PadNat(d.year, 4), PadNat(d.month, 2), PadNat(d.day, 2);
    FormatYmdShape(d);
    assert s[..8] == FormatYmd(d) && s[8..] == "000000000";
    assert forall i :: 8 <= i < 17 ==> s[i] == s[8..][i - 8];
    MidnightTaken(s);
    DateTaken(d, s, TimePatterns, MidnightCaptures);
    var ds := [YearPattern, MonthPattern, DayPattern, HourPattern, MinutePattern, SecondPattern, FractionPattern];
    assert [YearPattern, MonthPattern, DayPattern] + TimePatterns == ds;
    var caps := [y, m, dd] + MidnightCaptures;
    assert MatchFrom(ds, s, 0) == Some(caps);
    assert Concat(caps) == s by {
      assert caps == [y] + ([m] + ([dd] + MidnightCaptures));
      ConcatCons(dd, MidnightCaptures);
      ConcatCons(m, [dd] + MidnightCaptures);
      ConcatCons(y, [m] + ([dd] + MidnightCaptures));
      MidnightConcat();
    }
    assert caps[0] == y && caps[1] == m && caps[2] == dd && caps[5] == PadNat(0, 2);
    CaptureValueOfPad(d.year, 4);
    CaptureValueOfPad(d.month, 2);
    CaptureValueOfPad(d.day, 2);
    CaptureValueOfPad(0, 2);
  }

  const IsoPatterns: seq<Directive> := [YearPattern, DashPattern, MonthPattern, DashPattern, DayPattern]

  function IsoCaptures(d: Date): seq<string>
    requires Valid(d)
  {
    [PadNat(d.year, 4), "-", PadNat(d.month, 2), "-", PadNat(d.day, 2)]
  }

  /** The last three characters, `-%d`, take the dash and the day. */
  lemma IsoDayTaken(s: string, day: nat)
    requires 1 <= day <= 31 && |s| == 10
    requires s[7] == '-' && s[8..10] == PadNat(day, 2)
    ensures MatchFrom([DashPattern, DayPattern], s, 7) == Some(["-", PadNat(day, 2)])
  {
    var dd := PadNat(day, 2);
    assert MatchFrom([], s, 10) == Some([]);
    DayTaken(s, 8, day, [], []);
    assert [DayPattern] + [] == [DayPattern] && [s[8..10]] + [] == [dd];
    DashTaken(s, 7, [DayPattern], [dd]);
    assert s[7..8] == "-";
    assert [DashPattern] + [DayPattern] == [DashPattern, DayPattern] && [s[7..8]] + [dd] == ["-", dd];
  }

  /** After the year, `-%m-%d` takes the dash, the month, the dash and the day. */
  lemma IsoTailTaken(s: string, month: nat, day: nat)
    requires 1 <= month <= 12 && 1 <= day <= 31 && |s| == 10
    requires s[4] == '-' && s[5..7] == PadNat(month, 2) && s[7] == '-' && s[8..10] == PadNat(day, 2)
    ensures MatchFrom(IsoPatterns[1..], s, 4) == Some(["-", PadNat(month, 2), "-", PadNat(day, 2)])
  {
    var m, dd := PadNat(month, 2), PadNat(day, 2);
    IsoDayTaken(s, day);
    MonthTaken(s, 5, month, [DashPattern, DayPattern], ["-", dd]);
    assert [MonthPattern] + [DashPattern, DayPattern] == [MonthPattern, DashPattern, DayPattern];
    assert [s[5..7]] + ["-", dd] == [m, "-", dd];
    DashTaken(s, 4, [MonthPattern, DashPattern, DayPattern], [m, "-", dd]);
    assert s[4..5] == "-";
    assert [DashPattern] + [MonthPattern, DashPattern, DayPattern] == IsoPatterns[1..];
    assert [s[4..5]] + [m, "-", dd] == ["-", m, "-", dd];
  }

  lemma IsoTaken(d: Date)
    requires Valid(d)
    ensures MatchFrom(IsoPatterns, FormatIso(d), 0) == Some(IsoCaptures(d))
  {
    var s := FormatIso(d);
    var y, m, dd := PadNat(d.year, 4), PadNat(d.month, 2), PadNat(d.day, 2);
    DayPadBound(d);
    PadNatLength(d.year, 4);
    PadNatLength(d.month, 2);
    PadNatLength(d.day, 2);
    assert |s| == 10;
    assert s[0..4] == y && s[4] == '-' && s[5..7] == m && s[7] == '-' && s[8..10] == dd;
    assert AllDigits(s[0..4]);
    IsoTailTaken(s, d.month, d.day);
    YearTaken(s, 0, IsoPatterns[1..], ["-", m, "-", dd]);
    assert [YearPattern] + IsoPatterns[1..] == IsoPatterns;
    assert [s[0..4]] + ["-", m, "-", dd] == IsoCaptures(d);
  }

  /** `%Y-%m-%d` of a date reads back as the same date. */
  lemma ParseIsoOfFormat(d: Date)
    requires Valid(d)
    ensures ParseIso(FormatIso(d)) == Ok(d)
  {
    var y, m, dd := PadNat(d.year, 4), PadNat(d.month, 2), PadNat(d.day, 2);
    IsoTaken(d);
    assert Concat(IsoCaptures(d)) == FormatIso(d) by {
      ConcatCons(dd, []);
      ConcatCons("-", [dd]);
      ConcatCons(m, ["-", dd]);
      ConcatCons("-", [m, "-", dd]);
      ConcatCons(y, ["-", m, "-", dd]);
      assert [dd] + [] == [dd];
    }
    DayPadBound(d);
    CaptureValueOfPad(d.year, 4);
    CaptureValueOfPad(d.month, 2);
    CaptureValueOfPad(d.day, 2);
  }
}
