/**
 * Shared vocabulary of the model: optional values, results carrying the
 * exception the Python code would raise, and the handful of Python string and
 * integer built-ins the converter relies on (slicing, `str.join`,
 * `str.split`, `str.strip`, `str.removesuffix`, `str(int)`, `int(str)`).
 */
module Common {

  /** Python's `None` or a value; `:-` propagates the `None`. */
  datatype Option<T> = None | Some(value: T)
  {
    predicate IsFailure() { None? }

    function PropagateFailure<U>(): Option<U>
      requires None?
    {
      None
    }

    function Extract(): T
      requires Some?
    {
      value
    }
  }

  /** The Python exception classes the converter raises or lets escape. */
  datatype Error =
    | ValueError(message: string)
    | AttributeError(message: string)
    | TypeError(message: string)
    | StopIteration
    | CsvError(message: string)
    | IndexError(message: string)
    | KeyError(message: string)
    | UnicodeEncodeError(message: string)
    | ProgrammingError(message: string)

  /** The value a Python call returns, or the exception it raises; `:-` propagates the exception. */
  datatype Result<T> = Ok(value: T) | Err(error: Error)
  {
    predicate IsFailure() { Err? }

    function PropagateFailure<U>(): Result<U>
      requires Err?
    {
      Err(error)
    }

    function Extract(): T
      requires Ok?
    {
      value
    }
  }

  function Min(a: int, b: int): int { if a <= b then a else b }

  // ---------------------------------------------------------------------------
  // Slicing
  // ---------------------------------------------------------------------------

  /** Python `s[:n]`: the first `n` characters, or all of `s` when it is shorter. */
  function Prefix<T>(s: seq<T>, n: nat): (r: seq<T>)
    ensures |r| == Min(|s|, n)
    ensures r <= s
  {
    if |s| <= n then s else s[..n]
  }

  lemma PrefixOfShort<T>(s: seq<T>, n: nat)
    requires |s| <= n
    ensures Prefix(s, n) == s
  {
  }

  lemma PrefixIdempotent<T>(s: seq<T>, n: nat)
    ensures Prefix(Prefix(s, n), n) == Prefix(s, n)
  {
  }

  // ---------------------------------------------------------------------------
  // Joining and splitting on one separator character
  // ---------------------------------------------------------------------------

  predicate NoChar(s: string, c: char)
  {
    forall i :: 0 <= i < |s| ==> s[i] != c
  }

  predicate NoneContain(parts: seq<string>, c: char)
  {
    forall k :: 0 <= k < |parts| ==> NoChar(parts[k], c)
  }

  /** Python `sep.join(parts)`. */
  function Join(parts: seq<string>, sep: char): string
  {
    if |parts| == 0 then ""
    else if |parts| == 1 then parts[0]
    else parts[0] + [sep] + Join(parts[1..], sep)
  }

  /** Python `s.split(sep)`: always at least one part. */
  function Split(s: string, sep: char): (r: seq<string>)
    ensures |r| >= 1
  {
    if |s| == 0 then [""]
    else
      var rest := Split(s[1..], sep);
      if s[0] == sep then [""] + rest
      else [[s[0]] + rest[0]] + rest[1..]
  }

  /** Number of occurrences of `c` in `s`. */
  function Count(s: string, c: char): nat
  {
    if |s| == 0 then 0 else (if s[0] == c then 1 else 0) + Count(s[1..], c)
  }

  lemma {:induction false} SplitCount(s: string, sep: char)
    ensures |Split(s, sep)| == Count(s, sep) + 1
  {
    if |s| > 0 {
      SplitCount(s[1..], sep);
    }
  }

  /** Splitting a text free of the separator, followed by more text, extends the first part. */
  lemma {:induction false} SplitFreePrefix(p: string, t: string, sep: char)
    requires NoChar(p, sep)
    ensures Split(p + t, sep) == [p + Split(t, sep)[0]] + Split(t, sep)[1..]
  {
    if |p| > 0 {
      assert (p + t)[1..] == p[1..] + t;
      SplitFreePrefix(p[1..], t, sep);
      assert [p[0]] + (p[1..] + Split(t, sep)[0]) == p + Split(t, sep)[0];
    } else {
      assert p + t == t;
      assert Split(t, sep) == [Split(t, sep)[0]] + Split(t, sep)[1..];
      assert p + Split(t, sep)[0] == Split(t, sep)[0];
    }
  }

  /** No part of a split holds the separator. */
  lemma {:induction false} SplitNoneContain(s: string, sep: char)
    ensures NoneContain(Split(s, sep), sep)
  {
    if |s| > 0 {
      SplitNoneContain(s[1..], sep);
      var rest := Split(s[1..], sep);
      if s[0] != sep {
        assert NoChar([s[0]] + rest[0], sep) by {
          assert NoChar(rest[0], sep);
        }
        forall k | 0 <= k < |Split(s, sep)| ensures NoChar(Split(s, sep)[k], sep) {
          if k > 0 { assert Split(s, sep)[k] == rest[k]; }
        }
      } else {
        forall k | 0 <= k < |Split(s, sep)| ensures NoChar(Split(s, sep)[k], sep) {
          if k > 0 { assert Split(s, sep)[k] == rest[k - 1]; }
        }
      }
    }
  }

  /** A join whose first part is not empty begins with that part's first character. */
  lemma {:induction false} JoinFirst(parts: seq<string>, sep: char)
    requires |parts| > 0 && |parts[0]| > 0
    ensures |Join(parts, sep)| > 0 && Join(parts, sep)[0] == parts[0][0]
  {
  }

  /** `split` undoes `join` when no part contains the separator. */
  lemma {:induction false} SplitJoin(parts: seq<string>, sep: char)
    requires |parts| >= 1
    requires NoneContain(parts, sep)
    ensures Split(Join(parts, sep), sep) == parts
  {
    if |parts| == 1 {
      SplitFreePrefix(parts[0], "", sep);
      assert parts[0] + "" == parts[0];
    } else {
      var t := Join(parts[1..], sep);
      SplitJoin(parts[1..], sep);
      assert Join(parts, sep) == parts[0] + ([sep] + t);
      SplitFreePrefix(parts[0], [sep] + t, sep);
      assert ([sep] + t)[1..] == t;
      assert Split([sep] + t, sep) == [""] + parts[1..];
      assert parts[0] + "" == parts[0];
      assert parts == [parts[0]] + parts[1..];
    }
  }

  /** `join` undoes `split`, whatever the text. */
  lemma {:induction false} JoinSplit(s: string, sep: char)
    ensures Join(Split(s, sep), sep) == s
  {
    if |s| > 0 {
      JoinSplit(s[1..], sep);
      var rest := Split(s[1..], sep);
      if s[0] == sep {
        assert s == [sep] + s[1..];
      } else {
        if |rest| == 1 {
          assert s == [s[0]] + rest[0];
        } else {
          assert Join(rest, sep) == rest[0] + [sep] + Join(rest[1..], sep);
          assert ([[s[0]] + rest[0]] + rest[1..])[1..] == rest[1..];
          assert s == [s[0]] + s[1..];
        }
      }
    }
  }

  // ---------------------------------------------------------------------------
  // Evaluating one call per element
  // ---------------------------------------------------------------------------

  /**
   * A Python loop or comprehension that calls `f` on each element in
   * order: the list of results, or the exception of the first call that
   * raises.
   */
  function MapAll<A, B>(xs: seq<A>, f: A -> Result<B>): (r: Result<seq<B>>)
    ensures r.Ok? ==> |r.value| == |xs|
  {
    if |xs| == 0 then Ok([])
    else
      match MapAll(xs[..|xs| - 1], f)
      case Err(e) => Err(e)
      case Ok(front) =>
        match f(xs[|xs| - 1])
        case Err(e) => Err(e)
        case Ok(last) => Ok(front + [last])
  }

  /** The calls all succeed exactly when the loop does, and it gives their values in order. */
  lemma {:induction false} MapAllOk<A, B>(xs: seq<A>, f: A -> Result<B>)
    ensures MapAll(xs, f).Ok? <==> forall i :: 0 <= i < |xs| ==> f(xs[i]).Ok?
    ensures MapAll(xs, f).Ok? ==> forall i :: 0 <= i < |xs| ==> MapAll(xs, f).value[i] == f(xs[i]).value
  {
    if |xs| > 0 {
      var front := xs[..|xs| - 1];
      MapAllOk(front, f);
      assert forall i :: 0 <= i < |front| ==> front[i] == xs[i];
    }
  }

  /** A failing loop reports the exception of the first call that raises. */
  lemma {:induction false} MapAllFirstError<A, B>(xs: seq<A>, f: A -> Result<B>)
    requires MapAll(xs, f).Err?
    ensures exists k :: 0 <= k < |xs| && f(xs[k]) == Err(MapAll(xs, f).error)
                        && forall j :: 0 <= j < k ==> f(xs[j]).Ok?
  {
    var front := xs[..|xs| - 1];
    assert forall i :: 0 <= i < |front| ==> front[i] == xs[i];
    if MapAll(front, f).Err? {
      MapAllFirstError(front, f);
    } else {
      MapAllOk(front, f);
      assert f(xs[|xs| - 1]) == Err(MapAll(xs, f).error);
    }
  }

  /** A loop or comprehension that cannot raise: `[f(x) for x in xs]`. */
  function Map<A, B>(xs: seq<A>, f: A -> B): (r: seq<B>)
    ensures |r| == |xs|
  {
    if |xs| == 0 then [] else Map(xs[..|xs| - 1], f) + [f(xs[|xs| - 1])]
  }

  lemma {:induction false} MapAt<A, B>(xs: seq<A>, f: A -> B, i: nat)
    requires i < |xs|
    ensures Map(xs, f)[i] == f(xs[i])
  {
    if i < |xs| - 1 {
      MapAt(xs[..|xs| - 1], f, i);
    }
  }

  /** Once a prefix of the loop raises, the whole loop raises the same exception. */
  lemma {:induction false} MapAllPrefixError<A, B>(xs: seq<A>, k: nat, f: A -> Result<B>)
    requires k <= |xs|
    requires MapAll(xs[..k], f).Err?
    ensures MapAll(xs, f) == Err(MapAll(xs[..k], f).error)
    decreases |xs|
  {
    if k == |xs| {
      assert xs[..k] == xs;
    } else {
      var front := xs[..|xs| - 1];
      assert front[..k] == xs[..k];
      MapAllPrefixError(front, k, f);
    }
  }

  // ---------------------------------------------------------------------------
  // Character-level transformations
  // ---------------------------------------------------------------------------

  /** Python `s.replace(a, b)` for single characters. */
  function ReplaceChar(s: string, a: char, b: char): (r: string)
    ensures |r| == |s|
    ensures forall i :: 0 <= i < |s| ==> r[i] == (if s[i] == a then b else s[i])
  {
    if |s| == 0 then "" else [if s[0] == a then b else s[0]] + ReplaceChar(s[1..], a, b)
  }

  /** Python `str.isspace` for one character (the Unicode White_Space set Python uses). */
  predicate IsSpace(c: char)
  {
    c in {'\U{9}', '\U{A}', '\U{B}', '\U{C}', '\U{D}', '\U{1C}', '\U{1D}', '\U{1E}', '\U{1F}', '\U{20}', '\U{85}', '\U{A0}', '\U{1680}', '\U{2000}', '\U{2001}', '\U{2002}', '\U{2003}', '\U{2004}', '\U{2005}', '\U{2006}', '\U{2007}', '\U{2008}', '\U{2009}', '\U{200A}', '\U{2028}', '\U{2029}', '\U{202F}', '\U{205F}', '\U{3000}'}
  }

  /** Drops characters satisfying the test from the front. */
  function DropLeading(s: string, c: char): (r: string)
    ensures |r| <= |s|
  {
    if |s| > 0 && s[0] == c then DropLeading(s[1..], c) else s
  }

  function DropTrailing(s: string, c: char): (r: string)
    ensures |r| <= |s|
  {
    if |s| > 0 && s[|s| - 1] == c then DropTrailing(s[..|s| - 1], c) else s
  }

  /** Python `s.strip(c)` for a single character `c`. */
  function StripChar(s: string, c: char): string
  {
    DropTrailing(DropLeading(s, c), c)
  }

  lemma StripCharOfFree(s: string, c: char)
    requires |s| == 0 || (s[0] != c && s[|s| - 1] != c)
    ensures StripChar(s, c) == s
  {
  }

  /** Wrapping in `c` and stripping `c` again gives back any text that neither begins nor ends with `c`. */
  lemma {:induction false} StripCharOfWrapped(s: string, c: char)
    requires |s| == 0 || (s[0] != c && s[|s| - 1] != c)
    ensures StripChar([c] + s + [c], c) == s
  {
    var w := [c] + s + [c];
    assert w[1..] == s + [c];
    assert DropLeading(w, c) == DropLeading(s + [c], c);
    if |s| == 0 {
      assert DropLeading([c], c) == DropLeading([], c);
      assert DropTrailing([], c) == [];
    } else {
      assert (s + [c])[0] == s[0];
      assert DropLeading(s + [c], c) == s + [c];
      assert (s + [c])[..|s|] == s;
      assert DropTrailing(s + [c], c) == DropTrailing(s, c);
    }
  }

  predicate IsBlank(s: string)
  {
    forall i :: 0 <= i < |s| ==> IsSpace(s[i])
  }

  function DropLeadingSpace(s: string): (r: string)
    ensures |r| <= |s|
  {
    if |s| > 0 && IsSpace(s[0]) then DropLeadingSpace(s[1..]) else s
  }

  function DropTrailingSpace(s: string): (r: string)
    ensures |r| <= |s|
  {
    if |s| > 0 && IsSpace(s[|s| - 1]) then DropTrailingSpace(s[..|s| - 1]) else s
  }

  /** Python `s.strip()` with no argument. */
  function StripSpace(s: string): string
  {
    DropTrailingSpace(DropLeadingSpace(s))
  }

  /** `s.strip() != ""` holds exactly when `s` has a non-whitespace character. */
  lemma {:induction false} StripSpaceEmpty(s: string)
    ensures StripSpace(s) == "" <==> IsBlank(s)
  {
    if |s| > 0 {
      if IsSpace(s[0]) {
        StripSpaceEmpty(s[1..]);
        assert IsBlank(s) <==> IsBlank(s[1..]) by {
          if IsBlank(s[1..]) {
            forall i | 0 <= i < |s| ensures IsSpace(s[i]) {
              if i > 0 { assert s[i] == s[1..][i - 1]; }
            }
          }
          if IsBlank(s) {
            forall i | 0 <= i < |s[1..]| ensures IsSpace(s[1..][i]) {
              assert s[1..][i] == s[i + 1];
            }
          }
        }
      } else {
        assert DropLeadingSpace(s) == s;
        assert !IsBlank(s);
        var t := DropTrailingSpace(s);
        if |t| == 0 {
          NoLeadingSpaceSurvives(s);
        }
      }
    }
  }

  lemma {:induction false} NoLeadingSpaceSurvives(s: string)
    requires |s| > 0 && !IsSpace(s[0])
    ensures |DropTrailingSpace(s)| > 0
  {
    if IsSpace(s[|s| - 1]) {
      assert |s| > 1;
      NoLeadingSpaceSurvives(s[..|s| - 1]);
    }
  }

  /** A text that neither begins nor ends with whitespace. */
  predicate Trimmed(s: string)
  {
    |s| == 0 || (!IsSpace(s[0]) && !IsSpace(s[|s| - 1]))
  }

  lemma {:induction false} DropLeadingBlank(l: string, w: string)
    requires IsBlank(l) && (|w| == 0 || !IsSpace(w[0]))
    ensures DropLeadingSpace(l + w) == w
  {
    if |l| > 0 {
      assert (l + w)[1..] == l[1..] + w;
      DropLeadingBlank(l[1..], w);
    }
  }

  lemma {:induction false} DropTrailingBlank(w: string, r: string)
    requires IsBlank(r) && (|w| == 0 || !IsSpace(w[|w| - 1]))
    ensures DropTrailingSpace(w + r) == w
  {
    if |r| > 0 {
      assert (w + r)[..|w + r| - 1] == w + r[..|r| - 1];
      DropTrailingBlank(w, r[..|r| - 1]);
    } else {
      assert w + r == w;
    }
  }

  /** Stripping a trimmed text padded with whitespace on both sides gives the text back. */
  lemma StripSpaceOfPadded(l: string, s: string, r: string)
    requires IsBlank(l) && IsBlank(r) && Trimmed(s)
    ensures StripSpace(l + s + r) == s
  {
    assert l + s + r == l + (s + r);
    if |s| > 0 {
      DropLeadingBlank(l, s + r);
    } else {
      assert s + r == r;
      DropLeadingBlank(l, "");
      assert l + s + r == l + r;
      StripSpaceEmpty(l + r);
      assert IsBlank(l + r) by {
        forall i | 0 <= i < |l + r| ensures IsSpace((l + r)[i]) {
          if i >= |l| { assert (l + r)[i] == r[i - |l|]; }
        }
      }
    }
    DropTrailingBlank(s, r);
  }

  lemma {:induction false} DropLeadingSpaceTrims(s: string)
    ensures |DropLeadingSpace(s)| == 0 || !IsSpace(DropLeadingSpace(s)[0])
  {
    if |s| > 0 && IsSpace(s[0]) {
      DropLeadingSpaceTrims(s[1..]);
    }
  }

  lemma {:induction false} DropTrailingSpaceTrims(s: string)
    requires |s| == 0 || !IsSpace(s[0])
    ensures Trimmed(DropTrailingSpace(s))
  {
    if |s| > 0 && IsSpace(s[|s| - 1]) {
      DropTrailingSpaceTrims(s[..|s| - 1]);
      if |s| > 1 {
        NoLeadingSpaceSurvives(s[..|s| - 1]);
      }
    }
  }

  /** `s.strip()` has no whitespace at either end, so stripping again changes nothing. */
  lemma StripSpaceIdempotent(s: string)
    ensures Trimmed(StripSpace(s))
    ensures StripSpace(StripSpace(s)) == StripSpace(s)
  {
    DropLeadingSpaceTrims(s);
    DropTrailingSpaceTrims(DropLeadingSpace(s));
    var t := StripSpace(s);
    assert "" + t + "" == t;
    StripSpaceOfPadded("", t, "");
  }

  predicate EndsWith(s: string, suffix: string)
  {
    |suffix| <= |s| && s[|s| - |suffix|..] == suffix
  }

  /** Python `s.removesuffix(suffix)`. */
  function RemoveSuffix(s: string, suffix: string): (r: string)
    ensures EndsWith(s, suffix) ==> r + suffix == s
    ensures !EndsWith(s, suffix) ==> r == s
  {
    if |suffix| <= |s| && s[|s| - |suffix|..] == suffix then s[..|s| - |suffix|] else s
  }

  // ---------------------------------------------------------------------------
  // Integers as text
  // ---------------------------------------------------------------------------

  predicate IsDigit(c: char) { '0' <= c <= '9' }

  predicate AllDigits(s: string)
  {
    forall i :: 0 <= i < |s| ==> IsDigit(s[i])
  }

  function DigitChar(d: nat): (c: char)
    requires d < 10
    ensures IsDigit(c) && c as int == '0' as int + d
  {
    ('0' as int + d) as char
  }

  function DigitValue(c: char): (d: nat)
    requires IsDigit(c)
    ensures d < 10
  {
    (c as int - '0' as int) as nat
  }

  lemma DigitRoundTrip(d: nat)
    requires d < 10
    ensures DigitValue(DigitChar(d)) == d
  {
  }

  /** Decimal digits of a natural number, most significant first, no leading zeros. */
  function NatToString(n: nat): (s: string)
    ensures |s| >= 1 && AllDigits(s)
    decreases n
  {
    if n < 10 then [DigitChar(n)] else NatToString(n / 10) + [DigitChar(n % 10)]
  }

  /** Python `str(i)` for an `int`. */
  function IntToString(i: int): string
  {
    if i < 0 then "-" + NatToString(-i) else NatToString(i)
  }

  /** Value of a string of decimal digits. */
  function DigitsValue(s: string): nat
    requires AllDigits(s)
  {
    if |s| == 0 then 0 else DigitsValue(s[..|s| - 1]) * 10 + DigitValue(s[|s| - 1])
  }

  lemma {:induction false} DigitsValueOfNatToString(n: nat)
    ensures DigitsValue(NatToString(n)) == n
    decreases n
  {
    var s := NatToString(n);
    if n < 10 {
      DigitRoundTrip(n);
    } else {
      DigitsValueOfNatToString(n / 10);
      assert s[..|s| - 1] == NatToString(n / 10);
      DigitRoundTrip(n % 10);
    }
  }

  /** `z` zero digits. */
  function Zeros(z: nat): (s: string)
    ensures |s| == z && forall i :: 0 <= i < z ==> s[i] == '0'
  {
    seq(z, _ => '0')
  }

  /** Zero-padded decimal rendering, as `f"{n:0wd}"` and the `strftime` fields do. */
  function PadNat(n: nat, width: nat): (s: string)
    ensures AllDigits(s) && |s| >= width
  {
    var d := NatToString(n);
    if |d| >= width then d else Zeros(width - |d|) + d
  }

  lemma {:induction false} DigitsValueLeadingZeros(z: nat, d: string)
    requires AllDigits(d)
    ensures AllDigits(Zeros(z) + d)
    ensures DigitsValue(Zeros(z) + d) == DigitsValue(d)
    decreases |d|
  {
    var zs: string := Zeros(z);
    assert AllDigits(zs + d);
    if |d| == 0 {
      assert zs + d == zs;
      ZerosValue(z);
    } else {
      assert (zs + d)[..|zs + d| - 1] == zs + d[..|d| - 1];
      DigitsValueLeadingZeros(z, d[..|d| - 1]);
    }
  }

  lemma {:induction false} ZerosValue(z: nat)
    ensures AllDigits(Zeros(z))
    ensures DigitsValue(Zeros(z)) == 0
  {
    var zs: string := Zeros(z);
    if z > 0 {
      assert zs[..z - 1] == Zeros(z - 1);
      ZerosValue(z - 1);
    }
  }

  /** Reading back a zero-padded number gives the number. */
  lemma PadNatValue(n: nat, width: nat)
    ensures DigitsValue(PadNat(n, width)) == n
  {
    var d := NatToString(n);
    DigitsValueOfNatToString(n);
    if |d| < width {
      DigitsValueLeadingZeros(width - |d|, d);
    }
  }

  /** The two characters of a number below 100, zero-padded to width two. */
  lemma PadTwo(n: nat)
    requires n < 100
    ensures PadNat(n, 2) == [DigitChar(n / 10), DigitChar(n % 10)]
  {
    if n >= 10 {
      assert NatToString(n) == NatToString(n / 10) + [DigitChar(n % 10)];
    }
  }

  lemma {:induction false} NatToStringLength(n: nat, width: nat)
    requires width >= 1 && n < Pow10(width)
    ensures |NatToString(n)| <= width
  {
    if n >= 10 {
      NatToStringLength(n / 10, width - 1);
    }
  }

  function Pow10(k: nat): (p: nat)
    ensures p >= 1
  {
    if k == 0 then 1 else 10 * Pow10(k - 1)
  }

  /** A number below 10^w is rendered in exactly `w` characters. */
  lemma PadNatLength(n: nat, width: nat)
    requires width >= 1 && n < Pow10(width)
    ensures |PadNat(n, width)| == width
  {
    NatToStringLength(n, width);
  }

  /**
   * A run of digits in which single underscores may separate digits, as
   * Python's `int` accepts them ("1_000").
   */
  predicate IsDigitRun(s: string)
    decreases |s|
  {
    && |s| >= 1
    && IsDigit(s[0])
    && (|s| == 1 || (if s[1] == '_' then |s| >= 3 && IsDigitRun(s[2..]) else IsDigitRun(s[1..])))
  }

  /** Drops the underscores of a digit run; what is left are its digits. */
  function RemoveUnderscores(s: string): (r: string)
    requires IsDigitRun(s)
    ensures |r| >= 1 && AllDigits(r)
    decreases |s|
  {
    if |s| == 1 then s
    else if s[1] == '_' then [s[0]] + RemoveUnderscores(s[2..])
    else [s[0]] + RemoveUnderscores(s[1..])
  }

  /** The part after an optional leading sign. */
  function Unsigned(t: string): string
  {
    if |t| > 0 && (t[0] == '-' || t[0] == '+') then t[1..] else t
  }

  /**
   * Python `int(text)` for base 10: surrounding whitespace, an optional sign,
   * then a digit run; anything else raises ValueError.
   */
  function ParseInt(text: string): Result<int>
  {
    ParseSigned(StripSpace(text))
  }

  /** `int` after the surrounding whitespace is gone. */
  function ParseSigned(t: string): Result<int>
  {
    var body := Unsigned(t);
    if IsDigitRun(body) then
      var v: int := DigitsValue(RemoveUnderscores(body));
      Ok(if |t| > 0 && t[0] == '-' then -v else v)
    else
      Err(ValueError("invalid literal for int() with base 10"))
  }

  lemma {:induction false} RemoveUnderscoresOfDigits(s: string)
    requires |s| >= 1 && AllDigits(s)
    ensures IsDigitRun(s) && RemoveUnderscores(s) == s
    decreases |s|
  {
    if |s| > 1 {
      RemoveUnderscoresOfDigits(s[1..]);
      assert s == [s[0]] + s[1..];
    }
  }

  lemma StripSpaceOfDigits(s: string)
    requires |s| >= 1 && AllDigits(s)
    ensures StripSpace(s) == s
  {
    assert !IsSpace(s[0]) && !IsSpace(s[|s| - 1]);
  }

  lemma StripSpaceOfSigned(d: string)
    requires |d| >= 1 && AllDigits(d)
    ensures StripSpace("-" + d) == "-" + d
  {
    var s := "-" + d;
    assert !IsSpace(s[0]) && !IsSpace(s[|s| - 1]);
  }

  /** `int()` of a non-empty string of digits (leading zeros allowed) is its value. */
  lemma {:induction false} ParseIntOfDigits(d: string)
    requires |d| >= 1 && AllDigits(d)
    ensures ParseInt(d) == Ok(DigitsValue(d))
  {
    calc {
      ParseInt(d);
      ParseSigned(StripSpace(d));
      { StripSpaceOfDigits(d); }
      ParseSigned(d);
      { RemoveUnderscoresOfDigits(d); assert IsDigit(d[0]); assert Unsigned(d) == d; }
      Ok(DigitsValue(d));
    }
  }

  lemma {:induction false} ParseIntOfNatToString(n: nat)
    ensures ParseInt(NatToString(n)) == Ok(n)
  {
    DigitsValueOfNatToString(n);
    ParseIntOfDigits(NatToString(n));
  }

  lemma UnsignedOfSigned(d: string)
    ensures Unsigned("-" + d) == d
  {
    assert ("-" + d)[1..] == d;
  }

  /** `int("-" + d)` of a non-empty string of digits is minus its value. */
  lemma {:induction false} ParseIntOfSignedDigits(d: string)
    requires |d| >= 1 && AllDigits(d)
    ensures ParseInt("-" + d) == Ok(-(DigitsValue(d) as int))
  {
    var t := "-" + d;
    calc {
      ParseInt(t);
      ParseSigned(StripSpace(t));
      { StripSpaceOfSigned(d); }
      ParseSigned(t);
      { UnsignedOfSigned(d); RemoveUnderscoresOfDigits(d); assert t[0] == '-'; }
      Ok(-(DigitsValue(d) as int));
    }
  }

  lemma {:induction false} ParseIntOfNegative(n: nat)
    ensures ParseInt("-" + NatToString(n)) == Ok(-(n as int))
  {
    calc {
      ParseInt("-" + NatToString(n));
      { ParseIntOfSignedDigits(NatToString(n)); }
      Ok(-(DigitsValue(NatToString(n)) as int));
      { DigitsValueOfNatToString(n); }
      Ok(-(n as int));
    }
  }

  /** `int(str(i)) == i` for every integer. */
  lemma {:induction false} ParseIntOfIntToString(i: int)
    ensures ParseInt(IntToString(i)) == Ok(i)
  {
    if i < 0 {
      var n: nat := -i;
      ParseIntOfNegative(n);
      calc {
        ParseInt(IntToString(i));
        ParseInt("-" + NatToString(n));
        Ok(-(n as int));
      }
    } else {
      ParseIntOfNatToString(i);
      calc {
        ParseInt(IntToString(i));
        ParseInt(NatToString(i));
      }
    }
  }
}
