/**
 * String operations the scripts take from their languages' standard libraries:
 * Python's str.strip / str.split / str.join / str.lower / int() / str(int) and
 * JavaScript's trim / split / join / startsWith / endsWith.
 */
module Text {
  import opened Base

  /** The whitespace both Python's strip() and JavaScript's trim() remove (its ASCII part). */
  predicate IsSpace(c: char) {
    c == ' ' || '\t' <= c <= '\r'  // tab, line feed, vertical tab, form feed, carriage return
  }

  predicate AllSpace(s: string) {
    forall i :: 0 <= i < |s| ==> IsSpace(s[i])
  }

  /** The number of whitespace characters at the start of `s`. */
  function LeadingSpaces(s: string): (n: nat)
    ensures n <= |s|
    ensures forall i :: 0 <= i < n ==> IsSpace(s[i])
    ensures n == |s| || !IsSpace(s[n])
  {
    if |s| > 0 && IsSpace(s[0]) then
      var n := LeadingSpaces(s[1..]);
      assert forall i :: 1 <= i < n + 1 ==> s[i] == s[1..][i - 1];
      n + 1
    else 0
  }

  /** The number of whitespace characters at the end of `s`. */
  function TrailingSpaces(s: string): (n: nat)
    ensures n <= |s|
    ensures forall i :: |s| - n <= i < |s| ==> IsSpace(s[i])
    ensures n == |s| || !IsSpace(s[|s| - n - 1])
  {
    if |s| > 0 && IsSpace(s[|s| - 1]) then
      var n := TrailingSpaces(s[..|s| - 1]);
      assert forall i :: |s| - 1 - n <= i < |s| - 1 ==> s[i] == s[..|s| - 1][i];
      n + 1
    else 0
  }

  /** Python's `s.strip()` and JavaScript's `s.trim()`. */
  function Trim(s: string): (r: string)
    ensures |r| <= |s|
    ensures r == [] || (!IsSpace(r[0]) && !IsSpace(r[|r| - 1]))
  {
    var t := s[LeadingSpaces(s)..];
    t[..|t| - TrailingSpaces(t)]
  }

  /**
   * Trim is determined by its two cut points: whatever slice of `s` has only
   * whitespace outside it and no whitespace at its ends is what Trim returns.
   */
  lemma TrimUnique(s: string, i: nat, j: nat)
    requires i <= j <= |s|
    requires AllSpace(s[..i]) && AllSpace(s[j..])
    requires i == j || (!IsSpace(s[i]) && !IsSpace(s[j - 1]))
    ensures Trim(s) == s[i..j]
  {
    assert forall m :: 0 <= m < i ==> IsSpace(s[m]) by {
      forall m | 0 <= m < i ensures IsSpace(s[m]) { assert s[..i][m] == s[m]; }
    }
    assert forall m :: j <= m < |s| ==> IsSpace(s[m]) by {
      forall m | j <= m < |s| ensures IsSpace(s[m]) { assert s[j..][m - j] == s[m]; }
    }
    var n := LeadingSpaces(s);
    if i == j {
      assert n == |s|;
    } else {
      assert n == i;
      var t := s[i..];
      var e := TrailingSpaces(t);
      assert forall m :: j - i <= m < |t| ==> t[m] == s[m + i];
      assert e == |t| - (j - i);
      assert t[..|t| - e] == s[i..j];
    }
  }

  lemma TrimIdempotent(s: string)
    ensures Trim(Trim(s)) == Trim(s)
  {
    var r := Trim(s);
    TrimUnique(r, 0, |r|);
  }

  /** Text with no whitespace at its ends is its own trim. */
  lemma TrimNoSpaceEnds(s: string)
    requires s == [] || (!IsSpace(s[0]) && !IsSpace(s[|s| - 1]))
    ensures Trim(s) == s
  {
    assert s[..0] == [] && s[|s|..] == [] && s[0..|s|] == s;
    TrimUnique(s, 0, |s|);
  }

  /** Trimming text padded only with whitespace gives back text with no whitespace at its ends. */
  lemma TrimPadded(a: string, s: string, b: string)
    requires AllSpace(a) && AllSpace(b)
    requires s == [] || (!IsSpace(s[0]) && !IsSpace(s[|s| - 1]))
    ensures Trim(a + s + b) == s
  {
    var x := a + s + b;
    assert x[..|a|] == a;
    assert x[|a| + |s|..] == b;
    assert x[|a|..|a| + |s|] == s;
    TrimUnique(x, |a|, |a| + |s|);
  }

  /** A trimmed string is empty exactly when the original is all whitespace. */
  lemma TrimEmpty(s: string)
    ensures Trim(s) == [] <==> AllSpace(s)
  {
    if AllSpace(s) {
      assert s[..0] == [] && s[0..] == s;
      TrimUnique(s, 0, 0);
    }
  }

  /** JavaScript's `s.startsWith(p)` and Python's `s.startswith(p)`. */
  predicate StartsWith(s: string, p: string) {
    |p| <= |s| && s[..|p|] == p
  }

  /** JavaScript's `s.endsWith(p)` and Python's `s.endswith(p)`. */
  predicate EndsWith(s: string, p: string) {
    |p| <= |s| && s[|s| - |p|..] == p
  }

  /** ASCII upper-case letters lowered; every other character unchanged. */
  function ToLower(s: string): (r: string)
    ensures |r| == |s|
    ensures forall i :: 0 <= i < |s| ==>
              r[i] == if 'A' <= s[i] <= 'Z' then (s[i] as int + 32) as char else s[i]
  {
    if s == [] then []
    else [if 'A' <= s[0] <= 'Z' then (s[0] as int + 32) as char else s[0]] + ToLower(s[1..])
  }

  /** `s.lower() == w`, stated character by character. */
  predicate LowerIs(s: string, w: string) {
    |s| == |w| &&
    forall i :: 0 <= i < |s| ==> if 'A' <= s[i] <= 'Z' then s[i] as int + 32 == w[i] as int else s[i] == w[i]
  }

  lemma LowerIsToLower(s: string, w: string)
    ensures LowerIs(s, w) <==> ToLower(s) == w
  {
    if LowerIs(s, w) {
      assert forall i :: 0 <= i < |s| ==> ToLower(s)[i] == w[i];
    }
  }

  /** The position of the first `c` in `s`, if any. */
  function IndexOf(s: string, c: char): (r: Option<nat>)
    ensures r.None? <==> c !in s
    ensures r.Some? ==> r.value < |s| && s[r.value] == c && c !in s[..r.value]
  {
    if s == [] then None
    else if s[0] == c then Some(0)
    else
      var k := IndexOf(s[1..], c);
      if k.None? then None
      else
        assert s[..k.value + 1] == [s[0]] + s[1..][..k.value];
        Some(k.value + 1)
  }

  /** The first `c` is found where it is. */
  lemma {:induction false} IndexOfAt(s: string, c: char, k: nat)
    requires k < |s| && s[k] == c && c !in s[..k]
    ensures IndexOf(s, c) == Some(k)
  {
    if k > 0 {
      assert s[..k][0] == s[0];
      assert s[1..][..k - 1] == s[..k][1..];
      IndexOfAt(s[1..], c, k - 1);
    }
  }

  /** Python's `s.split(sep)` and JavaScript's `s.split(sep)` for a one-character separator. */
  function Split(s: string, sep: char): (parts: seq<string>)
    ensures |parts| >= 1
    ensures forall i :: 0 <= i < |parts| ==> sep !in parts[i]
    decreases |s|
  {
    match IndexOf(s, sep)
    case None => [s]
    case Some(k) => [s[..k]] + Split(s[k + 1..], sep)
  }

  /** Python's `sep.join(parts)` and JavaScript's `parts.join(sep)`. */
  function Join(parts: seq<string>, sep: string): string
  {
    if |parts| == 0 then ""
    else if |parts| == 1 then parts[0]
    else parts[0] + sep + Join(parts[1..], sep)
  }

  lemma {:induction false} JoinAppendOne(parts: seq<string>, x: string, sep: string)
    requires |parts| >= 1
    ensures Join(parts + [x], sep) == Join(parts, sep) + sep + x
  {
    if |parts| == 1 {
      assert parts + [x] == [parts[0], x];
    } else {
      assert (parts + [x])[1..] == parts[1..] + [x];
      JoinAppendOne(parts[1..], x, sep);
    }
  }

  /** Joining two non-empty lists of parts is joining each and putting the separator between. */
  lemma {:induction false} JoinConcat(a: seq<string>, b: seq<string>, sep: string)
    requires |a| >= 1 && |b| >= 1
    ensures Join(a + b, sep) == Join(a, sep) + sep + Join(b, sep)
  {
    if |a| > 1 {
      assert (a + b)[1..] == a[1..] + b;
      JoinConcat(a[1..], b, sep);
    } else {
      assert (a + b)[1..] == b;
    }
  }

  /** Splitting and joining again with the same separator reproduces the string. */
  lemma {:induction false} JoinSplit(s: string, sep: char)
    ensures Join(Split(s, sep), [sep]) == s
    decreases |s|
  {
    match IndexOf(s, sep)
    case None =>
    case Some(k) =>
      var rest := Split(s[k + 1..], sep);
      JoinSplit(s[k + 1..], sep);
      assert Split(s, sep) == [s[..k]] + rest;
      assert ([s[..k]] + rest)[1..] == rest;
      assert Join([s[..k]] + rest, [sep]) == s[..k] + [sep] + Join(rest, [sep]);
      assert s == s[..k] + [sep] + s[k + 1..];
  }

  /** Joining pieces free of the separator and splitting again gives the pieces back. */
  lemma {:induction false} SplitJoin(parts: seq<string>, sep: char)
    requires |parts| >= 1
    requires forall i :: 0 <= i < |parts| ==> sep !in parts[i]
    ensures Split(Join(parts, [sep]), sep) == parts
  {
    if |parts| == 1 {
      assert IndexOf(parts[0], sep).None?;
    } else {
      var rest := Join(parts[1..], [sep]);
      var s := parts[0] + [sep] + rest;
      assert s[..|parts[0]|] == parts[0];
      assert s[|parts[0]|] == sep;
      assert IndexOf(s, sep) == Some(|parts[0]|);
      assert s[|parts[0]| + 1..] == rest;
      SplitJoin(parts[1..], sep);
    }
  }

  /** The pieces of a split with empty strings dropped (JavaScript's `.filter(f => f)`). */
  function NonEmpty(parts: seq<string>): (r: seq<string>)
    ensures forall i :: 0 <= i < |r| ==> r[i] != ""
  {
    Filter(parts, (p: string) => p != "")
  }

  // ---------------------------------------------------------------------------
  // Decimal integers: Python's str(n) and int(s)

  predicate IsDigit(c: char) { '0' <= c <= '9' }

  predicate AllDigits(s: string) {
    forall i :: 0 <= i < |s| ==> IsDigit(s[i])
  }

  function DigitValue(c: char): nat
    requires IsDigit(c)
  {
    c as int - '0' as int
  }

  function DigitChar(d: nat): (c: char)
    requires d < 10
    ensures IsDigit(c) && DigitValue(c) == d
  {
    ('0' as int + d) as char
  }

  /** The value of a string of decimal digits, most significant first. */
  function DecimalValue(ds: string): nat
    requires AllDigits(ds)
  {
    if ds == [] then 0 else DecimalValue(ds[..|ds| - 1]) * 10 + DigitValue(ds[|ds| - 1])
  }

  /** The decimal rendering of a natural number, without leading zeros. */
  function ShowNat(n: nat): (s: string)
    ensures |s| >= 1 && AllDigits(s)
    ensures DecimalValue(s) == n
    ensures |s| > 1 ==> s[0] != '0'
  {
    if n < 10 then [DigitChar(n)]
    else
      var s := ShowNat(n / 10) + [DigitChar(n % 10)];
      assert s[..|s| - 1] == ShowNat(n / 10);
      s
  }

  /** Python's `str(n)` for an integer. */
  function ShowInt(n: int): (s: string)
    ensures |s| >= 1
  {
    if n < 0 then "-" + ShowNat(-n) else ShowNat(n)
  }

  /**
   * Python's `int(s)` on a string that has already been stripped: an optional
   * sign, then ASCII digits in which single underscores may separate digits.
   * `None` stands for the ValueError it raises on anything else.
   */
  function ParseInt(s: string): (r: Option<int>)
  {
    if |s| > 0 && (s[0] == '+' || s[0] == '-') then
      match ParseDigitGroups(s[1..])
      case None => None
      case Some(v) => var n: int := v; Some(if s[0] == '-' then -n else n)
    else
      match ParseDigitGroups(s)
      case None => None
      case Some(v) => Some(v)
  }

  /** Digits in which single underscores may separate two digits. */
  predicate DigitGroups(s: string)
    decreases |s|
  {
    |s| > 0 && IsDigit(s[0]) &&
    (|s| == 1 || if s[1] == '_' then DigitGroups(s[2..]) else DigitGroups(s[1..]))
  }

  /** The value of digits with single underscores between them; the underscores carry no value. */
  function ParseDigitGroups(s: string): Option<nat>
  {
    if DigitGroups(s) then Some(DecimalValue(Filter(s, IsDigit))) else None
  }

  /** A non-empty string of digits is a valid group of digits. */
  lemma {:induction false} DigitsAreDigitGroups(s: string)
    requires |s| > 0 && AllDigits(s)
    ensures DigitGroups(s)
  {
    if |s| > 1 {
      assert IsDigit(s[1]);
      DigitsAreDigitGroups(s[1..]);
    }
  }

  /** Python's `int(str(n)) == n`. */
  lemma ParseShowInt(n: int)
    ensures ParseInt(ShowInt(n)) == Some(n)
  {
    var d := ShowNat(if n < 0 then -n else n);
    FilterAll(d, IsDigit);
    DigitsAreDigitGroups(d);
    assert ParseDigitGroups(d) == Some(DecimalValue(d));
    if n < 0 {
      var s := "-" + d;
      assert s[1..] == d;
    } else {
      assert d[0] != '+' && d[0] != '-' by { assert IsDigit(d[0]); }
    }
  }

  // ---------------------------------------------------------------------------
  // JavaScript's parseInt(s) with no radix

  /** The value of `c` as a digit of a base up to 36: `0`-`9`, then letters of either case; 36 for anything else. */
  function RadixDigit(c: char): (d: nat)
    ensures d <= 36
    ensures d < 10 <==> IsDigit(c)
  {
    if '0' <= c <= '9' then c as int - '0' as int
    else if 'a' <= c <= 'z' then c as int - 'a' as int + 10
    else if 'A' <= c <= 'Z' then c as int - 'A' as int + 10
    else 36
  }

  predicate IsRadixDigit(c: char, radix: nat) {
    RadixDigit(c) < radix
  }

  /** The length of the longest run of base-`radix` digits at the start of `s`. */
  function LeadingDigits(s: string, radix: nat): (n: nat)
    ensures n <= |s|
    ensures forall i :: 0 <= i < n ==> IsRadixDigit(s[i], radix)
    ensures n == |s| || !IsRadixDigit(s[n], radix)
  {
    if |s| > 0 && IsRadixDigit(s[0], radix) then
      var n := LeadingDigits(s[1..], radix);
      assert forall i :: 1 <= i < n + 1 ==> s[i] == s[1..][i - 1];
      n + 1
    else 0
  }

  /** The value of base-`radix` digits, most significant first. */
  function RadixValue(ds: string, radix: nat): nat
  {
    if ds == [] then 0 else RadixValue(ds[..|ds| - 1], radix) * radix + RadixDigit(ds[|ds| - 1])
  }

  /** In base 10 the digits are the decimal digits and their value is the decimal value. */
  lemma {:induction false} RadixDecimal(ds: string)
    requires AllDigits(ds)
    ensures RadixValue(ds, 10) == DecimalValue(ds)
  {
    if ds != [] {
      RadixDecimal(ds[..|ds| - 1]);
    }
  }

  /**
   * The digits `parseInt` reads after the sign: a "0x" or "0X" prefix selects
   * base 16, otherwise the base is 10, and the longest run of digits of that
   * base is read, the rest ignored; `None` when that run is empty.
   */
  function ParseUnsigned(u: string): Option<nat>
  {
    var hex := |u| >= 2 && u[0] == '0' && (u[1] == 'x' || u[1] == 'X');
    var radix := if hex then 16 else 10;
    var ds := if hex then u[2..] else u;
    var n := LeadingDigits(ds, radix);
    if n == 0 then None else Some(RadixValue(ds[..n], radix))
  }

  /**
   * JavaScript's `parseInt(s)`: leading whitespace is skipped, then one
   * optional sign, then the digits are read as `ParseUnsigned` reads them.
   * `None` stands for NaN.
   */
  function JsParseInt(s: string): (r: Option<int>)
    ensures |s| > 0 && !IsSpace(s[0]) && !IsDigit(s[0]) && s[0] != '+' && s[0] != '-' ==> r.None?
  {
    var t := s[LeadingSpaces(s)..];
    var u := if |t| > 0 && (t[0] == '+' || t[0] == '-') then t[1..] else t;
    match ParseUnsigned(u)
    case None => None
    case Some(v) => var n: int := v; Some(if |t| > 0 && t[0] == '-' then -n else n)
  }

  /** Decimal digits followed by anything that cannot continue them are read as their value. */
  lemma ParseUnsignedPrefix(ds: string, rest: string)
    requires |ds| > 0 && AllDigits(ds)
    requires rest == [] || (!IsDigit(rest[0]) && rest[0] != 'x' && rest[0] != 'X')
    ensures ParseUnsigned(ds + rest) == Some(DecimalValue(ds))
  {
    var u := ds + rest;
    assert !(|u| >= 2 && u[0] == '0' && (u[1] == 'x' || u[1] == 'X')) by {
      if |ds| >= 2 {
        assert IsDigit(u[1]);
      } else {
        assert u[1..] == rest;
      }
    }
    assert LeadingDigits(u, 10) == |ds| by {
      assert forall i :: 0 <= i < |ds| ==> u[i] == ds[i];
      assert |ds| == |u| || u[|ds|] == rest[0];
    }
    assert u[..|ds|] == ds;
    RadixDecimal(ds);
  }

  /** A sign at the very start is read and the digits after it are read as `ParseUnsigned` reads them. */
  lemma JsParseIntSigned(s: string, sign: string, u: string, v: nat)
    requires sign == "" || sign == "-" || sign == "+"
    requires u != [] && IsDigit(u[0])
    requires ParseUnsigned(u) == Some(v)
    requires s == sign + u
    ensures JsParseInt(s).Some? && JsParseInt(s).value == if sign == "-" then -(v as int) else v as int
  {
    assert LeadingSpaces(s) == 0 by {
      assert s[0] == if sign == "" then u[0] else sign[0];
    }
    assert s[0..] == s;
    if sign == "" {
      assert s == u;
      assert !(s[0] == '+' || s[0] == '-');
    } else {
      assert s[0] == sign[0] && s[1..] == u;
    }
  }

  /**
   * A decimal number followed by anything that cannot continue it is read
   * as that number, with its sign: the text after the digits is ignored.
   */
  lemma JsParseIntPrefix(sign: string, ds: string, rest: string)
    requires sign == "" || sign == "-" || sign == "+"
    requires |ds| > 0 && AllDigits(ds)
    requires rest == [] || (!IsDigit(rest[0]) && rest[0] != 'x' && rest[0] != 'X')
    ensures JsParseInt(sign + (ds + rest)).Some?
    ensures JsParseInt(sign + (ds + rest)).value == if sign == "-" then -(DecimalValue(ds) as int) else DecimalValue(ds) as int
  {
    ParseUnsignedPrefix(ds, rest);
    JsParseIntSigned(sign + (ds + rest), sign, ds + rest, DecimalValue(ds));
  }

  /** `parseInt(String(n)) == n`: the decimal rendering of an integer reads back as it. */
  lemma JsParseIntShow(n: int)
    ensures JsParseInt(ShowInt(n)) == Some(n)
  {
    if n < 0 {
      JsParseIntPrefix("-", ShowNat(-n), "");
      assert "-" + (ShowNat(-n) + "") == ShowInt(n);
    } else {
      JsParseIntPrefix("", ShowNat(n), "");
      assert "" + (ShowNat(n) + "") == ShowInt(n);
    }
  }
}
