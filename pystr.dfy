/** The Python string built-ins the vendor sync relies on: `str.strip()`,
    `str.lower()`, `str.startswith()`, `str(int)`, `int(str)` and `repr(str)`. */
module PyStr {
  import opened Wrappers
  import opened Seqs

  // ------------------------------------------------------------------ whitespace

  /** The characters for which `str.isspace()` holds; `str.strip()` drops them. */
  predicate IsSpace(c: char) {
    ('\t' <= c <= '\r') || ('\U{1c}' <= c <= ' ') || c == '\U{85}' || c == '\U{a0}'
    || c == '\U{1680}' || ('\U{2000}' <= c <= '\U{200a}') || c == '\U{2028}'
    || c == '\U{2029}' || c == '\U{202f}' || c == '\U{205f}' || c == '\U{3000}'
  }

  /** The ASCII information separators U+001C to U+001F: `str.isspace()` holds for them,
      but `int()` does not skip them as it skips other whitespace. */
  predicate IsInfoSeparator(c: char) {
    '\U{1c}' <= c <= '\U{1f}'
  }

  /** The whitespace `int()` skips around a number. */
  predicate IsIntSpace(c: char) {
    IsSpace(c) && !IsInfoSeparator(c)
  }

  predicate NoInfoSeparator(s: string) {
    forall i :: 0 <= i < |s| ==> !IsInfoSeparator(s[i])
  }

  /** `s.lstrip()`: the suffix of `s` left after its leading whitespace. */
  function TrimStart(s: string): (r: string)
    ensures |r| <= |s| && r == s[|s| - |r|..]
    ensures r == [] || !IsSpace(r[0])
  {
    if s != [] && IsSpace(s[0]) then TrimStart(s[1..]) else s
  }

  /** `s.rstrip()`: the prefix of `s` left after its trailing whitespace. */
  function TrimEnd(s: string): (r: string)
    ensures |r| <= |s| && r == s[..|r|]
    ensures r == [] || !IsSpace(r[|r| - 1])
  {
    if s != [] && IsSpace(s[|s| - 1]) then TrimEnd(s[..|s| - 1]) else s
  }

  /** `s.strip()`. */
  function Strip(s: string): (r: string)
    ensures |r| <= |s|
    ensures r == [] || (!IsSpace(r[0]) && !IsSpace(r[|r| - 1]))
  {
    TrimEnd(TrimStart(s))
  }

  /** What `lstrip` removes is whitespace. */
  lemma {:induction false} TrimStartDropsSpaces(s: string)
    ensures forall i :: 0 <= i < |s| - |TrimStart(s)| ==> IsSpace(s[i])
    decreases |s|
  {
    if s != [] && IsSpace(s[0]) {
      TrimStartDropsSpaces(s[1..]);
      assert forall i :: 1 <= i < |s| ==> s[1..][i - 1] == s[i];
    }
  }

  /** What `rstrip` removes is whitespace. */
  lemma {:induction false} TrimEndDropsSpaces(s: string)
    ensures forall i :: |TrimEnd(s)| <= i < |s| ==> IsSpace(s[i])
    decreases |s|
  {
    if s != [] && IsSpace(s[|s| - 1]) {
      TrimEndDropsSpaces(s[..|s| - 1]);
    }
  }

  /** `strip` removes whitespace only, and leaves nothing exactly when there is nothing but
      whitespace. */
  lemma StripBlank(s: string)
    ensures Strip(s) == [] <==> forall i :: 0 <= i < |s| ==> IsSpace(s[i])
  {
    var t := TrimStart(s);
    TrimStartDropsSpaces(s);
    TrimEndDropsSpaces(t);
    assert forall i :: 0 <= i < |t| ==> t[i] == s[|s| - |t| + i];
  }

  /** Text without whitespace is its own `strip`. */
  lemma StripNoSpace(s: string)
    requires forall i :: 0 <= i < |s| ==> !IsSpace(s[i])
    ensures Strip(s) == s
  {
  }

  /** Stripping twice is stripping once. */
  lemma StripIdempotent(s: string)
    ensures Strip(Strip(s)) == Strip(s)
  {
  }

  /** Leading spaces are dropped up to the first other character. */
  lemma {:induction false} TrimStartSpaces(p: string, t: string)
    requires forall i :: 0 <= i < |p| ==> IsSpace(p[i])
    requires t == [] || !IsSpace(t[0])
    ensures TrimStart(p + t) == t
    decreases |p|
  {
    if p == [] {
      assert p + t == t;
    } else {
      assert (p + t)[1..] == p[1..] + t;
      TrimStartSpaces(p[1..], t);
    }
  }

  /** Trailing spaces are dropped back to the last other character. */
  lemma {:induction false} TrimEndSpaces(t: string, p: string)
    requires forall i :: 0 <= i < |p| ==> IsSpace(p[i])
    requires t == [] || !IsSpace(t[|t| - 1])
    ensures TrimEnd(t + p) == t
    decreases |p|
  {
    if p == [] {
      assert t + p == t;
    } else {
      var init := p[..|p| - 1];
      assert (t + p)[..|t + p| - 1] == t + init;
      TrimEndSpaces(t, init);
    }
  }

  /** `strip` removes exactly the padding around text that neither starts nor ends with
      whitespace. */
  lemma StripPadded(p: string, t: string, p': string)
    requires forall i :: 0 <= i < |p| ==> IsSpace(p[i])
    requires forall i :: 0 <= i < |p'| ==> IsSpace(p'[i])
    requires t != [] && !IsSpace(t[0]) && !IsSpace(t[|t| - 1])
    ensures Strip(p + t + p') == t
  {
    assert p + t + p' == p + (t + p');
    TrimStartSpaces(p, t + p');
    TrimEndSpaces(t, p');
  }

  // ------------------------------------------------------------ case and prefix

  function LowerChar(c: char): char {
    if 'A' <= c <= 'Z' then (c as int + 32) as char else c
  }

  /** `s.lower()` on ASCII letters; every other character is kept. */
  function Lower(s: string): string {
    seq(|s|, i requires 0 <= i < |s| => LowerChar(s[i]))
  }

  /** `s.startswith(p)`. */
  predicate StartsWith(s: string, p: string) {
    |p| <= |s| && s[..|p|] == p
  }

  /** What follows a prefix is read from just past it. */
  lemma AfterPrefix(p: string, x: string)
    ensures StartsWith(p + x, p) && (p + x)[|p|..] == x
  {
    assert (p + x)[..|p|] == p;
  }

  // ---------------------------------------------------------- str(int), int(str)

  predicate IsDigit(c: char) {
    '0' <= c <= '9'
  }

  predicate AllDigits(s: string) {
    forall i :: 0 <= i < |s| ==> IsDigit(s[i])
  }

  function DigitValue(c: char): nat
    requires IsDigit(c)
  {
    c as int - '0' as int
  }

  function DigitChar(d: nat): (c: char)
    requires d < 10
    ensures IsDigit(c) && DigitValue(c) == d
  {
    ('0' as int + d) as char
  }

  /** The number a string of decimal digits denotes. */
  function DecimalValue(s: string): nat
    requires AllDigits(s)
  {
    if s == [] then 0 else DecimalValue(s[..|s| - 1]) * 10 + DigitValue(s[|s| - 1])
  }

  /** The decimal digits of `n`, with no leading zero. */
  function NatToDecimal(n: nat): (r: string)
    ensures r != [] && AllDigits(r)
    ensures DecimalValue(r) == n
    ensures r[0] == '0' ==> r == "0"
  {
    if n < 10 then [DigitChar(n)]
    else
      var p := NatToDecimal(n / 10);
      var r := p + [DigitChar(n % 10)];
      assert r[..|r| - 1] == p;
      r
  }

  /** `str(n)`. */
  function IntToStr(n: int): string {
    if n < 0 then "-" + NatToDecimal(-n) else NatToDecimal(n)
  }

  /** Digits, grouped by single underscores at most: `int()` accepts "1_000" but not
      "_1", "1_" or "1__0". */
  predicate IsDigitGroups(s: string) {
    && s != []
    && IsDigit(s[0])
    && IsDigit(s[|s| - 1])
    && (forall i :: 0 <= i < |s| ==> IsDigit(s[i]) || s[i] == '_')
    && NoDoubleUnderscore(s)
  }

  predicate NoDoubleUnderscore(s: string) {
    |s| < 2 || ((s[0] != '_' || s[1] != '_') && NoDoubleUnderscore(s[1..]))
  }

  function DropUnderscores(s: string): (r: string)
    ensures (forall i :: 0 <= i < |s| ==> IsDigit(s[i]) || s[i] == '_') ==> AllDigits(r)
    ensures AllDigits(s) ==> r == s
  {
    if s == [] then []
    else
      assert forall i :: 1 <= i < |s| ==> s[1..][i - 1] == s[i];
      (if s[0] == '_' then [] else [s[0]]) + DropUnderscores(s[1..])
  }

  function ParseDigitGroups(s: string): Option<nat> {
    if IsDigitGroups(s) then
      Some(DecimalValue(DropUnderscores(s)))
    else None
  }

  /** `int(s)` for a string: surrounding whitespace other than the information separators
      is ignored, an optional sign is followed by digit groups; None where Python raises
      ValueError. An information separator is never skipped and is no digit, sign or
      underscore, so a text holding one is rejected. */
  function ParseInt(s: string): Option<int> {
    if NoInfoSeparator(s) then ParseSigned(Strip(s)) else None
  }

  /** Stripped text as `int` reads it: an optional sign, then digit groups. */
  function ParseSigned(t: string): Option<int> {
    if t != [] && (t[0] == '+' || t[0] == '-') then
      match ParseDigitGroups(t[1..])
      case None => None
      case Some(n) =>
        var v: int := if t[0] == '-' then -(n as int) else n;
        Some(v)
    else
      match ParseDigitGroups(t)
      case None => None
      case Some(n) => Some(n)
  }

  lemma {:induction false} DigitsHaveNoDoubleUnderscore(d: string)
    requires AllDigits(d)
    ensures NoDoubleUnderscore(d)
    decreases |d|
  {
    if |d| >= 2 {
      DigitsHaveNoDoubleUnderscore(d[1..]);
    }
  }

  /** A plain run of digits is read as its decimal value. */
  lemma DigitsParse(d: string)
    requires d != [] && AllDigits(d)
    ensures ParseDigitGroups(d) == Some(DecimalValue(d))
  {
    DigitsHaveNoDoubleUnderscore(d);
  }

  /** A run of zeros denotes zero. */
  lemma {:induction false} ZerosValue(z: string)
    requires forall i :: 0 <= i < |z| ==> z[i] == '0'
    ensures AllDigits(z) && DecimalValue(z) == 0
    decreases |z|
  {
    if z != [] {
      ZerosValue(z[..|z| - 1]);
    }
  }

  /** Leading zeros do not change the value of a digit string. */
  lemma {:induction false} LeadingZerosValue(z: string, d: string)
    requires forall i :: 0 <= i < |z| ==> z[i] == '0'
    requires AllDigits(d)
    ensures AllDigits(z + d) && DecimalValue(z + d) == DecimalValue(d)
    decreases |d|
  {
    if d == [] {
      assert z + d == z;
      ZerosValue(z);
    } else {
      var init := d[..|d| - 1];
      LeadingZerosValue(z, init);
      assert (z + d)[..|z + d| - 1] == z + init;
    }
  }

  /** `str(n)` contains no whitespace, so `strip` leaves it alone. */
  lemma IntToStrStripped(n: int)
    ensures Strip(IntToStr(n)) == IntToStr(n)
    ensures IntToStr(n) != []
    ensures NoInfoSeparator(IntToStr(n))
  {
    var s := IntToStr(n);
    IntToStrChars(n);
    SignedDigitsNoSpace(s);
    StripNoSpace(s);
  }

  /** `str(n)` is made of digits and a minus sign. */
  lemma IntToStrChars(n: int)
    ensures forall i :: 0 <= i < |IntToStr(n)| ==> IsDigit(IntToStr(n)[i]) || IntToStr(n)[i] == '-'
  {
    if n < 0 {
      var d := NatToDecimal(-n);
      assert IntToStr(n) == "-" + d;
      assert forall i :: 1 <= i < |IntToStr(n)| ==> IntToStr(n)[i] == d[i - 1];
    }
  }

  /** Digits and signs are neither whitespace nor information separators. */
  lemma SignedDigitsNoSpace(s: string)
    requires forall i :: 0 <= i < |s| ==> IsDigit(s[i]) || s[i] == '-'
    ensures forall i :: 0 <= i < |s| ==> !IsSpace(s[i])
    ensures NoInfoSeparator(s)
  {
  }

  /** `int` whitespace is whitespace, and no information separator. */
  lemma IntSpaces(p: string)
    requires forall i :: 0 <= i < |p| ==> IsIntSpace(p[i])
    ensures forall i :: 0 <= i < |p| ==> IsSpace(p[i])
    ensures NoInfoSeparator(p)
  {
  }

  /** A digit string holds no information separator. */
  lemma DigitsNoSeparator(d: string)
    requires AllDigits(d)
    ensures NoInfoSeparator(d)
  {
  }

  /** `int` reads text without information separators as its stripped text. */
  lemma ParseIntStripped(s: string, t: string)
    requires NoInfoSeparator(s) && Strip(s) == t
    ensures ParseInt(s) == ParseSigned(t)
  {
  }

  /** An unsigned digit string is read as its decimal value. */
  lemma ParseSignedDigits(d: string)
    requires d != [] && AllDigits(d)
    ensures ParseSigned(d) == Some(DecimalValue(d) as int)
  {
    DigitsParse(d);
    assert IsDigit(d[0]);
  }

  /** Text made of three pieces without information separators has none. */
  lemma ConcatNoSeparator(a: string, b: string, c: string)
    requires NoInfoSeparator(a) && NoInfoSeparator(b) && NoInfoSeparator(c)
    ensures NoInfoSeparator(a + b + c)
  {
    var s := a + b + c;
    forall i | 0 <= i < |s| ensures !IsInfoSeparator(s[i]) {
      if i < |a| {
        assert s[i] == a[i];
      } else if i < |a| + |b| {
        assert s[i] == b[i - |a|];
      } else {
        assert s[i] == c[i - |a| - |b|];
      }
    }
  }

  /** `strip` keeps a slice of the text, so it brings in no information separator. */
  lemma StripKeepsNoSeparator(s: string)
    requires NoInfoSeparator(s)
    ensures NoInfoSeparator(Strip(s))
  {
    var t := TrimStart(s);
    var r := TrimEnd(t);
    assert forall i :: 0 <= i < |r| ==> r[i] == t[i] == s[|s| - |t| + i];
  }

  /** `int(str(n)) == n`. */
  lemma IntToStrRoundTrip(n: int)
    ensures ParseInt(IntToStr(n)) == Some(n)
  {
    IntToStrStripped(n);
    if n < 0 {
      NegativeRoundTrip(n);
    } else {
      NonNegativeRoundTrip(n);
    }
  }

  lemma NegativeRoundTrip(n: int)
    requires n < 0 && Strip(IntToStr(n)) == IntToStr(n) && NoInfoSeparator(IntToStr(n))
    ensures ParseInt(IntToStr(n)) == Some(n)
  {
    var m: nat := -n;
    var d := NatToDecimal(m);
    var s := IntToStr(n);
    DigitsParse(d);
    assert s == "-" + d && s[0] == '-' && s[1..] == d;
    assert ParseDigitGroups(s[1..]) == Some(m);
  }

  lemma NonNegativeRoundTrip(n: int)
    requires n >= 0 && Strip(IntToStr(n)) == IntToStr(n) && NoInfoSeparator(IntToStr(n))
    ensures ParseInt(IntToStr(n)) == Some(n)
  {
    var d := NatToDecimal(n);
    assert IntToStr(n) == d;
    DigitsParse(d);
    UnsignedParse(d, n);
  }

  /** Stripped text starting with a digit is read as its digit groups. */
  lemma UnsignedParse(t: string, m: nat)
    requires Strip(t) == t && NoInfoSeparator(t) && t != [] && IsDigit(t[0]) && ParseDigitGroups(t) == Some(m)
    ensures ParseInt(t) == Some(m)
  {
  }


  /** `strip` drops a leading information separator, but `int` rejects it:
      `"\x1c5".strip() == "5"` and `int("5") == 5`, while `int("\x1c5")` raises. */
  lemma InfoSeparatorRejected()
    ensures Strip("\U{1c}5") == "5"
    ensures ParseInt("5") == Some(5)
    ensures ParseInt("\U{1c}5") == None
  {
    var s := "\U{1c}5";
    assert IsSpace(s[0]) && !IsSpace(s[1]) && s[1..] == "5";
    assert IsInfoSeparator(s[0]);
    IntToStrStripped(5);
    IntToStrRoundTrip(5);
    assert IntToStr(5) == "5";
  }

  // -------------------------------------------------------------------- repr(str)

  /** The quote `repr` puts around `s`: a double quote when `s` holds a single quote
      and no double quote, a single quote otherwise. */
  function ReprQuote(s: string): char {
    if '\'' in s && '"' !in s then '"' else '\''
  }

  predicate IsHexDigit(c: char) {
    IsDigit(c) || 'a' <= c <= 'f'
  }

  function HexValue(c: char): (d: nat)
    requires IsHexDigit(c)
    ensures d < 16
  {
    if IsDigit(c) then DigitValue(c) else c as int - 'a' as int + 10
  }

  function HexDigit(d: nat): (c: char)
    requires d < 16
    ensures IsHexDigit(c) && HexValue(c) == d
  {
    if d < 10 then DigitChar(d) else ('a' as int + (d - 10)) as char
  }

  /** How `repr` writes one character of a literal quoted with `q`. */
  function ReprChar(c: char, q: char): string {
    if c == q || c == '\\' then ['\\', c]
    else if c == '\t' then "\\t"
    else if c == '\n' then "\\n"
    else if c == '\r' then "\\r"
    else if c < ' ' || c == '\U{7f}' then ['\\', 'x', HexDigit(c as int / 16), HexDigit(c as int % 16)]
    else [c]
  }

  function ReprBody(s: string, q: char): string {
    if s == [] then [] else ReprChar(s[0], q) + ReprBody(s[1..], q)
  }

  /** `repr(s)`. */
  function Repr(s: string): string {
    var q := ReprQuote(s);
    [q] + ReprBody(s, q) + [q]
  }

  function Prepend(c: char, p: Option<(string, string)>): Option<(string, string)> {
    match p
    case None => None
    case Some((v, rest)) => Some(([c] + v, rest))
  }

  /** Reads the body of a literal quoted with `q` up to its closing quote: the string
      the body denotes and the text after the closing quote. */
  function ParseReprBody(t: string, q: char): Option<(string, string)>
    decreases |t|
  {
    if t == [] then None
    else if t[0] == q then Some(([], t[1..]))
    else if t[0] != '\\' then Prepend(t[0], ParseReprBody(t[1..], q))
    else if |t| < 2 then None
    else if t[1] == q || t[1] == '\\' then Prepend(t[1], ParseReprBody(t[2..], q))
    else if t[1] == 't' then Prepend('\t', ParseReprBody(t[2..], q))
    else if t[1] == 'n' then Prepend('\n', ParseReprBody(t[2..], q))
    else if t[1] == 'r' then Prepend('\r', ParseReprBody(t[2..], q))
    else if t[1] == 'x' && |t| >= 4 && IsHexDigit(t[2]) && IsHexDigit(t[3]) then
      Prepend((HexValue(t[2]) * 16 + HexValue(t[3])) as char, ParseReprBody(t[4..], q))
    else None
  }

  /** Reads one quoted string literal at the start of `t`. */
  function ParseRepr(t: string): Option<(string, string)> {
    if t != [] && (t[0] == '\'' || t[0] == '"') then ParseReprBody(t[1..], t[0]) else None
  }

  /** Reading back one written character. */
  lemma ReprCharRoundTrip(c: char, q: char, tail: string)
    requires q == '\'' || q == '"'
    ensures ParseReprBody(ReprChar(c, q) + tail, q) == Prepend(c, ParseReprBody(tail, q))
  {
    if c == q || c == '\\' {
      EscapedRoundTrip(c, q, tail);
    } else if c == '\t' || c == '\n' || c == '\r' {
      NamedEscapeRoundTrip(c, q, tail);
    } else if c < ' ' || c == '\U{7f}' {
      HexEscapeRoundTrip(c, q, tail);
    } else {
      var t := [c] + tail;
      assert t[0] == c && t[1..] == tail;
    }
  }

  lemma EscapedRoundTrip(c: char, q: char, tail: string)
    requires q == '\'' || q == '"'
    requires c == q || c == '\\'
    ensures ParseReprBody(['\\', c] + tail, q) == Prepend(c, ParseReprBody(tail, q))
  {
    var t := ['\\', c] + tail;
    assert t[0] == '\\' && t[1] == c && t[2..] == tail;
  }

  lemma NamedEscapeRoundTrip(c: char, q: char, tail: string)
    requires q == '\'' || q == '"'
    requires c == '\t' || c == '\n' || c == '\r'
    ensures ParseReprBody(ReprChar(c, q) + tail, q) == Prepend(c, ParseReprBody(tail, q))
  {
    var t := ReprChar(c, q) + tail;
    assert t[0] == '\\' && t[2..] == tail;
  }

  lemma HexEscapeRoundTrip(c: char, q: char, tail: string)
    requires q == '\'' || q == '"'
    requires (c < ' ' && c != '\t' && c != '\n' && c != '\r') || c == '\U{7f}'
    ensures ParseReprBody(ReprChar(c, q) + tail, q) == Prepend(c, ParseReprBody(tail, q))
  {
    var v := c as int;
    var h, l := HexDigit(v / 16), HexDigit(v % 16);
    assert ReprChar(c, q) == ['\\', 'x', h, l];
    var t := ['\\', 'x', h, l] + tail;
    assert t[0] == '\\' && t[1] == 'x' && t[2] == h && t[3] == l && t[4..] == tail;
    HexPair(v);
  }

  lemma HexPair(v: nat)
    requires v < 256
    ensures HexValue(HexDigit(v / 16)) * 16 + HexValue(HexDigit(v % 16)) == v
  {
  }

  lemma {:induction false} ReprBodyRoundTrip(s: string, q: char, rest: string)
    requires q == '\'' || q == '"'
    ensures ParseReprBody(ReprBody(s, q) + [q] + rest, q) == Some((s, rest))
    decreases |s|
  {
    if s == [] {
      assert ReprBody(s, q) + [q] + rest == [q] + rest;
    } else {
      var tail := ReprBody(s[1..], q) + [q] + rest;
      ReprBodyRoundTrip(s[1..], q, rest);
      ReprBodyCons(s, q, rest);
      ReprCharRoundTrip(s[0], q, tail);
      assert [s[0]] + s[1..] == s;
    }
  }

  lemma ReprBodyCons(s: string, q: char, rest: string)
    requires s != []
    ensures ReprBody(s, q) + [q] + rest == ReprChar(s[0], q) + (ReprBody(s[1..], q) + [q] + rest)
  {
    assert ReprBody(s, q) == ReprChar(s[0], q) + ReprBody(s[1..], q);
    FourNested(ReprChar(s[0], q), ReprBody(s[1..], q), [q], rest);
  }

  /** A `repr` literal reads back as the string it was made from, and reading stops
      right after its closing quote. */
  lemma ReprRoundTrip(s: string, rest: string)
    ensures ParseRepr(Repr(s) + rest) == Some((s, rest))
  {
    var q := ReprQuote(s);
    ReprBodyRoundTrip(s, q, rest);
    assert Repr(s) + rest == [q] + (ReprBody(s, q) + [q] + rest);
  }
}
