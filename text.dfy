/**
 * String and number helpers shared by the components: what the JavaScript
 * built-ins used by the source (`\D`, `Number()`, `toString()`, `\s`,
 * `trim()`, `join`) do on the inputs the model admits.
 */
module JsText {
  import opened Wrappers

  predicate IsAsciiDigit(c: char) {
    '0' <= c <= '9'
  }

  predicate AllAsciiDigits(s: string) {
    forall i :: 0 <= i < |s| ==> IsAsciiDigit(s[i])
  }

  /** `s.replace(/\D/g, '')`: the ASCII digits of `s`, in order. */
  function KeepAsciiDigits(s: string): (r: string)
    ensures AllAsciiDigits(r)
    ensures |r| <= |s|
    ensures AllAsciiDigits(s) ==> r == s
  {
    if s == [] then []
    else
      assert s == [s[0]] + s[1..];
      (if IsAsciiDigit(s[0]) then [s[0]] else []) + KeepAsciiDigits(s[1..])
  }

  lemma KeepAsciiDigitsStep(s: string)
    requires s != []
    ensures KeepAsciiDigits(s) == (if IsAsciiDigit(s[0]) then [s[0]] else []) + KeepAsciiDigits(s[1..])
  {
  }

  lemma KeepAsciiDigitsConsAppend(a: string, b: string)
    requires a != []
    ensures KeepAsciiDigits(a + b) == (if IsAsciiDigit(a[0]) then [a[0]] else []) + KeepAsciiDigits(a[1..] + b)
  {
    var ab := a + b;
    assert ab[0] == a[0];
    assert ab[1..] == a[1..] + b;
    KeepAsciiDigitsStep(ab);
  }

  lemma {:induction false} KeepAsciiDigitsCount(s: string, c: char)
    ensures multiset(KeepAsciiDigits(s))[c] == if IsAsciiDigit(c) then multiset(s)[c] else 0
  {
    if s != [] {
      var head := if IsAsciiDigit(s[0]) then [s[0]] else [];
      KeepAsciiDigitsStep(s);
      KeepAsciiDigitsCount(s[1..], c);
      assert s == [s[0]] + s[1..];
      assert multiset(s)[c] == multiset([s[0]])[c] + multiset(s[1..])[c];
      assert multiset(KeepAsciiDigits(s))[c] == multiset(head)[c] + multiset(KeepAsciiDigits(s[1..]))[c];
    }
  }

  /** Every ASCII digit of `s` is kept as often as it occurs, and nothing else is. */
  lemma KeepAsciiDigitsCounts(s: string)
    ensures forall c :: IsAsciiDigit(c) ==> multiset(KeepAsciiDigits(s))[c] == multiset(s)[c]
    ensures forall c :: !IsAsciiDigit(c) ==> multiset(KeepAsciiDigits(s))[c] == 0
  {
    forall c {
      KeepAsciiDigitsCount(s, c);
    }
  }

  /** Keeping the digits distributes over concatenation, so the digits keep their order. */
  lemma {:induction false} KeepAsciiDigitsAppend(a: string, b: string)
    ensures KeepAsciiDigits(a + b) == KeepAsciiDigits(a) + KeepAsciiDigits(b)
  {
    if a == [] {
      assert a + b == b;
    } else {
      var head := if IsAsciiDigit(a[0]) then [a[0]] else [];
      KeepAsciiDigitsConsAppend(a, b);
      KeepAsciiDigitsAppend(a[1..], b);
      KeepAsciiDigitsStep(a);
      assert head + (KeepAsciiDigits(a[1..]) + KeepAsciiDigits(b)) == (head + KeepAsciiDigits(a[1..])) + KeepAsciiDigits(b);
    }
  }

  /** `s.replace(/,/g, '')`: `s` without its commas. */
  function StripCommas(s: string): (r: string)
    ensures ',' !in r
    ensures |r| <= |s|
    ensures ',' !in s ==> r == s
  {
    if s == [] then []
    else (if s[0] == ',' then [] else [s[0]]) + StripCommas(s[1..])
  }

  lemma {:induction false} StripCommasAppend(a: string, b: string)
    ensures StripCommas(a + b) == StripCommas(a) + StripCommas(b)
  {
    if a != [] {
      var head := if a[0] == ',' then [] else [a[0]];
      assert (a + b)[0] == a[0] && (a + b)[1..] == a[1..] + b;
      StripCommasAppend(a[1..], b);
      assert StripCommas(a + b) == head + (StripCommas(a[1..]) + StripCommas(b));
      assert StripCommas(a) == head + StripCommas(a[1..]);
    } else {
      assert a + b == b;
    }
  }

  function DigitValue(c: char): (v: nat)
    requires IsAsciiDigit(c)
    ensures v < 10
  {
    c as int - '0' as int
  }

  function DigitChar(v: nat): (c: char)
    requires v < 10
    ensures IsAsciiDigit(c) && DigitValue(c) == v
  {
    ('0' as int + v) as char
  }

  /** The value of a string of decimal digits, most significant digit first. */
  function DecimalValue(s: string): nat
    requires AllAsciiDigits(s)
  {
    if s == [] then 0 else DecimalValue(s[..|s| - 1]) * 10 + DigitValue(s[|s| - 1])
  }

  /**
   * `Number(s)` for the strings the model admits: a plain string of ASCII
   * digits (the empty string included, which JavaScript reads as 0) gives its
   * value; anything else gives NaN, written None.
   */
  function ParseNumber(s: string): (n: Option<nat>)
    ensures n.Some? <==> AllAsciiDigits(s)
    ensures s == "" ==> n == Some(0)
  {
    if AllAsciiDigits(s) then Some(DecimalValue(s)) else None
  }

  /** A leading zero does not change the value: `Number("07")` is 7. */
  lemma {:induction false} LeadingZero(s: string)
    requires AllAsciiDigits(s)
    ensures ParseNumber("0" + s) == ParseNumber(s)
  {
    var z := "0" + s;
    assert AllAsciiDigits(z);
    if s != [] {
      var init := s[..|s| - 1];
      assert z[..|z| - 1] == "0" + init;
      assert z[|z| - 1] == s[|s| - 1];
      LeadingZero(init);
    } else {
      assert z[..|z| - 1] == [];
    }
  }

  /** Any run of zeros in front of `toString()`'s digits reads as the same number. */
  lemma {:induction false} PaddedNumber(zeros: nat, n: nat)
    ensures ParseNumber(seq(zeros, _ => '0') + DecimalString(n)) == Some(n)
  {
    if zeros > 0 {
      var rest := seq(zeros - 1, _ => '0') + DecimalString(n);
      assert seq(zeros, _ => '0') + DecimalString(n) == "0" + rest;
      PaddedNumber(zeros - 1, n);
      LeadingZero(rest);
    } else {
      assert seq(zeros, _ => '0') + DecimalString(n) == DecimalString(n);
    }
  }

  /** `n.toString()` for a natural number: decimal digits, no leading zero. */
  function DecimalString(n: nat): (r: string)
    ensures |r| > 0 && AllAsciiDigits(r)
    ensures |r| > 1 ==> r[0] != '0'
    ensures ParseNumber(r) == Some(n)
  {
    if n < 10 then
      var r := [DigitChar(n)];
      assert r[..0] == [] && r[0] == DigitChar(n);
      assert DecimalValue(r) == n;
      r
    else
      var prefix := DecimalString(n / 10);
      var r := prefix + [DigitChar(n % 10)];
      assert r[..|r| - 1] == prefix;
      r
  }

  /** JavaScript's `\s` class, which is also the set `String.prototype.trim` removes. */
  predicate IsJsWhitespace(c: char) {
    || c == '\t' || c == '\n' || c == '\U{000B}' || c == '\U{000C}' || c == '\r'
    || c == ' ' || c == '\U{00A0}' || c == '\U{1680}'
    || ('\U{2000}' <= c <= '\U{200A}')
    || c == '\U{2028}' || c == '\U{2029}' || c == '\U{202F}' || c == '\U{205F}'
    || c == '\U{3000}' || c == '\U{FEFF}'
  }

  predicate AllWhitespace(s: string) {
    forall i :: 0 <= i < |s| ==> IsJsWhitespace(s[i])
  }

  function TrimStart(s: string): (r: string)
    ensures |r| <= |s| && r == s[|s| - |r|..]
    ensures r == [] || !IsJsWhitespace(r[0])
    ensures AllWhitespace(s[..|s| - |r|])
  {
    if s != [] && IsJsWhitespace(s[0]) then TrimStart(s[1..]) else s
  }

  function TrimEnd(s: string): (r: string)
    ensures |r| <= |s| && r == s[..|r|]
    ensures r == [] || !IsJsWhitespace(r[|r| - 1])
    ensures AllWhitespace(s[|r|..])
  {
    if s != [] && IsJsWhitespace(s[|s| - 1]) then TrimEnd(s[..|s| - 1]) else s
  }

  /** `s.trim()`: the slice of `s` left after removing leading and trailing whitespace. */
  function Trim(s: string): (r: string)
    ensures r == [] <==> AllWhitespace(s)
    ensures r == [] || (!IsJsWhitespace(r[0]) && !IsJsWhitespace(r[|r| - 1]))
    ensures |r| <= |s|
  {
    var t := TrimStart(s);
    var r := TrimEnd(t);
    assert r == s[|s| - |t|..|s| - |t| + |r|];
    assert r == [] ==> s == s[..|s| - |t|] + t && t[|r|..] == t;
    r
  }

  /** `parts.join(sep)`. */
  function Join(parts: seq<string>, sep: string): (r: string)
    ensures |parts| == 1 ==> r == parts[0]
  {
    if parts == [] then ""
    else if |parts| == 1 then parts[0]
    else parts[0] + sep + Join(parts[1..], sep)
  }

  /** `s.split(c)` for a single-character separator. */
  function Split(s: string, c: char): (parts: seq<string>)
    ensures |parts| > 0
  {
    if s == [] then [""]
    else if s[0] == c then [""] + Split(s[1..], c)
    else
      var rest := Split(s[1..], c);
      [[s[0]] + rest[0]] + rest[1..]
  }

  lemma {:induction false} SplitNoSeparator(s: string, c: char)
    requires c !in s
    ensures Split(s, c) == [s]
  {
    if s != [] {
      SplitNoSeparator(s[1..], c);
      assert [s[0]] + s[1..] == s;
    }
  }

  lemma {:induction false} SplitAfterPart(p: string, c: char, rest: string)
    requires c !in p
    ensures Split(p + [c] + rest, c) == [p] + Split(rest, c)
  {
    if p == [] {
      assert p + [c] + rest == [c] + rest;
      assert ([c] + rest)[1..] == rest;
    } else {
      var s := p + [c] + rest;
      assert s[1..] == p[1..] + [c] + rest;
      SplitAfterPart(p[1..], c, rest);
      assert [p[0]] + p[1..] == p;
    }
  }

  /** Joining with a one-character separator that no part contains, then splitting on it, gives the parts back. */
  lemma {:induction false} SplitJoin(parts: seq<string>, c: char)
    requires |parts| > 0
    requires forall i :: 0 <= i < |parts| ==> c !in parts[i]
    ensures Split(Join(parts, [c]), c) == parts
  {
    if |parts| == 1 {
      SplitNoSeparator(parts[0], c);
    } else {
      SplitJoin(parts[1..], c);
      SplitAfterPart(parts[0], c, Join(parts[1..], [c]));
      assert [parts[0]] + parts[1..] == parts;
    }
  }
}
