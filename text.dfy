/**
 * The pieces of Rust's `str` that the proxy manager relies on: `trim` (Unicode
 * White_Space on both ends), `contains`, `starts_with`, `split('/').next()`,
 * `rsplit(':').next()`, `split_once('=')`, ASCII lower-casing, `is_ascii_digit`,
 * `str::parse::<u16>` and the decimal `Display` of an integer.
 */
module Text {
  import opened Wrappers

  type U16 = x: int | 0 <= x < 0x1_0000

  /** The characters with the Unicode White_Space property, which `char::is_whitespace` accepts. */
  predicate IsWhitespace(c: char) {
    || ('\U{0009}' <= c <= '\U{000D}')
    || c == ' ' || c == '\U{0085}' || c == '\U{00A0}' || c == '\U{1680}'
    || ('\U{2000}' <= c <= '\U{200A}')
    || c == '\U{2028}' || c == '\U{2029}' || c == '\U{202F}' || c == '\U{205F}' || c == '\U{3000}'
  }

  function TrimStart(s: string): (r: string)
    ensures |r| <= |s| && r == s[|s| - |r|..]
    ensures forall i :: 0 <= i < |s| - |r| ==> IsWhitespace(s[i])
    ensures |r| > 0 ==> !IsWhitespace(r[0])
  {
    if |s| > 0 && IsWhitespace(s[0]) then TrimStart(s[1..]) else s
  }

  function TrimEnd(s: string): (r: string)
    ensures |r| <= |s| && r == s[..|r|]
    ensures forall i :: |r| <= i < |s| ==> IsWhitespace(s[i])
    ensures |r| > 0 ==> !IsWhitespace(r[|r| - 1])
  {
    if |s| > 0 && IsWhitespace(s[|s| - 1]) then TrimEnd(s[..|s| - 1]) else s
  }

  /** `str::trim`. */
  function Trim(s: string): string {
    TrimEnd(TrimStart(s))
  }

  lemma TrimNoWhitespace(s: string)
    requires forall i :: 0 <= i < |s| ==> !IsWhitespace(s[i])
    ensures Trim(s) == s
  {
  }

  lemma TrimEnds(s: string)
    requires |s| > 0 ==> !IsWhitespace(s[0]) && !IsWhitespace(s[|s| - 1])
    ensures Trim(s) == s
  {
  }

  predicate StartsWith(s: string, prefix: string) {
    |prefix| <= |s| && s[..|prefix|] == prefix
  }

  /** A prefix of `a` is a prefix of `a + b`. */
  lemma PrefixOfConcat(a: string, b: string, p: string)
    requires StartsWith(a, p)
    ensures StartsWith(a + b, p)
  {
    assert (a + b)[..|p|] == a[..|p|];
  }

  predicate EndsWith(s: string, suffix: string) {
    |suffix| <= |s| && s[|s| - |suffix|..] == suffix
  }

  /** A suffix of `b` is a suffix of `a + b`. */
  lemma SuffixOfConcat(a: string, b: string, p: string)
    requires EndsWith(b, p)
    ensures EndsWith(a + b, p)
  {
    assert (a + b)[|a + b| - |p|..] == b[|b| - |p|..];
  }

  /** Every string ends with itself. */
  lemma EndsWithItself(s: string)
    ensures EndsWith(s, s)
  {
    assert s[|s| - |s|..] == s;
  }

  /** `str::contains` for a string pattern. */
  predicate Contains(s: string, pattern: string)
    decreases |s|
  {
    StartsWith(s, pattern) || (|s| > 0 && Contains(s[1..], pattern))
  }

  lemma {:induction false} ContainsInfix(pre: string, pattern: string, post: string)
    ensures Contains(pre + pattern + post, pattern)
    decreases |pre|
  {
    var s := pre + pattern + post;
    if |pre| == 0 {
      assert s[..|pattern|] == pattern;
    } else {
      assert s[1..] == pre[1..] + pattern + post;
      ContainsInfix(pre[1..], pattern, post);
    }
  }

  /** `s.rsplit(c).next()`: the text after the last `c`, or all of `s` when there is none. */
  function AfterLast(s: string, c: char): (r: string)
    ensures |r| <= |s| && r == s[|s| - |r|..]
    ensures c !in r
    ensures |r| < |s| ==> s[|s| - |r| - 1] == c
  {
    if |s| == 0 then ""
    else if s[|s| - 1] == c then ""
    else AfterLast(s[..|s| - 1], c) + [s[|s| - 1]]
  }

  /** `s.split(c).next()`: the text before the first `c`, or all of `s` when there is none. */
  function BeforeFirst(s: string, c: char): (r: string)
    ensures |r| <= |s| && r == s[..|r|]
    ensures c !in r
    ensures |r| < |s| ==> s[|r|] == c
  {
    if |s| == 0 then ""
    else if s[0] == c then ""
    else [s[0]] + BeforeFirst(s[1..], c)
  }

  lemma {:induction false} AfterLastOfSuffix(pre: string, post: string, c: char)
    requires c !in post
    requires |pre| == 0 || pre[|pre| - 1] == c
    ensures AfterLast(pre + post, c) == post
    decreases |post|
  {
    if |post| > 0 {
      var front, last := post[..|post| - 1], post[|post| - 1];
      assert post == front + [last];
      assert pre + post == (pre + front) + [last];
      AfterLastSnoc(pre + front, last, c);
      AfterLastOfSuffix(pre, front, c);
    } else {
      assert pre + post == pre;
    }
  }

  /** A last character other than `c` extends the text after the last `c`. */
  lemma AfterLastSnoc(s: string, x: char, c: char)
    requires x != c
    ensures AfterLast(s + [x], c) == AfterLast(s, c) + [x]
  {
    assert (s + [x])[..|s|] == s;
  }

  lemma {:induction false} BeforeFirstOfPrefix(pre: string, post: string, c: char)
    requires c !in pre
    requires |post| == 0 || post[0] == c
    ensures BeforeFirst(pre + post, c) == pre
    decreases |pre|
  {
    if |pre| > 0 {
      var s := pre + post;
      assert s[0] == pre[0];
      assert s[1..] == pre[1..] + post;
      BeforeFirstOfPrefix(pre[1..], post, c);
      assert pre == [pre[0]] + pre[1..];
    } else {
      assert pre + post == post;
    }
  }

  /** `s.split_once(c)`: the text before the first `c` and everything after it. */
  function SplitOnce(s: string, c: char): (r: Option<(string, string)>)
    ensures r.None? <==> c !in s
    ensures r.Some? ==> c !in r.value.0 && s == r.value.0 + [c] + r.value.1
  {
    var k := BeforeFirst(s, c);
    if |k| == |s| then None else Some((k, s[|k| + 1..]))
  }

  function AsciiLowerChar(c: char): char {
    if 'A' <= c <= 'Z' then (c as int + 32) as char else c
  }

  /** `to_lowercase`, restricted to the ASCII letters. */
  function AsciiLower(s: string): (r: string)
    ensures |r| == |s|
    ensures forall i :: 0 <= i < |s| ==> r[i] == AsciiLowerChar(s[i])
  {
    seq(|s|, i requires 0 <= i < |s| => AsciiLowerChar(s[i]))
  }

  predicate IsAsciiDigit(c: char) {
    '0' <= c <= '9'
  }

  predicate AllDigits(s: string) {
    forall i :: 0 <= i < |s| ==> IsAsciiDigit(s[i])
  }

  /** `s.chars().filter(|c| c.is_ascii_digit()).collect()`. */
  function DigitsOf(s: string): (r: string)
    ensures AllDigits(r)
    ensures |r| <= |s|
  {
    if |s| == 0 then ""
    else if IsAsciiDigit(s[0]) then [s[0]] + DigitsOf(s[1..])
    else DigitsOf(s[1..])
  }

  lemma {:induction false} DigitsOfAppend(a: string, b: string)
    ensures DigitsOf(a + b) == DigitsOf(a) + DigitsOf(b)
    decreases |a|
  {
    if |a| > 0 {
      assert (a + b)[0] == a[0];
      assert (a + b)[1..] == a[1..] + b;
      DigitsOfAppend(a[1..], b);
    } else {
      assert a + b == b;
    }
  }

  lemma {:induction false} DigitsOfNoDigits(s: string)
    requires forall i :: 0 <= i < |s| ==> !IsAsciiDigit(s[i])
    ensures DigitsOf(s) == ""
    decreases |s|
  {
    if |s| > 0 {
      DigitsOfNoDigits(s[1..]);
    }
  }

  lemma {:induction false} DigitsOfAllDigits(s: string)
    requires AllDigits(s)
    ensures DigitsOf(s) == s
    decreases |s|
  {
    if |s| > 0 {
      DigitsOfAllDigits(s[1..]);
    }
  }

  function DigitValue(c: char): nat
    requires IsAsciiDigit(c)
  {
    c as int - '0' as int
  }

  function DigitChar(d: nat): char
    requires d < 10
  {
    ('0' as int + d) as char
  }

  function Pow10(n: nat): (r: nat)
    ensures r >= 1
  {
    if n == 0 then 1 else 10 * Pow10(n - 1)
  }

  /** The value of a string of decimal digits, most significant first. */
  function DecimalValue(ds: string): (r: nat)
    requires AllDigits(ds)
    ensures r < Pow10(|ds|)
  {
    if |ds| == 0 then 0
    else DecimalValue(ds[..|ds| - 1]) * 10 + DigitValue(ds[|ds| - 1])
  }

  /** At most four digits spell a value below 10000. */
  lemma ShortDecimal(ds: string)
    requires AllDigits(ds)
    ensures |ds| <= 4 ==> DecimalValue(ds) < 10000
  {
    assert Pow10(1) == 10;
    assert Pow10(2) == 100;
    assert Pow10(3) == 1000;
    assert Pow10(4) == 10000;
  }

  /** `n.to_string()`: decimal digits without leading zeros, "0" for zero. */
  function ToDecimal(n: nat): (r: string)
    ensures |r| > 0 && AllDigits(r)
    ensures |r| > 1 ==> r[0] != '0'
  {
    if n < 10 then [DigitChar(n)] else ToDecimal(n / 10) + [DigitChar(n % 10)]
  }

  lemma {:induction false} DecimalRoundTrip(n: nat)
    ensures DecimalValue(ToDecimal(n)) == n
  {
    if n >= 10 {
      var s := ToDecimal(n);
      assert s[..|s| - 1] == ToDecimal(n / 10);
      DecimalRoundTrip(n / 10);
    }
  }

  /** The text after one optional leading `+`, which `parse::<u16>` accepts as a sign. */
  function Unsigned(s: string): (r: string)
    ensures |r| <= |s| && (|r| < |s| <==> |s| > 0 && s[0] == '+')
    ensures |r| < |s| ==> r == s[1..]
  {
    if |s| > 0 && s[0] == '+' then s[1..] else s
  }

  /** A digit string has no sign to drop. */
  lemma UnsignedDigits(d: string)
    requires |d| > 0 && AllDigits(d)
    ensures Unsigned(d) == d
  {
    assert IsAsciiDigit(d[0]);
  }

  /**
   * `str::parse::<u16>`: an optional leading `+`, then at least one ASCII digit and
   * nothing else; leading zeros are allowed, a value above 65535 is an overflow error.
   */
  function ParseU16(s: string): (r: Option<U16>)
    ensures |s| > 0 && s[0] == '-' ==> r.None?
    ensures r.Some? ==> |s| > 0 && AllDigits(s[1..]) && (IsAsciiDigit(s[0]) || s[0] == '+')
    ensures 0 < |s| <= 4 && AllDigits(s) ==> r.Some?
    ensures r.Some? <==> |Unsigned(s)| > 0 && AllDigits(Unsigned(s)) && DecimalValue(Unsigned(s)) <= 65535
    ensures r.Some? ==> r.value == DecimalValue(Unsigned(s))
  {
    var body := Unsigned(s);
    if |body| == 0 || !AllDigits(body) then None
    else
      var v := DecimalValue(body);
      ShortDecimal(body);
      if v <= 65535 then Some(v) else None
  }

  /** What `to_string` prints, `parse::<u16>` reads back. */
  lemma ParseU16RoundTrip(n: U16)
    ensures ParseU16(ToDecimal(n)) == Some(n)
  {
    DecimalRoundTrip(n);
  }
}
