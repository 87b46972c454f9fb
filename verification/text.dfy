/**
 * String helpers the client relies on: the suffix and prefix tests of Go's
 * strings package, strings.Cut, the decimal formatting of fmt's %d verb, and
 * the reading of query parameters a server does with url.Values.Get.
 */
module Text {
  import opened Wrappers

  predicate StartsWith(s: string, prefix: string) {
    |prefix| <= |s| && s[..|prefix|] == prefix
  }

  /** strings.HasSuffix */
  predicate EndsWith(s: string, suffix: string) {
    |suffix| <= |s| && s[|s| - |suffix|..] == suffix
  }

  /** Appending the same character to both sides does not change whether one ends with the other. */
  lemma EndsWithAppend(s: string, t: string, c: char)
    ensures EndsWith(s + [c], t + [c]) <==> EndsWith(s, t)
  {
    var s', t' := s + [c], t + [c];
    if EndsWith(s, t) {
      assert s'[|s'| - |t'|..] == s[|s| - |t|..] + [c];
    }
    if EndsWith(s', t') {
      assert s[|s| - |t|..] == s'[|s'| - |t'|..][..|t|];
    }
  }

  /** A string ending with a non-empty suffix ends with that suffix's last character. */
  lemma EndsWithLast(s: string, t: string)
    requires |t| > 0
    ensures EndsWith(s, t) ==> |s| > 0 && s[|s| - 1] == t[|t| - 1]
  {
    if EndsWith(s, t) {
      assert s[|s| - |t|..][|t| - 1] == s[|s| - 1];
    }
  }

  /** Ending with a one-character suffix is having that character last. */
  lemma EndsWithChar(s: string, c: char)
    ensures EndsWith(s, [c]) <==> |s| > 0 && s[|s| - 1] == c
  {
    if |s| > 0 && s[|s| - 1] == c {
      assert s[|s| - 1..] == [c];
    }
  }

  /** Anything ends with what was just appended to it. */
  lemma EndsWithAppended(s: string, t: string)
    ensures EndsWith(s + t, t)
  {
    assert (s + t)[|s|..] == t;
  }

  /** Position of the first `c` in `s`, or |s| when there is none. */
  function IndexOf(s: string, c: char): (i: nat)
    ensures i <= |s|
    ensures i < |s| ==> s[i] == c
    ensures forall j :: 0 <= j < i ==> s[j] != c
  {
    if s == [] then 0
    else if s[0] == c then 0
    else 1 + IndexOf(s[1..], c)
  }

  /** strings.Cut: the text before the first `c`, the text after it, and whether there was one. */
  function Cut(s: string, c: char): (string, string, bool) {
    var i := IndexOf(s, c);
    if i == |s| then (s, "", false) else (s[..i], s[i + 1..], true)
  }

  lemma CutAbsent(s: string, c: char)
    requires c !in s
    ensures Cut(s, c) == (s, "", false)
  {
  }

  /** Cutting at the first separator of `a + [c] + b` gives back `a` and `b` when `a` has no separator. */
  lemma {:induction false} CutAt(a: string, c: char, b: string)
    requires c !in a
    ensures Cut(a + [c] + b, c) == (a, b, true)
  {
    var s := a + [c] + b;
    var i := IndexOf(s, c);
    assert s[|a|] == c;
    assert i == |a|;
    assert s[..i] == a;
    assert s[i + 1..] == b;
  }

  predicate IsDigit(c: char) {
    '0' <= c <= '9'
  }

  predicate AllDigits(s: string) {
    forall i :: 0 <= i < |s| ==> IsDigit(s[i])
  }

  function DigitChar(d: nat): (c: char)
    requires d < 10
  {
    (('0' as int) + d) as char
  }

  function DigitValue(c: char): int {
    (c as int) - ('0' as int)
  }

  /** The decimal digits of `n`, most significant first, without leading zeros. */
  function Digits(n: nat): string
    decreases n
  {
    if n < 10 then [DigitChar(n)] else Digits(n / 10) + [DigitChar(n % 10)]
  }

  /** fmt's %d verb on an integer: a minus sign for negative values, then the digits. */
  function FormatInt(n: int): string {
    if n < 0 then "-" + Digits(-n) else Digits(n)
  }

  /** The value of a non-empty run of decimal digits. */
  function ParseDigits(s: string): int
    requires |s| > 0
    decreases |s|
  {
    if |s| == 1 then DigitValue(s[0])
    else 10 * ParseDigits(s[..|s| - 1]) + DigitValue(s[|s| - 1])
  }

  /** Reads back an optionally signed decimal integer, as a server reads a query parameter. */
  function ParseInt(s: string): Option<int> {
    if |s| > 1 && s[0] == '-' && AllDigits(s[1..]) then Some(-ParseDigits(s[1..]))
    else if |s| > 0 && AllDigits(s) then Some(ParseDigits(s))
    else None
  }

  lemma {:induction false} DigitsRoundTrip(n: nat)
    ensures |Digits(n)| > 0 && AllDigits(Digits(n))
    ensures ParseDigits(Digits(n)) == n
    decreases n
  {
    if n >= 10 {
      DigitsRoundTrip(n / 10);
      var d := Digits(n);
      assert d[..|d| - 1] == Digits(n / 10);
      assert d[|d| - 1] == DigitChar(n % 10);
    }
  }

  /** %d formatting is read back exactly: the query value a server parses is the integer the client formatted. */
  lemma FormatIntRoundTrip(n: int)
    ensures ParseInt(FormatInt(n)) == Some(n)
  {
    var s := FormatInt(n);
    if n < 0 {
      var d := Digits(-n);
      DigitsRoundTrip(-n);
      assert s == "-" + d;
      assert s[0] == '-' && s[1..] == d;
    } else {
      DigitsRoundTrip(n);
      assert IsDigit(s[0]);
    }
  }

  /** Distinct integers are formatted differently. */
  lemma FormatIntInjective(m: int, n: int)
    requires FormatInt(m) == FormatInt(n)
    ensures m == n
  {
    FormatIntRoundTrip(m);
    FormatIntRoundTrip(n);
  }

  /** A formatted integer holds only digits and the minus sign, so it never contains a URL delimiter. */
  lemma FormatIntChars(n: int)
    ensures forall i :: 0 <= i < |FormatInt(n)| ==> IsDigit(FormatInt(n)[i]) || FormatInt(n)[i] == '-'
  {
    if n < 0 {
      DigitsRoundTrip(-n);
      assert forall i :: 1 <= i < |FormatInt(n)| ==> FormatInt(n)[i] == Digits(-n)[i - 1];
    } else {
      DigitsRoundTrip(n);
    }
  }

  /**
   * The value of the first `key=value` field of a query string, fields separated by '&',
   * as url.Values.Get finds it after url.ParseQuery (no percent-decoding).
   */
  function QueryValue(query: string, key: string): Option<string>
    decreases |query|
  {
    var (field, rest, more) := Cut(query, '&');
    var (name, value, _) := Cut(field, '=');
    if name == key then Some(value)
    else if more then QueryValue(rest, key)
    else None
  }

  /** One `key=value` field of a query string, as fmt writes it. */
  function QueryField(key: string, value: string): string {
    key + "=" + value
  }

  lemma QueryFieldCut(key: string, value: string)
    requires '=' !in key
    ensures Cut(QueryField(key, value), '=') == (key, value, true)
  {
    assert QueryField(key, value) == key + ['='] + value;
    CutAt(key, '=', value);
  }

  /** A field `key=value` ahead of further fields is found by its key. */
  lemma QueryFirst(key: string, value: string, rest: string)
    requires '&' !in key && '=' !in key && '&' !in value
    ensures QueryValue(QueryField(key, value) + "&" + rest, key) == Some(value)
  {
    var field := QueryField(key, value);
    assert '&' !in field;
    assert field + "&" + rest == field + ['&'] + rest;
    CutAt(field, '&', rest);
    QueryFieldCut(key, value);
  }

  /** A field `key=value` ahead of further fields is skipped when another key is looked up. */
  lemma QuerySkip(key: string, value: string, rest: string, other: string)
    requires '&' !in key && '=' !in key && '&' !in value && other != key
    ensures QueryValue(QueryField(key, value) + "&" + rest, other) == QueryValue(rest, other)
  {
    var field := QueryField(key, value);
    assert '&' !in field;
    assert field + "&" + rest == field + ['&'] + rest;
    CutAt(field, '&', rest);
    QueryFieldCut(key, value);
  }

  /** A lone field `key=value` is found by its key. */
  lemma QueryOnly(key: string, value: string)
    requires '&' !in key && '=' !in key && '&' !in value
    ensures QueryValue(QueryField(key, value), key) == Some(value)
  {
    var field := QueryField(key, value);
    assert '&' !in field;
    CutAbsent(field, '&');
    QueryFieldCut(key, value);
  }
}
