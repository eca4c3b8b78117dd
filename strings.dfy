/** String operations the client and the server rely on: trimming whitespace
    (JavaScript `trim` and Python `strip`, each with its own whitespace set), ASCII lower-casing (`toLowerCase`), prefix tests
    (`startsWith`), the first field of `split`, decimal printing of naturals (`toString`,
    Python `str`) and left padding (`padStart`). */
module Strings {

  /** The two trimming operations in use: JavaScript's `trim` on the client and Python's
      `strip` on the server. They remove different sets of characters. */
  datatype Language = JavaScript | Python

  /** The characters both `trim` and `strip` remove: the ASCII whitespace, the no-break space,
      the Unicode space separators, and the line and paragraph separators. */
  predicate CommonSpace(c: char) {
    || c == ' ' || c == '\t' || c == '\n' || c == '\r' || c == '\U{0B}' || c == '\U{0C}'
    || c == '\U{A0}' || c == '\U{1680}' || ('\U{2000}' <= c <= '\U{200A}')
    || c == '\U{2028}' || c == '\U{2029}' || c == '\U{202F}' || c == '\U{205F}' || c == '\U{3000}'
  }

  /** Whitespace to the given language: `trim` also removes the byte-order mark U+FEFF;
      `strip` also removes the separators U+001C to U+001F and the next-line character U+0085. */
  predicate IsSpace(lang: Language, c: char) {
    || CommonSpace(c)
    || (lang == JavaScript && c == '\U{FEFF}')
    || (lang == Python && ('\U{1C}' <= c <= '\U{1F}' || c == '\U{85}'))
  }

  /** Neither set contains the other. */
  lemma SpaceSetsDiffer()
    ensures IsSpace(Python, '\U{1C}') && !IsSpace(JavaScript, '\U{1C}')
    ensures IsSpace(Python, '\U{85}') && !IsSpace(JavaScript, '\U{85}')
    ensures IsSpace(JavaScript, '\U{FEFF}') && !IsSpace(Python, '\U{FEFF}')
  {
  }

  predicate AllSpace(lang: Language, s: string) {
    forall i :: 0 <= i < |s| ==> IsSpace(lang, s[i])
  }

  /** Removes leading whitespace: the result is a suffix of `s`, and what was cut is whitespace. */
  function TrimStart(lang: Language, s: string): (r: string)
    ensures |r| <= |s| && r == s[|s| - |r|..]
    ensures r == [] || !IsSpace(lang, r[0])
    ensures forall i :: 0 <= i < |s| - |r| ==> IsSpace(lang, s[i])
  {
    if |s| > 0 && IsSpace(lang, s[0]) then TrimStart(lang, s[1..]) else s
  }

  /** Removes trailing whitespace: the result is a prefix of `s`, and what was cut is whitespace. */
  function TrimEnd(lang: Language, s: string): (r: string)
    ensures |r| <= |s| && r == s[..|r|]
    ensures r == [] || !IsSpace(lang, r[|r| - 1])
    ensures forall i :: |r| <= i < |s| ==> IsSpace(lang, s[i])
  {
    if |s| > 0 && IsSpace(lang, s[|s| - 1]) then TrimEnd(lang, s[..|s| - 1]) else s
  }

  /** `s.trim()` in JavaScript, `s.strip()` in Python. */
  function Trim(lang: Language, s: string): (r: string)
    ensures |r| <= |s|
    ensures r == [] || (!IsSpace(lang, r[0]) && !IsSpace(lang, r[|r| - 1]))
  {
    TrimEnd(lang, TrimStart(lang, s))
  }

  /** Trimming keeps exactly the middle of `s`: the result is the slice that starts after the
      leading whitespace, and everything cut on either side of it is whitespace. */
  lemma {:induction false} TrimIsSlice(lang: Language, s: string)
    ensures Slicing(lang, s, |s| - |TrimStart(lang, s)|, Trim(lang, s))
  {
    TrimSlices(lang, s, TrimStart(lang, s), TrimEnd(lang, TrimStart(lang, s)));
  }

  /** `r` is the slice of `s` from `i`, and whitespace surrounds it in `s`. */
  predicate Slicing(lang: Language, s: string, i: nat, r: string) {
    && i + |r| <= |s| && r == s[i..i + |r|]
    && (forall k :: 0 <= k < i ==> IsSpace(lang, s[k]))
    && (forall k :: i + |r| <= k < |s| ==> IsSpace(lang, s[k]))
  }

  /** A prefix `r` of a suffix `t` of `s`, each cut at whitespace only, is a slice of `s`. */
  lemma {:induction false} TrimSlices(lang: Language, s: string, t: string, r: string)
    requires |t| <= |s| && t == s[|s| - |t|..]
    requires forall k :: 0 <= k < |s| - |t| ==> IsSpace(lang, s[k])
    requires |r| <= |t| && r == t[..|r|]
    requires forall k :: |r| <= k < |t| ==> IsSpace(lang, t[k])
    ensures Slicing(lang, s, |s| - |t|, r)
  {
    var i := |s| - |t|;
    forall k | i + |r| <= k < |s|
      ensures IsSpace(lang, s[k])
    {
      assert s[k] == t[k - i];
    }
  }

  /** A string that is falsy after trimming: nothing but whitespace to that language. */
  predicate IsBlank(lang: Language, s: string) {
    AllSpace(lang, s)
  }

  /** The blank strings are exactly the strings that trim to nothing. */
  lemma BlankIffTrimsEmpty(lang: Language, s: string)
    ensures IsBlank(lang, s) <==> Trim(lang, s) == []
  {
    var t := TrimStart(lang, s);
    if TrimEnd(lang, t) != [] {
      var r := TrimEnd(lang, t);
      assert r[0] == t[0] == s[|s| - |t|];
    }
  }

  /** Trimming keeps a string with no whitespace at either end as it is. */
  lemma {:induction false} TrimKeepsTrimmed(lang: Language, s: string)
    requires s == [] || (!IsSpace(lang, s[0]) && !IsSpace(lang, s[|s| - 1]))
    ensures Trim(lang, s) == s
  {
  }

  function ToLowerChar(c: char): (d: char)
    ensures 'A' <= c <= 'Z' ==> d as int == c as int + 32
    ensures !('A' <= c <= 'Z') ==> d == c
  {
    if 'A' <= c <= 'Z' then (c as int + 32) as char else c
  }

  /** `s.toLowerCase()` on the ASCII letters. */
  function ToLower(s: string): (r: string)
    ensures |r| == |s|
    ensures forall i :: 0 <= i < |s| ==> r[i] == ToLowerChar(s[i])
  {
    seq(|s|, i requires 0 <= i < |s| => ToLowerChar(s[i]))
  }

  /** Lower-casing twice is lower-casing once. */
  lemma ToLowerIdempotent(s: string)
    ensures ToLower(ToLower(s)) == ToLower(s)
  {
  }

  /** Lower-casing keeps a string that has no upper-case ASCII letter. */
  lemma ToLowerKeepsLower(s: string)
    requires forall i :: 0 <= i < |s| ==> !('A' <= s[i] <= 'Z')
    ensures ToLower(s) == s
  {
  }

  /** Two strings of the same length whose characters agree pairwise ignoring case are equal
      after lower-casing. */
  lemma ToLowerEqual(s: string, t: string)
    requires |s| == |t| && forall i :: 0 <= i < |s| ==> ToLowerChar(s[i]) == ToLowerChar(t[i])
    ensures ToLower(s) == ToLower(t)
  {
  }

  /** `s.startsWith(prefix)`. */
  predicate StartsWith(s: string, prefix: string) {
    |prefix| <= |s| && s[..|prefix|] == prefix
  }

  /** `s.split(sep)[0]`: the longest prefix of `s` that does not contain `sep`. */
  function BeforeFirst(s: string, sep: char): (r: string)
    ensures |r| <= |s| && r == s[..|r|]
    ensures sep !in r
    ensures |r| < |s| ==> s[|r|] == sep
  {
    if s == [] || s[0] == sep then [] else [s[0]] + BeforeFirst(s[1..], sep)
  }

  predicate IsDigit(c: char) {
    '0' <= c <= '9'
  }

  predicate AllDigits(s: string) {
    forall i :: 0 <= i < |s| ==> IsDigit(s[i])
  }

  function DigitChar(d: nat): (c: char)
    requires d < 10
    ensures IsDigit(c)
  {
    ('0' as int + d) as char
  }

  function DigitValue(c: char): nat
    requires IsDigit(c)
  {
    c as int - '0' as int
  }

  /** The number a string of decimal digits denotes. */
  function DigitsValue(s: string): nat
    requires AllDigits(s)
  {
    if s == [] then 0 else DigitsValue(s[..|s| - 1]) * 10 + DigitValue(s[|s| - 1])
  }

  function Pow10(k: nat): (p: nat)
    ensures p >= 1
  {
    if k == 0 then 1 else 10 * Pow10(k - 1)
  }

  /** `n.toString()` in JavaScript, `str(n)` in Python, for a natural number. */
  function DecimalString(n: nat): (r: string)
    ensures |r| >= 1 && AllDigits(r)
    ensures n >= 10 ==> r[0] != '0'
  {
    if n < 10 then [DigitChar(n)] else DecimalString(n / 10) + [DigitChar(n % 10)]
  }

  /** Reading back the printed digits gives the number. */
  lemma {:induction false} DecimalStringValue(n: nat)
    ensures DigitsValue(DecimalString(n)) == n
  {
    if n >= 10 {
      var s := DecimalString(n / 10);
      var t := s + [DigitChar(n % 10)];
      assert t[..|t| - 1] == s;
      DecimalStringValue(n / 10);
    }
  }

  /** Distinct numbers print as distinct strings. */
  lemma DecimalStringInjective(m: nat, n: nat)
    requires m != n
    ensures DecimalString(m) != DecimalString(n)
  {
    DecimalStringValue(m);
    DecimalStringValue(n);
  }

  /** A number with exactly k digits prints as k characters. */
  lemma {:induction false} DecimalStringLength(n: nat, k: nat)
    requires k >= 1 && Pow10(k - 1) <= n < Pow10(k)
    ensures |DecimalString(n)| == k
  {
    if k > 1 {
      assert n >= 10 by { assert Pow10(k - 1) == 10 * Pow10(k - 2); }
      DecimalStringLength(n / 10, k - 1);
    } else {
      assert n < 10;
    }
  }

  /** `k` copies of `c`. */
  function Repeat(c: char, k: nat): (r: string)
    ensures |r| == k && forall i :: 0 <= i < k ==> r[i] == c
  {
    seq(k, _ => c)
  }

  /** `s.padStart(width, fill)`: `s` preceded by as many `fill` characters as it falls short of `width`. */
  function PadStart(s: string, width: nat, fill: char): (r: string)
    ensures |r| == if |s| < width then width else |s|
    ensures r[|r| - |s|..] == s
    ensures forall i :: 0 <= i < |r| - |s| ==> r[i] == fill
  {
    if |s| < width then Repeat(fill, width - |s|) + s else s
  }

  /** A leading zero does not change the value of a digit string. */
  lemma {:induction false} LeadingZeroValue(s: string)
    requires AllDigits(s)
    ensures AllDigits(['0'] + s) && DigitsValue(['0'] + s) == DigitsValue(s)
  {
    if s != [] {
      var t := ['0'] + s;
      assert t[..|t| - 1] == ['0'] + s[..|s| - 1];
      LeadingZeroValue(s[..|s| - 1]);
    }
  }

  /** Leading zeros do not change the value of a digit string. */
  lemma {:induction false} LeadingZerosValue(s: string, k: nat)
    requires AllDigits(s)
    ensures AllDigits(Repeat('0', k) + s) && DigitsValue(Repeat('0', k) + s) == DigitsValue(s)
  {
    if k > 0 {
      var rest := Repeat('0', k - 1) + s;
      assert Repeat('0', k) + s == ['0'] + rest;
      LeadingZerosValue(s, k - 1);
      LeadingZeroValue(rest);
    } else {
      assert Repeat('0', k) + s == s;
    }
  }

  /** Padding a digit string with zeros keeps it a digit string with the same value. */
  lemma ZeroPaddedValue(s: string, width: nat)
    requires AllDigits(s)
    ensures AllDigits(PadStart(s, width, '0'))
    ensures DigitsValue(PadStart(s, width, '0')) == DigitsValue(s)
  {
    if |s| < width {
      LeadingZerosValue(s, width - |s|);
    }
  }
}
