/**
 * The JavaScript string built-ins the server code relies on, modelled on
 * `string` (`seq<char>`): `toLowerCase` (the ASCII letters and the Kelvin
 * sign), `trim`, `includes`, `indexOf`, `replace` of a literal pattern,
 * `split` on one character, `parseInt(s, 10)`, `String(n)` for integers and
 * `padStart`.
 */
module JsText {
  import opened Wrappers

  // ---------------------------------------------------------------------
  // Case mapping and substring search
  // ---------------------------------------------------------------------

  /** `toLowerCase` on one character, for the characters whose lower case
    * is ASCII: the letters `A`-`Z` and U+212A KELVIN SIGN, whose lower case
    * is `k`. Other characters are kept. */
  function LowerChar(c: char): char {
    if 'A' <= c <= 'Z' then (c as int + 32) as char
    else if c as int == 0x212A then 'k'
    else c
  }

  function ToLower(s: string): string {
    seq(|s|, i requires 0 <= i < |s| => LowerChar(s[i]))
  }

  /** `k` occurs in `s` starting at index `i`. */
  predicate OccursAt(s: string, k: string, i: int) {
    0 <= i && i + |k| <= |s| && s[i..i + |k|] == k
  }

  /** `s.includes(k)`. */
  predicate Includes(s: string, k: string) {
    exists i :: 0 <= i <= |s| && OccursAt(s, k, i)
  }

  /** `s.indexOf(pat, from)`: the first occurrence at or after `from`. */
  function IndexOfFrom(s: string, pat: string, from: nat): (r: Option<nat>)
    decreases |s| - from
    ensures r.Some? ==> from <= r.value && OccursAt(s, pat, r.value)
    ensures r.Some? ==> forall j :: from <= j < r.value ==> !OccursAt(s, pat, j)
    ensures r.None? ==> forall j :: from <= j ==> !OccursAt(s, pat, j)
  {
    if from + |pat| > |s| then None
    else if s[from..from + |pat|] == pat then Some(from)
    else IndexOfFrom(s, pat, from + 1)
  }

  /** `s.indexOf(pat)`, with `None` for JavaScript's `-1`. */
  function IndexOf(s: string, pat: string): (r: Option<nat>)
    ensures r.Some? ==> OccursAt(s, pat, r.value)
    ensures r.Some? ==> forall j :: 0 <= j < r.value ==> !OccursAt(s, pat, j)
    ensures r.None? <==> !Includes(s, pat)
  {
    IndexOfFrom(s, pat, 0)
  }

  /** `s.replace(/pat/, '')` for a pattern without special characters:
    * only the first occurrence, wherever it is, is removed. */
  function RemoveFirst(s: string, pat: string): string {
    match IndexOf(s, pat)
    case None => s
    case Some(i) => s[..i] + s[i + |pat|..]
  }

  // ---------------------------------------------------------------------
  // split on one character, and its inverse
  // ---------------------------------------------------------------------

  /** `parts.join(sep)`. */
  function Join(parts: seq<string>, sep: char): string
    requires |parts| >= 1
  {
    if |parts| == 1 then parts[0] else parts[0] + [sep] + Join(parts[1..], sep)
  }

  lemma NoOccurrenceMeansAbsent(s: string, c: char, n: int)
    requires n <= |s|
    requires forall j :: 0 <= j < n ==> !OccursAt(s, [c], j)
    ensures c !in s[..if n < 0 then 0 else n]
  {
    forall j | 0 <= j < n
      ensures s[j] != c
    {
      assert !OccursAt(s, [c], j);
      assert s[j..j + 1] == [s[j]];
    }
  }

  /** `s.split(sep)` for a one-character separator: every part is free of
    * the separator, there is always at least one part, and joining the
    * parts gives `s` back. */
  function Split(s: string, sep: char): (parts: seq<string>)
    decreases |s|
    ensures |parts| >= 1
    ensures forall i :: 0 <= i < |parts| ==> sep !in parts[i]
    ensures Join(parts, sep) == s
  {
    match IndexOf(s, [sep])
    case None =>
      NoOccurrenceMeansAbsent(s, sep, |s|);
      assert s[..|s|] == s;
      [s]
    case Some(i) =>
      NoOccurrenceMeansAbsent(s, sep, i);
      var rest := Split(s[i + 1..], sep);
      assert s == s[..i] + [sep] + s[i + 1..];
      [s[..i]] + rest
  }

  // ---------------------------------------------------------------------
  // Decimal digits
  // ---------------------------------------------------------------------

  predicate IsDigit(c: char) {
    '0' <= c <= '9'
  }

  predicate AllDigits(d: string) {
    forall i :: 0 <= i < |d| ==> IsDigit(d[i])
  }

  function DigitValue(c: char): nat {
    if IsDigit(c) then c as int - '0' as int else 0
  }

  function DigitChar(n: nat): char
    requires n < 10
  {
    ('0' as int + n) as char
  }

  /** The value of a string of decimal digits, most significant first. */
  function DigitsValue(d: string): nat {
    if d == [] then 0 else 10 * DigitsValue(d[..|d| - 1]) + DigitValue(d[|d| - 1])
  }

  /** `String(n)` for a non-negative integer: decimal, no leading zero. */
  function NatToString(n: nat): (r: string)
    ensures |r| >= 1 && AllDigits(r)
    ensures r[0] == '0' ==> n == 0
    ensures DigitsValue(r) == n
  {
    if n < 10 then [DigitChar(n)]
    else
      var r := NatToString(n / 10) + [DigitChar(n % 10)];
      assert r[..|r| - 1] == NatToString(n / 10);
      r
  }

  /** `String(i)` for any integer. */
  function IntToString(i: int): string {
    if i < 0 then "-" + NatToString(-i) else NatToString(i)
  }

  /** `s.padStart(width, fill)` for a one-character filler. */
  function PadStart(s: string, width: nat, fill: char): (r: string)
    decreases width - |s|
  {
    if |s| >= width then s else PadStart([fill] + s, width, fill)
  }

  lemma {:induction false} LeadingZeroKeepsValue(d: string)
    ensures DigitsValue("0" + d) == DigitsValue(d)
    decreases |d|
  {
    if d != [] {
      var z := "0" + d;
      assert z[..|z| - 1] == "0" + d[..|d| - 1];
      LeadingZeroKeepsValue(d[..|d| - 1]);
    }
  }

  /** Padding with `'0'` keeps the digits and their value. */
  lemma {:induction false} ZeroPadKeepsValue(s: string, width: nat)
    requires AllDigits(s)
    ensures |PadStart(s, width, '0')| == if |s| >= width then |s| else width
    ensures AllDigits(PadStart(s, width, '0'))
    ensures DigitsValue(PadStart(s, width, '0')) == DigitsValue(s)
    decreases width - |s|
  {
    if |s| < width {
      LeadingZeroKeepsValue(s);
      ZeroPadKeepsValue("0" + s, width);
    }
  }

  // ---------------------------------------------------------------------
  // parseInt(s, 10)
  // ---------------------------------------------------------------------

  /** A line terminator: LF, CR, U+2028 and U+2029. */
  predicate IsLineTerminator(c: char) {
    c == '\n' || c == '\r' || c as int == 0x2028 || c as int == 0x2029
  }

  /** JavaScript's white space and line terminators, the characters `trim`,
    * `Number` and `parseInt` skip: tab, vertical tab, form feed, the byte
    * order mark and every space separator (category Zs). */
  predicate IsJsSpace(c: char) {
    || c == ' ' || c == '\t' || c as int == 0x0B || c as int == 0x0C || c as int == 0xFEFF
    || c as int == 0xA0 || c as int == 0x1680 || 0x2000 <= c as int <= 0x200A
    || c as int == 0x202F || c as int == 0x205F || c as int == 0x3000
    || IsLineTerminator(c)
  }

  function TrimStart(s: string): string {
    if |s| > 0 && IsJsSpace(s[0]) then TrimStart(s[1..]) else s
  }

  function TrimEnd(s: string): string {
    if |s| > 0 && IsJsSpace(s[|s| - 1]) then TrimEnd(s[..|s| - 1]) else s
  }

  /** `s.trim()`. */
  function Trim(s: string): string {
    TrimEnd(TrimStart(s))
  }

  /** The longest prefix of `s` made of decimal digits. */
  function DigitPrefix(s: string): string {
    if |s| > 0 && IsDigit(s[0]) then [s[0]] + DigitPrefix(s[1..]) else []
  }

  /** `parseInt(s, 10)`, with `None` for `NaN`: leading white space, an
    * optional sign, then the longest run of digits (at least one). */
  function ParseInt(s: string): Option<int> {
    var t := TrimStart(s);
    var negative := |t| > 0 && t[0] == '-';
    var u := if |t| > 0 && (t[0] == '+' || t[0] == '-') then t[1..] else t;
    var d := DigitPrefix(u);
    var magnitude: int := DigitsValue(d);
    if d == [] then None else Some(if negative then -magnitude else magnitude)
  }

  lemma {:induction false} TrimStartIsSuffix(s: string)
    ensures exists k :: 0 <= k <= |s| && TrimStart(s) == s[k..]
    decreases |s|
  {
    if |s| > 0 && IsJsSpace(s[0]) {
      TrimStartIsSuffix(s[1..]);
      var k :| 0 <= k <= |s[1..]| && TrimStart(s[1..]) == s[1..][k..];
      assert TrimStart(s) == s[k + 1..];
    } else {
      assert TrimStart(s) == s[0..];
    }
  }

  /** A string without `'-'` never parses to a negative number. */
  lemma ParseIntWithoutMinus(s: string)
    requires '-' !in s
    ensures ParseInt(s).Some? ==> ParseInt(s).value >= 0
  {
    TrimStartIsSuffix(s);
    var k :| 0 <= k <= |s| && TrimStart(s) == s[k..];
    var t := TrimStart(s);
    if |t| > 0 {
      assert t[0] == s[k];
    }
  }

  lemma {:induction false} DigitPrefixOfDigits(d: string)
    requires AllDigits(d)
    ensures DigitPrefix(d) == d
    decreases |d|
  {
    if |d| > 0 {
      DigitPrefixOfDigits(d[1..]);
    }
  }

  /** `parseInt(String(n), 10) == n`. */
  lemma ParseIntOfNatToString(n: nat)
    ensures ParseInt(NatToString(n)) == Some(n)
  {
    var r := NatToString(n);
    assert TrimStart(r) == r;
    DigitPrefixOfDigits(r);
  }
}
