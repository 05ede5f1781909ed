/** String primitives of JavaScript and Python as the core files use them:
    prefix and suffix tests, splitting and joining on a separator, the two
    languages' whitespace trimming, and decimal formatting of integers.
    A string is a sequence of Unicode code points. */
module Strings {

  predicate StartsWith(s: string, prefix: string) {
    prefix <= s
  }

  predicate EndsWith(s: string, suffix: string) {
    |suffix| <= |s| && s[|s| - |suffix|..] == suffix
  }

  /** `s.includes(sub)` */
  predicate Contains(s: string, sub: string) {
    exists i :: 0 <= i <= |s| && sub <= s[i..]
  }

  // ---------------------------------------------------------------------
  // Whitespace

  /** The code points `String.prototype.trim` removes (ECMAScript WhiteSpace
      and LineTerminator). */
  predicate IsJsWhitespace(c: char) {
    c == '\t' || c == '\n' || c == '\U{B}' || c == '\U{C}' || c == '\r' || c == ' '
    || c == '\U{A0}' || c == '\U{1680}' || ('\U{2000}' <= c <= '\U{200A}')
    || c == '\U{2028}' || c == '\U{2029}' || c == '\U{202F}' || c == '\U{205F}'
    || c == '\U{3000}' || c == '\U{FEFF}'
  }

  /** The code points for which Python's `str.isspace` holds, i.e. what
      `str.strip()` and `int()` discard. */
  predicate IsPyWhitespace(c: char) {
    ('\t' <= c <= '\r') || ('\U{1C}' <= c <= '\U{1F}') || c == ' ' || c == '\U{85}'
    || c == '\U{A0}' || c == '\U{1680}' || ('\U{2000}' <= c <= '\U{200A}')
    || c == '\U{2028}' || c == '\U{2029}' || c == '\U{202F}' || c == '\U{205F}'
    || c == '\U{3000}'
  }

  /** A string is blank when `s.trim()` is falsy in JavaScript. */
  predicate IsJsBlank(s: string) {
    forall i :: 0 <= i < |s| ==> IsJsWhitespace(s[i])
  }

  function JsTrimStart(s: string): string {
    if s != [] && IsJsWhitespace(s[0]) then JsTrimStart(s[1..]) else s
  }

  function JsTrimEnd(s: string): string {
    if s != [] && IsJsWhitespace(s[|s| - 1]) then JsTrimEnd(s[..|s| - 1]) else s
  }

  /** Trimming the start drops a whitespace prefix, up to the first
      character that is not whitespace. */
  lemma {:induction false} JsTrimStartSpec(s: string)
    ensures var r := JsTrimStart(s);
      |r| <= |s| && s[|s| - |r|..] == r
      && (r != [] ==> !IsJsWhitespace(r[0]))
      && forall i :: 0 <= i < |s| - |r| ==> IsJsWhitespace(s[i])
    decreases |s|
  {
    if s != [] && IsJsWhitespace(s[0]) {
      JsTrimStartSpec(s[1..]);
    }
  }

  /** Trimming the end drops a whitespace suffix, back to the last
      character that is not whitespace. */
  lemma {:induction false} JsTrimEndSpec(s: string)
    ensures var r := JsTrimEnd(s);
      |r| <= |s| && r == s[..|r|]
      && (r != [] ==> !IsJsWhitespace(r[|r| - 1]))
      && forall i :: |r| <= i < |s| ==> IsJsWhitespace(s[i])
    decreases |s|
  {
    if s != [] && IsJsWhitespace(s[|s| - 1]) {
      JsTrimEndSpec(s[..|s| - 1]);
    }
  }

  /** `s.trim()` */
  function JsTrim(s: string): string {
    JsTrimEnd(JsTrimStart(s))
  }

  /** The trimmed string neither starts nor ends with whitespace, is empty
      exactly for a blank string, and is an infix of the original. */
  lemma JsTrimSpec(s: string)
    ensures var r := JsTrim(s);
      (r != [] ==> !IsJsWhitespace(r[0]) && !IsJsWhitespace(r[|r| - 1]))
      && (r == [] <==> IsJsBlank(s))
      && |r| <= |s| && exists k :: 0 <= k <= |s| && r <= s[k..]
  {
    var t := JsTrimStart(s);
    var r := JsTrimEnd(t);
    JsTrimStartSpec(s);
    JsTrimEndSpec(t);
    var k := |s| - |t|;
    assert r <= s[k..] by {
      assert s[k..] == t;
    }
    if r != [] {
      assert r[0] == t[0];
    }
    if IsJsBlank(s) {
      assert t == [];
    }
    if r == [] {
      assert t == [];
    }
  }

  /** Trimming a string that neither starts nor ends with whitespace leaves
      it unchanged. */
  lemma JsTrimNoop(s: string)
    requires s == [] || (!IsJsWhitespace(s[0]) && !IsJsWhitespace(s[|s| - 1]))
    ensures JsTrim(s) == s
  {
  }

  function PyStripStart(s: string): (r: string)
    ensures |r| <= |s| && s[|s| - |r|..] == r
    ensures r != [] ==> !IsPyWhitespace(r[0])
  {
    if s != [] && IsPyWhitespace(s[0]) then PyStripStart(s[1..]) else s
  }

  function PyStripEnd(s: string): (r: string)
    ensures |r| <= |s| && r == s[..|r|]
    ensures r != [] ==> !IsPyWhitespace(r[|r| - 1])
  {
    if s != [] && IsPyWhitespace(s[|s| - 1]) then PyStripEnd(s[..|s| - 1]) else s
  }

  /** Python's `s.strip()` */
  function PyStrip(s: string): (r: string)
    ensures r != [] ==> !IsPyWhitespace(r[0]) && !IsPyWhitespace(r[|r| - 1])
    ensures |r| <= |s|
  {
    PyStripEnd(PyStripStart(s))
  }

  /** Stripping a string whose ends are not whitespace leaves it unchanged. */
  lemma PyStripNoop(s: string)
    requires s != [] && !IsPyWhitespace(s[0]) && !IsPyWhitespace(s[|s| - 1])
    ensures PyStrip(s) == s
  {
  }

  // ---------------------------------------------------------------------
  // Splitting and joining

  /** `parts.join(sep)` */
  function Join(parts: seq<string>, sep: string): string {
    if |parts| == 0 then ""
    else if |parts| == 1 then parts[0]
    else parts[0] + sep + Join(parts[1..], sep)
  }

  function FirstIndexOf(s: string, c: char): (i: nat)
    requires c in s
    ensures i < |s| && s[i] == c && c !in s[..i]
  {
    if s[0] == c then 0 else 1 + FirstIndexOf(s[1..], c)
  }

  lemma {:induction false} FirstIndexOfAfter(a: string, c: char, b: string)
    requires c !in a
    ensures FirstIndexOf(a + [c] + b, c) == |a|
  {
    if a != [] {
      assert (a + [c] + b)[1..] == a[1..] + [c] + b;
      FirstIndexOfAfter(a[1..], c, b);
    }
  }

  /** `s.indexOf(c)`: -1 when absent. */
  function IndexOf(s: string, c: char): (i: int)
    ensures i == -1 <==> c !in s
    ensures 0 <= i ==> i < |s| && s[i] == c && c !in s[..i]
  {
    if c in s then FirstIndexOf(s, c) else -1
  }

  /** `s.split(sep)` for a one-character separator: the pieces between the
      separators, including the empty ones; a string without the separator
      gives one piece. Joining the pieces with the separator gives `s` back. */
  function Split(s: string, sep: char): (parts: seq<string>)
    ensures |parts| >= 1
    ensures forall i :: 0 <= i < |parts| ==> sep !in parts[i]
    ensures Join(parts, [sep]) == s
    decreases |s|
  {
    if sep !in s then [s]
    else
      var i := FirstIndexOf(s, sep);
      var rest := Split(s[i + 1..], sep);
      assert s == s[..i] + [sep] + s[i + 1..];
      [s[..i]] + rest
  }

  /** Splitting a join gives the pieces back when no piece holds the
      separator: `Split` and `Join` are inverse. */
  lemma {:induction false} SplitJoin(parts: seq<string>, sep: char)
    requires |parts| >= 1
    requires forall i :: 0 <= i < |parts| ==> sep !in parts[i]
    ensures Split(Join(parts, [sep]), sep) == parts
    decreases |parts|
  {
    if |parts| > 1 {
      var s := Join(parts, [sep]);
      var tail := Join(parts[1..], [sep]);
      assert s == parts[0] + [sep] + tail;
      assert sep in s by { assert s[|parts[0]|] == sep; }
      FirstIndexOfAfter(parts[0], sep, tail);
      assert s[|parts[0]| + 1..] == tail && s[..|parts[0]|] == parts[0];
      SplitJoin(parts[1..], sep);
      assert Split(s, sep) == [parts[0]] + parts[1..];
    }
  }

  /** Drops one trailing carriage return. */
  function DropCR(s: string): string {
    if s != [] && s[|s| - 1] == '\r' then s[..|s| - 1] else s
  }

  /** `s.split(/\r?\n/)`: split on line feeds; a carriage return right before
      a line feed belongs to the separator, so every piece but the last loses
      one trailing carriage return. */
  function SplitLines(s: string): (lines: seq<string>)
    ensures |lines| == |Split(s, '\n')|
    ensures forall i :: 0 <= i < |lines| ==> '\n' !in lines[i]
  {
    var parts := Split(s, '\n');
    seq(|parts|, i requires 0 <= i < |parts| =>
      if i < |parts| - 1 then DropCR(parts[i]) else parts[i])
  }

  // ---------------------------------------------------------------------
  // Paths

  /** Node's `path.join(a, b)` for POSIX segments that need no
      normalisation (no `.`/`..`, no doubled or trailing separators). */
  function NodePathJoin(a: string, b: string): string {
    a + "/" + b
  }

  /** `PurePosixPath(a) / b` in Python: an absolute `b` replaces `a`, an
      empty segment is dropped. */
  function PyPathJoin(a: string, b: string): (r: string)
    ensures StartsWith(b, "/") ==> r == b
    ensures b != "" && !StartsWith(b, "/") && a != "" ==> r == a + "/" + b
  {
    if b == "" then a
    else if StartsWith(b, "/") || a == "" then b
    else a + "/" + b
  }

  // ---------------------------------------------------------------------
  // Decimal numbers

  predicate IsDigit(c: char) {
    '0' <= c <= '9'
  }

  function DigitValue(c: char): nat
    requires IsDigit(c)
  {
    (c as int - '0' as int) as nat
  }

  function DigitChar(d: nat): (c: char)
    requires d < 10
    ensures IsDigit(c) && DigitValue(c) == d
  {
    ('0' as int + d) as char
  }

  predicate AllDigits(s: string) {
    forall i :: 0 <= i < |s| ==> IsDigit(s[i])
  }

  /** The value of a string of decimal digits, most significant first. */
  function DigitsValue(s: string): nat
    requires AllDigits(s)
  {
    if s == [] then 0 else 10 * DigitsValue(s[..|s| - 1]) + DigitValue(s[|s| - 1])
  }

  /** Decimal notation of a natural number, without leading zeros. */
  function NatToString(n: nat): (s: string)
    ensures s != [] && AllDigits(s)
    ensures |s| > 1 ==> s[0] != '0'
    ensures DigitsValue(s) == n
  {
    if n < 10 then [DigitChar(n)]
    else
      var s := NatToString(n / 10) + [DigitChar(n % 10)];
      assert s[..|s| - 1] == NatToString(n / 10);
      s
  }

  /** `String(n)` / `str(n)` for an integer. */
  function IntToString(n: int): (s: string)
    ensures s != []
    ensures n < 0 <==> s[0] == '-'
    ensures n >= 0 ==> AllDigits(s) && DigitsValue(s) == n
    ensures n < 0 ==> AllDigits(s[1..]) && DigitsValue(s[1..]) == -n
  {
    if n < 0 then "-" + NatToString(-n) else NatToString(n)
  }

  /** Different integers are written differently. */
  lemma IntToStringInjective(a: int, b: int)
    requires IntToString(a) == IntToString(b)
    ensures a == b
  {
    if a < 0 {
      assert IntToString(a)[1..] == IntToString(b)[1..];
    }
  }
}
