/**
 * The JavaScript string built-ins the components rely on, over `seq<char>`:
 * `indexOf`/`includes`, `startsWith`, `split` with a non-empty separator,
 * `trim`, `String(n)` for integers, `parseInt` without a radix,
 * `toLowerCase` (ASCII letters) and `replace` with a string pattern.
 */
module JsString {
  import opened Wrappers

  /** `sep` occurs in `s` starting at index `i`. */
  predicate OccursAt(s: string, sep: string, i: nat) {
    i + |sep| <= |s| && s[i..i + |sep|] == sep
  }

  /** `s.indexOf(sep)`: the first index where `sep` occurs, or None for -1. */
  function IndexOf(s: string, sep: string): (r: Option<nat>)
    ensures r.Some? ==> OccursAt(s, sep, r.value)
    ensures r.Some? ==> forall j: nat :: j < r.value ==> !OccursAt(s, sep, j)
    ensures r.None? ==> forall j: nat :: !OccursAt(s, sep, j)
    decreases |s|
  {
    if |s| < |sep| then None
    else if s[..|sep|] == sep then Some(0)
    else
      ShiftOccurs(s, sep);
      match IndexOf(s[1..], sep)
      case None => None
      case Some(k) => Some(k + 1)
  }

  /** Occurrences in `s[1..]` are the occurrences in `s` shifted by one. */
  lemma ShiftOccurs(s: string, sep: string)
    requires |s| > 0
    ensures forall j: nat :: OccursAt(s[1..], sep, j) ==> OccursAt(s, sep, j + 1)
    ensures forall j: nat :: 1 <= j && OccursAt(s, sep, j) ==> OccursAt(s[1..], sep, j - 1)
  {
    forall j: nat | OccursAt(s[1..], sep, j)
      ensures OccursAt(s, sep, j + 1)
    {
      assert s[1..][j..j + |sep|] == s[j + 1..j + 1 + |sep|];
    }
    forall j: nat | 1 <= j && OccursAt(s, sep, j)
      ensures OccursAt(s[1..], sep, j - 1)
    {
      assert s[1..][j - 1..j - 1 + |sep|] == s[j..j + |sep|];
    }
  }

  /** `s.includes(sep)`. */
  predicate Includes(s: string, sep: string) {
    IndexOf(s, sep).Some?
  }

  /** For a one-character pattern, `includes` is plain membership. */
  lemma IncludesChar(s: string, c: char)
    ensures Includes(s, [c]) <==> c in s
  {
    if c in s {
      var k :| 0 <= k < |s| && s[k] == c;
      assert s[k..k + 1] == [c];
      assert OccursAt(s, [c], k);
    }
    if Includes(s, [c]) {
      var i := IndexOf(s, [c]).value;
      assert s[i..i + 1] == [c];
      assert s[i] == c;
    }
  }

  /** An occurrence inside a prefix is an occurrence in the whole string. */
  lemma OccursInPrefix(s: string, sep: string, n: nat, j: nat)
    requires n <= |s|
    requires OccursAt(s[..n], sep, j)
    ensures OccursAt(s, sep, j) && j + |sep| <= n
  {
    assert s[..n][j..j + |sep|] == s[j..j + |sep|];
  }

  /** `s.startsWith(p)`. */
  predicate StartsWith(s: string, p: string) {
    |p| <= |s| && s[..|p|] == p
  }

  /**
   * `s.split(sep)` for a non-empty `sep`: the pieces between successive,
   * non-overlapping occurrences of `sep`, scanning from the left.
   */
  function Split(s: string, sep: string): (parts: seq<string>)
    requires sep != ""
    ensures |parts| >= 1
    ensures forall k :: 0 <= k < |parts| ==> !Includes(parts[k], sep)
    decreases |s|
  {
    match IndexOf(s, sep)
    case None => [s]
    case Some(i) =>
      PrefixBeforeFirst(s, sep, i);
      [s[..i]] + Split(s[i + |sep|..], sep)
  }

  /** The text before the first occurrence of `sep` does not contain `sep`. */
  lemma PrefixBeforeFirst(s: string, sep: string, i: nat)
    requires sep != ""
    requires IndexOf(s, sep) == Some(i)
    ensures !Includes(s[..i], sep)
  {
    forall j: nat | OccursAt(s[..i], sep, j)
      ensures OccursAt(s, sep, j) && j < i
    {
      OccursInPrefix(s, sep, i, j);
    }
  }

  /** `parts.join(sep)`. */
  function Join(parts: seq<string>, sep: string): string
    decreases |parts|
  {
    if |parts| == 0 then ""
    else if |parts| == 1 then parts[0]
    else parts[0] + sep + Join(parts[1..], sep)
  }

  /** Splitting loses nothing: joining the pieces with the separator gives the string back. */
  lemma {:induction false} JoinSplit(s: string, sep: string)
    requires sep != ""
    ensures Join(Split(s, sep), sep) == s
    decreases |s|
  {
    match IndexOf(s, sep)
    case None =>
    case Some(i) =>
      var rest := s[i + |sep|..];
      var tail := Split(rest, sep);
      JoinSplit(rest, sep);
      assert Split(s, sep) == [s[..i]] + tail;
      assert Join([s[..i]] + tail, sep) == s[..i] + sep + Join(tail, sep) by {
        assert ([s[..i]] + tail)[1..] == tail;
      }
      assert s[i..i + |sep|] == sep;
      assert s == s[..i] + s[i..i + |sep|] + rest;
  }

  /** The first piece of a split is the text before the first occurrence, or all of `s`. */
  lemma SplitHead(s: string, sep: string)
    requires sep != ""
    ensures IndexOf(s, sep).None? ==> Split(s, sep) == [s]
    ensures IndexOf(s, sep).Some? ==>
      var i := IndexOf(s, sep).value;
      |Split(s, sep)| >= 2 && Split(s, sep)[0] == s[..i] &&
      Split(s, sep)[1..] == Split(s[i + |sep|..], sep)
  {
  }

  /**
   * The first piece of a split is the longest prefix of `s` that does not contain
   * `sep`: it ends where `s` ends or where the first occurrence of `sep` starts.
   */
  lemma SplitFirstPiece(s: string, sep: string)
    requires sep != ""
    ensures var p := Split(s, sep)[0];
      |p| <= |s| && p == s[..|p|] && !Includes(p, sep) &&
      (|p| == |s| || OccursAt(s, sep, |p|))
  {
    SplitHead(s, sep);
  }

  /** The second piece of a split starts right after the first occurrence of `sep`. */
  lemma SplitSecondPiece(s: string, sep: string)
    requires sep != ""
    requires Includes(s, sep)
    ensures |Split(s, sep)| >= 2
    ensures Split(s, sep)[1] == Split(s[IndexOf(s, sep).value + |sep|..], sep)[0]
  {
    SplitHead(s, sep);
  }

  /** The first piece of a split of the suffix `s[start..]`, seen in `s` itself. */
  lemma SplitFirstPieceAt(s: string, sep: string, start: nat, piece: string)
    requires sep != "" && start <= |s|
    requires piece == Split(s[start..], sep)[0]
    ensures start + |piece| <= |s| && piece == s[start..start + |piece|] && !Includes(piece, sep)
    ensures start + |piece| == |s| || OccursAt(s, sep, start + |piece|)
  {
    var rest := s[start..];
    SplitFirstPiece(rest, sep);
    assert rest[..|piece|] == s[start..start + |piece|];
    if |piece| < |rest| {
      OccursInSuffix(s, sep, start, |piece|);
    }
  }

  /**
   * The second piece of a split starts right after the first occurrence `i` of the
   * separator, and ends where `s` ends or where the next occurrence of `sep` starts.
   */
  lemma SplitSecondPieceAt(s: string, sep: string, i: nat, c: string)
    requires sep != "" && IndexOf(s, sep) == Some(i)
    requires |Split(s, sep)| >= 2 && c == Split(s, sep)[1]
    ensures var start := i + |sep|; var end := start + |c|;
      end <= |s| && c == s[start..end] && !Includes(c, sep) && (end == |s| || OccursAt(s, sep, end))
  {
    assert OccursAt(s, sep, i);
    var start := i + |sep|;
    assert start <= |s|;
    SplitSecondPiece(s, sep);
    assert c == Split(s[start..], sep)[0];
    SplitFirstPieceAt(s, sep, start, c);
  }

  /** An occurrence in a suffix of `s` is an occurrence in `s`, shifted. */
  lemma OccursInSuffix(s: string, sep: string, start: nat, j: nat)
    requires start <= |s|
    requires OccursAt(s[start..], sep, j)
    ensures OccursAt(s, sep, start + j)
  {
    assert s[start..][j..j + |sep|] == s[start + j..start + j + |sep|];
  }

  /** A string that contains `sep` within its first `n` characters contains it. */
  lemma IncludesPrefix(s: string, sep: string, n: nat)
    requires n <= |s|
    requires Includes(s[..n], sep)
    ensures Includes(s, sep)
  {
    OccursInPrefix(s, sep, n, IndexOf(s[..n], sep).value);
  }

  // ----- trim -----

  /** The WhiteSpace and LineTerminator code points that `String.prototype.trim` removes. */
  predicate IsJsWhitespace(c: char) {
    c == '\t' || c == '\n' || c == '\U{000B}' || c == '\U{000C}' || c == '\r' || c == ' ' ||
    c == '\U{00A0}' || c == '\U{1680}' || ('\U{2000}' <= c <= '\U{200A}') ||
    c == '\U{2028}' || c == '\U{2029}' || c == '\U{202F}' || c == '\U{205F}' ||
    c == '\U{3000}' || c == '\U{FEFF}'
  }

  predicate IsBlank(s: string) {
    forall k :: 0 <= k < |s| ==> IsJsWhitespace(s[k])
  }

  /** `s.trimStart()`: the suffix left after removing leading whitespace. */
  function TrimStart(s: string): (r: string)
    ensures |r| <= |s| && r == s[|s| - |r|..]
    ensures forall k :: 0 <= k < |s| - |r| ==> IsJsWhitespace(s[k])
    ensures r != [] ==> !IsJsWhitespace(r[0])
    decreases |s|
  {
    if s != [] && IsJsWhitespace(s[0]) then TrimStart(s[1..]) else s
  }

  /** `s.trimEnd()`: the prefix left after removing trailing whitespace. */
  function TrimEnd(s: string): (r: string)
    ensures |r| <= |s| && r == s[..|r|]
    ensures forall k :: |r| <= k < |s| ==> IsJsWhitespace(s[k])
    ensures r != [] ==> !IsJsWhitespace(r[|r| - 1])
    decreases |s|
  {
    if s != [] && IsJsWhitespace(s[|s| - 1]) then TrimEnd(s[..|s| - 1]) else s
  }

  /** `s.trim()`. */
  function Trim(s: string): string {
    TrimEnd(TrimStart(s))
  }

  /** `s.trim() === ''` exactly when every character of `s` is whitespace. */
  lemma TrimEmptyIffBlank(s: string)
    ensures Trim(s) == "" <==> IsBlank(s)
  {
    var t := TrimStart(s);
  }

  /** A trimmed string is non-empty and has no whitespace at either end, or is empty. */
  lemma TrimShape(s: string)
    ensures var r := Trim(s); r == "" || (!IsJsWhitespace(r[0]) && !IsJsWhitespace(r[|r| - 1]))
  {
    var t := TrimStart(s);
    var r := TrimEnd(t);
    if r != "" {
      assert r[0] == t[0];
    }
  }

  /** Trimming twice equals trimming once. */
  lemma TrimIdempotent(s: string)
    ensures Trim(Trim(s)) == Trim(s)
  {
    var r := Trim(s);
    TrimShape(s);
    if r != "" {
      assert TrimStart(r) == r;
      assert TrimEnd(r) == r;
    }
  }

  // ----- numbers as text -----

  predicate IsDecimalDigit(c: char) {
    '0' <= c <= '9'
  }

  predicate IsHexDigit(c: char) {
    IsDecimalDigit(c) || ('a' <= c <= 'f') || ('A' <= c <= 'F')
  }

  /** A digit of the given radix (10 or 16), as `parseInt` accepts it. */
  predicate IsDigitIn(c: char, radix: nat) {
    if radix == 16 then IsHexDigit(c) else IsDecimalDigit(c)
  }

  function DigitValue(c: char): (d: nat)
    requires IsHexDigit(c)
    ensures d < 16
    ensures IsDecimalDigit(c) ==> d < 10
  {
    if IsDecimalDigit(c) then c as int - '0' as int
    else if 'a' <= c <= 'f' then c as int - 'a' as int + 10
    else c as int - 'A' as int + 10
  }

  function DigitChar(d: nat): (c: char)
    requires d < 10
    ensures IsDecimalDigit(c) && DigitValue(c) == d
  {
    ('0' as int + d) as char
  }

  /** `String(n)` for a non-negative integer: its decimal digits, without leading zeros. */
  function DecimalString(n: nat): (r: string)
    ensures |r| >= 1
    ensures forall k :: 0 <= k < |r| ==> IsDecimalDigit(r[k])
    ensures r[0] == '0' ==> n == 0 && r == "0"
    decreases n
  {
    if n < 10 then [DigitChar(n)] else DecimalString(n / 10) + [DigitChar(n % 10)]
  }

  /** `String(i)` for any integer. */
  function IntString(i: int): string {
    if i < 0 then "-" + DecimalString(-i) else DecimalString(i)
  }

  /** Number of leading characters of `s` that are digits of `radix`. */
  function DigitRun(s: string, radix: nat): (n: nat)
    ensures n <= |s|
    ensures forall k :: 0 <= k < n ==> IsDigitIn(s[k], radix)
    ensures n < |s| ==> !IsDigitIn(s[n], radix)
    decreases |s|
  {
    if s != [] && IsDigitIn(s[0], radix) then 1 + DigitRun(s[1..], radix) else 0
  }

  /** The value of a string of digits in the given radix, most significant first. */
  function DigitsValue(z: string, radix: nat): nat
    requires radix == 10 || radix == 16
    requires forall k :: 0 <= k < |z| ==> IsDigitIn(z[k], radix)
    decreases |z|
  {
    if z == [] then 0
    else
      assert IsDigitIn(z[|z| - 1], radix);
      DigitsValue(z[..|z| - 1], radix) * radix + DigitValue(z[|z| - 1])
  }

  /**
   * `parseInt(s)` with no radix: skip leading whitespace, take an optional sign,
   * then read the magnitude. None stands for `NaN` (no digits at all); `-0` is
   * reported as 0.
   */
  function ParseInt(s: string): Option<int> {
    var t := TrimStart(s);
    if t != [] && t[0] == '-' then
      match ParseMagnitude(t[1..])
      case None => None
      case Some(v) => Some(-(v as int))
    else if t != [] && t[0] == '+' then
      match ParseMagnitude(t[1..])
      case None => None
      case Some(v) => Some(v)
    else
      match ParseMagnitude(t)
      case None => None
      case Some(v) => Some(v)
  }

  /** Hexadecimal after a `0x`/`0X` prefix, decimal otherwise. */
  function ParseMagnitude(u: string): Option<nat> {
    if |u| >= 2 && u[0] == '0' && (u[1] == 'x' || u[1] == 'X') then LeadingValue(u[2..], 16)
    else LeadingValue(u, 10)
  }

  /** The value of the longest run of leading digits, or None when there is none. */
  function LeadingValue(digits: string, radix: nat): Option<nat>
    requires radix == 10 || radix == 16
  {
    var n := DigitRun(digits, radix);
    if n == 0 then None else Some(DigitsValue(digits[..n], radix))
  }

  /** Reading back the decimal digits written by `DecimalString` gives the number. */
  lemma {:induction false} DecimalValue(n: nat)
    ensures DigitsValue(DecimalString(n), 10) == n
    decreases n
  {
    var r := DecimalString(n);
    if n >= 10 {
      DecimalValue(n / 10);
      assert r[..|r| - 1] == DecimalString(n / 10);
      assert DigitValue(r[|r| - 1]) == n % 10;
    }
  }

  /** The digit run of a digit string followed by a non-digit is the digit string. */
  lemma {:induction false} DigitRunPrefix(z: string, rest: string, radix: nat)
    requires forall k :: 0 <= k < |z| ==> IsDigitIn(z[k], radix)
    requires rest == [] || !IsDigitIn(rest[0], radix)
    ensures DigitRun(z + rest, radix) == |z|
    decreases |z|
  {
    if z != [] {
      var s := z + rest;
      assert s[0] == z[0];
      assert s[1..] == z[1..] + rest;
      DigitRunPrefix(z[1..], rest, radix);
      assert DigitRun(s, radix) == 1 + DigitRun(s[1..], radix);
    } else {
      assert z + rest == rest;
    }
  }

  /** The magnitude read from a decimal string that is followed by text that does not continue it. */
  lemma ParseMagnitudeDecimal(n: nat, rest: string)
    requires rest == [] || !IsDecimalDigit(rest[0])
    requires rest != [] && n == 0 ==> rest[0] != 'x' && rest[0] != 'X'
    ensures ParseMagnitude(DecimalString(n) + rest) == Some(n)
  {
    var d := DecimalString(n);
    var u := d + rest;
    assert u[0] == d[0];
    if |d| >= 2 {
      assert u[1] == d[1];
    }
    DigitRunPrefix(d, rest, 10);
    assert u[..|d|] == d;
    DecimalValue(n);
  }

  /**
   * `parseInt` reads back `String(i)` for every integer `i`, even when other
   * text follows, provided that text does not continue the number: it does not
   * start with a digit, nor with `x`/`X` right after a lone `0`.
   */
  lemma ParseIntString(i: int, rest: string)
    requires rest == [] || !IsDecimalDigit(rest[0])
    requires rest != [] && i == 0 ==> rest[0] != 'x' && rest[0] != 'X'
    ensures ParseInt(IntString(i) + rest) == Some(i)
  {
    var u := IntString(i) + rest;
    if i < 0 {
      var n: nat := -i;
      assert u == "-" + DecimalString(n) + rest;
      ParseNegative(n, rest);
      assert ParseInt(u) == Some(-(n as int));
    } else {
      var n: nat := i;
      assert u == DecimalString(n) + rest;
      ParseNonNegative(n, rest);
      assert ParseInt(u) == Some(n);
    }
  }

  lemma ParseNonNegative(n: nat, rest: string)
    requires rest == [] || !IsDecimalDigit(rest[0])
    requires rest != [] && n == 0 ==> rest[0] != 'x' && rest[0] != 'X'
    ensures ParseInt(DecimalString(n) + rest) == Some(n)
  {
    var u := DecimalString(n) + rest;
    ParseMagnitudeDecimal(n, rest);
    assert u[0] == DecimalString(n)[0];
    NoLeadingSpace(u);
  }

  lemma ParseNegative(n: nat, rest: string)
    requires n > 0
    requires rest == [] || !IsDecimalDigit(rest[0])
    ensures ParseInt("-" + DecimalString(n) + rest) == Some(-(n as int))
  {
    var u := DecimalString(n) + rest;
    ParseMagnitudeDecimal(n, rest);
    var s := "-" + DecimalString(n) + rest;
    assert s == "-" + u;
    assert s[0] == '-';
    NoLeadingSpace(s);
    assert s[1..] == u;
    assert ParseMagnitude(TrimStart(s)[1..]) == Some(n);
  }

  /** Nothing is trimmed from a string that starts with a non-whitespace character. */
  lemma NoLeadingSpace(s: string)
    requires s != [] && !IsJsWhitespace(s[0])
    ensures TrimStart(s) == s
  {
  }

  // ----- case and replacement -----

  function LowerChar(c: char): (l: char)
    ensures !('A' <= l <= 'Z')
    ensures !('A' <= c <= 'Z') ==> l == c
  {
    if 'A' <= c <= 'Z' then (c as int + 32) as char else c
  }

  /** `s.toLowerCase()` on the ASCII letters. */
  function ToLowerAscii(s: string): (r: string)
    ensures |r| == |s|
    ensures forall k :: 0 <= k < |s| ==> r[k] == LowerChar(s[k])
  {
    seq(|s|, k requires 0 <= k < |s| => LowerChar(s[k]))
  }

  /** Lower-casing a string with no upper-case ASCII letter changes nothing. */
  lemma LowerCaseIdentity(s: string)
    requires forall k :: 0 <= k < |s| ==> !('A' <= s[k] <= 'Z')
    ensures ToLowerAscii(s) == s
  {
  }

  /** `s.replace(pattern, replacement)` with a string pattern: only the first occurrence changes. */
  function ReplaceFirst(s: string, pattern: string, replacement: string): (r: string)
    ensures !Includes(s, pattern) ==> r == s
    ensures Includes(s, pattern) ==>
      var i := IndexOf(s, pattern).value;
      r == s[..i] + replacement + s[i + |pattern|..]
  {
    match IndexOf(s, pattern)
    case None => s
    case Some(i) => s[..i] + replacement + s[i + |pattern|..]
  }
}
