/** Character classes of the two regular-expression dialects the build scripts use,
    and the string helpers (trimming, splitting into lines, decimal rendering) that
    the rest of the model shares. */
module Text {

  /** Python's `re` (str patterns) or JavaScript's `RegExp`. */
  datatype Flavor = Py | Js

  predicate IsLetter(c: char) { 'A' <= c <= 'Z' || 'a' <= c <= 'z' }
  predicate IsDigit(c: char) { '0' <= c <= '9' }

  /** `[A-Za-z_]`, the first character of the type classes in the scripts. */
  predicate IsIdentStart(c: char) { IsLetter(c) || c == '_' }

  /** `[a-zA-Z_$]`, the first character of an identifier in post-build.js. */
  predicate IsJsIdentStart(c: char) { IsLetter(c) || c == '_' || c == '$' }

  /** Kana and CJK ideographs, which Python's Unicode `\w` also accepts. */
  predicate IsKanaOrIdeograph(c: char) {
    var n := c as int;
    (0x3041 <= n <= 0x3096) || (0x309D <= n <= 0x309F) || (0x30A1 <= n <= 0x30FA)
    || (0x30FC <= n <= 0x30FF) || (0x4E00 <= n <= 0x9FFF)
  }

  /** `\w`: ASCII in JavaScript; in Python also the kana and ideographs above. */
  predicate IsWord(f: Flavor, c: char) {
    IsLetter(c) || IsDigit(c) || c == '_' || (f == Py && IsKanaOrIdeograph(c))
  }

  /** `\s`, which is also what `str.strip()`/`str.split()` (Python) and `trim()`
      (JavaScript) remove. */
  predicate IsSpace(f: Flavor, c: char) {
    var n := c as int;
    (9 <= n <= 13) || n == 0x20 || n == 0xA0 || n == 0x1680 || (0x2000 <= n <= 0x200A)
    || n == 0x2028 || n == 0x2029 || n == 0x202F || n == 0x205F || n == 0x3000
    || (f == Py && ((0x1C <= n <= 0x1F) || n == 0x85))
    || (f == Js && n == 0xFEFF)
  }

  /** Characters at which `^`/`$` match in multi-line mode and which `.` refuses. */
  predicate IsLineBreak(f: Flavor, c: char) {
    c == '\n' || (f == Js && (c == '\r' || c as int == 0x2028 || c as int == 0x2029))
  }

  /** `[A-Za-z0-9_.<>[\]]`, the body of a type name in the scripts' patterns. */
  predicate IsTypeNameChar(c: char) {
    IsLetter(c) || IsDigit(c) || c == '_' || c == '.' || c == '<' || c == '>' || c == '[' || c == ']'
  }

  /** `[A-Za-z0-9_.<>[\]|\s]`, with `&` too when `amp`. */
  predicate IsTypeExprChar(f: Flavor, amp: bool, c: char) {
    IsTypeNameChar(c) || c == '|' || (amp && c == '&') || IsSpace(f, c)
  }

  /** `[A-Za-z0-9_,\s<>[\]|&]`, the body of a generic parameter list. */
  predicate IsGenericChar(f: Flavor, c: char) {
    IsLetter(c) || IsDigit(c) || c == '_' || c == ',' || IsSpace(f, c) || c == '<' || c == '>'
    || c == '[' || c == ']' || c == '|' || c == '&'
  }

  /** The character classes the scanners step over. */
  datatype CharClass =
    | Space(f: Flavor)
    | Word(f: Flavor)
    | LineBreak(f: Flavor)
    | NotLineBreak(f: Flavor)
    | Only(c: char)
    | AnyOf(cs: set<char>)
    | NameBody
    | TypeBody(f: Flavor, amp: bool)
    | QuotedTypeBody(f: Flavor)
    | GenericBody(f: Flavor)
    | JsIdentBody

  predicate InClass(k: CharClass, c: char) {
    match k
    case Space(f) => IsSpace(f, c)
    case Word(f) => IsWord(f, c)
    case LineBreak(f) => IsLineBreak(f, c)
    case NotLineBreak(f) => !IsLineBreak(f, c)
    case Only(d) => c == d
    case AnyOf(cs) => c in cs
    case NameBody => IsTypeNameChar(c)
    case TypeBody(f, amp) => IsTypeExprChar(f, amp, c)
    case QuotedTypeBody(f) => IsTypeExprChar(f, true, c) || c == '\'' || c == '"'
    case GenericBody(f) => IsGenericChar(f, c)
    case JsIdentBody => IsJsIdentStart(c) || IsDigit(c)
  }

  lemma LineBreakIsSpace(f: Flavor, c: char)
    ensures IsLineBreak(f, c) ==> IsSpace(f, c)
  {}

  lemma SpaceIsNotWord(f: Flavor, c: char)
    ensures IsSpace(f, c) ==> !IsWord(f, c)
  {}

  /** `s[i..]` begins with `lit`. */
  predicate At(s: string, i: nat, lit: string) {
    i + |lit| <= |s| && s[i..i + |lit|] == lit
  }

  /** JavaScript's `length`: characters beyond U+FFFF take two UTF-16 units. */
  function Utf16Length(s: string): (n: nat)
    ensures |s| <= n <= 2 * |s|
  {
    if s == [] then 0 else (if s[0] as int > 0xFFFF then 2 else 1) + Utf16Length(s[1..])
  }

  /** Python's `lit in s` / JavaScript's `s.includes(lit)` for a substring. */
  predicate Contains(s: string, lit: string) {
    exists k: nat | k <= |s| :: At(s, k, lit)
  }

  /** Python's `str.strip()` / JavaScript's `trim()`. */
  function TrimStart(f: Flavor, s: string): (r: string)
    ensures |r| <= |s| && r == s[|s| - |r|..]
    ensures r == [] || !IsSpace(f, r[0])
    ensures forall k :: 0 <= k < |s| - |r| ==> IsSpace(f, s[k])
  {
    if s != [] && IsSpace(f, s[0]) then TrimStart(f, s[1..]) else s
  }

  function TrimEnd(f: Flavor, s: string): (r: string)
    ensures |r| <= |s| && r == s[..|r|]
    ensures r == [] || !IsSpace(f, r[|r| - 1])
    ensures forall k :: |r| <= k < |s| ==> IsSpace(f, s[k])
  {
    if s != [] && IsSpace(f, s[|s| - 1]) then TrimEnd(f, s[..|s| - 1]) else s
  }

  function Trim(f: Flavor, s: string): string {
    TrimEnd(f, TrimStart(f, s))
  }

  /** Python's `s.strip(chars)`. */
  function StripChars(s: string, cs: set<char>): (r: string)
    ensures |r| <= |s|
    ensures r == [] || (r[0] !in cs && r[|r| - 1] !in cs)
    decreases |s|
  {
    if s == [] then s
    else if s[0] in cs then StripChars(s[1..], cs)
    else if s[|s| - 1] in cs then StripChars(s[..|s| - 1], cs)
    else s
  }

  /** The first position of `c` in `s`. */
  function IndexOf(s: string, c: char): (k: nat)
    requires c in s
    ensures k < |s| && s[k] == c && c !in s[..k]
  {
    if s[0] == c then 0 else 1 + IndexOf(s[1..], c)
  }

  /** Python's `s.split('\n')`. */
  function SplitLines(s: string): (r: seq<string>)
    ensures |r| >= 1
    ensures forall k :: 0 <= k < |r| ==> '\n' !in r[k]
    decreases |s|
  {
    if '\n' !in s then [s]
    else
      var k := IndexOf(s, '\n');
      [s[..k]] + SplitLines(s[k + 1..])
  }

  /** Python's `'\n'.join(lines)`. */
  function JoinLines(lines: seq<string>): string
  {
    if |lines| == 0 then ""
    else if |lines| == 1 then lines[0]
    else lines[0] + "\n" + JoinLines(lines[1..])
  }

  lemma {:induction false} JoinSplit(s: string)
    ensures JoinLines(SplitLines(s)) == s
    decreases |s|
  {
    if '\n' in s {
      var k := IndexOf(s, '\n');
      JoinSplit(s[k + 1..]);
      assert SplitLines(s) == [s[..k]] + SplitLines(s[k + 1..]);
      assert s == s[..k] + "\n" + s[k + 1..];
    }
  }

  /** Splitting a join of newline-free lines gives the lines back: a line pass that
      never introduces a newline keeps the number of lines. */
  lemma {:induction false} SplitJoin(lines: seq<string>)
    requires |lines| >= 1
    requires forall k :: 0 <= k < |lines| ==> '\n' !in lines[k]
    ensures SplitLines(JoinLines(lines)) == lines
  {
    if |lines| > 1 {
      var s := JoinLines(lines);
      var l0 := lines[0];
      assert s == l0 + "\n" + JoinLines(lines[1..]);
      assert s[|l0|] == '\n';
      assert s[..|l0|] == l0;
      var k := IndexOf(s, '\n');
      assert k == |l0|;
      assert s[k + 1..] == JoinLines(lines[1..]);
      SplitJoin(lines[1..]);
    }
  }

  function DigitChar(d: nat): char
    requires d < 10
  {
    "0123456789"[d]
  }

  /** JavaScript's `String(n)` for a non-negative integer. */
  function NatToString(n: nat): (r: string)
    ensures |r| >= 1 && forall k :: 0 <= k < |r| ==> IsDigit(r[k])
    decreases n
  {
    if n < 10 then [DigitChar(n)] else NatToString(n / 10) + [DigitChar(n % 10)]
  }

  /** The value of a digit, 0 for any other character. */
  function DigitOf(c: char): (d: nat)
    ensures d < 10
  {
    if IsDigit(c) then c as int - '0' as int else 0
  }

  /** The number a string of decimal digits reads as. */
  function DigitsValue(s: string): nat {
    if s == [] then 0 else DigitsValue(s[..|s| - 1]) * 10 + DigitOf(s[|s| - 1])
  }

  /** `String(n)` reads back as `n`. */
  lemma {:induction false} NatToStringValue(n: nat)
    ensures DigitsValue(NatToString(n)) == n
    decreases n
  {
    var r := NatToString(n);
    assert DigitOf(DigitChar(n % 10)) == n % 10;
    if n >= 10 {
      NatToStringValue(n / 10);
      assert r[..|r| - 1] == NatToString(n / 10);
    }
  }

  function IntToString(n: int): string {
    if n < 0 then "-" + NatToString(-n) else NatToString(n)
  }

  /** `a || b` on strings: the empty string is falsy. */
  function OrElse(a: string, b: string): string {
    if a != "" then a else b
  }

  /** Trimming what is already trimmed changes nothing. */
  lemma TrimIdempotent(f: Flavor, s: string)
    ensures Trim(f, Trim(f, s)) == Trim(f, s)
  {
    var r := Trim(f, s);
    var t := TrimStart(f, s);
    if r != [] {
      assert r[0] == t[0];
      assert TrimStart(f, r) == r;
      assert TrimEnd(f, r) == r;
    }
  }
}
