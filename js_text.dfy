/**
 * The JavaScript string operations the game relies on, over `seq<char>`:
 * `trim`, "is blank" (`s.trim().length === 0`), `join`, `slice(0, n)`,
 * `toLowerCase` on ASCII letters, and decimal rendering of a natural number.
 */
module JsText {

  /**
   * The characters `String.prototype.trim` removes: ECMAScript WhiteSpace
   * (tab, vertical tab, form feed, space, no-break space, byte order mark and
   * the Unicode space separators) and LineTerminator (LF, CR, LS, PS).
   */
  predicate IsJsSpace(c: char)
  {
    || c == '\t' || c == '\n' || c == '\r' || c == ' '
    || c == '\U{000B}' || c == '\U{000C}' || c == '\U{00A0}' || c == '\U{1680}'
    || ('\U{2000}' <= c <= '\U{200A}')
    || c == '\U{2028}' || c == '\U{2029}' || c == '\U{202F}' || c == '\U{205F}'
    || c == '\U{3000}' || c == '\U{FEFF}'
  }

  /** `s.trim().length === 0`: every character is white space. */
  predicate IsBlank(s: string)
  {
    forall i :: 0 <= i < |s| ==> IsJsSpace(s[i])
  }

  /** `s.trimStart()`: the suffix left after dropping the leading white space. */
  function TrimStart(s: string): (r: string)
    ensures |r| <= |s| && r == s[|s| - |r|..]
    ensures forall i :: 0 <= i < |s| - |r| ==> IsJsSpace(s[i])
    ensures r != [] ==> !IsJsSpace(s[|s| - |r|])
  {
    if s != [] && IsJsSpace(s[0]) then
      TrimStart(s[1..])
    else
      s
  }

  /** `s.trimEnd()`: the prefix left after dropping the trailing white space. */
  function TrimEnd(s: string): (r: string)
    ensures |r| <= |s| && r == s[..|r|]
    ensures forall i :: |r| <= i < |s| ==> IsJsSpace(s[i])
    ensures r != [] ==> !IsJsSpace(s[|r| - 1])
  {
    if s != [] && IsJsSpace(s[|s| - 1]) then
      TrimEnd(s[..|s| - 1])
    else
      s
  }

  /** `s.trim()` */
  function Trim(s: string): string
  {
    TrimEnd(TrimStart(s))
  }

  /** Trimming yields the empty string exactly for blank strings. */
  lemma TrimEmptyIffBlank(s: string)
    ensures Trim(s) == "" <==> IsBlank(s)
  {
    var t := TrimStart(s);
    if !IsBlank(s) {
      var k :| 0 <= k < |s| && !IsJsSpace(s[k]);
      assert t != [] && t[0] == s[|s| - |t|];
    }
  }

  /** A trimmed string neither starts nor ends with white space. */
  lemma TrimHasNoOuterSpace(s: string)
    ensures var r := Trim(s); r != [] ==> !IsJsSpace(r[0]) && !IsJsSpace(r[|r| - 1])
  {
    var t := TrimStart(s);
    var r := TrimEnd(t);
    if r != [] {
      assert r[0] == t[0];
    }
  }

  /** `parts.join(sep)` */
  function Join(parts: seq<string>, sep: string): string
  {
    if |parts| == 0 then ""
    else if |parts| == 1 then parts[0]
    else parts[0] + sep + Join(parts[1..], sep)
  }

  /** Total length of `parts.join(sep)`: every part plus one separator between neighbours. */
  function JoinedLength(parts: seq<string>, sep: string): (n: nat)
  {
    if |parts| == 0 then 0
    else if |parts| == 1 then |parts[0]|
    else |parts[0]| + |sep| + JoinedLength(parts[1..], sep)
  }

  lemma {:induction false} JoinLength(parts: seq<string>, sep: string)
    ensures |Join(parts, sep)| == JoinedLength(parts, sep)
    decreases |parts|
  {
    if |parts| > 1 {
      JoinLength(parts[1..], sep);
    }
  }

  /** Joining is empty exactly when there is nothing to join or a single empty part
      (with a non-empty separator). */
  lemma {:induction false} JoinEmpty(parts: seq<string>, sep: string)
    requires sep != ""
    ensures Join(parts, sep) == "" <==> (|parts| == 0 || (|parts| == 1 && parts[0] == ""))
    decreases |parts|
  {
    if |parts| > 1 {
      assert |Join(parts, sep)| >= |sep|;
    }
  }

  /** `s.slice(0, n)` for `n >= 0` */
  function Prefix(s: string, n: nat): (r: string)
    ensures |r| == if |s| <= n then |s| else n
    ensures r == s[..|r|]
  {
    if |s| <= n then s else s[..n]
  }

  function DigitChar(d: nat): (c: char)
    requires d < 10
    ensures '0' <= c <= '9'
    ensures c as int - '0' as int == d
  {
    ['0', '1', '2', '3', '4', '5', '6', '7', '8', '9'][d]
  }

  predicate IsDigit(c: char)
  {
    '0' <= c <= '9'
  }

  /** The number a string of decimal digits denotes, most significant digit first. */
  function DigitsValue(s: string): nat
  {
    if s == [] then 0
    else
      var d := if IsDigit(s[|s| - 1]) then s[|s| - 1] as int - '0' as int else 0;
      DigitsValue(s[..|s| - 1]) * 10 + d
  }

  /** `String(n)` for a natural number: its decimal digits, no leading zero. */
  function NatToString(n: nat): (r: string)
    ensures |r| >= 1
    ensures forall i :: 0 <= i < |r| ==> IsDigit(r[i])
    ensures r[0] == '0' ==> n == 0
    ensures DigitsValue(r) == n
  {
    if n < 10 then [DigitChar(n)]
    else
      var high := NatToString(n / 10);
      var r := high + [DigitChar(n % 10)];
      assert r[..|r| - 1] == high;
      r
  }

  /** Different numbers are rendered differently. */
  lemma NatToStringInjective(m: nat, n: nat)
    ensures NatToString(m) == NatToString(n) ==> m == n
  {
  }

  /** `String(n)` for an integer: a minus sign exactly for a negative number, then the digits of its magnitude. */
  function IntToString(n: int): (r: string)
    ensures |r| >= 1
    ensures r[0] == '-' <==> n < 0
    ensures n < 0 ==> |r| >= 2 && (forall i :: 1 <= i < |r| ==> IsDigit(r[i])) && DigitsValue(r[1..]) == -n
    ensures n >= 0 ==> (forall i :: 0 <= i < |r| ==> IsDigit(r[i])) && DigitsValue(r) == n
  {
    if n < 0 then
      var digits := NatToString(-n);
      var r := "-" + digits;
      assert r[1..] == digits;
      r
    else NatToString(n)
  }

  /** `c.toLowerCase()` on ASCII capitals: the letter 32 code points further on. */
  function LowerChar(c: char): (r: char)
    ensures 'A' <= c <= 'Z' ==> 'a' <= r <= 'z' && r as int == c as int + 32
    ensures !('A' <= c <= 'Z') ==> r == c
  {
    if 'A' <= c <= 'Z' then (c as int - 'A' as int + 'a' as int) as char else c
  }

  /** `s.toLowerCase()` restricted to ASCII letters. */
  function ToLower(s: string): (r: string)
    ensures |r| == |s|
    ensures forall i :: 0 <= i < |s| ==> r[i] == LowerChar(s[i])
  {
    seq(|s|, i requires 0 <= i < |s| => LowerChar(s[i]))
  }

  /** Lower-casing leaves no ASCII capital, and lower-casing again changes nothing. */
  lemma ToLowerIdempotent(s: string)
    ensures forall i :: 0 <= i < |s| ==> !('A' <= ToLower(s)[i] <= 'Z')
    ensures ToLower(ToLower(s)) == ToLower(s)
  {
  }
}
