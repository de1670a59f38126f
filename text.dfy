/** The JavaScript string primitives the core relies on: hex digits, ASCII case mapping
    (`toUpperCase`/`toLowerCase`), `trim`, `slice`, `replace` of one character, decimal
    rendering of a count inside a template literal, and `parseInt(s, 16)`. */
module Text {
  import opened Results

  predicate IsHexDigit(c: char) {
    '0' <= c <= '9' || 'a' <= c <= 'f' || 'A' <= c <= 'F'
  }

  function HexDigitValue(c: char): (v: nat)
    requires IsHexDigit(c)
    ensures v < 16
  {
    if '0' <= c <= '9' then c as int - '0' as int
    else if 'a' <= c <= 'f' then c as int - 'a' as int + 10
    else c as int - 'A' as int + 10
  }

  /** The upper-case hex digit of value `v`; `HexDigitValue` inverts it. */
  function HexDigitChar(v: nat): (c: char)
    requires v < 16
    ensures IsHexDigit(c) && HexDigitValue(c) == v && !('a' <= c <= 'f')
  {
    if v < 10 then (v + '0' as int) as char else (v - 10 + 'A' as int) as char
  }

  function UpperChar(c: char): char {
    if 'a' <= c <= 'z' then (c as int - 32) as char else c
  }

  function LowerChar(c: char): char {
    if 'A' <= c <= 'Z' then (c as int + 32) as char else c
  }

  /** `String.prototype.toUpperCase`, on the ASCII letters. */
  function Upper(s: string): (r: string)
    ensures |r| == |s| && forall i :: 0 <= i < |s| ==> r[i] == UpperChar(s[i])
  {
    seq(|s|, i requires 0 <= i < |s| => UpperChar(s[i]))
  }

  /** `String.prototype.toLowerCase`, on the ASCII letters. */
  function Lower(s: string): (r: string)
    ensures |r| == |s| && forall i :: 0 <= i < |s| ==> r[i] == LowerChar(s[i])
  {
    seq(|s|, i requires 0 <= i < |s| => LowerChar(s[i]))
  }

  /** The characters `trim` removes: ECMAScript WhiteSpace and LineTerminator. */
  predicate IsWhitespace(c: char) {
    c == '\t' || c == '\n' || c == '\U{B}' || c == '\U{C}' || c == '\r' || c == ' '
    || c == '\U{A0}' || c == '\U{1680}' || ('\U{2000}' <= c <= '\U{200A}')
    || c == '\U{2028}' || c == '\U{2029}' || c == '\U{202F}' || c == '\U{205F}'
    || c == '\U{3000}' || c == '\U{FEFF}'
  }

  function TrimStart(s: string): (r: string)
    ensures |r| <= |s| && r == s[|s| - |r|..]
    ensures r != [] ==> !IsWhitespace(r[0])
    ensures forall i :: 0 <= i < |s| - |r| ==> IsWhitespace(s[i])
  {
    if s != [] && IsWhitespace(s[0]) then TrimStart(s[1..]) else s
  }

  function TrimEnd(s: string): (r: string)
    ensures |r| <= |s| && r == s[..|r|]
    ensures r != [] ==> !IsWhitespace(r[|r| - 1])
    ensures forall i :: |r| <= i < |s| ==> IsWhitespace(s[i])
  {
    if s != [] && IsWhitespace(s[|s| - 1]) then TrimEnd(s[..|s| - 1]) else s
  }

  /** `String.prototype.trim`: the result is empty exactly when every character is white space. */
  function Trim(s: string): (r: string)
    ensures r == [] <==> forall i :: 0 <= i < |s| ==> IsWhitespace(s[i])
    ensures r != [] ==> !IsWhitespace(r[0]) && !IsWhitespace(r[|r| - 1])
  {
    var t := TrimStart(s);
    assert forall i :: |s| - |t| <= i < |s| ==> s[i] == t[i - (|s| - |t|)];
    TrimEnd(t)
  }

  /** A string that neither starts nor ends with white space is its own trim. */
  lemma TrimUnchanged(s: string)
    requires s != [] && !IsWhitespace(s[0]) && !IsWhitespace(s[|s| - 1])
    ensures Trim(s) == s
  {
    assert TrimStart(s) == s;
  }

  /** `s.slice(a, b)` for non-negative bounds: both are clamped to the length, and an empty
      range gives the empty string. */
  function Slice(s: string, a: nat, b: nat): (r: string)
    ensures b <= |s| && a <= b ==> r == s[a..b]
    ensures a <= |s| < b ==> r == s[a..]
    ensures |s| <= a || b <= a ==> r == []
  {
    var lo := if a <= |s| then a else |s|;
    var hi := if b <= |s| then b else |s|;
    if lo <= hi then s[lo..hi] else []
  }

  /** `s.replace(c, "")` with a one-character pattern: only the first occurrence goes. */
  function RemoveFirst(s: string, c: char): (r: string)
    ensures c !in s ==> r == s
    ensures c in s ==> |r| == |s| - 1
    ensures c in s ==> exists k :: 0 <= k < |s| && s[k] == c && c !in s[..k] && r == s[..k] + s[k + 1..]
  {
    if s == [] then []
    else if s[0] == c then
      assert s[..0] + s[1..] == s[1..];
      s[1..]
    else
      var rest := RemoveFirst(s[1..], c);
      if c in s[1..] then
        var k :| 0 <= k < |s| - 1 && s[1..][k] == c && c !in s[1..][..k] && rest == s[1..][..k] + s[1..][k + 1..];
        SpliceAfterHead(s, k, c, rest);
        [s[0]] + rest
      else
        [s[0]] + rest
  }

  /** Removing position `k + 1` of `s` keeps the head in front of the tail with position `k`
      removed. */
  lemma SpliceAfterHead(s: string, k: nat, c: char, rest: string)
    requires k < |s| - 1 && s[0] != c && s[1..][k] == c && c !in s[1..][..k]
    requires rest == s[1..][..k] + s[1..][k + 1..]
    ensures s[k + 1] == c && c !in s[..k + 1] && [s[0]] + rest == s[..k + 1] + s[k + 2..]
  {
    assert s[..k + 1] == [s[0]] + s[1..][..k];
    assert s[k + 2..] == s[1..][k + 1..];
  }

  function DigitChar(d: nat): (c: char)
    requires d < 10
    ensures '0' <= c <= '9'
  {
    (d + '0' as int) as char
  }

  /** The number a string of decimal digits denotes, most significant digit first. */
  function DecimalValue(s: string): nat
    requires forall i :: 0 <= i < |s| ==> '0' <= s[i] <= '9'
  {
    if s == [] then 0 else 10 * DecimalValue(s[..|s| - 1]) + (s[|s| - 1] as int - '0' as int)
  }

  /** The decimal text of `n`, as a template literal renders a non-negative integer: a
      non-empty run of digits that denotes `n`, with no leading zero. */
  function NatToString(n: nat): (s: string)
    ensures |s| >= 1 && forall i :: 0 <= i < |s| ==> '0' <= s[i] <= '9'
    ensures DecimalValue(s) == n
    ensures s[0] == '0' ==> n == 0
  {
    if n < 10 then [DigitChar(n)]
    else
      var front := NatToString(n / 10);
      var s := front + [DigitChar(n % 10)];
      assert s[..|s| - 1] == front;
      s
  }

  /** Different numbers render differently. */
  lemma NatToStringInjective(a: nat, b: nat)
    ensures NatToString(a) == NatToString(b) <==> a == b
  {
  }

  predicate AllDigits(s: string) {
    forall i :: 0 <= i < |s| ==> '0' <= s[i] <= '9'
  }

  /** A run of digits followed by a text that starts with a non-digit is read off
      unambiguously. */
  lemma DigitRunSplit(a: string, u: string, b: string, v: string)
    requires AllDigits(a) && AllDigits(b)
    requires u != [] && !('0' <= u[0] <= '9') && v != [] && !('0' <= v[0] <= '9')
    requires a + u == b + v
    ensures a == b && u == v
  {
    var w := a + u;
    assert forall i :: 0 <= i < |a| ==> w[i] == a[i];
    assert forall i :: 0 <= i < |b| ==> w[i] == b[i];
    assert w[|a|] == u[0] && w[|b|] == v[0];
    assert |a| == |b|;
    assert a == w[..|a|] && b == w[..|b|];
    assert u == w[|a|..] && v == w[|b|..];
  }

  /** A template `head${x}middle${y}tail` whose middle and tail start with a non-digit
      determines the two digit runs filled into it. */
  lemma DigitRunsInjective(head: string, middle: string, tail: string, x: string, y: string, x': string, y': string)
    requires AllDigits(x) && AllDigits(y) && AllDigits(x') && AllDigits(y')
    requires middle != [] && !('0' <= middle[0] <= '9') && tail != [] && !('0' <= tail[0] <= '9')
    requires head + x + middle + y + tail == head + x' + middle + y' + tail
    ensures x == x' && y == y'
  {
    var u, u' := middle + y + tail, middle + y' + tail;
    assert head + x + middle + y + tail == head + (x + u);
    assert head + x' + middle + y' + tail == head + (x' + u');
    assert x + u == (head + (x + u))[|head|..];
    assert x' + u' == (head + (x' + u'))[|head|..];
    DigitRunSplit(x, u, x', u');
    assert y + tail == u[|middle|..] && y' + tail == u'[|middle|..];
    DigitRunSplit(y, tail, y', tail);
  }

  /** The longest prefix of `s` made of hex digits. */
  function HexPrefix(s: string): (r: string)
    ensures |r| <= |s| && r == s[..|r|]
    ensures forall i :: 0 <= i < |r| ==> IsHexDigit(r[i])
    ensures |r| < |s| ==> !IsHexDigit(s[|r|])
  {
    if s != [] && IsHexDigit(s[0]) then [s[0]] + HexPrefix(s[1..]) else []
  }

  /** The base-16 value of a string of hex digits, most significant first. */
  function HexValue(d: string): (v: nat)
    requires forall i :: 0 <= i < |d| ==> IsHexDigit(d[i])
  {
    if d == [] then 0 else 16 * HexValue(d[..|d| - 1]) + HexDigitValue(d[|d| - 1])
  }

  /** `parseInt(s, 16)`: leading white space, an optional sign and an optional `0x`/`0X`
      prefix are skipped, then the longest run of hex digits is read; `None` is `NaN`.
      (A negative zero is the integer 0.) */
  function ParseIntHex(s: string): (r: Option<int>)
    ensures r.Some? ==> exists i :: 0 <= i < |s| && IsHexDigit(s[i])
  {
    var t := TrimStart(s);
    var negative := t != [] && t[0] == '-';
    var unsigned := if t != [] && (t[0] == '-' || t[0] == '+') then t[1..] else t;
    var body := if |unsigned| >= 2 && unsigned[0] == '0' && (unsigned[1] == 'x' || unsigned[1] == 'X')
                then unsigned[2..] else unsigned;
    var digits := HexPrefix(body);
    if digits == [] then None
    else
      var magnitude: int := HexValue(digits);
      Some(if negative then -magnitude else magnitude)
  }

  /** A run of hex digits is its own longest hex-digit prefix. */
  lemma {:induction false} HexPrefixWhole(d: string)
    requires forall i :: 0 <= i < |d| ==> IsHexDigit(d[i])
    ensures HexPrefix(d) == d
  {
    if d != [] {
      HexPrefixWhole(d[1..]);
      assert [d[0]] + d[1..] == d;
    }
  }

  /** The value of two hex digits. */
  lemma HexValueTwo(s: string)
    requires |s| == 2 && IsHexDigit(s[0]) && IsHexDigit(s[1])
    ensures HexValue(s) == 16 * HexDigitValue(s[0]) + HexDigitValue(s[1])
  {
    assert s[..1] == [s[0]] && [s[0]][..0] == [];
    assert HexValue([s[0]]) == HexDigitValue(s[0]);
  }

  /** On two hex digits, `parseInt(s, 16)` is the byte they spell. */
  lemma ParseIntHexTwoDigits(s: string)
    requires |s| == 2 && IsHexDigit(s[0]) && IsHexDigit(s[1])
    ensures ParseIntHex(s) == Some(16 * HexDigitValue(s[0]) + HexDigitValue(s[1]))
  {
    assert !IsWhitespace(s[0]) && s[0] != '-' && s[0] != '+' && s[1] != 'x' && s[1] != 'X';
    assert TrimStart(s) == s;
    HexPrefixWhole(s);
    HexValueTwo(s);
  }
}
