/** The few JavaScript value conversions the extension relies on:
    `String(n)` / template interpolation of an integer, `parseInt(s)` with no
    radix (ECMAScript section 19.2.5, "parseInt ( string, radix )"), and
    `Array.prototype.indexOf` on a list of strings. */
module JsValues {
  import opened Wrappers

  // ---------------------------------------------------------------------
  // Integer to decimal text
  // ---------------------------------------------------------------------

  predicate IsDecimalDigit(c: char) {
    '0' <= c <= '9'
  }

  function DigitChar(d: nat): (c: char)
    requires d < 10
    ensures IsDecimalDigit(c)
    ensures DigitValue(c) == d
  {
    "0123456789"[d]
  }

  /** Decimal rendering of a natural number, most significant digit first. */
  function NatToString(n: nat): (s: string)
    ensures |s| > 0
    ensures forall k :: 0 <= k < |s| ==> IsDecimalDigit(s[k])
    ensures n > 0 ==> s[0] != '0'
    decreases n
  {
    if n < 10 then [DigitChar(n)] else NatToString(n / 10) + [DigitChar(n % 10)]
  }

  /** What JavaScript produces for an integral number in `'' + n`,
      `String(n)` or a template literal. */
  function IntToString(i: int): (s: string)
    ensures |s| > 0
    ensures i >= 0 ==> forall k :: 0 <= k < |s| ==> IsDecimalDigit(s[k])
    ensures i < 0 ==> s[0] == '-' && forall k :: 1 <= k < |s| ==> IsDecimalDigit(s[k])
  {
    if i < 0 then "-" + NatToString(-i) else NatToString(i)
  }

  /** The rendering is canonical: zero is "0" and no other number gets a
      leading zero, after the sign for a negative one. */
  lemma IntToStringCanonical(i: int)
    ensures i == 0 ==> IntToString(i) == "0"
    ensures i > 0 ==> IntToString(i)[0] != '0'
    ensures i < 0 ==> |IntToString(i)| > 1 && IntToString(i)[1] != '0'
  {
  }

  // ---------------------------------------------------------------------
  // parseInt(s) with the radix left undefined
  // ---------------------------------------------------------------------

  /** StrWhiteSpaceChar: the white space and line terminators parseInt skips
      (tab, vertical tab, form feed, space, no-break space, byte order mark,
      the other space separators of category Zs, LF, CR, LS and PS). */
  predicate IsStrWhiteSpace(c: char) {
    c == '\t' || c == '\n' || c == '\U{000B}' || c == '\U{000C}' || c == '\r'
    || c == ' ' || c == '\U{00A0}' || c == '\U{1680}'
    || ('\U{2000}' <= c <= '\U{200A}')
    || c == '\U{2028}' || c == '\U{2029}' || c == '\U{202F}' || c == '\U{205F}'
    || c == '\U{3000}' || c == '\U{FEFF}'
  }

  /** The value of `c` as a digit of radix up to 36 (0-9, then a/A = 10, ...). */
  function DigitValue(c: char): nat {
    if '0' <= c <= '9' then (c as int) - ('0' as int)
    else if 'a' <= c <= 'z' then (c as int) - ('a' as int) + 10
    else if 'A' <= c <= 'Z' then (c as int) - ('A' as int) + 10
    else 36
  }

  predicate IsRadixDigit(c: char, radix: nat) {
    DigitValue(c) < radix
  }

  function TrimLeadingWhiteSpace(s: string): (t: string)
    ensures |t| <= |s| && t == s[|s| - |t|..]
    ensures t == [] || !IsStrWhiteSpace(t[0])
    ensures forall k :: 0 <= k < |s| - |t| ==> IsStrWhiteSpace(s[k])
  {
    if |s| > 0 && IsStrWhiteSpace(s[0]) then TrimLeadingWhiteSpace(s[1..]) else s
  }

  /** The longest prefix of `s` made of radix digits. */
  function DigitPrefix(s: string, radix: nat): (d: string)
    ensures |d| <= |s| && d == s[..|d|]
    ensures forall k :: 0 <= k < |d| ==> IsRadixDigit(d[k], radix)
    ensures |d| == |s| || !IsRadixDigit(s[|d|], radix)
  {
    if |s| > 0 && IsRadixDigit(s[0], radix) then [s[0]] + DigitPrefix(s[1..], radix) else []
  }

  /** The mathematical value of a digit string, most significant digit first. */
  function DigitsValue(d: string, radix: nat): nat {
    if d == [] then 0
    else DigitsValue(d[..|d| - 1], radix) * radix + DigitValue(d[|d| - 1])
  }

  /** `parseInt(s)`: `None` stands for NaN. Leading white space is skipped, one
      sign is accepted, a `0x`/`0X` prefix switches to radix 16, and the longest
      run of digits that follows is read; no digits at all gives NaN. */
  function ParseInt(s: string): (r: Option<int>)
    ensures (forall k :: 0 <= k < |s| ==> !IsDecimalDigit(s[k])) ==> r.None?
    ensures r.Some? && r.value < 0 ==> '-' in s
    ensures |s| > 0 && IsDecimalDigit(s[0]) && (|s| == 1 || IsDecimalDigit(s[1])) ==>
      r.Some? && r.value >= 0
  {
    var t := TrimLeadingWhiteSpace(s);
    var negative := |t| > 0 && t[0] == '-';
    var u := if |t| > 0 && (t[0] == '-' || t[0] == '+') then t[1..] else t;
    var hex := |u| >= 2 && u[0] == '0' && (u[1] == 'x' || u[1] == 'X');
    var radix := if hex then 16 else 10;
    var digits := DigitPrefix(if hex then u[2..] else u, radix);
    var magnitude: int := DigitsValue(digits, radix);
    if digits == [] then None
    else if negative then Some(-magnitude)
    else Some(magnitude)
  }

  /** JavaScript's `a < b` where `a` may be NaN: a comparison with NaN is false. */
  predicate LessThan(a: Option<int>, b: int) {
    a.Some? && a.value < b
  }

  lemma {:induction false} DigitsValueOfNatToString(n: nat)
    ensures DigitsValue(NatToString(n), 10) == n
    decreases n
  {
    var s := NatToString(n);
    if n >= 10 {
      DigitsValueOfNatToString(n / 10);
      assert s[..|s| - 1] == NatToString(n / 10);
    }
  }

  /** Reading back what `String(n)` wrote gives `n` again. */
  lemma ParseIntOfIntToString(n: int)
    ensures ParseInt(IntToString(n)) == Some(n)
  {
    var s := IntToString(n);
    var m: nat := if n < 0 then -n else n;
    var body := NatToString(m);
    assert TrimLeadingWhiteSpace(s) == s;
    var u := if n < 0 then s[1..] else s;
    assert u == body;
    assert |u| >= 2 ==> u[1] != 'x' && u[1] != 'X';
    assert DigitPrefix(u, 10) == u;
    DigitsValueOfNatToString(m);
  }

  /** Distinct integers have distinct renderings. */
  lemma IntToStringInjective(a: int, b: int)
    requires IntToString(a) == IntToString(b)
    ensures a == b
  {
    ParseIntOfIntToString(a);
    ParseIntOfIntToString(b);
  }

  // ---------------------------------------------------------------------
  // Array.prototype.indexOf
  // ---------------------------------------------------------------------

  /** The first index holding `x`, or -1 when there is none. */
  function IndexOf(s: seq<string>, x: string): (r: int)
    ensures -1 <= r < |s|
    ensures r == -1 <==> x !in s
    ensures r >= 0 ==> s[r] == x && x !in s[..r]
  {
    if s == [] then -1
    else if s[0] == x then 0
    else
      var k := IndexOf(s[1..], x);
      if k < 0 then -1
      else
        assert s[..k + 1] == [s[0]] + s[1..][..k];
        k + 1
  }
}
