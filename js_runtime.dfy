/**
  The few JavaScript built-ins that the components lean on, stated as
  functions on strings and integers: the template literal `${n}` for an
  integer 0 <= n < 10^21, `parseInt` without a radix, the remainder operator
  `%`, `String.prototype.endsWith`, and the lookup `URLSearchParams.get`
  that Next.js performs on a pushed URL.
 */
module JsRuntime {

  datatype Option<T> = None | Some(value: T)

  // ---------------------------------------------------------------------
  // The remainder operator
  // ---------------------------------------------------------------------

  /** JavaScript's `a % n`: the sign of the result follows the dividend. */
  function JsRem(a: int, n: int): (r: int)
    requires n > 0
    ensures a >= 0 ==> r == a % n
    ensures a < 0 ==> -n < r <= 0 && r == -((-a) % n)
  {
    if a >= 0 then a % n else -((-a) % n)
  }

  // ---------------------------------------------------------------------
  // Digits
  // ---------------------------------------------------------------------

  /** A digit of the given radix (10 or 16), in either letter case. */
  predicate IsRadixDigit(c: char, radix: nat) {
    if radix == 16 then ('0' <= c <= '9') || ('a' <= c <= 'f') || ('A' <= c <= 'F')
    else '0' <= c <= '9'
  }

  function RadixDigitValue(c: char, radix: nat): (d: nat)
    requires IsRadixDigit(c, radix)
    ensures radix == 16 ==> d < 16
    ensures radix != 16 ==> d < 10
  {
    if '0' <= c <= '9' then (c as int) - ('0' as int)
    else if 'a' <= c <= 'f' then (c as int) - ('a' as int) + 10
    else (c as int) - ('A' as int) + 10
  }

  predicate AllDigits(s: string, radix: nat) {
    forall i :: 0 <= i < |s| ==> IsRadixDigit(s[i], radix)
  }

  /** The decimal digit character of a value below ten. */
  function DigitChar(d: nat): (c: char)
    requires d < 10
    ensures IsRadixDigit(c, 10) && RadixDigitValue(c, 10) == d
    ensures c == '0' <==> d == 0
  {
    (('0' as int) + d) as char
  }

  /** The value of a digit string read most significant digit first. */
  function DigitsValue(s: string, radix: nat): nat
    requires AllDigits(s, radix)
  {
    if s == [] then 0
    else radix * DigitsValue(s[..|s| - 1], radix) + RadixDigitValue(s[|s| - 1], radix)
  }

  // ---------------------------------------------------------------------
  // Number to string: `${n}` for an integer 0 <= n < 10^21
  // ---------------------------------------------------------------------

  /** The shortest decimal text of n: non-empty, only digits, no leading zero. */
  function ShowNat(n: nat): (s: string)
    ensures |s| > 0 && AllDigits(s, 10)
    ensures |s| > 1 ==> s[0] != '0'
    ensures s[0] == '0' <==> n == 0
  {
    if n < 10 then [DigitChar(n)] else ShowNat(n / 10) + [DigitChar(n % 10)]
  }

  lemma {:induction false} DigitsValueOfShowNat(n: nat)
    ensures DigitsValue(ShowNat(n), 10) == n
  {
    if n >= 10 {
      var s := ShowNat(n);
      assert s[..|s| - 1] == ShowNat(n / 10);
      DigitsValueOfShowNat(n / 10);
    }
  }

  // ---------------------------------------------------------------------
  // parseInt(s) with no radix argument
  // ---------------------------------------------------------------------

  /** ECMAScript WhiteSpace and LineTerminator code points. */
  predicate IsJsSpace(c: char) {
    c == '\t' || c == '\n' || c == '\U{0B}' || c == '\U{0C}' || c == '\r' || c == ' '
    || c == '\U{A0}' || c == '\U{1680}' || ('\U{2000}' <= c <= '\U{200A}')
    || c == '\U{2028}' || c == '\U{2029}' || c == '\U{202F}' || c == '\U{205F}'
    || c == '\U{3000}' || c == '\U{FEFF}'
  }

  /** No digit of either radix is white space. */
  lemma DigitIsNotSpace(c: char)
    requires IsRadixDigit(c, 16)
    ensures !IsJsSpace(c)
  {
  }

  /** s without its leading white space. */
  function TrimStart(s: string): (r: string)
    ensures |r| <= |s| && r == s[|s| - |r|..]
    ensures forall i :: 0 <= i < |s| - |r| ==> IsJsSpace(s[i])
    ensures |r| > 0 ==> !IsJsSpace(r[0])
  {
    if |s| > 0 && IsJsSpace(s[0]) then TrimStart(s[1..]) else s
  }

  /** The longest prefix of s made of digits of the radix. */
  function DigitPrefix(s: string, radix: nat): (d: string)
    ensures |d| <= |s| && d == s[..|d|] && AllDigits(d, radix)
    ensures |d| < |s| ==> !IsRadixDigit(s[|d|], radix)
  {
    if |s| > 0 && IsRadixDigit(s[0], radix) then [s[0]] + DigitPrefix(s[1..], radix) else []
  }

  /** Whether the text after the sign starts with the hexadecimal prefix "0x" or "0X". */
  predicate HasHexPrefix(u: string) {
    |u| >= 2 && u[0] == '0' && (u[1] == 'x' || u[1] == 'X')
  }

  /**
    `parseInt(s)`: leading white space is skipped, one optional sign is read,
    a "0x"/"0X" prefix switches to radix 16, and the longest run of digits
    that follows is the value; no digit at all gives NaN, here None.
   */
  function ParseInt(s: string): Option<int> {
    ParseSigned(TrimStart(s))
  }

  /** parseInt after the white space: one optional sign. */
  function ParseSigned(t: string): Option<int> {
    if |t| > 0 && t[0] == '-' then
      match ParseUnsigned(t[1..])
      case None => None
      case Some(v) => Some(-v)
    else if |t| > 0 && t[0] == '+' then ParseUnsigned(t[1..])
    else ParseUnsigned(t)
  }

  /** parseInt after the sign: the radix prefix, then the digits. */
  function ParseUnsigned(u: string): Option<int> {
    if HasHexPrefix(u) then ParseDigits(u[2..], 16) else ParseDigits(u, 10)
  }

  function ParseDigits(v: string, radix: nat): Option<int> {
    var d := DigitPrefix(v, radix);
    if d == [] then None else Some(DigitsValue(d, radix))
  }

  lemma {:induction false} DigitPrefixOfDigits(s: string, rest: string, radix: nat)
    requires AllDigits(s, radix)
    requires rest == [] || !IsRadixDigit(rest[0], radix)
    ensures DigitPrefix(s + rest, radix) == s
  {
    if s != [] {
      assert (s + rest)[1..] == s[1..] + rest;
      DigitPrefixOfDigits(s[1..], rest, radix);
    } else {
      assert s + rest == rest;
    }
  }

  /**
    parseInt reads back the decimal text of every n >= 0, whatever follows
    it, as long as what follows does not begin with a digit (nor with an 'x'
    that would turn "0" into the hexadecimal prefix).
   */
  lemma ParseIntShowNat(n: nat, rest: string)
    requires rest == [] || (!IsRadixDigit(rest[0], 10) && rest[0] != 'x' && rest[0] != 'X')
    ensures ParseInt(ShowNat(n) + rest) == Some(n)
  {
    var s := ShowNat(n) + rest;
    assert s[0] == ShowNat(n)[0];
    DigitIsNotSpace(s[0]);
    assert TrimStart(s) == s;
    UnsignedShowNat(n, rest);
  }

  /** In particular the bare decimal text of n reads back as n. */
  lemma ParseIntOfShowNat(n: nat)
    ensures ParseInt(ShowNat(n)) == Some(n)
  {
    ParseIntShowNat(n, []);
    assert ShowNat(n) + [] == ShowNat(n);
  }

  lemma UnsignedShowNat(n: nat, rest: string)
    requires rest == [] || (!IsRadixDigit(rest[0], 10) && rest[0] != 'x' && rest[0] != 'X')
    ensures ParseUnsigned(ShowNat(n) + rest) == Some(n)
  {
    var s := ShowNat(n) + rest;
    assert !HasHexPrefix(s) by {
      if |s| >= 2 && s[0] == '0' {
        assert ShowNat(n)[0] == '0';
        assert n == 0;
        assert |ShowNat(n)| == 1;
        assert s[1] == rest[0];
      }
    }
    DigitPrefixOfDigits(ShowNat(n), rest, 10);
    DigitsValueOfShowNat(n);
  }

  /** A leading '-' negates the value; white space before the sign is skipped. */
  lemma ParseIntNegative(spaces: string, n: nat)
    requires forall i :: 0 <= i < |spaces| ==> IsJsSpace(spaces[i])
    ensures ParseInt(spaces + "-" + ShowNat(n)) == Some(-(n as int))
  {
    var t := "-" + ShowNat(n);
    assert spaces + "-" + ShowNat(n) == spaces + t;
    assert t[0] == '-';
    TrimSpaces(spaces, t);
    SignedNegative(ShowNat(n));
    UnsignedShowNat(n, []);
    assert ShowNat(n) + [] == ShowNat(n);
  }

  lemma SignedNegative(d: string)
    ensures ParseSigned("-" + d) == (match ParseUnsigned(d) case None => None case Some(v) => Some(-v))
  {
    assert ("-" + d)[0] == '-';
    assert ("-" + d)[1..] == d;
  }

  lemma {:induction false} TrimSpaces(spaces: string, s: string)
    requires forall i :: 0 <= i < |spaces| ==> IsJsSpace(spaces[i])
    requires s == [] || !IsJsSpace(s[0])
    ensures TrimStart(spaces + s) == s
  {
    if spaces != [] {
      assert (spaces + s)[1..] == spaces[1..] + s;
      TrimSpaces(spaces[1..], s);
    } else {
      assert spaces + s == s;
    }
  }

  /** Text that starts with neither white space, a sign nor a digit is NaN. */
  lemma ParseIntNaN(s: string)
    requires |s| > 0 && !IsJsSpace(s[0]) && !IsRadixDigit(s[0], 10) && s[0] != '-' && s[0] != '+'
    ensures ParseInt(s) == None
  {
    assert TrimStart(s) == s;
  }

  /** parseInt("0") is 0: the text the featured page falls back to. */
  lemma ParseIntZero()
    ensures ParseInt("0") == Some(0)
  {
    var z := ShowNat(0);
    assert z == "0" + [];
    ParseIntShowNat(0, []);
  }

  /** The hexadecimal prefix is honoured: "0x" followed by hex digits reads in radix 16. */
  lemma ParseIntHex(digits: string)
    requires |digits| > 0 && AllDigits(digits, 16)
    ensures ParseInt("0x" + digits) == Some(DigitsValue(digits, 16))
  {
    var s := "0x" + digits;
    assert s[0] == '0';
    DigitIsNotSpace(s[0]);
    assert TrimStart(s) == s;
    assert HasHexPrefix(s);
    assert s[2..] == digits + [];
    DigitPrefixOfDigits(digits, [], 16);
  }

  /** Slicing a concatenation at the seam gives back its two parts. */
  lemma SliceAtSeam(a: string, b: string)
    ensures (a + b)[..|a|] == a && (a + b)[|a|..] == b
  {
  }

  // ---------------------------------------------------------------------
  // Splitting strings at a separator
  // ---------------------------------------------------------------------

  /** The text of s before the first c (all of s when c does not occur). */
  function Before(s: string, c: char): (r: string)
    ensures |r| <= |s| && r == s[..|r|] && c !in r
    ensures |r| < |s| ==> s[|r|] == c
  {
    if |s| == 0 || s[0] == c then [] else [s[0]] + Before(s[1..], c)
  }

  /** The text of s after the first c (empty when c does not occur). */
  function After(s: string, c: char): (r: string)
    ensures c in s ==> s == Before(s, c) + [c] + r
    ensures c !in s ==> r == []
  {
    if |s| == 0 then []
    else if s[0] == c then s[1..]
    else
      var r := After(s[1..], c);
      assert s == [s[0]] + s[1..];
      assert c in s ==> s == [s[0]] + (Before(s[1..], c) + [c] + r);
      r
  }

  lemma {:induction false} SplitAtFirst(a: string, c: char, b: string)
    requires c !in a
    ensures Before(a + [c] + b, c) == a
    ensures After(a + [c] + b, c) == b
  {
    if a != [] {
      assert (a + [c] + b)[1..] == a[1..] + [c] + b;
      SplitAtFirst(a[1..], c, b);
    } else {
      assert a + [c] + b == [c] + b;
    }
  }

  lemma {:induction false} BeforeAbsent(s: string, c: char)
    requires c !in s
    ensures Before(s, c) == s
  {
    if s != [] {
      BeforeAbsent(s[1..], c);
    }
  }

  // ---------------------------------------------------------------------
  // URL query lookup
  // ---------------------------------------------------------------------

  /** The query of a URL: after the first '?', up to the fragment's '#'. */
  function QueryOf(url: string): string {
    After(Before(url, '#'), '?')
  }

  /**
    `URLSearchParams.get(name)` on a query: the value of the first
    '&'-separated pair whose key is name, the empty string for a key with
    no '='; None when no pair has that key.
   */
  function SearchParam(query: string, name: string): (r: Option<string>)
    ensures r.Some? ==> '&' !in r.value
    decreases |query|
  {
    var pair := Before(query, '&');
    if |pair| > 0 && Before(pair, '=') == name then Some(After(pair, '='))
    else if '&' in query then SearchParam(After(query, '&'), name)
    else None
  }

  /** A query made of the one pair "name=value" yields that value for name. */
  lemma SearchParamSingle(name: string, value: string)
    requires '=' !in name && '&' !in name && '&' !in value && |name| > 0
    ensures SearchParam(name + "=" + value, name) == Some(value)
  {
    var q := name + "=" + value;
    assert '&' !in q by {
      assert forall i :: 0 <= i < |q| ==> q[i] == (if i < |name| then name[i] else if i == |name| then '=' else value[i - |name| - 1]);
    }
    BeforeAbsent(q, '&');
    assert q == name + ['='] + value;
    SplitAtFirst(name, '=', value);
  }

  // ---------------------------------------------------------------------
  // String.prototype.endsWith
  // ---------------------------------------------------------------------

  predicate EndsWith(s: string, suffix: string) {
    |suffix| <= |s| && s[|s| - |suffix|..] == suffix
  }

  lemma EndsWithAppend(prefix: string, suffix: string)
    ensures EndsWith(prefix + suffix, suffix)
  {
    assert (prefix + suffix)[|prefix|..] == suffix;
  }
}
