/**
 * The pieces of JavaScript value semantics that the quote editor's decisions
 * depend on: truthiness of row fields, string comparison with `<`,
 * `toLowerCase`, and `parseInt(s, 10)`.
 */
module Js {

  datatype Option<+T> = None | Some(value: T)

  /** A field of a quote row: `null`/`undefined`, a number, or a string. */
  datatype Val = Nothing | Number(n: int) | Text(s: string)

  /** JavaScript truthiness of a row field. */
  predicate Truthy(v: Val) {
    match v
    case Nothing => false
    case Number(n) => n != 0
    case Text(s) => s != ""
  }

  /** What `parseInt` returns: an integer, or NaN when no digit was found. */
  datatype Num = Int(i: int) | NaN

  /** `a < b` on strings: lexicographic comparison of characters. */
  predicate StrLess(a: string, b: string)
    decreases |a|
  {
    if b == [] then false
    else if a == [] then true
    else if a[0] != b[0] then a[0] < b[0]
    else StrLess(a[1..], b[1..])
  }

  /**
   * The physical-keyboard digit test `key >= '0' && key <= '9'`.  Since it
   * compares strings, it holds exactly for a key whose first character is
   * `0`..`8`, whatever follows, and for the key `9` alone.
   */
  predicate IsDigitKey(key: string) {
    !StrLess(key, "0") && !StrLess("9", key)
  }

  lemma DigitKeyTest(key: string)
    ensures IsDigitKey(key) <==> |key| > 0 && ('0' <= key[0] <= '8' || key == "9")
  {
    if key != [] {
      assert "0"[1..] == [] && "9"[1..] == [];
      assert StrLess(key, "0") <==> key[0] < '0';
      if key[0] == '9' {
        assert StrLess("9", key) <==> StrLess([], key[1..]);
        assert |key| == 1 ==> key == "9";
      }
    }
  }

  function LowerChar(c: char): char {
    if 'A' <= c <= 'Z' then (c as int + 32) as char else c
  }

  /** `toLowerCase`, on the ASCII letters. */
  function ToLower(s: string): (r: string)
    ensures |r| == |s| && forall i :: 0 <= i < |s| ==> r[i] == LowerChar(s[i])
  {
    seq(|s|, i requires 0 <= i < |s| => LowerChar(s[i]))
  }

  predicate IsDigit(c: char) {
    '0' <= c <= '9'
  }

  /** The characters `parseInt` skips before the number (white space and line terminators). */
  predicate IsJsSpace(c: char) {
    c in {'\t', '\n', '\U{000B}', '\U{000C}', '\r', ' ', '\U{00A0}', '\U{1680}',
          '\U{2028}', '\U{2029}', '\U{202F}', '\U{205F}', '\U{3000}', '\U{FEFF}'}
    || '\U{2000}' <= c <= '\U{200A}'
  }

  function TrimStart(s: string): (r: string)
    ensures |r| <= |s|
    ensures r == s[|s| - |r|..]
    ensures r != [] ==> !IsJsSpace(r[0])
  {
    if s != [] && IsJsSpace(s[0]) then TrimStart(s[1..]) else s
  }

  /** The longest prefix of `s` made of decimal digits. */
  function LeadingDigits(s: string): (r: string)
    ensures |r| <= |s| && r == s[..|r|]
    ensures forall i :: 0 <= i < |r| ==> IsDigit(r[i])
    ensures |r| < |s| ==> !IsDigit(s[|r|])
  {
    if s != [] && IsDigit(s[0]) then [s[0]] + LeadingDigits(s[1..]) else []
  }

  function DigitValue(c: char): nat
    requires IsDigit(c)
  {
    c as int - '0' as int
  }

  function DigitChar(d: nat): (c: char)
    requires d < 10
    ensures IsDigit(c) && DigitValue(c) == d
  {
    ('0' as int + d) as char
  }

  /** The value of a string of decimal digits, read from the left. */
  function DigitsValue(d: string): nat
    requires forall i :: 0 <= i < |d| ==> IsDigit(d[i])
  {
    if d == [] then 0 else DigitsValue(d[..|d| - 1]) * 10 + DigitValue(d[|d| - 1])
  }

  /**
   * `parseInt(s, 10)`: skip leading white space, read an optional sign, then
   * as many decimal digits as follow; NaN when there are none.
   */
  function ParseInt10(s: string): (r: Num)
    ensures r.NaN? <==> LeadingDigits(Unsigned(TrimStart(s))) == []
  {
    var t := TrimStart(s);
    var negative := t != [] && t[0] == '-';
    var digits := LeadingDigits(Unsigned(t));
    if digits == [] then NaN
    else
      var magnitude: int := DigitsValue(digits);
      Int(if negative then -magnitude else magnitude)
  }

  /** `t` without a leading `+` or `-`. */
  function Unsigned(t: string): string {
    if t != [] && (t[0] == '-' || t[0] == '+') then t[1..] else t
  }

  /** The decimal rendering of a natural number, as `String(n)` writes it. */
  function Decimal(n: nat): (r: string)
    ensures r != []
    ensures forall i :: 0 <= i < |r| ==> IsDigit(r[i])
  {
    if n < 10 then [DigitChar(n)] else Decimal(n / 10) + [DigitChar(n % 10)]
  }

  lemma {:induction false} DecimalValue(n: nat)
    ensures DigitsValue(Decimal(n)) == n
  {
    if n >= 10 {
      var d := Decimal(n);
      assert d[..|d| - 1] == Decimal(n / 10);
      DecimalValue(n / 10);
    }
  }

  lemma {:induction false} LeadingDigitsOfDigits(s: string)
    requires forall i :: 0 <= i < |s| ==> IsDigit(s[i])
    ensures LeadingDigits(s) == s
  {
    if s != [] {
      LeadingDigitsOfDigits(s[1..]);
    }
  }

  /** Reading back a rendered row index gives that index. */
  lemma ParseIntOfDecimal(n: nat)
    ensures ParseInt10(Decimal(n)) == Int(n)
  {
    var d := Decimal(n);
    assert TrimStart(d) == d;
    assert Unsigned(d) == d;
    LeadingDigitsOfDigits(d);
    DecimalValue(n);
  }
}
