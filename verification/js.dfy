/**
  The slice of JavaScript value semantics the client code leans on: optional
  values, "falsy" tests and the `||` fallback, `parseInt` on decimal text
  and on hexadecimal text after a `0x` prefix,
  division that may leave the finite numbers, and `toLowerCase`.
  Conversions that involve floating-point syntax (`Number(s)`, `parseFloat(s)`)
  are not defined here; callers receive them as a `NumberSyntax` parameter.
 */
module Js {

  datatype Option<+T> = None | Some(value: T)

  /** A field of a JSON record: absent (`null` or `undefined`), a string or a finite number. */
  datatype Value = Missing | Str(s: string) | Num(n: real)

  /** JavaScript's falsy values among `Value`s: `null`, `undefined`, `""` and `0`. */
  predicate Falsy(v: Value) {
    v.Missing? || v == Str("") || v == Num(0.0)
  }

  /** `a || b` on record fields. */
  function Or(a: Value, b: Value): Value {
    if Falsy(a) then b else a
  }

  /** The string conversions a JavaScript engine performs and this model leaves abstract:
      `Number(s)` (`None` stands for `NaN`) and `parseFloat(s)` (`None` stands for `NaN`). */
  datatype NumberSyntax = NumberSyntax(toNumber: string -> Option<real>, parseFloat: string -> Option<real>)

  /** `isNaN(v)` for a value that has already passed a truthiness test. */
  function IsNaN(v: Value, num: NumberSyntax): bool {
    match v
    case Str(s) => num.toNumber(s).None?
    case Num(_) => false
    case Missing => true
  }

  /** A JavaScript number as a division can produce it. */
  datatype Number = Finite(r: real) | PosInfinity | NegInfinity | NaN

  /** IEEE division as JavaScript performs it, with exact arithmetic on the finite side. */
  function Divide(a: real, b: real): (q: Number)
    ensures q.Finite? <==> b != 0.0
    ensures q.Finite? ==> q.r * b == a
    ensures b == 0.0 && a == 0.0 ==> q == NaN
  {
    if b != 0.0 then Finite(a / b)
    else if a > 0.0 then PosInfinity
    else if a < 0.0 then NegInfinity
    else NaN
  }

  // ---------------------------------------------------------------------------
  // parseInt with the default radix: decimal, or hexadecimal after a `0x` prefix

  predicate IsDigit(c: char) {
    '0' <= c <= '9'
  }

  /** The white space `parseInt` skips before the number: the ECMAScript white space
      (tab, vertical tab, form feed, byte-order mark and the Unicode space separators)
      and the four line terminators. */
  predicate IsSpace(c: char) {
    c == ' ' || c == '\t' || c == '\n' || c == '\r' || c == '\U{B}' || c == '\U{C}'
    || c == '\U{A0}' || c == '\U{1680}' || ('\U{2000}' <= c <= '\U{200A}')
    || c == '\U{2028}' || c == '\U{2029}' || c == '\U{202F}' || c == '\U{205F}'
    || c == '\U{3000}' || c == '\U{FEFF}'
  }

  /** How many white-space characters `s` starts with. */
  function LeadingSpaces(s: string): (k: nat)
    ensures k <= |s|
    ensures forall i :: 0 <= i < k ==> IsSpace(s[i])
    ensures k == |s| || !IsSpace(s[k])
  {
    if |s| > 0 && IsSpace(s[0]) then
      var k := 1 + LeadingSpaces(s[1..]);
      assert forall i :: 1 <= i < k ==> s[i] == s[1..][i - 1];
      k
    else 0
  }

  /** The value of `c` as a digit of a radix up to 36: `0`-`9`, then the letters in
      either case; 36 for a character that is a digit of no radix. */
  function CharValue(c: char): (v: nat)
    ensures v <= 36
    ensures v < 10 <==> IsDigit(c)
  {
    if '0' <= c <= '9' then (c - '0') as nat
    else if 'a' <= c <= 'z' then (c - 'a') as nat + 10
    else if 'A' <= c <= 'Z' then (c - 'A') as nat + 10
    else 36
  }

  predicate IsDigitIn(c: char, radix: nat) {
    CharValue(c) < radix
  }

  predicate AllDigitsIn(s: string, radix: nat) {
    forall i :: 0 <= i < |s| ==> IsDigitIn(s[i], radix)
  }

  /** The longest prefix of `s` made of digits of `radix`. */
  function DigitPrefix(s: string, radix: nat): (r: string)
    ensures |r| <= |s| && r == s[..|r|]
    ensures AllDigitsIn(r, radix)
    ensures |r| == |s| || !IsDigitIn(s[|r|], radix)
  {
    if |s| > 0 && IsDigitIn(s[0], radix) then [s[0]] + DigitPrefix(s[1..], radix) else []
  }

  /** The number a string of digits of `radix` denotes. */
  function DigitsValue(ds: string, radix: nat): nat
    requires AllDigitsIn(ds, radix)
  {
    if |ds| == 0 then 0
    else
      var prefix := DigitsValue(ds[..|ds| - 1], radix);
      MulNat(radix, prefix);
      radix * prefix + CharValue(ds[|ds| - 1])
  }

  lemma MulNat(a: nat, b: nat)
    ensures a * b >= 0
  {
  }

  /** `0x` or `0X`: with no radix given, `parseInt` reads the rest as hexadecimal. */
  predicate HexPrefixed(s: string) {
    |s| >= 2 && s[0] == '0' && (s[1] == 'x' || s[1] == 'X')
  }

  /** The number the longest run of digits of `radix` at the start of `u` denotes;
      `None` when `u` does not start with such a digit. */
  function ReadDigits(u: string, radix: nat): (r: Option<int>)
    ensures r.None? <==> u == [] || !IsDigitIn(u[0], radix)
    ensures r.Some? ==> r.value >= 0
  {
    var ds := DigitPrefix(u, radix);
    if ds == [] then None else Some(DigitsValue(ds, radix) as int)
  }

  /** An unsigned number: hexadecimal after `0x` or `0X`, decimal otherwise. */
  function ParseUnsigned(u: string): (r: Option<int>)
    ensures !HexPrefixed(u) ==> r == ReadDigits(u, 10)
    ensures HexPrefixed(u) ==> r == ReadDigits(u[2..], 16)
  {
    if HexPrefixed(u) then ReadDigits(u[2..], 16) else ReadDigits(u, 10)
  }

  /** An optional sign, then an unsigned number. */
  function ParseSigned(t: string): (r: Option<int>)
  {
    if |t| > 0 && t[0] == '-' then
      match ParseUnsigned(t[1..])
      case None => None
      case Some(m) => Some(-m)
    else if |t| > 0 && t[0] == '+' then ParseUnsigned(t[1..])
    else ParseUnsigned(t)
  }

  /** `parseInt(s)`: leading white space, an optional sign, an optional `0x` prefix,
      then the longest run of digits of the radix that prefix selects; `None` stands
      for `NaN` (no digit where the number should start). */
  function ParseInt(s: string): (r: Option<int>)
  {
    ParseSigned(s[LeadingSpaces(s)..])
  }

  /** `parseInt(s) || 0`: NaN and zero both give 0. */
  function ParseIntOrZero(s: string): (n: int)
    ensures ParseInt(s).None? ==> n == 0
    ensures ParseInt(s).Some? ==> n == ParseInt(s).value
  {
    match ParseInt(s)
    case None => 0
    case Some(k) => k
  }

  function DigitChar(d: nat): (c: char)
    requires d < 10
    ensures IsDigit(c) && CharValue(c) == d
  {
    (d as int + '0' as int) as char
  }

  /** The decimal text of a natural number, as `String(n)` writes it: no leading zero. */
  function Decimal(n: nat): (s: string)
    ensures |s| > 0 && AllDigitsIn(s, 10)
    ensures s[0] == '0' <==> n == 0
    decreases n
  {
    if n < 10 then [DigitChar(n)] else Decimal(n / 10) + [DigitChar(n % 10)]
  }

  lemma {:induction false} DecimalValue(n: nat)
    ensures DigitsValue(Decimal(n), 10) == n
    decreases n
  {
    if n >= 10 {
      var s := Decimal(n);
      assert s[..|s| - 1] == Decimal(n / 10);
      DecimalValue(n / 10);
    }
  }

  /** Digits followed by anything that does not start with a digit: the digits are the prefix. */
  lemma {:induction false} DigitPrefixOfDigits(ds: string, tail: string, radix: nat)
    requires AllDigitsIn(ds, radix)
    requires tail == [] || !IsDigitIn(tail[0], radix)
    ensures DigitPrefix(ds + tail, radix) == ds
    decreases |ds|
  {
    if |ds| == 0 {
      assert ds + tail == tail;
    } else {
      assert (ds + tail)[1..] == ds[1..] + tail;
      DigitPrefixOfDigits(ds[1..], tail, radix);
      assert [ds[0]] + ds[1..] == ds;
    }
  }

  /** `parseInt` reads back the decimal text of `n`, and stops at the first non-digit after
      it: `parseInt("3.7")` and `parseInt("3e2")` are both 3. Only a lone `0` followed by
      `x` or `X` is read differently, as the start of a hexadecimal number. */
  lemma ParseIntDecimal(n: nat, tail: string)
    requires tail == [] || !IsDigit(tail[0])
    requires n == 0 ==> tail == [] || (tail[0] != 'x' && tail[0] != 'X')
    ensures ParseInt(Decimal(n) + tail) == Some(n)
  {
    var s := Decimal(n) + tail;
    assert s[0] == Decimal(n)[0];
    assert !HexPrefixed(s) by {
      if n == 0 && |tail| > 0 {
        assert s[1] == tail[0];
      }
    }
    ParseIntUnsigned(s);
    DigitPrefixOfDigits(Decimal(n), tail, 10);
    DecimalValue(n);
  }

  /** Text that starts with a decimal digit and no `0x` is read in decimal, unsigned. */
  lemma ParseIntUnsigned(s: string)
    requires |s| > 0 && IsDigit(s[0]) && !HexPrefixed(s)
    ensures ParseInt(s) == Some(DigitsValue(DigitPrefix(s, 10), 10))
  {
    assert !IsSpace(s[0]) && s[0] != '-' && s[0] != '+';
    NothingToTrim(s);
    assert ParseSigned(s) == ParseUnsigned(s);
    assert IsDigitIn(s[0], 10);
    assert DigitPrefix(s, 10) != [];
  }

  lemma NothingToTrim(s: string)
    requires s == [] || !IsSpace(s[0])
    ensures ParseInt(s) == ParseSigned(s)
  {
    assert s[0..] == s;
  }

  /** The hexadecimal prefix: `parseInt("0x1F")` is 31. */
  lemma ParseIntHex()
    ensures ParseInt("0x1F") == Some(31)
  {
    var s := "0x1F";
    NothingToTrim(s);
    assert s[2..] == "1F";
    assert ParseSigned(s) == ParseUnsigned(s) == ReadDigits("1F", 16);
    ReadOneF();
  }

  lemma ReadOneF()
    ensures ReadDigits("1F", 16) == Some(31)
  {
    assert DigitPrefix("1F", 16) == "1F" by {
      assert AllDigitsIn("1F", 16);
      DigitPrefixOfDigits("1F", [], 16);
      assert "1F" + [] == "1F";
    }
    assert DigitsValue("1F", 16) == 31 by {
      assert "1F"[..1] == "1";
      assert "1"[..0] == [];
    }
  }

  /** With no digit after the `0x` prefix, `parseInt("0x")` is `NaN`, although the text
      starts with the digit 0. */
  lemma ParseIntBarePrefix()
    ensures ParseInt("0x") == None
  {
    NothingToTrim("0x");
    assert "0x"[2..] == [];
  }

  /** Text with no digit at the place the number should start reads as `NaN`. */
  lemma ParseIntNoDigits(s: string)
    requires forall i :: 0 <= i < |s| ==> !IsDigit(s[i])
    ensures ParseInt(s) == None
  {
    var k := LeadingSpaces(s);
    var t := s[k..];
    if |t| > 0 && (t[0] == '-' || t[0] == '+') {
      if |t| > 1 {
        assert t[1..][0] == s[k + 1];
      }
    } else if |t| > 0 {
      assert t[0] == s[k];
    }
  }

  // ---------------------------------------------------------------------------
  // toLowerCase

  function LowerChar(c: char): char {
    if 'A' <= c <= 'Z' then (c as int - 'A' as int + 'a' as int) as char else c
  }

  /** `s.toLowerCase()` on the ASCII letters. */
  function Lower(s: string): (r: string)
    ensures |r| == |s|
    ensures forall i :: 0 <= i < |s| ==> r[i] == LowerChar(s[i])
  {
    seq(|s|, i requires 0 <= i < |s| => LowerChar(s[i]))
  }

  /** Lower-casing leaves no upper-case ASCII letter and is idempotent. */
  lemma LowerIsLower(s: string)
    ensures forall i :: 0 <= i < |s| ==> !('A' <= Lower(s)[i] <= 'Z')
    ensures Lower(Lower(s)) == Lower(s)
  {
  }
}
