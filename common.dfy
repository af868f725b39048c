/** Machine integers, C++ integer arithmetic and Qt's number-to-text conversions
    shared by the parser, the slice tree and the media file manager. */
module Common {

  datatype Option<T> = None | Some(value: T)

  const INT32_MIN: int := -0x8000_0000
  const INT32_MAX: int := 0x7fff_ffff
  const INT64_MIN: int := -0x8000_0000_0000_0000
  const INT64_MAX: int := 0x7fff_ffff_ffff_ffff
  const TWO_32: int := 0x1_0000_0000
  const TWO_64: int := 0x1_0000_0000_0000_0000

  /** C++ `int` (32 bits on every platform the program targets) and `int64_t`. */
  type int32 = x: int | INT32_MIN <= x <= INT32_MAX
  type int64 = x: int | INT64_MIN <= x <= INT64_MAX

  /** Two's-complement wrap-around of a mathematical integer into 64 bits. */
  function WrapInt64(x: int): (r: int64)
    ensures (r - x) % TWO_64 == 0
    ensures INT64_MIN <= x <= INT64_MAX ==> r == x
  {
    (x - INT64_MIN) % TWO_64 + INT64_MIN
  }

  /** Conversion of a wider integer to a 32-bit `int` (`static_cast<int>`): keeps the low 32 bits. */
  function WrapInt32(x: int): (r: int32)
    ensures (r - x) % TWO_32 == 0
    ensures INT32_MIN <= x <= INT32_MAX ==> r == x
  {
    (x - INT32_MIN) % TWO_32 + INT32_MIN
  }

  /** The quotient of natural numbers by repeated subtraction (kept free of `/` so that
      formulas mentioning it stay linear). */
  function Quotient(a: nat, b: nat): nat
    requires b > 0
    decreases a
  {
    if a < b then 0 else 1 + Quotient(a - b, b)
  }

  /** The repeated-subtraction quotient leaves a remainder between 0 and the divisor. */
  lemma {:induction false} QuotientBounds(a: nat, b: nat)
    requires b > 0
    ensures Quotient(a, b) * b <= a < Quotient(a, b) * b + b
    decreases a
  {
    if a >= b {
      QuotientBounds(a - b, b);
      assert Quotient(a, b) * b == Quotient(a - b, b) * b + b;
    }
  }

  /** A multiple of a positive number strictly between its negation and itself is zero. */
  lemma MultipleInsideIsZero(k: int, b: int)
    requires b > 0 && -b < k * b < b
    ensures k == 0
  {
  }

  /** Euclidean division is characterised by its remainder bounds. */
  lemma DivUnique(a: int, b: int, q: int)
    requires b > 0 && q * b <= a < q * b + b
    ensures a / b == q
  {
    var d, m := a / b, a % b;
    assert a == d * b + m && 0 <= m < b;
    assert (d - q) * b == d * b - q * b;
    MultipleInsideIsZero(d - q, b);
  }

  lemma QuotientIsDivision(a: nat, b: nat)
    requires b > 0
    ensures Quotient(a, b) == a / b
  {
    QuotientBounds(a, b);
    DivUnique(a, b, Quotient(a, b));
  }

  /** C++ integer division by a positive divisor: the quotient is truncated toward zero. */
  function TruncDiv(a: int, b: int): (q: int)
    requires b > 0
    ensures a >= 0 ==> q >= 0
    ensures a < 0 ==> q <= 0
  {
    if a >= 0 then Quotient(a, b) as int else -(Quotient(-a, b) as int)
  }

  /** For a non-negative dividend the truncated quotient is the ordinary one; for a negative
      dividend it is the negated quotient of the magnitude. */
  lemma TruncDivIsDivision(a: int, b: int)
    requires b > 0
    ensures a >= 0 ==> TruncDiv(a, b) == a / b
    ensures a < 0 ==> TruncDiv(a, b) == -((-a) / b)
  {
    if a >= 0 {
      QuotientIsDivision(a, b);
    } else {
      QuotientIsDivision(-a, b);
    }
  }

  // ---------------------------------------------------------------------------
  // Number formatting (QString::number, QString::arg) and its inverse

  predicate ValidBase(base: int) { 2 <= base <= 16 }

  /** Qt writes digits above 9 as lower-case letters. */
  function DigitChar(d: nat): (c: char)
    requires d < 16
    ensures c != '-' && c != ':'
  {
    if d < 10 then ('0' as int + d) as char else ('a' as int + (d - 10)) as char
  }

  function DigitValue(c: char): (d: Option<nat>)
    ensures d.Some? ==> d.value < 16
  {
    if '0' <= c <= '9' then Some(c as int - '0' as int)
    else if 'a' <= c <= 'f' then Some(c as int - 'a' as int + 10)
    else None
  }

  lemma DigitRoundTrip(d: nat)
    requires d < 16
    ensures DigitValue(DigitChar(d)) == Some(d)
  {
  }

  /** The digits of `n` in `base`, most significant first, without leading zeros. */
  function NatToString(n: nat, base: int): (s: string)
    requires ValidBase(base)
    decreases n
  {
    if n < base then [DigitChar(n)] else NatToString(n / base, base) + [DigitChar(n % base)]
  }

  /** `QString::number(n, base)`: a minus sign followed by the digits of |n|. */
  function IntToString(n: int, base: int): (s: string)
    requires ValidBase(base)
  {
    if n < 0 then "-" + NatToString(-n, base) else NatToString(n, base)
  }

  function Decimal(n: int): string { IntToString(n, 10) }

  function Hex(n: int): string { IntToString(n, 16) }

  /** Reads back a non-empty string of digits in `base`; None for anything else. */
  function ParseNat(s: string, base: int): (r: Option<nat>)
    requires ValidBase(base)
  {
    if |s| == 0 then None
    else
      var d := DigitValue(s[|s| - 1]);
      if d.None? || d.value >= base then None
      else if |s| == 1 then Some(d.value)
      else
        match ParseNat(s[..|s| - 1], base)
        case None => None
        case Some(h) => Some(h * base + d.value)
  }

  /** Reads back an optional minus sign followed by digits in `base`. */
  function ParseInt(s: string, base: int): (r: Option<int>)
    requires ValidBase(base)
  {
    if |s| > 0 && s[0] == '-' then
      match ParseNat(s[1..], base)
      case None => None
      case Some(m) => Some(-(m as int))
    else
      match ParseNat(s, base)
      case None => None
      case Some(m) => Some(m)
  }

  lemma {:induction false} NatToStringDigits(n: nat, base: int)
    requires ValidBase(base)
    ensures |NatToString(n, base)| > 0
    ensures forall c :: c in NatToString(n, base) ==> DigitValue(c).Some? && DigitValue(c).value < base
    decreases n
  {
    if n < base {
      DigitRoundTrip(n);
    } else {
      NatToStringDigits(n / base, base);
      DigitRoundTrip(n % base);
    }
  }

  /** Appending one digit to a numeral multiplies its value by the base and adds the digit. */
  lemma ParseNatSnoc(init: string, c: char, base: int)
    requires ValidBase(base) && |init| > 0
    requires ParseNat(init, base).Some?
    requires DigitValue(c).Some? && DigitValue(c).value < base
    ensures ParseNat(init + [c], base) == Some(ParseNat(init, base).value * base + DigitValue(c).value)
  {
    var s := init + [c];
    assert s[..|s| - 1] == init && s[|s| - 1] == c && |s| > 1;
  }

  lemma DivMod(n: nat, base: int)
    requires ValidBase(base)
    ensures (n / base) * base + n % base == n
    ensures 0 <= n % base < base
    ensures n >= base ==> n / base < n
  {
  }

  lemma {:induction false} ParseNatToString(n: nat, base: int)
    requires ValidBase(base)
    ensures ParseNat(NatToString(n, base), base) == Some(n)
    decreases n
  {
    if n < base {
      DigitRoundTrip(n);
    } else {
      var h, d := n / base, n % base;
      DivMod(n, base);
      ParseNatToString(h, base);
      NatToStringDigits(h, base);
      DigitRoundTrip(d);
      assert NatToString(n, base) == NatToString(h, base) + [DigitChar(d)];
      ParseNatSnoc(NatToString(h, base), DigitChar(d), base);
    }
  }

  /** Formatting an integer and reading it back gives the integer: the text is faithful. */
  lemma ParseIntToString(n: int, base: int)
    requires ValidBase(base)
    ensures ParseInt(IntToString(n, base), base) == Some(n)
  {
    if n < 0 {
      var digits := NatToString(-n, base);
      ParseNatToString(-n, base);
      assert ("-" + digits)[1..] == digits;
    } else {
      var digits := NatToString(n, base);
      NatToStringDigits(n, base);
      ParseNatToString(n, base);
      assert digits[0] in digits && DigitValue('-').None?;
    }
  }

  /** Formatted integers never contain a colon and are never empty. */
  lemma IntToStringShape(n: int, base: int)
    requires ValidBase(base)
    ensures |IntToString(n, base)| > 0
    ensures ':' !in IntToString(n, base)
    ensures forall c :: c in IntToString(n, base) ==> c == '-' || DigitValue(c).Some?
  {
    NatToStringDigits(if n < 0 then -n else n, base);
  }
}
