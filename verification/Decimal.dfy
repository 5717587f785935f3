/** Decimal conversion of 32-bit integers into a caller's buffer, the most negative one included. */
module Decimal {

  type Int32 = v: int | -0x8000_0000 <= v < 0x8000_0000

  const INT_MIN: Int32 := -0x8000_0000

  /** Division by ten as the machine does it, towards zero. */
  function Quotient(v: Int32): Int32 {
    var n: int := v;
    if n >= 0 then n / 10 else -(-n / 10)
  }

  function Remainder(v: Int32): int {
    v - 10 * Quotient(v)
  }

  /** Negation in 32 bits: the most negative value is its own. */
  function Negate(v: Int32): Int32 {
    if v == INT_MIN then v else -v
  }

  function Abs(v: int): nat {
    if v < 0 then -v else v
  }

  function Digit(d: int): char
    requires -10 < d < 10
  {
    (48 + d) as char
  }

  // -------- What a decimal text is, and what it means --------

  predicate IsDigit(c: char) {
    '0' <= c <= '9'
  }

  function Value(c: char): nat
    requires IsDigit(c)
  {
    c as int - 48
  }

  /** Digits only, at least one, and no leading zero except in "0" itself. */
  ghost predicate IsNumeral(ds: seq<char>) {
    ds != [] && (forall i :: 0 <= i < |ds| ==> IsDigit(ds[i])) && (|ds| > 1 ==> ds[0] != '0')
  }

  ghost function Number(ds: seq<char>): nat
    requires forall i :: 0 <= i < |ds| ==> IsDigit(ds[i])
  {
    if ds == [] then 0 else 10 * Number(ds[..|ds| - 1]) + Value(ds[|ds| - 1])
  }

  /** A numeral, with a minus sign in front if it is negative; "-0" is not a decimal. */
  ghost predicate IsDecimal(t: seq<char>) {
    if t != [] && t[0] == '-' then IsNumeral(t[1..]) && Number(t[1..]) != 0 else IsNumeral(t)
  }

  ghost function Meaning(t: seq<char>): int
    requires IsDecimal(t)
  {
    if t[0] == '-' then 0 - Number(t[1..]) else Number(t)
  }

  // -------- The digits of a number --------

  ghost function Digits(n: nat): (ds: seq<char>)
    ensures ds != []
  {
    if n < 10 then [Digit(n)] else Digits(n / 10) + [Digit(n % 10)]
  }

  lemma {:induction false} DigitsMean(n: nat)
    ensures IsNumeral(Digits(n)) && Number(Digits(n)) == n
    ensures n > 0 ==> Digits(n)[0] != '0'
  {
    if n >= 10 {
      DigitsMean(n / 10);
      assert Digits(n)[..|Digits(n)| - 1] == Digits(n / 10);
    } else {
      assert Digits(n)[..0] == [];
    }
  }

  function Power(k: nat): nat {
    if k == 0 then 1 else 10 * Power(k - 1)
  }

  /** A numeral of several digits is at least the power of ten of its first place. */
  lemma {:induction false} NumeralGrows(ds: seq<char>)
    requires IsNumeral(ds) && ds[0] != '0'
    ensures Number(ds) >= Power(|ds| - 1)
  {
    if |ds| > 1 {
      NumeralGrows(ds[..|ds| - 1]);
    } else {
      assert ds[..0] == [];
    }
  }

  /** Two numerals of one number are the same text. */
  lemma {:induction false} NumeralUnique(ds: seq<char>)
    requires IsNumeral(ds)
    ensures ds == Digits(Number(ds))
  {
    var k, n := |ds| - 1, Number(ds);
    if k == 0 {
      assert ds[..0] == [];
      assert ds == [ds[0]];
    } else {
      NumeralUnique(ds[..k]);
      NumeralGrows(ds);
      PowerPositive(k - 1);
      assert n / 10 == Number(ds[..k]) && n % 10 == Value(ds[k]);
      assert ds == ds[..k] + [ds[k]];
    }
  }

  lemma {:induction false} PowerPositive(k: nat)
    ensures Power(k) >= 1
  {
    if k > 0 {
      PowerPositive(k - 1);
    }
  }

  lemma {:induction false} PowerGrows(j: nat, k: nat)
    requires j <= k
    ensures Power(j) <= Power(k)
  {
    if j < k {
      PowerGrows(j, k - 1);
    }
  }

  /** The magnitude of a 32-bit integer has at most ten digits. */
  lemma TenDigits(n: nat)
    requires n <= 0x8000_0000
    ensures |Digits(n)| <= 10
  {
    DigitsMean(n);
    assert Power(5) == 100_000;
    assert Power(10) == 100_000 * Power(5);
    if |Digits(n)| > 10 {
      NumeralGrows(Digits(n));
      PowerGrows(10, |Digits(n)| - 1);
      assert false;
    }
  }

  // -------- The conversion --------

  ghost function Text(v: Int32): seq<char> {
    if v < 0 then ['-'] + Digits(Abs(v)) else Digits(v)
  }

  /** The one decimal of each 32-bit integer is the text that cvtdec stores, and it fits in 11 places. */
  lemma TextIsTheDecimal(v: Int32, t: seq<char>)
    ensures t == Text(v) <==> IsDecimal(t) && Meaning(t) == v
    ensures |Text(v)| <= 11
  {
    DigitsMean(Abs(v));
    TenDigits(Abs(v));
    assert Text(v)[if v < 0 then 1 else 0..] == Digits(Abs(v));
    if IsDecimal(t) && Meaning(t) == v {
      if t[0] == '-' {
        NumeralUnique(t[1..]);
        assert t == [t[0]] + t[1..];
      } else {
        NumeralUnique(t);
      }
    }
  }

  /** cvtdec0, which is only reached with a value that is not negative or could not be negated. */
  method CvtDec0(buf: array<char>, at: nat, value: Int32) returns (next: nat)
    requires value >= 0 || value == INT_MIN
    requires at + |Digits(Abs(value))| <= buf.Length
    modifies buf
    ensures next == at + |Digits(Abs(value))|
    ensures buf[..] == old(buf[..at]) + Digits(Abs(value)) + old(buf[next..])
    decreases Abs(value)
  {
    hide Digits;
    ghost var was := buf[..];
    var quotient, low := Quotient(value), value;
    if quotient < 0 {
      quotient, low := 214748364, 8;
    }
    LastDigit(value, quotient, low);
    next := at;
    if quotient != 0 {
      next := CvtDec0(buf, at, quotient);
    }
    ghost var higher := if quotient != 0 then Digits(quotient) else [];
    assert buf[..next] == was[..at] + higher && buf[next + 1..] == was[next + 1..];
    ghost var before := buf[..];
    buf[next] := Digit(Remainder(low));
    assert buf[..] == before[..next] + [Digit(Remainder(low))] + before[next + 1..];
    next := next + 1;
  }

  /** The numbers that cvtdec0 goes on with give the digits of the magnitude, for the most negative value too. */
  lemma LastDigit(value: Int32, quotient: Int32, low: Int32)
    requires value >= 0 || value == INT_MIN
    requires quotient == if value >= 0 then Quotient(value) else 214748364
    requires low == if value >= 0 then value else 8
    ensures 0 <= quotient && quotient <= Abs(value) && (value != 0 ==> quotient < Abs(value))
    ensures Digits(Abs(value)) ==
            (if quotient != 0 then Digits(quotient) else []) + [Digit(Remainder(low))]
  {
    assert Abs(value) / 10 == quotient;
  }

  /** cvtdec: the decimal of `value` and a NUL; nothing behind them changes. */
  method CvtDec(buf: array<char>, value: Int32) returns (len: nat)
    requires buf.Length >= 12
    modifies buf
    ensures 1 <= len <= 11 && buf[..len] == Text(value) && buf[len] == '\0'
    ensures buf[len + 1..] == old(buf[len + 1..])
    ensures IsDecimal(buf[..len]) && Meaning(buf[..len]) == value
  {
    var bp, magnitude := 0, value;
    TextIsTheDecimal(value, Text(value));
    if value < 0 {
      buf[0] := '-';
      bp := 1;
      magnitude := Negate(value);
    }
    len := CvtDec0(buf, bp, magnitude);
    ghost var before := buf[..];
    assert before[..len] == Text(value);
    buf[len] := '\0';
    assert buf[..len] == before[..len];
  }
}
