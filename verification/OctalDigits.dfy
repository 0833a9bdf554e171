/** File modes on the wire: the number whose decimal digits are the octal digits of the mode.
    Formatting and parsing go through digit sequences, most significant digit first. */
module OctalDigits {
  const MAX_INT64: int := 0x7fff_ffff_ffff_ffff

  newtype int64 = x: int | -0x8000_0000_0000_0000 <= x <= 0x7fff_ffff_ffff_ffff

  type Digits = seq<nat>

  datatype Base = Octal | Decimal {
    function Size(): nat { if Octal? then 8 else 10 }
    function Times(n: nat): nat { if Octal? then 8 * n else 10 * n }
    function Quotient(n: nat): nat { if Octal? then n / 8 else n / 10 }
    function Digit(n: nat): nat { if Octal? then n % 8 else n % 10 }
    function Power(k: nat): nat { if k == 0 then 1 else Times(Power(k - 1)) }

    function Format(n: nat): (d: Digits)
      ensures d != [] && forall i :: 0 <= i < |d| ==> d[i] < Size()
      ensures n > 0 ==> d[0] > 0
    {
      if n < Size() then [n] else Format(Quotient(n)) + [Digit(n)]
    }

    function Value(d: Digits): nat {
      if d == [] then 0 else Times(Value(d[..|d| - 1])) + d[|d| - 1]
    }

    lemma {:induction false} ValueOfFormat(n: nat)
      ensures Value(Format(n)) == n
    {
      if n < Size() {
        assert [n][..0] == [];
      } else {
        var front := Format(Quotient(n));
        ValueOfFormat(Quotient(n));
        assert (front + [Digit(n)])[..|front|] == front;
      }
    }

    lemma {:induction false} FormatOfValue(d: Digits)
      requires d != [] && forall i :: 0 <= i < |d| ==> d[i] < Size()
      requires |d| > 1 ==> d[0] > 0
      ensures Format(Value(d)) == d
      ensures |d| > 1 ==> Value(d) >= Size()
    {
      var front, last := d[..|d| - 1], d[|d| - 1];
      assert d == front + [last];
      if |d| == 1 {
        ValueOfNothing();
        FormatDigit(0, last);
      } else {
        hide Format;
        FormatOfValue(front);
        PositiveValue(front);
        FormatDigit(Value(front), last);
      }
    }

    lemma {:induction false} ValueOfNothing()
      ensures Value([]) == 0
    {
    }

    lemma {:induction false} PositiveValue(d: Digits)
      requires d != [] && d[0] > 0
      ensures Value(d) > 0
    {
      if |d| > 1 {
        PositiveValue(d[..|d| - 1]);
      }
    }

    /** One more digit. */
    lemma {:induction false} FormatDigit(n: nat, last: nat)
      requires last < Size()
      ensures Format(Times(n) + last) == if n == 0 then [last] else Format(n) + [last]
      ensures n > 0 ==> Times(n) + last >= Size()
    {
      assert n > 0 ==> Quotient(Times(n) + last) == n && Digit(Times(n) + last) == last;
    }

    lemma {:induction false} DigitCount(n: nat, k: nat)
      requires k > 0
      ensures |Format(n)| <= k <==> n < Power(k)
    {
      if k == 1 {
        assert Power(1) == Times(Power(0));
      } else if n >= Size() {
        DigitCount(Quotient(n), k - 1);
      } else {
        PowerGrows(1, k);
        assert Power(1) == Times(Power(0));
      }
    }

    lemma {:induction false} PowerGrows(a: nat, b: nat)
      requires a <= b
      ensures 1 <= Power(a) <= Power(b)
    {
      if a < b {
        PowerGrows(a, b - 1);
      } else if a > 0 {
        PowerGrows(a - 1, a - 1);
      }
    }
  }

  function Abs(n: int): nat { if n < 0 then -n else n }

  function Sign(n: int): int { if n < 0 then -1 else 1 }

  /** What the decimal parser makes of the sign and the octal digits of `n`, before its range check. */
  function Reading(n: int): int {
    Sign(n) * Decimal.Value(Octal.Format(Abs(n)))
  }

  /** The parser reports an error outside the 64-bit range; the mode is then passed on unchanged. */
  function OctalDigits(mode: int64): int64 {
    var value := Reading(mode as int);
    if -MAX_INT64 - 1 <= value <= MAX_INT64 then value as int64 else mode
  }

  /** Eight to the nineteenth. */
  const LIMIT: nat := Octal.Power(19)

  lemma {:induction false} ValueBounds(d: Digits)
    requires d != [] && d[0] > 0 && forall i :: 0 <= i < |d| ==> d[i] <= 7
    ensures Decimal.Power(|d| - 1) <= Decimal.Value(d) < 8 * Decimal.Power(|d| - 1)
  {
    var front := d[..|d| - 1];
    if front == [] {
      assert Decimal.Value(d) == d[0];
    } else {
      ValueBounds(front);
      assert front[0] == d[0];
    }
  }

  lemma {:induction false} PowersOfTen()
    ensures Decimal.Power(18) == 1000000000000000000
    ensures Decimal.Power(19) == 10000000000000000000
  {
    assert Decimal.Power(6) == 1000000;
    assert Decimal.Power(12) == 1000000000000;
  }

  /** The octal digits of an integer, read as decimal, fit 64 bits exactly below the limit. */
  lemma {:induction false} ReadingFits(n: int)
    ensures Abs(n) < LIMIT <==> -MAX_INT64 - 1 <= Reading(n) <= MAX_INT64
    ensures Abs(n) >= LIMIT ==> Abs(Reading(n)) > MAX_INT64 + 1
  {
    var d := Octal.Format(Abs(n));
    Octal.DigitCount(Abs(n), 19);
    if n != 0 {
      ValueBounds(d);
      PowersOfTen();
      if |d| <= 19 {
        Decimal.PowerGrows(|d| - 1, 18);
      } else {
        Decimal.PowerGrows(19, |d| - 1);
      }
    } else {
      assert d == [0] && [0][..0] == [];
      Octal.PowerGrows(0, 19);
    }
  }

  /** Exactly for magnitudes below eight to the nineteenth the result has, as its decimal digits,
      the octal digits of the mode, and reading those digits in base eight gives the mode back;
      every other mode is returned unchanged, and is then not its own octal reading. */
  lemma {:induction false} OctalDigitsMeaning(mode: int64)
    ensures OctalDigits(mode) as int == Reading(mode as int) <==> Abs(mode as int) < LIMIT
    ensures Abs(mode as int) >= LIMIT ==> OctalDigits(mode) == mode
    ensures Abs(mode as int) < LIMIT ==>
      var r := OctalDigits(mode) as int;
      && Decimal.Format(Abs(r)) == Octal.Format(Abs(mode as int))
      && Sign(mode as int) * Octal.Value(Decimal.Format(Abs(r))) == mode as int
  {
    var n := mode as int;
    var d := Octal.Format(Abs(n));
    ReadingFits(n);
    assert |d| > 1 ==> n != 0;
    Decimal.FormatOfValue(d);
    Octal.ValueOfFormat(Abs(n));
    assert Abs(Reading(n)) == Decimal.Value(d);
  }
}
