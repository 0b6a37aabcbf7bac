/** Conversion of crypto amounts to US-dollar cents, over exact real arithmetic. */
module Currency {

  function Abs(x: real): real {
    if x < 0.0 then -x else x
  }

  /** Go's math.Round: to the nearest integer, halves away from zero. */
  function Round(x: real): int {
    if x >= 0.0 then (x + 0.5).Floor else -((0.5 - x).Floor)
  }

  /** The remainder of Go's % operator, which truncates toward zero. */
  function GoRem(n: int, d: nat): int
    requires d > 0
  {
    if n >= 0 then n % d else -((-n) % d)
  }

  function BankersRound(value: real): int {
    var cents := value * 100.0;
    var rounded := Round(cents);
    if Abs(cents - rounded as real) == 0.5 then
      if GoRem(rounded, 2) == 0 then rounded else rounded - 1
    else
      rounded
  }

  function CryptoToUSDCents(amount: real, rate: real): int {
    BankersRound(amount * rate)
  }

  /** n is x rounded to the nearest integer, ties to even (roundTiesToEven,
      section 4.3.1 of IEEE 754-2019). */
  predicate TiesToEven(x: real, n: int) {
    && Abs(x - n as real) <= 0.5
    && (Abs(x - n as real) == 0.5 ==> n % 2 == 0)
  }

  /** Rounding ties to even is monotone, hence single valued. */
  lemma TiesToEvenMonotone(x: real, y: real, n: int, m: int)
    requires x <= y && TiesToEven(x, n) && TiesToEven(y, m)
    ensures n <= m
  {
  }

  /** The inputs on which the code's half-way branch picks the wrong neighbour:
      negative, half-way, with an odd integer just below. */
  predicate NegativeOddTie(value: real) {
    var cents := value * 100.0;
    cents < 0.0 && cents - cents.Floor as real == 0.5 && cents.Floor % 2 == 1
  }

  lemma RoundBounds(x: real)
    ensures Abs(x - Round(x) as real) <= 0.5
    ensures Abs(x - Round(x) as real) == 0.5 ==>
              x - x.Floor as real == 0.5 && Round(x) == (if x >= 0.0 then x.Floor + 1 else x.Floor)
  {
    if x >= 0.0 {
      var f := (x + 0.5).Floor;
      assert f as real <= x + 0.5 < f as real + 1.0;
      if Abs(x - f as real) == 0.5 {
        assert x == f as real - 0.5;
        assert x.Floor == f - 1;
      }
    } else {
      var f := (0.5 - x).Floor;
      assert f as real <= 0.5 - x < f as real + 1.0;
      if Abs(x - (-f) as real) == 0.5 {
        assert x == -(f as real) + 0.5;
        assert x.Floor == -f;
      }
    }
  }

  /** BankersRound is banker's rounding exactly off the negative odd ties, and
      there it misses the true value by a cent and a half. */
  lemma BankersRoundIsTiesToEven(value: real)
    ensures TiesToEven(value * 100.0, BankersRound(value)) <==> !NegativeOddTie(value)
    ensures NegativeOddTie(value) ==> Abs(value * 100.0 - BankersRound(value) as real) == 1.5
    ensures BankersRound(-0.025) == -4
  {
    var cents := value * 100.0;
    var rounded := Round(cents);
    RoundBounds(cents);
    if NegativeOddTie(value) {
      var n := cents.Floor;
      assert 0.5 - cents == (-n) as real;
      assert rounded == n;
      assert BankersRound(value) == n - 1;
    }
  }

  /** The conversion the settlement uses, on the amounts it is given: the unique
      nearest cent with ties to even. */
  lemma CryptoToUSDCentsIsNearestEven(amount: real, rate: real, n: int)
    requires amount >= 0.0 && rate >= 0.0
    ensures TiesToEven(amount * rate * 100.0, n) <==> n == CryptoToUSDCents(amount, rate)
    ensures Abs(100.0 * (amount * rate) - CryptoToUSDCents(amount, rate) as real) <= 0.5
    ensures CryptoToUSDCents(amount, rate) >= 0
  {
    var x, cents := amount * rate * 100.0, CryptoToUSDCents(amount, rate);
    assert amount * rate >= 0.0;
    BankersRoundIsTiesToEven(amount * rate);
    if TiesToEven(x, n) {
      TiesToEvenMonotone(x, x, n, cents);
      TiesToEvenMonotone(x, x, cents, n);
    }
  }

  lemma CryptoToUSDCentsMonotone(amount: real, more: real, rate: real)
    requires 0.0 <= amount <= more && rate >= 0.0
    ensures CryptoToUSDCents(amount, rate) <= CryptoToUSDCents(more, rate)
  {
    var x, y := amount * rate, more * rate;
    assert y - x == (more - amount) * rate >= 0.0;
    CryptoToUSDCentsIsNearestEven(amount, rate, CryptoToUSDCents(amount, rate));
    CryptoToUSDCentsIsNearestEven(more, rate, CryptoToUSDCents(more, rate));
    TiesToEvenMonotone(x * 100.0, y * 100.0, CryptoToUSDCents(amount, rate), CryptoToUSDCents(more, rate));
  }
}
