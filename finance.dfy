/** Annuity arithmetic used by the loan servicing of the projection engine.
    The engine asks numpy-financial for the fixed payment that amortises a
    balance; this module states that payment in closed form over exact reals
    and proves that it really does pay the balance off. */
module Finance {

  /** An amount grown by one period at `rate`. */
  function Grown(amount: real, rate: real): real
  {
    amount * (1.0 + rate)
  }

  /** One period's interest on `balance` at `rate`. */
  function InterestOn(balance: real, rate: real): real
  {
    balance * rate
  }

  /** Tax at `rate` on `income` (negative income gives negative tax). */
  function TaxOn(income: real, rate: real): real
  {
    income * rate
  }

  /** An amount grown for n periods at `rate`. */
  function Compounded(amount: real, rate: real, n: nat): real
  {
    if n == 0 then amount else Grown(Compounded(amount, rate, n - 1), rate)
  }

  /** x raised to a natural power. */
  function Pow(x: real, n: nat): real
  {
    if n == 0 then 1.0 else x * Pow(x, n - 1)
  }

  /** The geometric sum 1 + x + ... + x^(n-1). */
  function Geo(x: real, n: nat): real
  {
    if n == 0 then 0.0 else Geo(x, n - 1) + Pow(x, n - 1)
  }

  lemma {:induction false} PowAtLeastBase(x: real, n: nat)
    requires x >= 1.0
    ensures Pow(x, n) >= 1.0
    ensures n >= 1 ==> Pow(x, n) >= x
  {
    if n > 0 {
      PowAtLeastBase(x, n - 1);
      assert Pow(x, n) == x * Pow(x, n - 1);
      assert x * Pow(x, n - 1) >= x * 1.0;
    }
  }

  lemma {:induction false} PowOfOne(n: nat)
    ensures Pow(1.0, n) == 1.0
    ensures Geo(1.0, n) == n as real
  {
    if n > 0 {
      PowOfOne(n - 1);
    }
  }

  /** The geometric sum telescopes: (x - 1) * Geo(x, n) == x^n - 1. */
  lemma {:induction false} GeoTelescopes(x: real, n: nat)
    ensures (x - 1.0) * Geo(x, n) == Pow(x, n) - 1.0
  {
    if n > 0 {
      GeoTelescopes(x, n - 1);
      calc {
        (x - 1.0) * Geo(x, n);
        (x - 1.0) * Geo(x, n - 1) + (x - 1.0) * Pow(x, n - 1);
        Pow(x, n - 1) - 1.0 + x * Pow(x, n - 1) - Pow(x, n - 1);
        Pow(x, n) - 1.0;
      }
    }
  }

  /** Dividing by a non-zero q and multiplying back gives the numerator. */
  lemma DivThenMul(a: real, q: real)
    requires q != 0.0
    ensures a / q * q == a
  {
  }

  /** Multiplication by a non-zero factor is injective. */
  lemma MulCancel(u: real, v: real, q: real)
    requires q != 0.0 && u * q == v * q
    ensures u == v
  {
    assert (u - v) * q == 0.0;
  }

  /** The fixed end-of-period payment that amortises `balance` over `n`
      periods at `rate` per period (numpy-financial's pmt with the sign
      flipped): balance*r*(1+r)^n / ((1+r)^n - 1), or balance/n at rate 0.
      For a non-negative balance it is at least the period's interest and at
      most the balance plus that interest. */
  function Pmt(rate: real, n: nat, balance: real): (p: real)
    requires rate >= 0.0 && n >= 1
    ensures balance >= 0.0 ==> InterestOn(balance, rate) <= p <= balance + InterestOn(balance, rate)
  {
    if rate == 0.0 then
      ZeroRateBound(n, balance);
      assert balance * rate == 0.0;
      balance / (n as real)
    else
      var P := Pow(1.0 + rate, n);
      PowAtLeastBase(1.0 + rate, n);
      DivThenMul(balance * rate * P, P - 1.0);
      AnnuityBounds(balance, rate, P, balance * rate * P / (P - 1.0));
      balance * rate * P / (P - 1.0)
  }

  lemma ZeroRateBound(n: nat, balance: real)
    requires n >= 1
    ensures balance >= 0.0 ==> 0.0 <= balance / (n as real) <= balance
  {
    if balance >= 0.0 {
      assert balance - balance / (n as real) == balance * ((n as real) - 1.0) / (n as real);
      assert balance * ((n as real) - 1.0) >= 0.0;
    }
  }

  /** Bounds on a payment p with p * (P - 1) == b * r * P, stated over plain
      reals: with P - 1 >= r > 0 and b >= 0, p lies between b*r and b*(1+r). */
  lemma AnnuityBounds(b: real, r: real, P: real, p: real)
    requires r > 0.0 && P - 1.0 >= r && p * (P - 1.0) == b * r * P
    ensures b >= 0.0 ==> b * r <= p <= b * (1.0 + r)
  {
    if b >= 0.0 {
      var q := P - 1.0;
      var t := p - b * r;
      assert t * q == b * r;
      QuotientBounds(b, r, q, t);
      assert b * (1.0 + r) == b + b * r;
    }
  }

  /** t * q == b * r with q >= r > 0 and b >= 0 puts t between 0 and b. */
  lemma QuotientBounds(b: real, r: real, q: real, t: real)
    requires b >= 0.0 && r > 0.0 && q >= r && t * q == b * r
    ensures 0.0 <= t <= b
  {
    DivThenMul(b * r, q);
    MulCancel(t, b * r / q, q);
    assert b * r >= 0.0;
    assert b * (q - r) >= 0.0;
    assert b - b * r / q == b * (q - r) / q;
  }

  /** The amortising payment, multiplied out: Pmt * ((1+r)^n - 1) == balance * r * (1+r)^n. */
  lemma PmtMultipliedOut(rate: real, n: nat, balance: real)
    requires rate > 0.0 && n >= 1
    ensures Pow(1.0 + rate, n) - 1.0 >= rate
    ensures Pmt(rate, n, balance) * (Pow(1.0 + rate, n) - 1.0) == balance * rate * Pow(1.0 + rate, n)
  {
    PowAtLeastBase(1.0 + rate, n);
  }

  /** The balance left after paying `payment` at the end of each of `n`
      periods, interest accruing at `rate` per period. */
  function Amortise(balance: real, rate: real, payment: real, n: nat): real
    decreases n
  {
    if n == 0 then balance else Amortise(balance * (1.0 + rate) - payment, rate, payment, n - 1)
  }

  lemma {:induction false} AmortiseClosedForm(balance: real, rate: real, payment: real, n: nat)
    decreases n
    ensures Amortise(balance, rate, payment, n)
            == balance * Pow(1.0 + rate, n) - payment * Geo(1.0 + rate, n)
  {
    if n > 0 {
      var x := 1.0 + rate;
      var b' := balance * (1.0 + rate) - payment;
      assert Amortise(balance, rate, payment, n) == Amortise(b', rate, payment, n - 1);
      AmortiseClosedForm(b', rate, payment, n - 1);
      assert Pow(x, n) == x * Pow(x, n - 1) && Geo(x, n) == Geo(x, n - 1) + Pow(x, n - 1);
      Regroup(balance, x, payment, Pow(x, n - 1), Geo(x, n - 1));
    }
  }

  /** One period of the closed form, over plain reals. */
  lemma Regroup(b: real, x: real, p: real, P: real, G: real)
    ensures (b * x - p) * P - p * G == b * (x * P) - p * (G + P)
  {
  }

  /** A payment p with p * (P - 1) == b * r * P, times the geometric sum G
      with r * G == P - 1, is the compounded balance b * P. */
  lemma AnnuityTimesGeo(b: real, r: real, P: real, G: real, p: real)
    requires r > 0.0 && r * G == P - 1.0 && p * (P - 1.0) == b * r * P
    ensures p * G == b * P
  {
    assert (p * G) * r == p * (r * G);
    assert (p * G) * r == (b * P) * r;
    MulCancel(p * G, b * P, r);
  }

  /** Paying Pmt(rate, n, balance) every period for n periods leaves nothing
      owing: the payment is exactly the amortising one. */
  lemma PmtAmortises(rate: real, n: nat, balance: real)
    requires rate >= 0.0 && n >= 1
    ensures Amortise(balance, rate, Pmt(rate, n, balance), n) == 0.0
  {
    var p := Pmt(rate, n, balance);
    AmortiseClosedForm(balance, rate, p, n);
    if rate == 0.0 {
      PowOfOne(n);
      DivThenMul(balance, n as real);
      assert p * (n as real) == balance;
    } else {
      var x := 1.0 + rate;
      GeoTelescopes(x, n);
      PmtMultipliedOut(rate, n, balance);
      AnnuityTimesGeo(balance, rate, Pow(x, n), Geo(x, n), p);
    }
  }

  /** A single remaining period: the payment is the balance plus one period's
      interest, which is what amortising over one period means. */
  lemma PmtFinalPeriod(rate: real, balance: real)
    requires rate >= 0.0
    ensures Pmt(rate, 1, balance) == balance + InterestOn(balance, rate)
  {
    var p := Pmt(rate, 1, balance);
    PmtAmortises(rate, 1, balance);
    assert Amortise(balance, rate, p, 1) == Amortise(balance * (1.0 + rate) - p, rate, p, 0);
  }

  /** Compounding n periods multiplies by (1 + rate)^n. */
  lemma {:induction false} CompoundedClosedForm(amount: real, rate: real, n: nat)
    ensures Compounded(amount, rate, n) == amount * Pow(1.0 + rate, n)
  {
    if n > 0 {
      CompoundedClosedForm(amount, rate, n - 1);
      assert Pow(1.0 + rate, n) == (1.0 + rate) * Pow(1.0 + rate, n - 1);
      assert amount * Pow(1.0 + rate, n - 1) * (1.0 + rate) == amount * ((1.0 + rate) * Pow(1.0 + rate, n - 1));
    }
  }
}
