/**
  The monthly payment of src/applications/services/application-detail.service.ts,
  over the reals.
 */
module Amortisation {
  function Pow(x: real, n: nat): real {
    if n == 0 then 1.0 else Pow(x, n - 1) * x
  }

  /** Multiplication under a name, so that equal products are recognised before they are multiplied out. */
  function Times(x: real, y: real): real {
    x * y
  }

  function Magnitude(x: real): real {
    if x < 0.0 then -x else x
  }

  predicate WholeCents(x: real) {
    (x * 100.0).Floor as real == x * 100.0
  }

  lemma CentsAreWhole(k: int)
    ensures WholeCents(k as real / 100.0)
  {
    assert k as real / 100.0 * 100.0 == k as real;
  }

  lemma NearestCent(x: real, k: int)
    requires k == (x * 100.0 + 0.5).Floor
    ensures Magnitude(k as real / 100.0 - x) <= 0.005
  {
    assert k as real <= x * 100.0 + 0.5 < k as real + 1.0;
  }

  /** Two decimals, the nearest, a tie going away from zero. */
  function Rounded(x: real): (r: real)
    ensures Magnitude(r - x) <= 0.005 && WholeCents(r)
  {
    var k := (Magnitude(x) * 100.0 + 0.5).Floor;
    NearestCent(Magnitude(x), k);
    CentsAreWhole(if x < 0.0 then -k else k);
    (if x < 0.0 then -k else k) as real / 100.0
  }

  function Quotient(x: real, y: real): (q: real)
    requires y != 0.0
    ensures q * y == x
  {
    x / y
  }

  /** The growth over the term is not one, so the formula does not divide by zero. */
  predicate Computable(rate: real, term: nat) {
    term > 0 && (rate > -1.0 || rate == 0.0 || Pow(1.0 + rate, term) != 1.0)
  }

  /** The payment before it is rounded; `rate` is per month. */
  function Exact(principal: real, rate: real, term: nat): real
    requires Computable(rate, term)
  {
    if rate == 0.0 then Quotient(principal, term as real)
    else
      GrowthIsOneIff(rate, term);
      var factor := Pow(1.0 + rate, term);
      Quotient(principal * rate * factor, factor - 1.0)
  }

  /** Null, the infinity a division by zero yields, or an amount. */
  datatype Payment = NoPayment | Infinite | Amount(value: real)

  function MonthlyPayment(principal: real, aprPercent: real, termMonths: int): (payment: Payment)
    ensures payment.NoPayment? <==> principal == 0.0 || termMonths <= 0
    ensures payment.Infinite? <==> principal != 0.0 && termMonths > 0 && aprPercent == -2400.0 && termMonths % 2 == 0
    ensures payment.Amount? ==>
              && Computable(aprPercent / 100.0 / 12.0, termMonths)
              && WholeCents(payment.value)
              && Magnitude(payment.value - Exact(principal, aprPercent / 100.0 / 12.0, termMonths)) <= 0.005
  {
    var rate := aprPercent / 100.0 / 12.0;
    if principal == 0.0 || termMonths <= 0 then NoPayment
    else
      GrowthIsOneIff(rate, termMonths);
      if Computable(rate, termMonths) then Amount(Rounded(Exact(principal, rate, termMonths))) else Infinite
  }

  /* ------------------------------------------------------ when it can be computed */

  lemma {:induction false} PowOfMagnitude(x: real, n: nat)
    ensures Magnitude(Pow(x, n)) == Pow(Magnitude(x), n)
  {
    if n > 0 {
      PowOfMagnitude(x, n - 1);
      MagnitudeOfProduct(Pow(x, n - 1), x);
    }
  }

  lemma MagnitudeOfProduct(x: real, y: real)
    ensures Magnitude(x * y) == Magnitude(x) * Magnitude(y)
  {
  }

  lemma {:induction false} PowOrder(y: real, n: nat)
    requires y >= 0.0 && n > 0
    ensures y < 1.0 ==> 0.0 <= Pow(y, n) < 1.0
    ensures y > 1.0 ==> Pow(y, n) > 1.0
  {
    if n == 1 {
      assert Pow(y, 0) == 1.0;
    } else {
      PowOrder(y, n - 1);
      var f := Pow(y, n - 1);
      if y < 1.0 {
        ProductIsNotNegative(f, y);
        ProductIsNotNegative(f, 1.0 - y);
      } else if y > 1.0 {
        ProductIsPositive(f - 1.0, y);
      }
    }
  }

  lemma {:induction false} PowOfMinusOne(n: nat)
    ensures Pow(-1.0, n) == if n % 2 == 0 then 1.0 else -1.0
    ensures Pow(1.0, n) == 1.0
  {
    if n > 0 { PowOfMinusOne(n - 1); }
  }

  /** The growth over a term is one without interest, or at minus two hundred percent a month over an even term. */
  lemma GrowthIsOneIff(rate: real, n: nat)
    requires n > 0
    ensures Pow(1.0 + rate, n) == 1.0 <==> rate == 0.0 || (rate == -2.0 && n % 2 == 0)
  {
    var x := 1.0 + rate;
    PowOfMagnitude(x, n);
    PowOrder(Magnitude(x), n);
    PowOfMinusOne(n);
  }

  /* ------------------------------------------------------ what the payment does */

  /** What is owed after `months` payments of `p`. */
  function Balance(principal: real, rate: real, p: real, months: nat): real {
    if months == 0 then principal else Balance(principal, rate, p, months - 1) * (1.0 + rate) - p
  }

  /** Interest charged over the first `months` months. */
  function Interest(principal: real, rate: real, p: real, months: nat): real {
    if months == 0 then 0.0
    else Interest(principal, rate, p, months - 1) + rate * Balance(principal, rate, p, months - 1)
  }

  /** What one unit paid at the end of every month grows to. */
  function Annuity(rate: real, n: nat): real {
    if n == 0 then 0.0 else Annuity(rate, n - 1) * (1.0 + rate) + 1.0
  }

  /** What one unit paid at the end of every month is worth today. */
  function Discount(rate: real, n: nat): real
    requires rate > -1.0
  {
    if n == 0 then 0.0 else Quotient(Discount(rate, n - 1) + 1.0, 1.0 + rate)
  }

  lemma ProductIsPositive(x: real, y: real)
    requires x > 0.0 && y > 0.0
    ensures x * y > 0.0
  {
  }

  lemma ProductIsNotNegative(x: real, y: real)
    requires x >= 0.0 && y >= 0.0
    ensures x * y >= 0.0
  {
  }

  lemma SameQuotient(q: real, x: real, y: real)
    requires y != 0.0 && Times(y, q) == x
    ensures q == Quotient(x, y)
  {
    CancelFactor(q, Quotient(x, y), y);
  }

  lemma FactorIsPositive(x: real, y: real)
    requires x * y > 0.0 && y > 0.0
    ensures x > 0.0
  {
  }

  lemma FactorsOrder(x: real, y: real, f: real)
    requires f > 0.0
    ensures x < y <==> x * f < y * f
  {
    if x < y {
      ProductIsPositive(y - x, f);
    } else {
      ProductIsNotNegative(x - y, f);
    }
  }

  lemma ZeroProduct(x: real, y: real)
    requires y != 0.0
    ensures x * y == 0.0 <==> x == 0.0
  {
  }

  lemma CancelFactor(x: real, y: real, f: real)
    requires f != 0.0 && x * f == y * f
    ensures x == y
  {
    assert (x - y) * f == 0.0;
    ZeroProduct(x - y, f);
  }

  lemma {:induction false} SumsArePositive(rate: real, n: nat)
    requires rate > -1.0
    ensures Pow(1.0 + rate, n) > 0.0
    ensures Annuity(rate, n) >= 0.0 && (n > 0 ==> Annuity(rate, n) > 0.0)
    ensures Discount(rate, n) >= 0.0 && (n > 0 ==> Discount(rate, n) > 0.0)
  {
    if n > 0 {
      SumsArePositive(rate, n - 1);
      ProductIsPositive(Pow(1.0 + rate, n - 1), 1.0 + rate);
      assert Annuity(rate, n - 1) * (1.0 + rate) >= 0.0;
    }
  }

  lemma PowStep(x: real, n: nat)
    ensures Pow(x, n + 1) == Times(Pow(x, n), x)
  {
  }

  lemma AnnuityStep(rate: real, n: nat)
    ensures Annuity(rate, n + 1) == Times(Annuity(rate, n), 1.0 + rate) + 1.0
  {
  }

  lemma DiscountStep(rate: real, n: nat)
    requires rate > -1.0
    ensures Times(Discount(rate, n + 1), 1.0 + rate) == Discount(rate, n) + 1.0
  {
  }

  lemma BalanceStep(principal: real, rate: real, p: real, months: nat)
    ensures Balance(principal, rate, p, months + 1) == Times(Balance(principal, rate, p, months), 1.0 + rate) - p
  {
  }

  /** The geometric sum. */
  lemma {:induction false} GeometricSum(rate: real, n: nat)
    ensures Times(rate, Annuity(rate, n)) == Pow(1.0 + rate, n) - 1.0
  {
    if n > 0 {
      GeometricSum(rate, n - 1);
      PowStep(1.0 + rate, n - 1);
      AnnuityStep(rate, n - 1);
      OneTermMore(rate, 1.0 + rate, Annuity(rate, n - 1), Pow(1.0 + rate, n - 1), Annuity(rate, n), Pow(1.0 + rate, n));
    }
  }

  lemma OneTermMore(rate: real, g: real, a: real, f: real, a': real, f': real)
    requires g == 1.0 + rate && Times(rate, a) == f - 1.0
    requires a' == Times(a, g) + 1.0 && f' == Times(f, g)
    ensures Times(rate, a') == f' - 1.0
  {
    assert rate * (a * g) == (rate * a) * g;
  }

  lemma {:induction false} GrownDiscountIsAnnuity(rate: real, n: nat)
    requires rate > -1.0
    ensures Times(Pow(1.0 + rate, n), Discount(rate, n)) == Annuity(rate, n)
  {
    if n > 0 {
      GrownDiscountIsAnnuity(rate, n - 1);
      GeometricSum(rate, n - 1);
      PowStep(1.0 + rate, n - 1);
      AnnuityStep(rate, n - 1);
      DiscountStep(rate, n - 1);
      OneDiscountMore(rate, 1.0 + rate, Annuity(rate, n - 1), Pow(1.0 + rate, n - 1), Discount(rate, n - 1),
                      Annuity(rate, n), Pow(1.0 + rate, n), Discount(rate, n));
    }
  }

  lemma OneDiscountMore(rate: real, g: real, a: real, f: real, d: real, a': real, f': real, d': real)
    requires g == 1.0 + rate && Times(rate, a) == f - 1.0 && Times(f, d) == a
    requires a' == Times(a, g) + 1.0 && f' == Times(f, g) && Times(d', g) == d + 1.0
    ensures Times(f', d') == a'
  {
    assert f' * d' == f * (d' * g);
    assert f * (d + 1.0) == a + f;
    assert a * g == a + rate * a;
  }

  lemma {:induction false} BalanceInClosedForm(principal: real, rate: real, p: real, n: nat)
    ensures Balance(principal, rate, p, n) == Times(principal, Pow(1.0 + rate, n)) - Times(p, Annuity(rate, n))
  {
    if n > 0 {
      BalanceInClosedForm(principal, rate, p, n - 1);
      PowStep(1.0 + rate, n - 1);
      AnnuityStep(rate, n - 1);
      BalanceStep(principal, rate, p, n - 1);
      OneBalanceMore(principal, p, 1.0 + rate,
                     Pow(1.0 + rate, n - 1), Annuity(rate, n - 1), Balance(principal, rate, p, n - 1),
                     Pow(1.0 + rate, n), Annuity(rate, n), Balance(principal, rate, p, n));
    }
  }

  lemma OneBalanceMore(principal: real, p: real, g: real, f: real, a: real, b: real, f': real, a': real, b': real)
    requires b == Times(principal, f) - Times(p, a)
    requires f' == Times(f, g) && a' == Times(a, g) + 1.0 && b' == Times(b, g) - p
    ensures b' == Times(principal, f') - Times(p, a')
  {
    assert (principal * f) * g == principal * (f * g) && (p * a) * g == p * (a * g);
  }

  lemma {:induction false} FlatAnnuity(n: nat)
    ensures Annuity(0.0, n) == n as real
  {
    if n > 0 { FlatAnnuity(n - 1); }
  }

  lemma AnnuityIsNotZero(rate: real, n: nat)
    requires Computable(rate, n)
    ensures Annuity(rate, n) != 0.0
  {
    if rate == 0.0 {
      FlatAnnuity(n);
    } else {
      GeometricSum(rate, n);
      GrowthIsOneIff(rate, n);
    }
  }

  lemma CancelRate(principal: real, rate: real, f: real, a: real, q: real)
    requires rate != 0.0 && a != 0.0 && Times(rate, a) == f - 1.0
    requires Times(q, f - 1.0) == Times(Times(principal, rate), f)
    ensures Times(q, a) == Times(principal, f)
  {
    assert q * (rate * a) == principal * rate * f;
    assert (q * a) * rate == (principal * f) * rate;
    CancelFactor(q * a, principal * f, rate);
  }

  lemma ExactTimes(principal: real, rate: real, n: nat)
    requires Computable(rate, n) && rate != 0.0
    ensures Times(Exact(principal, rate, n), Pow(1.0 + rate, n) - 1.0)
            == Times(Times(principal, rate), Pow(1.0 + rate, n))
  {
    GrowthIsOneIff(rate, n);
  }

  lemma FlatTimes(principal: real, n: nat)
    requires n > 0
    ensures Times(Exact(principal, 0.0, n), Annuity(0.0, n)) == Times(principal, Pow(1.0, n))
  {
    FlatAnnuity(n);
    PowOfMinusOne(n);
  }

  /** Both branches of the formula are the principal's growth shared over the annuity. */
  lemma ExactIsGrowthOverAnnuity(principal: real, rate: real, n: nat)
    requires Computable(rate, n)
    ensures Annuity(rate, n) != 0.0
    ensures Times(Exact(principal, rate, n), Annuity(rate, n)) == Times(principal, Pow(1.0 + rate, n))
  {
    AnnuityIsNotZero(rate, n);
    if rate == 0.0 {
      FlatTimes(principal, n);
    } else {
      GeometricSum(rate, n);
      ExactTimes(principal, rate, n);
      CancelRate(principal, rate, Pow(1.0 + rate, n), Annuity(rate, n), Exact(principal, rate, n));
    }
  }

  /** A payment `p` in place of `e`, where `e` over the annuity is the principal's growth. */
  lemma LastBalance(principal: real, rate: real, e: real, p: real, n: nat)
    requires Times(e, Annuity(rate, n)) == Times(principal, Pow(1.0 + rate, n))
    ensures Balance(principal, rate, p, n) == Times(e - p, Annuity(rate, n))
  {
    BalanceInClosedForm(principal, rate, p, n);
    Shared(e, p, Annuity(rate, n), Times(principal, Pow(1.0 + rate, n)));
  }

  lemma ZeroShift(e: real, p: real, a: real, owed: real)
    requires a != 0.0 && owed == Times(e - p, a)
    ensures owed == 0.0 <==> p == e
  {
    ZeroProduct(e - p, a);
  }

  lemma NearShift(e: real, p: real, a: real, owed: real)
    requires owed == Times(e - p, a) && Magnitude(p - e) <= 0.005
    ensures Magnitude(owed) <= 0.005 * Magnitude(a)
  {
    MagnitudeOfProduct(e - p, a);
    Smaller(Magnitude(e - p), 0.005, Magnitude(a), Magnitude(owed));
  }

  lemma Smaller(x: real, bound: real, y: real, xy: real)
    requires x <= bound && y >= 0.0 && xy == x * y
    ensures xy <= bound * y
  {
    ProductIsNotNegative(bound - x, y);
    assert (bound - x) * y == bound * y - x * y;
  }

  lemma Shared(e: real, p: real, a: real, whole: real)
    requires Times(e, a) == whole
    ensures whole - Times(p, a) == Times(e - p, a)
  {
  }

  lemma OnlyFairPaymentClears(principal: real, rate: real, e: real, p: real, n: nat)
    requires Annuity(rate, n) != 0.0
    requires Times(e, Annuity(rate, n)) == Times(principal, Pow(1.0 + rate, n))
    ensures Balance(principal, rate, p, n) == 0.0 <==> p == e
  {
    LastBalance(principal, rate, e, p, n);
    ZeroShift(e, p, Annuity(rate, n), Balance(principal, rate, p, n));
  }

  /** The exact payment, and no other, brings the balance to zero after the term. */
  lemma OnlyTheExactPaymentClearsTheLoan(principal: real, rate: real, p: real, n: nat)
    requires Computable(rate, n)
    ensures Balance(principal, rate, p, n) == 0.0 <==> p == Exact(principal, rate, n)
  {
    ExactIsGrowthOverAnnuity(principal, rate, n);
    OnlyFairPaymentClears(principal, rate, Exact(principal, rate, n), p, n);
  }

  lemma NearPaymentNearlyClears(principal: real, rate: real, e: real, p: real, n: nat)
    requires Times(e, Annuity(rate, n)) == Times(principal, Pow(1.0 + rate, n))
    requires Magnitude(p - e) <= 0.005
    ensures Magnitude(Balance(principal, rate, p, n)) <= 0.005 * Magnitude(Annuity(rate, n))
  {
    LastBalance(principal, rate, e, p, n);
    NearShift(e, p, Annuity(rate, n), Balance(principal, rate, p, n));
  }

  /** The annuity of that bound is ((1 + r)^n - 1) / r, or n without interest. */
  lemma AnnuityInClosedForm(rate: real, n: nat)
    ensures Annuity(rate, n) == if rate == 0.0 then n as real else Quotient(Pow(1.0 + rate, n) - 1.0, rate)
  {
    if rate == 0.0 {
      FlatAnnuity(n);
    } else {
      GeometricSum(rate, n);
      SameQuotient(Annuity(rate, n), Pow(1.0 + rate, n) - 1.0, rate);
    }
  }

  /** The payment shown leaves at most half a cent's annuity owed, or overpaid, after the term. */
  lemma ShownPaymentNearlyClearsTheLoan(principal: real, aprPercent: real, termMonths: int)
    requires MonthlyPayment(principal, aprPercent, termMonths).Amount?
    ensures var rate := aprPercent / 100.0 / 12.0;
            var p := MonthlyPayment(principal, aprPercent, termMonths).value;
            Magnitude(Balance(principal, rate, p, termMonths)) <= 0.005 * Magnitude(Annuity(rate, termMonths))
  {
    var rate := aprPercent / 100.0 / 12.0;
    ExactIsGrowthOverAnnuity(principal, rate, termMonths);
    NearPaymentNearlyClears(principal, rate, Exact(principal, rate, termMonths),
                            MonthlyPayment(principal, aprPercent, termMonths).value, termMonths);
  }

  /* -------------------------------------------------------- rate, term and cost */

  lemma Reassociate(e: real, d: real, f: real, a: real, principal: real)
    requires Times(f, d) == a && Times(e, a) == Times(principal, f) && f != 0.0
    ensures Times(e, d) == principal
  {
    assert (e * d) * f == e * (f * d);
    CancelFactor(e * d, principal, f);
  }

  lemma ExactIsPresentValue(principal: real, rate: real, n: nat)
    requires rate > -1.0 && n > 0
    ensures Discount(rate, n) > 0.0
    ensures Times(Exact(principal, rate, n), Discount(rate, n)) == principal
  {
    ExactIsGrowthOverAnnuity(principal, rate, n);
    SumsArePositive(rate, n);
    GrownDiscountIsAnnuity(rate, n);
    Reassociate(Exact(principal, rate, n), Discount(rate, n), Pow(1.0 + rate, n), Annuity(rate, n), principal);
  }

  lemma QuotientsOrder(x: real, y: real, g: real, h: real, q: real, t: real)
    requires 0.0 < x <= y && 0.0 < g < h
    requires q * h == x && t * g == y
    ensures q < t
  {
    FactorIsPositive(t, g);
    ProductIsPositive(t, h - g);
    assert t * h == t * g + t * (h - g);
    FactorsOrder(q, t, h);
  }

  lemma {:induction false} DiscountFallsWithRate(low: real, high: real, n: nat)
    requires -1.0 < low < high && n > 0
    ensures Discount(high, n) < Discount(low, n)
  {
    SumsArePositive(high, n - 1);
    SumsArePositive(low, n - 1);
    if n > 1 { DiscountFallsWithRate(low, high, n - 1); }
    QuotientsOrder(Discount(high, n - 1) + 1.0, Discount(low, n - 1) + 1.0, 1.0 + low, 1.0 + high,
                   Discount(high, n), Discount(low, n));
  }

  lemma {:induction false} DiscountRisesWithTerm(rate: real, n: nat)
    requires rate > -1.0
    ensures Discount(rate, n) < Discount(rate, n + 1)
  {
    if n > 0 {
      DiscountRisesWithTerm(rate, n - 1);
      var x, y, g := Discount(rate, n - 1) + 1.0, Discount(rate, n) + 1.0, 1.0 + rate;
      FactorsOrder(Quotient(x, g), Quotient(y, g), g);
    } else {
      SumsArePositive(rate, 1);
    }
  }

  lemma {:induction false} DiscountOrdersTerms(rate: real, short: nat, long: nat)
    requires rate > -1.0 && short < long
    ensures Discount(rate, short) < Discount(rate, long)
    decreases long
  {
    DiscountRisesWithTerm(rate, long - 1);
    if short < long - 1 { DiscountOrdersTerms(rate, short, long - 1); }
  }

  lemma LargerShareOfSmallerSum(principal: real, p: real, d: real, q: real, e: real)
    requires principal > 0.0 && 0.0 < e < d && Times(p, d) == principal && Times(q, e) == principal
    ensures 0.0 < p < q
  {
    FactorIsPositive(p, d);
    ProductIsPositive(p, d - e);
    assert (q - p) * e == p * (d - e);
    FactorIsPositive(q - p, e);
  }

  /** A higher rate costs more every month. */
  lemma PaymentRisesWithRate(principal: real, low: real, high: real, n: nat)
    requires principal > 0.0 && n > 0 && -1.0 < low < high
    ensures 0.0 < Exact(principal, low, n) < Exact(principal, high, n)
  {
    ExactIsPresentValue(principal, low, n);
    ExactIsPresentValue(principal, high, n);
    DiscountFallsWithRate(low, high, n);
    LargerShareOfSmallerSum(principal, Exact(principal, low, n), Discount(low, n),
                            Exact(principal, high, n), Discount(high, n));
  }

  /** A longer term costs less every month. */
  lemma PaymentFallsWithTerm(principal: real, rate: real, short: nat, long: nat)
    requires principal > 0.0 && rate > -1.0 && 0 < short < long
    ensures 0.0 < Exact(principal, rate, long) < Exact(principal, rate, short)
  {
    ExactIsPresentValue(principal, rate, short);
    ExactIsPresentValue(principal, rate, long);
    DiscountOrdersTerms(rate, short, long);
    LargerShareOfSmallerSum(principal, Exact(principal, rate, long), Discount(rate, long),
                            Exact(principal, rate, short), Discount(rate, short));
  }

  lemma FloorOrders(x: real, y: real)
    requires x <= y
    ensures x.Floor <= y.Floor
  {
  }

  lemma RoundingOrders(x: real, y: real)
    requires x <= y
    ensures Rounded(x) <= Rounded(y)
  {
    if 0.0 <= x {
      FloorOrders(x * 100.0 + 0.5, y * 100.0 + 0.5);
    } else if y < 0.0 {
      FloorOrders(-y * 100.0 + 0.5, -x * 100.0 + 0.5);
    } else {
      FloorOrders(0.0, -x * 100.0 + 0.5);
      FloorOrders(0.0, y * 100.0 + 0.5);
    }
  }

  /** The payment shown never falls when the APR rises, and never rises when the term grows. */
  lemma {:induction false} ShownPaymentFollowsRateAndTerm(principal: real, low: real, high: real, short: int, long: int)
    requires principal > 0.0 && -1200.0 < low <= high && 0 < short <= long
    ensures MonthlyPayment(principal, low, long).value <= MonthlyPayment(principal, high, long).value
    ensures MonthlyPayment(principal, high, long).value <= MonthlyPayment(principal, high, short).value
  {
    var a, b := low / 100.0 / 12.0, high / 100.0 / 12.0;
    if a < b { PaymentRisesWithRate(principal, a, b, long); }
    if short < long { PaymentFallsWithTerm(principal, b, short, long); }
    RoundingOrders(Exact(principal, a, long), Exact(principal, b, long));
    RoundingOrders(Exact(principal, b, long), Exact(principal, b, short));
  }

  lemma OneMonth(e: real, before: real, after: real, g: real, owed: real, next: real)
    requires Times(before, g) == after + 1.0 && owed == Times(e, before) && next == Times(owed, g) - e
    ensures next == Times(e, after)
  {
    assert (e * before) * g == e * (before * g);
  }

  lemma Differ(e: real, before: real, after: real, x: real, y: real)
    requires e > 0.0 && 0.0 <= after < before && x == Times(e, before) && y == Times(e, after)
    ensures 0.0 <= y < x && (y == 0.0 <==> after == 0.0)
  {
    ProductIsPositive(e, before - after);
    assert x - y == e * (before - after);
    ZeroProduct(after, e);
    ProductIsNotNegative(e, after);
  }

  /** After `k` payments that are worth the principal, what is owed is what the remaining ones are worth. */
  lemma {:induction false} BalanceIsRemainingValue(principal: real, rate: real, e: real, n: nat, k: nat)
    requires rate > -1.0 && Times(e, Discount(rate, n + k)) == principal
    ensures Balance(principal, rate, e, k) == Times(e, Discount(rate, n))
    decreases k
  {
    if k > 0 {
      assert (n + 1) + (k - 1) == n + k;
      BalanceIsRemainingValue(principal, rate, e, n + 1, k - 1);
      OneMoreMonth(principal, rate, e, n, k - 1);
    }
  }

  lemma OneMoreMonth(principal: real, rate: real, e: real, n: nat, k: nat)
    requires rate > -1.0 && Balance(principal, rate, e, k) == Times(e, Discount(rate, n + 1))
    ensures Balance(principal, rate, e, k + 1) == Times(e, Discount(rate, n))
  {
    BalanceStep(principal, rate, e, k);
    DiscountStep(rate, n);
    OneMonth(e, Discount(rate, n + 1), Discount(rate, n), 1.0 + rate,
             Balance(principal, rate, e, k), Balance(principal, rate, e, k + 1));
  }

  lemma WorthyPaymentLowersTheBalance(principal: real, rate: real, e: real, n: nat, k: nat)
    requires rate > -1.0 && e > 0.0 && Times(e, Discount(rate, n)) == principal && k < n
    ensures 0.0 <= Balance(principal, rate, e, k + 1) < Balance(principal, rate, e, k)
    ensures Balance(principal, rate, e, k + 1) == 0.0 <==> k + 1 == n
  {
    BalanceIsRemainingValue(principal, rate, e, n - k, k);
    BalanceIsRemainingValue(principal, rate, e, n - k - 1, k + 1);
    DiscountRisesWithTerm(rate, n - k - 1);
    SumsArePositive(rate, n - k - 1);
    Differ(e, Discount(rate, n - k), Discount(rate, n - k - 1),
           Balance(principal, rate, e, k), Balance(principal, rate, e, k + 1));
  }

  /** The exact payment lowers the balance every month, and it stays positive until the last. */
  lemma {:induction false} EveryPaymentLowersTheBalance(principal: real, rate: real, n: nat, k: nat)
    requires principal > 0.0 && rate > -1.0 && k < n
    ensures var e := Exact(principal, rate, n);
            0.0 <= Balance(principal, rate, e, k + 1) < Balance(principal, rate, e, k)
            && (Balance(principal, rate, e, k + 1) == 0.0 <==> k + 1 == n)
  {
    ExactIsPresentValue(principal, rate, n);
    FactorIsPositive(Exact(principal, rate, n), Discount(rate, n));
    WorthyPaymentLowersTheBalance(principal, rate, Exact(principal, rate, n), n, k);
  }

  lemma {:induction false} PaidIsRepaidPlusInterest(principal: real, rate: real, p: real, months: nat)
    ensures months as real * p
            == principal - Balance(principal, rate, p, months) + Interest(principal, rate, p, months)
  {
    if months > 0 { PaidIsRepaidPlusInterest(principal, rate, p, months - 1); }
  }

  lemma ClearedPayments(principal: real, rate: real, p: real, n: nat)
    requires Computable(rate, n) && p == Exact(principal, rate, n)
    ensures n as real * p == principal + Interest(principal, rate, p, n)
  {
    PaidIsRepaidPlusInterest(principal, rate, p, n);
    assert Balance(principal, rate, p, n) == 0.0 by {
      OnlyTheExactPaymentClearsTheLoan(principal, rate, p, n);
    }
  }

  /** Over the term the exact payments add up to the principal and the interest charged. */
  lemma PaymentsCoverPrincipalAndInterest(principal: real, rate: real, n: nat)
    requires Computable(rate, n)
    ensures var e := Exact(principal, rate, n);
            n as real * e == principal + Interest(principal, rate, e, n)
  {
    ClearedPayments(principal, rate, Exact(principal, rate, n), n);
  }
}
