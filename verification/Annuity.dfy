/**
  Level payments: PMT, FV and PV as closed expressions, and the schedule that
  IPMT, PPMT, CUMIPMT and CUMPRINC walk through period by period.
*/
module Annuity {
  import opened CellAddress

  function Pow(b: real, n: nat): real {
    if n == 0 then 1.0 else Times(Pow(b, n - 1), b)
  }

  function Times(a: real, b: real): real { a * b }

  // 1 + rate*due, where due is one for payments at the start of a period.
  function Advance(rate: real, atStart: bool): real {
    1.0 + rate * (if atStart then 1.0 else 0.0)
  }

  // The divisor of the payment is not zero.
  predicate Solvable(rate: real, periods: nat, atStart: bool) {
    periods > 0 && (rate != 0.0 ==> Advance(rate, atStart) * (Pow(1.0 + rate, periods) - 1.0) != 0.0)
  }

  function Payment(rate: real, periods: nat, present: real, future: real, atStart: bool): real
    requires Solvable(rate, periods, atStart)
  {
    if rate == 0.0 then -(present + future) / periods as real
    else
      PaymentForm(Advance(rate, atStart), Pow(1.0 + rate, periods), rate, present, future)
  }

  // With d the advance and g the growth over all periods.
  function PaymentForm(d: real, g: real, rate: real, present: real, future: real): real
    requires d * (g - 1.0) != 0.0
  {
    -(present * g + future) * rate / (d * (g - 1.0))
  }

  function FutureValue(rate: real, periods: nat, pay: real, present: real, atStart: bool): real {
    if rate == 0.0 then -(present + pay * periods as real)
    else
      FutureForm(pay, Advance(rate, atStart), Pow(1.0 + rate, periods), rate, present)
  }

  function FutureForm(pay: real, d: real, g: real, rate: real, present: real): real
    requires rate != 0.0
  {
    -(present * g + pay * d * (g - 1.0) / rate)
  }

  function PresentValue(rate: real, periods: nat, pay: real, future: real, atStart: bool): real
    requires rate != -1.0
  {
    PowNonzero(1.0 + rate, periods);
    if rate == 0.0 then -(future + pay * periods as real)
    else
      PresentForm(pay, Advance(rate, atStart), Pow(1.0 + rate, periods), rate, future)
  }

  function PresentForm(pay: real, d: real, g: real, rate: real, future: real): real
    requires rate != 0.0 && g != 0.0
  {
    -(future + pay * d * (g - 1.0) / rate) / g
  }

  // -------- powers --------

  lemma {:induction false} PowNonzero(b: real, n: nat)
    requires b != 0.0
    ensures Pow(b, n) != 0.0
  {
    if n > 0 { PowNonzero(b, n - 1); }
  }

  lemma {:induction false} PowAboveOne(b: real, n: nat)
    requires b > 1.0 && n > 0
    ensures Pow(b, n) > 1.0
  {
    if n == 1 {
      assert Pow(b, 1) == Pow(b, 0) * b;
    } else {
      PowAboveOne(b, n - 1);
      Grows(Pow(b, n - 1), b);
    }
  }

  lemma Grows(p: real, b: real)
    requires p > 1.0 && b > 1.0
    ensures p * b > 1.0
  {
    assert p * b - p == p * (b - 1.0);
  }

  lemma {:induction false} PowBelowOne(b: real, n: nat)
    requires 0.0 < b < 1.0 && n > 0
    ensures 0.0 < Pow(b, n) < 1.0
  {
    if n == 1 {
      assert Pow(b, 1) == Pow(b, 0) * b;
    } else {
      PowBelowOne(b, n - 1);
      Shrinks(Pow(b, n - 1), b);
    }
  }

  lemma Shrinks(p: real, b: real)
    requires 0.0 < p < 1.0 && 0.0 < b < 1.0
    ensures 0.0 < p * b < 1.0
  {
    assert p - p * b == p * (1.0 - b);
  }

  // Every rate above -100 per cent has a payment.
  lemma OrdinaryRates(rate: real, periods: nat, atStart: bool)
    requires rate > -1.0 && periods > 0
    ensures Solvable(rate, periods, atStart) && Advance(rate, atStart) > 0.0
  {
    hide Pow;
    var g, d := Pow(1.0 + rate, periods), Advance(rate, atStart);
    if rate > 0.0 {
      PowAboveOne(1.0 + rate, periods);
    } else if rate < 0.0 {
      PowBelowOne(1.0 + rate, periods);
    }
    assert d > 0.0;
    if rate != 0.0 { NonzeroProduct(d, g - 1.0); }
  }

  lemma NonzeroProduct(a: real, b: real)
    requires a != 0.0 && b != 0.0
    ensures a * b != 0.0
  {
  }

  // -------- inverses --------

  // A payment p over the periods, in the form all three functions share.
  ghost predicate Settles(p: real, d: real, g: real, rate: real, present: real, future: real) {
    p * d * (g - 1.0) == -(present * g + future) * rate
  }

  lemma Quotient(a: real, b: real)
    requires b != 0.0
    ensures a / b * b == a
  {
  }

  lemma CancelFactor(a: real, b: real, c: real)
    requires c != 0.0 && a * c == b * c
    ensures a == b
  {
    assert (a - b) * c == 0.0;
  }

  lemma PaymentSettles(rate: real, periods: nat, present: real, future: real, atStart: bool)
    requires rate != 0.0 && Solvable(rate, periods, atStart)
    ensures Settles(Payment(rate, periods, present, future, atStart), Advance(rate, atStart), Pow(1.0 + rate, periods), rate, present, future)
  {
    hide Settles, PaymentForm, Pow, Advance;
    SettlesOnly(Advance(rate, atStart), Pow(1.0 + rate, periods), rate, present, future);
  }

  lemma SettlesOnly(d: real, g: real, rate: real, present: real, future: real)
    requires d * (g - 1.0) != 0.0
    ensures Settles(PaymentForm(d, g, rate, present, future), d, g, rate, present, future)
  {
    var top, bottom := -(present * g + future) * rate, d * (g - 1.0);
    Quotient(top, bottom);
    var p := top / bottom;
    assert p * d * (g - 1.0) == p * bottom;
  }

  lemma UniquePayment(p: real, q: real, d: real, g: real, rate: real, present: real, future: real)
    requires d * (g - 1.0) != 0.0 && Settles(p, d, g, rate, present, future) && Settles(q, d, g, rate, present, future)
    ensures p == q
  {
    assert p * d * (g - 1.0) == p * (d * (g - 1.0)) && q * d * (g - 1.0) == q * (d * (g - 1.0));
    CancelFactor(p, q, d * (g - 1.0));
  }

  lemma FutureOf(p: real, d: real, g: real, rate: real, present: real, future: real)
    requires rate != 0.0
    ensures Settles(p, d, g, rate, present, future) <==> FutureForm(p, d, g, rate, present) == future
  {
    var a := p * d * (g - 1.0) / rate;
    Quotient(p * d * (g - 1.0), rate);
    assert -(present * g + a) == future <==> a == -(present * g + future);
    if Settles(p, d, g, rate, present, future) {
      CancelFactor(a, -(present * g + future), rate);
    }
  }

  lemma PresentOf(p: real, d: real, g: real, rate: real, present: real, future: real)
    requires rate != 0.0 && g != 0.0
    ensures Settles(p, d, g, rate, present, future) <==> PresentForm(p, d, g, rate, future) == present
  {
    FutureOf(p, d, g, rate, present, future);
    var a := p * d * (g - 1.0) / rate;
    Quotient(-(future + a), g);
    if -(present * g + a) == future { CancelFactor(-(future + a) / g, present, g); }
  }

  // PMT, FV and PV solve one equation: each undoes the other two.
  lemma FvInvertsPmt(rate: real, periods: nat, present: real, future: real, pay: real, atStart: bool)
    requires Solvable(rate, periods, atStart)
    ensures FutureValue(rate, periods, pay, present, atStart) == future <==> Payment(rate, periods, present, future, atStart) == pay
  {
    hide Pow, Advance, Settles, PaymentForm, FutureForm, PresentForm;
    if rate == 0.0 {
      FlatPayment(present, future, periods as real, pay);
    } else {
      var d, g := Advance(rate, atStart), Pow(1.0 + rate, periods);
      PaymentSettles(rate, periods, present, future, atStart);
      FutureOf(pay, d, g, rate, present, future);
      if FutureValue(rate, periods, pay, present, atStart) == future {
        UniquePayment(pay, Payment(rate, periods, present, future, atStart), d, g, rate, present, future);
      }
    }
  }

  lemma FlatPayment(present: real, future: real, n: real, pay: real)
    requires n > 0.0
    ensures -(present + pay * n) == future <==> -(present + future) / n == pay
    ensures -(future + pay * n) == present <==> -(present + future) / n == pay
  {
    Quotient(-(present + future), n);
    if -(present + pay * n) == future { CancelFactor(-(present + future) / n, pay, n); }
    if -(future + pay * n) == present { CancelFactor(-(present + future) / n, pay, n); }
  }

  lemma PvInvertsPmt(rate: real, periods: nat, present: real, future: real, pay: real, atStart: bool)
    requires Solvable(rate, periods, atStart) && rate != -1.0
    ensures PresentValue(rate, periods, pay, future, atStart) == present <==> Payment(rate, periods, present, future, atStart) == pay
  {
    hide Pow, Advance, Settles, PaymentForm, FutureForm, PresentForm;
    if rate == 0.0 {
      FlatPayment(present, future, periods as real, pay);
    } else {
      var d, g := Advance(rate, atStart), Pow(1.0 + rate, periods);
      PowNonzero(1.0 + rate, periods);
      PaymentSettles(rate, periods, present, future, atStart);
      PresentOf(pay, d, g, rate, present, future);
      if PresentValue(rate, periods, pay, future, atStart) == present {
        UniquePayment(pay, Payment(rate, periods, present, future, atStart), d, g, rate, present, future);
      }
    }
  }

  // -------- the account behind the formulas --------

  // An account that bears interest once a period and takes one payment a period,
  // before the interest or after it.
  function Account(rate: real, pay: real, present: real, atStart: bool, n: nat): real {
    if n == 0 then present
    else
      var before := Account(rate, pay, present, atStart, n - 1);
      if atStart then (before + pay) + (before + pay) * rate else before + before * rate + pay
  }

  // FV is what stands on it in the end, with the sign turned.
  lemma {:induction false} FutureValueIsAccount(rate: real, periods: nat, pay: real, present: real, atStart: bool)
    ensures FutureValue(rate, periods, pay, present, atStart) == -Account(rate, pay, present, atStart, periods)
  {
    hide FutureForm, Advance, Times;
    if periods == 0 {
      if rate != 0.0 { NothingGrown(pay, Advance(rate, atStart), rate, present); }
    } else {
      FutureValueIsAccount(rate, periods - 1, pay, present, atStart);
      var a := Account(rate, pay, present, atStart, periods - 1);
      NextAccount(rate, pay, a, atStart);
      if rate == 0.0 {
        assert pay * periods as real == pay * (periods - 1) as real + pay;
      } else {
        NextForm(pay, Advance(rate, atStart), Pow(1.0 + rate, periods - 1), rate, present);
      }
    }
  }

  lemma NothingGrown(pay: real, d: real, rate: real, present: real)
    requires rate != 0.0
    ensures FutureForm(pay, d, 1.0, rate, present) == -present
  {
    assert pay * d * (1.0 - 1.0) == 0.0;
  }

  lemma NextAccount(rate: real, pay: real, a: real, atStart: bool)
    ensures (if atStart then (a + pay) + (a + pay) * rate else a + a * rate + pay) == a * (1.0 + rate) + pay * Advance(rate, atStart)
  {
  }

  lemma NextForm(pay: real, d: real, g: real, rate: real, present: real)
    requires rate != 0.0
    ensures FutureForm(pay, d, Times(g, 1.0 + rate), rate, present) == FutureForm(pay, d, g, rate, present) * (1.0 + rate) - pay * d
  {
    var h, x, y := Times(g, 1.0 + rate), pay * d * (g - 1.0) / rate, pay * d * (Times(g, 1.0 + rate) - 1.0) / rate;
    Quotient(pay * d * (g - 1.0), rate);
    Quotient(pay * d * (h - 1.0), rate);
    calc {
      y * rate;
      pay * d * (g * (1.0 + rate) - 1.0);
      pay * d * (g - 1.0) * (1.0 + rate) + pay * d * rate;
      x * rate * (1.0 + rate) + pay * d * rate;
      (x * (1.0 + rate) + pay * d) * rate;
    }
    CancelFactor(y, x * (1.0 + rate) + pay * d, rate);
    assert present * h == present * g * (1.0 + rate);
  }

  // -------- the schedule --------

  // What is owed after k periods.
  function Balance(rate: real, pay: real, present: real, atStart: bool, k: nat): real
    decreases k, 1
  {
    if k == 0 then present
    else Balance(rate, pay, present, atStart, k - 1) + pay + Charge(rate, pay, present, atStart, k)
  }

  // Interest on what was owed; an instalment at the very start carries none.
  function Charge(rate: real, pay: real, present: real, atStart: bool, k: nat): real
    requires k > 0
    decreases k, 0
  {
    if atStart && k == 1 then 0.0 else Times(Balance(rate, pay, present, atStart, k - 1), rate)
  }

  function Interest(rate: real, pay: real, present: real, atStart: bool, k: nat): real {
    if k == 0 then 0.0 else -Charge(rate, pay, present, atStart, k)
  }

  function Principal(rate: real, pay: real, present: real, atStart: bool, k: nat): real {
    if k == 0 then 0.0 else pay + Charge(rate, pay, present, atStart, k)
  }

  method PeriodSplit(rate: real, periods: nat, present: real, future: real, atStart: bool, period: nat)
    returns (interest: real, principal: real)
    requires Solvable(rate, periods, atStart)
    ensures var pay := Payment(rate, periods, present, future, atStart);
            && interest == Interest(rate, pay, present, atStart, period)
            && principal == Principal(rate, pay, present, atStart, period)
            && (period > 0 ==> interest + principal == pay)
  {
    hide Times, Pow, Advance, Payment;
    var instalment := Payment(rate, periods, present, future, atStart);
    var balance := present;
    interest, principal := 0.0, 0.0;
    for current := 1 to period + 1
      invariant balance == Balance(rate, instalment, present, atStart, current - 1)
      invariant interest == Interest(rate, instalment, present, atStart, current - 1)
      invariant principal == Principal(rate, instalment, present, atStart, current - 1)
    {
      var charge := Times(balance, rate);
      if atStart && current == 1 { charge := 0.0; }
      interest := -charge;
      principal := instalment + charge;
      balance := balance + principal;
    }
  }

  // The balance against the growth so far.
  ghost predicate OnSchedule(b: real, d: real, g: real, rate: real, present: real, pay: real) {
    d * b * rate == present * rate * g + pay * d * (g - 1.0)
  }

  lemma NextOnSchedule(b: real, d: real, g: real, rate: real, present: real, pay: real)
    requires OnSchedule(b, d, g, rate, present, pay)
    ensures OnSchedule(b + pay + Times(b, rate), d, Times(g, 1.0 + rate), rate, present, pay)
  {
    calc {
      d * (b + pay + b * rate) * rate;
      (d * b * rate) * (1.0 + rate) + d * pay * rate;
      (present * rate * g + pay * d * (g - 1.0)) * (1.0 + rate) + d * pay * rate;
      present * rate * (g * (1.0 + rate)) + pay * d * (g * (1.0 + rate) - 1.0);
    }
  }

  lemma {:induction false} BalanceOnSchedule(rate: real, pay: real, present: real, atStart: bool, k: nat)
    requires k > 0
    ensures OnSchedule(Balance(rate, pay, present, atStart, k), Advance(rate, atStart), Pow(1.0 + rate, k), rate, present, pay)
  {
    hide OnSchedule, Advance, Times;
    if k == 1 {
      OnePeriod(rate, pay, present, atStart);
      FirstOnSchedule(rate, present, pay, atStart);
    } else {
      BalanceOnSchedule(rate, pay, present, atStart, k - 1);
      NextOnSchedule(Balance(rate, pay, present, atStart, k - 1), Advance(rate, atStart), Pow(1.0 + rate, k - 1), rate, present, pay);
    }
  }

  lemma OnePeriod(rate: real, pay: real, present: real, atStart: bool)
    ensures Pow(1.0 + rate, 1) == 1.0 + rate
    ensures Balance(rate, pay, present, atStart, 1) == present + pay + (if atStart then 0.0 else present * rate)
  {
    assert Pow(1.0 + rate, 1) == Pow(1.0 + rate, 0) * (1.0 + rate);
    assert Balance(rate, pay, present, atStart, 0) == present;
  }

  lemma FirstOnSchedule(rate: real, present: real, pay: real, atStart: bool)
    ensures OnSchedule(present + pay + (if atStart then 0.0 else present * rate), Advance(rate, atStart), 1.0 + rate, rate, present, pay)
  {
  }

  lemma ScheduleIsFuture(b: real, d: real, g: real, rate: real, present: real, pay: real)
    requires rate != 0.0 && OnSchedule(b, d, g, rate, present, pay)
    ensures d * b == -FutureForm(pay, d, g, rate, present)
  {
    var a := pay * d * (g - 1.0) / rate;
    Quotient(pay * d * (g - 1.0), rate);
    assert (present * g + a) * rate == present * rate * g + pay * d * (g - 1.0);
    CancelFactor(d * b, present * g + a, rate);
  }

  lemma {:induction false} FlatBalance(pay: real, present: real, atStart: bool, k: nat)
    ensures Balance(0.0, pay, present, atStart, k) == present + pay * k as real
  {
    if k > 0 {
      FlatBalance(pay, present, atStart, k - 1);
      assert Charge(0.0, pay, present, atStart, k) == 0.0;
    }
  }

  // Walking the schedule for k periods reaches what FV computes at once.
  lemma BalanceIsFutureValue(rate: real, pay: real, present: real, atStart: bool, k: nat)
    requires k > 0
    ensures Advance(rate, atStart) * Balance(rate, pay, present, atStart, k) == -FutureValue(rate, k, pay, present, atStart)
  {
    hide Pow, Advance, OnSchedule, Balance, FutureForm;
    if rate == 0.0 {
      FlatBalance(pay, present, atStart, k);
      FlatAdvance(atStart);
    } else {
      BalanceOnSchedule(rate, pay, present, atStart, k);
      ScheduleIsFuture(Balance(rate, pay, present, atStart, k), Advance(rate, atStart), Pow(1.0 + rate, k), rate, present, pay);
    }
  }

  lemma FlatAdvance(atStart: bool)
    ensures Advance(0.0, atStart) == 1.0
  {
  }

  // -------- cumulative sums --------

  function SumInterest(rate: real, pay: real, present: real, atStart: bool, first: nat, last: nat): real
    decreases last
  {
    if last < first || last == 0 then 0.0
    else SumInterest(rate, pay, present, atStart, first, last - 1) + Interest(rate, pay, present, atStart, last)
  }

  function SumPrincipal(rate: real, pay: real, present: real, atStart: bool, first: nat, last: nat): real
    decreases last
  {
    if last < first || last == 0 then 0.0
    else SumPrincipal(rate, pay, present, atStart, first, last - 1) + Principal(rate, pay, present, atStart, last)
  }

  // None where the periods asked for lie outside the schedule.
  method Cumulative(wantInterest: bool, rate: real, periods: nat, present: real, first: int, last: int, atStart: bool)
    returns (total: Option<real>)
    requires Solvable(rate, periods, atStart)
    ensures total.None? <==> !(1 <= first <= last <= periods)
    ensures var pay := Payment(rate, periods, present, 0.0, atStart);
            total.Some? ==>
              total.value == if wantInterest then SumInterest(rate, pay, present, atStart, first, last)
              else SumPrincipal(rate, pay, present, atStart, first, last)
  {
    if first < 1 || last < first || last > periods { return None; }
    ghost var pay := Payment(rate, periods, present, 0.0, atStart);
    var sum := 0.0;
    for period := first to last + 1
      invariant sum == if wantInterest then SumInterest(rate, pay, present, atStart, first, period - 1)
                       else SumPrincipal(rate, pay, present, atStart, first, period - 1)
    {
      var interest, principal := PeriodSplit(rate, periods, present, 0.0, atStart, period);
      sum := sum + if wantInterest then interest else principal;
    }
    total := Some(sum);
  }

  // Over any stretch of the schedule the two sums add up to the instalments, and
  // the principal is what the balance moved by.
  lemma {:induction false} SumsAddUp(rate: real, pay: real, present: real, atStart: bool, first: nat, last: nat)
    requires 1 <= first <= last + 1
    ensures SumInterest(rate, pay, present, atStart, first, last) + SumPrincipal(rate, pay, present, atStart, first, last)
         == Times(pay, (last + 1 - first) as real)
    ensures SumPrincipal(rate, pay, present, atStart, first, last)
         == Balance(rate, pay, present, atStart, last) - Balance(rate, pay, present, atStart, first - 1)
    decreases last
  {
    hide Charge;
    if first <= last {
      SumsAddUp(rate, pay, present, atStart, first, last - 1);
      OneMore(pay, last - first);
    }
  }

  lemma OneMore(pay: real, n: nat)
    ensures Times(pay, (n + 1) as real) == Times(pay, n as real) + pay
  {
  }

  // The whole schedule: what is paid off is what was owed, less what is to be
  // left over; with nothing left over it is exactly the present value.
  lemma ScheduleClears(rate: real, periods: nat, present: real, future: real, atStart: bool)
    requires Solvable(rate, periods, atStart)
    ensures var pay := Payment(rate, periods, present, future, atStart);
            var paid := SumPrincipal(rate, pay, present, atStart, 1, periods);
            && Advance(rate, atStart) * (present + paid) == -future
            && (future == 0.0 ==> paid == -present)
            && SumInterest(rate, pay, present, atStart, 1, periods) + paid == Times(pay, periods as real)
  {
    hide Pow, Advance, Balance, Payment, FutureValue, SumPrincipal, SumInterest;
    var pay := Payment(rate, periods, present, future, atStart);
    FvInvertsPmt(rate, periods, present, future, pay, atStart);
    BalanceIsFutureValue(rate, pay, present, atStart, periods);
    SumsAddUp(rate, pay, present, atStart, 1, periods);
    StartBalance(rate, pay, present, atStart);
    AdvanceNonzero(rate, periods, atStart);
    var d, b := Advance(rate, atStart), Balance(rate, pay, present, atStart, periods);
    if future == 0.0 { CancelFactor(b, 0.0, d); }
  }

  lemma AdvanceNonzero(rate: real, periods: nat, atStart: bool)
    requires Solvable(rate, periods, atStart)
    ensures Advance(rate, atStart) != 0.0
  {
    hide Pow;
    var g := Pow(1.0 + rate, periods);
    if rate == 0.0 { FlatAdvance(atStart); } else { assert Advance(rate, atStart) == 0.0 ==> Advance(rate, atStart) * (g - 1.0) == 0.0; }
  }

  lemma StartBalance(rate: real, pay: real, present: real, atStart: bool)
    ensures Balance(rate, pay, present, atStart, 0) == present
  {
  }
}
