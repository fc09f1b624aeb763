/**
  The forward projection of a strategy's post-action state, month by month:
  card interest accrues, the EMIs are paid in list order while the balance
  covers each one (a miss costs its penalty and leaves the months to run as
  they are), then the card's minimum due is paid if the balance covers it,
  and the first month that ends below the cash buffer is recorded.

  The projection works on its own copy of the obligations: in this model the
  obligations are values, so the caller's are never changed.
*/
module Projection {
  import opened Wrappers
  import opened SimTypes
  import opened Financials

  /** What `projectState` returns. */
  datatype Projected = Projected(
    totalInterest: real,
    totalPenalties: real,
    breachMonth: Option<int>,   // `cash_buffer_breach_month`, 1-based
    missMonth: Option<int>)     // `emi_miss_month`, 1-based

  /** The variables of the month loop. */
  datatype Run = Run(
    balance: real,
    card: Option<CreditCard>,
    emis: seq<Emi>,
    totalInterest: real,
    totalPenalties: real,
    breachMonth: Option<int>,
    missMonth: Option<int>)

  /** The card carries a balance this month. */
  predicate HasOutstanding(card: Option<CreditCard>) {
    card.Some? && card.value.outstanding > 0.0
  }

  /** This month's interest on the card. */
  function Interest(card: Option<CreditCard>): real {
    if HasOutstanding(card) then CalculateMonthlyInterest(card.value.outstanding, card.value.apr) else 0.0
  }

  /** The card after this month's interest is added to its outstanding. */
  function Accrued(card: Option<CreditCard>): Option<CreditCard> {
    if HasOutstanding(card) then Some(card.value.(outstanding := card.value.outstanding + Interest(card))) else card
  }

  /** `(min_due / outstanding) || 0.05`: the card's own ratio, or 5% when that ratio is 0. */
  function MinDueRatio(card: CreditCard): real
    requires card.outstanding > 0.0
  {
    var q := card.minDue / card.outstanding;
    if q == 0.0 then 0.05 else q
  }

  /** The outstanding times the ratio, before the cap. */
  function UncappedDue(card: CreditCard): real
    requires card.outstanding > 0.0
  {
    card.outstanding * MinDueRatio(card)
  }

  /** This month's minimum due on a card with an outstanding balance: never more than the outstanding. */
  function CardMinDue(card: CreditCard): (due: real)
    requires card.outstanding > 0.0
    ensures due <= card.outstanding
  {
    if UncappedDue(card) > card.outstanding then card.outstanding else UncappedDue(card)
  }

  /**
    Since the stored `min_due` never changes, the ratio cancels: the payment
    is the card's minimum due capped at the outstanding, or 5% of the
    outstanding when the minimum due is 0.
  */
  lemma CardMinDueIsCappedMinimum(card: CreditCard)
    requires card.outstanding > 0.0
    ensures card.minDue != 0.0 ==>
      CardMinDue(card) == (if card.minDue > card.outstanding then card.outstanding else card.minDue)
    ensures card.minDue == 0.0 ==> CardMinDue(card) == card.outstanding * 0.05
    ensures card.minDue >= 0.0 ==> CardMinDue(card) >= 0.0
  {
    if card.minDue != 0.0 {
      assert MinDueRatio(card) == card.minDue / card.outstanding;
      assert UncappedDue(card) == card.minDue;
    } else {
      assert MinDueRatio(card) == 0.05;
    }
  }

  /** The running values of one pass over the EMIs. */
  datatype EmiPass = EmiPass(balance: real, emis: seq<Emi>, penalties: real, missed: bool)

  /** `emi` with one month fewer to run. */
  function Paid(e: Emi): Emi {
    e.(remainingMonths := e.remainingMonths - 1)
  }

  /** The EMI pass of one month, over the list in order. */
  function PayEmis(balance: real, emis: seq<Emi>): EmiPass
    decreases |emis|
  {
    if emis == [] then EmiPass(balance, [], 0.0, false)
    else
      var p := PayEmis(balance, emis[..|emis| - 1]);
      var e := emis[|emis| - 1];
      if e.remainingMonths > 0 then
        if p.balance >= e.monthlyEmi then EmiPass(p.balance - e.monthlyEmi, p.emis + [Paid(e)], p.penalties, p.missed)
        else EmiPass(p.balance, p.emis + [e], p.penalties + e.missPenalty, true)
      else EmiPass(p.balance, p.emis + [e], p.penalties, p.missed)
  }

  /**
    One EMI pass keeps the list's length, and each EMI either stays as it
    was or, if it had months to run, loses exactly one; a balance that
    starts non-negative stays so, because an instalment is only paid when
    the balance covers it; without a miss there is no penalty; and with
    non-negative instalments the balance never grows.
  */
  lemma {:induction false} PayEmisSpec(balance: real, emis: seq<Emi>)
    ensures var r := PayEmis(balance, emis);
      && |r.emis| == |emis|
      && (forall j :: 0 <= j < |emis| ==>
            r.emis[j] == emis[j] || (emis[j].remainingMonths > 0 && r.emis[j] == Paid(emis[j])))
      && (balance >= 0.0 ==> r.balance >= 0.0)
      && (!r.missed ==> r.penalties == 0.0)
      && ((forall j :: 0 <= j < |emis| ==> emis[j].monthlyEmi >= 0.0) ==> r.balance <= balance)
    decreases |emis|
  {
    if emis != [] {
      var n := |emis| - 1;
      PayEmisSpec(balance, emis[..n]);
      var p := PayEmis(balance, emis[..n]);
      var r := PayEmis(balance, emis);
      forall j | 0 <= j < |emis|
        ensures r.emis[j] == emis[j] || (emis[j].remainingMonths > 0 && r.emis[j] == Paid(emis[j]))
      {
        if j < n {
          assert r.emis[j] == p.emis[j];
          assert emis[..n][j] == emis[j];
        }
      }
      if forall j :: 0 <= j < |emis| ==> emis[j].monthlyEmi >= 0.0 {
        assert forall j :: 0 <= j < n ==> emis[..n][j].monthlyEmi >= 0.0;
      }
    }
  }

  /** The instalments of the EMIs that `after` shows paid (one month fewer) compared with `before`. */
  function PaidTotal(before: seq<Emi>, after: seq<Emi>): real
    requires |before| == |after|
    decreases |before|
  {
    if before == [] then 0.0
    else
      var n := |before| - 1;
      PaidTotal(before[..n], after[..n]) + (if after[n] == Paid(before[n]) then before[n].monthlyEmi else 0.0)
  }

  /**
    An EMI is paid (loses a month) in a pass exactly when it has months to
    run and the balance left by the EMIs before it covers its instalment,
    and the pass takes exactly the paid EMIs' instalments from the balance.
  */
  lemma {:induction false} PayEmisPaysWhenCovered(balance: real, emis: seq<Emi>)
    ensures var r := PayEmis(balance, emis);
      && |r.emis| == |emis|
      && (forall j :: 0 <= j < |emis| ==>
            (r.emis[j] == Paid(emis[j]) <==>
               emis[j].remainingMonths > 0 && PayEmis(balance, emis[..j]).balance >= emis[j].monthlyEmi))
      && r.balance == balance - PaidTotal(emis, r.emis)
    decreases |emis|
  {
    if emis != [] {
      var n := |emis| - 1;
      PayEmisPaysWhenCovered(balance, emis[..n]);
      var p := PayEmis(balance, emis[..n]);
      var r := PayEmis(balance, emis);
      assert r.emis[..n] == p.emis;
      assert emis[..n][..n] == emis[..n] && emis[..n] == emis[..|emis| - 1];
      forall j | 0 <= j < |emis|
        ensures r.emis[j] == Paid(emis[j]) <==>
          emis[j].remainingMonths > 0 && PayEmis(balance, emis[..j]).balance >= emis[j].monthlyEmi
      {
        if j < n {
          assert r.emis[j] == p.emis[j];
          assert emis[..n][j] == emis[j];
          assert emis[..n][..j] == emis[..j];
        } else {
          assert r.emis[n] == (if emis[n].remainingMonths > 0 && p.balance >= emis[n].monthlyEmi then Paid(emis[n]) else emis[n]);
          assert emis[n] != Paid(emis[n]);
        }
      }
    }
  }

  /** The penalties of the EMIs that had months to run but that `after` does not show paid. */
  function MissedPenalties(before: seq<Emi>, after: seq<Emi>): real
    requires |before| == |after|
    decreases |before|
  {
    if before == [] then 0.0
    else
      var n := |before| - 1;
      MissedPenalties(before[..n], after[..n])
        + (if before[n].remainingMonths > 0 && after[n] != Paid(before[n]) then before[n].missPenalty else 0.0)
  }

  /** A pass charges exactly the penalties of the EMIs with months to run that it leaves unpaid. */
  lemma {:induction false} PayEmisChargesMissedPenalties(balance: real, emis: seq<Emi>)
    ensures var r := PayEmis(balance, emis);
      |r.emis| == |emis| && r.penalties == MissedPenalties(emis, r.emis)
    decreases |emis|
  {
    if emis != [] {
      var n := |emis| - 1;
      PayEmisChargesMissedPenalties(balance, emis[..n]);
      var r := PayEmis(balance, emis);
      assert r.emis[..n] == PayEmis(balance, emis[..n]).emis;
      assert emis[n] != Paid(emis[n]);
    }
  }

  /** A pass records a miss exactly when some EMI with months to run is left unpaid. */
  lemma {:induction false} PayEmisMissedExactly(balance: real, emis: seq<Emi>)
    ensures var r := PayEmis(balance, emis);
      |r.emis| == |emis| &&
      (r.missed <==> exists j :: 0 <= j < |emis| && emis[j].remainingMonths > 0 && r.emis[j] != Paid(emis[j]))
    decreases |emis|
  {
    if emis != [] {
      var n := |emis| - 1;
      PayEmisMissedExactly(balance, emis[..n]);
      var p := PayEmis(balance, emis[..n]);
      var r := PayEmis(balance, emis);
      assert r.emis[..n] == p.emis;
      assert emis[n] != Paid(emis[n]);
      if p.missed {
        var j :| 0 <= j < n && emis[..n][j].remainingMonths > 0 && p.emis[j] != Paid(emis[..n][j]);
        assert emis[j] == emis[..n][j] && r.emis[j] == p.emis[j];
      }
      if r.missed && !p.missed {
        assert emis[n].remainingMonths > 0 && r.emis[n] != Paid(emis[n]);
      }
      if !r.missed {
        forall j | 0 <= j < |emis| && emis[j].remainingMonths > 0
          ensures r.emis[j] == Paid(emis[j])
        {
          if j < n {
            assert emis[j] == emis[..n][j] && r.emis[j] == p.emis[j];
          }
        }
      }
    }
  }

  /** Month `m` of the loop. */
  function MonthStep(r: Run, m: int, c: Constraints): Run {
    var interest := Interest(r.card);
    var card := Accrued(r.card);
    var due := if HasOutstanding(card) then CardMinDue(card.value) else 0.0;
    var p := PayEmis(r.balance, r.emis);
    var missMonth := if p.missed && r.missMonth.None? then Some(m) else r.missMonth;
    var payCard := HasOutstanding(card) && p.balance >= due;
    var balance := if payCard then p.balance - due else p.balance;
    var card' := if payCard then Some(card.value.(outstanding := card.value.outstanding - due)) else card;
    var breachMonth := if balance < c.minCashBuffer && r.breachMonth.None? then Some(m) else r.breachMonth;
    Run(balance, card', p.emis, r.totalInterest + interest, r.totalPenalties + p.penalties, breachMonth, missMonth)
  }

  /** The loop variables after months 1..n. */
  function Months(r: Run, c: Constraints, n: int): Run
    decreases n
  {
    if n <= 0 then r else MonthStep(Months(r, c, n - 1), n, c)
  }

  function Start(startBalance: real, ob: Obligations): Run {
    Run(startBalance, ob.creditCard, ob.emis, 0.0, 0.0, None, None)
  }

  function Result(r: Run): Projected {
    Projected(r.totalInterest, r.totalPenalties, r.breachMonth, r.missMonth)
  }

  /** The projection over `horizonMonths` months. */
  function Project(startBalance: real, ob: Obligations, horizonMonths: int, c: Constraints): Projected {
    Result(Months(Start(startBalance, ob), c, horizonMonths))
  }

  /** The month step, field by field, as the loop body computes it. */
  lemma MonthStepParts(r: Run, m: int, c: Constraints, card: Option<CreditCard>, balance: real,
                       breachMonth: Option<int>, missMonth: Option<int>, totalPenalties: real, emis: seq<Emi>)
    requires var p := PayEmis(r.balance, r.emis);
      var accrued := Accrued(r.card);
      var due := if HasOutstanding(accrued) then CardMinDue(accrued.value) else 0.0;
      var payCard := HasOutstanding(accrued) && p.balance >= due;
      && emis == p.emis
      && totalPenalties == r.totalPenalties + p.penalties
      && missMonth == (if p.missed && r.missMonth.None? then Some(m) else r.missMonth)
      && balance == (if payCard then p.balance - due else p.balance)
      && card == (if payCard then Some(accrued.value.(outstanding := accrued.value.outstanding - due)) else accrued)
      && breachMonth == (if balance < c.minCashBuffer && r.breachMonth.None? then Some(m) else r.breachMonth)
    ensures MonthStep(r, m, c) == Run(balance, card, emis, r.totalInterest + Interest(r.card), totalPenalties, breachMonth, missMonth)
  {
  }

  /** `obligations.emis.forEach(...)` for the payments of month `m`. */
  method PayEmisInOrder(balance0: real, emis0: seq<Emi>) returns (balance: real, emis: seq<Emi>, penalties: real, missed: bool)
    ensures EmiPass(balance, emis, penalties, missed) == PayEmis(balance0, emis0)
  {
    balance, emis, penalties, missed := balance0, emis0, 0.0, false;
    var j := 0;
    while j < |emis|
      invariant 0 <= j <= |emis| == |emis0|
      invariant EmiPass(balance, emis[..j], penalties, missed) == PayEmis(balance0, emis0[..j])
      invariant emis[j..] == emis0[j..]
    {
      var emi := emis[j];
      assert emi == emis0[j];
      ghost var done := emis[..j];
      assert emis0[..j + 1][..j] == emis0[..j] && emis0[..j + 1][j] == emi;
      if emi.remainingMonths > 0 {
        if balance >= emi.monthlyEmi {
          balance := balance - emi.monthlyEmi;
          emis := emis[j := Paid(emi)];
        } else {
          missed := true;
          penalties := penalties + emi.missPenalty;
        }
      }
      assert emis[..j] == done && emis[j + 1..] == emis0[j + 1..];
      assert emis[..j + 1] == done + [emis[j]];
      j := j + 1;
    }
    assert emis0[..j] == emis0;
    assert emis[..j] == emis;
  }

  /** One iteration of the month loop of `projectState`, on the loop variables `r`. */
  method ProjectMonth(r: Run, m: int, constraints: Constraints) returns (r': Run)
    ensures r' == MonthStep(r, m, constraints)
  {
    var balance := r.balance;
    var card := r.card;
    var totalInterest := r.totalInterest;
    var totalPenalties := r.totalPenalties;
    var cashBufferBreachMonth := r.breachMonth;
    var emiMissMonth := r.missMonth;
    // 1. interest
    if card.Some? && card.value.outstanding > 0.0 {
      var interest := CalculateMonthlyInterest(card.value.outstanding, card.value.apr);
      totalInterest := totalInterest + interest;
      card := Some(card.value.(outstanding := card.value.outstanding + interest));
    }
    assert card == Accrued(r.card) && totalInterest == r.totalInterest + Interest(r.card);
    // 2. the card's minimum due
    var ccMinDue := 0.0;
    if card.Some? && card.value.outstanding > 0.0 {
      ccMinDue := CardMinDue(card.value);
    }
    assert ccMinDue == (if HasOutstanding(card) then CardMinDue(card.value) else 0.0);
    // 3. the EMIs
    var emis, penalties, missed;
    balance, emis, penalties, missed := PayEmisInOrder(balance, r.emis);
    if missed && emiMissMonth.None? {
      emiMissMonth := Some(m);
    }
    totalPenalties := totalPenalties + penalties;
    // 4. the card
    if card.Some? && card.value.outstanding > 0.0 {
      if balance >= ccMinDue {
        balance := balance - ccMinDue;
        card := Some(card.value.(outstanding := card.value.outstanding - ccMinDue));
      }
    }
    // 5. the buffer
    if balance < constraints.minCashBuffer && cashBufferBreachMonth.None? {
      cashBufferBreachMonth := Some(m);
    }
    MonthStepParts(r, m, constraints, card, balance, cashBufferBreachMonth, emiMissMonth, totalPenalties, emis);
    r' := Run(balance, card, emis, totalInterest, totalPenalties, cashBufferBreachMonth, emiMissMonth);
  }

  /** `projectState`: the month loop over a copy of the obligations. */
  method ProjectState(startBalance: real, startObligations: Obligations, horizonMonths: int, constraints: Constraints)
    returns (p: Projected)
    ensures p == Project(startBalance, startObligations, horizonMonths, constraints)
  {
    var r := Start(startBalance, startObligations);
    var m := 1;
    while m <= horizonMonths
      invariant 1 <= m <= (if horizonMonths >= 1 then horizonMonths + 1 else 1)
      invariant r == Months(Start(startBalance, startObligations), constraints, m - 1)
    {
      r := ProjectMonth(r, m, constraints);
      m := m + 1;
    }
    p := Result(r);
  }

  // ---------------------------------------------------------------------
  // Properties of the projection
  // ---------------------------------------------------------------------

  /** A horizon of no months projects no interest, no penalties and neither month. */
  lemma ZeroHorizon(startBalance: real, ob: Obligations, horizonMonths: int, c: Constraints)
    requires horizonMonths <= 0
    ensures Project(startBalance, ob, horizonMonths, c) == Projected(0.0, 0.0, None, None)
  {
  }

  /** `e` still has the terms of `e0` and at most its months to run, never going below 0 from a non-negative start. */
  predicate Remains(e0: Emi, e: Emi) {
    && e.monthlyEmi == e0.monthlyEmi
    && e.missPenalty == e0.missPenalty
    && e.prepayAllowed == e0.prepayAllowed
    && e.remainingMonths <= e0.remainingMonths
    && (e0.remainingMonths >= 0 ==> e.remainingMonths >= 0)
  }

  /**
    Over any number of months the EMI list keeps its length and each EMI its
    terms; its months to run only shrink, and never below 0 from a
    non-negative start, since a month is taken off only an EMI that has one.
  */
  lemma {:induction false} RemainingMonthsBounds(r0: Run, c: Constraints, n: int)
    ensures |Months(r0, c, n).emis| == |r0.emis|
    ensures forall j :: 0 <= j < |r0.emis| ==> Remains(r0.emis[j], Months(r0, c, n).emis[j])
    decreases n
  {
    if n > 0 {
      RemainingMonthsBounds(r0, c, n - 1);
      var prev := Months(r0, c, n - 1);
      PayEmisSpec(prev.balance, prev.emis);
      assert Months(r0, c, n).emis == PayEmis(prev.balance, prev.emis).emis;
    }
  }

  /** A projection that starts with a non-negative balance never takes it below 0: each payment is made only when covered. */
  lemma {:induction false} BalanceNonNegative(r0: Run, c: Constraints, n: int)
    requires r0.balance >= 0.0
    ensures Months(r0, c, n).balance >= 0.0
    decreases n
  {
    if n > 0 {
      BalanceNonNegative(r0, c, n - 1);
      var prev := Months(r0, c, n - 1);
      PayEmisSpec(prev.balance, prev.emis);
    }
  }

  /** Every instalment and the card's stored minimum due are non-negative. */
  predicate NonNegativePayments(r: Run) {
    && (forall j :: 0 <= j < |r.emis| ==> r.emis[j].monthlyEmi >= 0.0)
    && (r.card.Some? ==> r.card.value.minDue >= 0.0)
  }

  /** One month with non-negative payments does not raise the balance, and keeps the payments non-negative. */
  lemma MonthStepNonIncreasing(r: Run, m: int, c: Constraints)
    requires NonNegativePayments(r)
    ensures MonthStep(r, m, c).balance <= r.balance
    ensures NonNegativePayments(MonthStep(r, m, c))
  {
    PayEmisSpec(r.balance, r.emis);
    var card := Accrued(r.card);
    if HasOutstanding(card) {
      CardMinDueIsCappedMinimum(card.value);
    }
    var p := PayEmis(r.balance, r.emis);
    assert forall j :: 0 <= j < |p.emis| ==> p.emis[j].monthlyEmi == r.emis[j].monthlyEmi;
  }

  /**
    With non-negative instalments and minimum due the balance never grows
    from one month to the next, nor above the starting balance.
  */
  lemma {:induction false} BalanceNeverIncreases(r0: Run, c: Constraints, n: int)
    requires NonNegativePayments(r0)
    ensures NonNegativePayments(Months(r0, c, n))
    ensures n >= 1 ==> Months(r0, c, n).balance <= Months(r0, c, n - 1).balance
    ensures Months(r0, c, n).balance <= r0.balance
    decreases n
  {
    if n > 0 {
      BalanceNeverIncreases(r0, c, n - 1);
      MonthStepNonIncreasing(Months(r0, c, n - 1), n, c);
    }
  }

  /** Some EMI is missed in month `m` (1-based) of the projection from `r0`. */
  predicate MissedIn(r0: Run, c: Constraints, m: int) {
    var prev := Months(r0, c, m - 1);
    PayEmis(prev.balance, prev.emis).missed
  }

  /**
    The month the loop records for a flag `b`: month `n` when `b(n)` holds
    and no earlier month was recorded, else the earlier record.
  */
  ghost function FirstMonth(b: int -> bool, n: int): Option<int>
    decreases n
  {
    if n <= 0 then None
    else
      var prev := FirstMonth(b, n - 1);
      if b(n) && prev.None? then Some(n) else prev
  }

  /** The recorded month is the first month in 1..n whose flag holds, and none is recorded exactly when no flag holds. */
  lemma {:induction false} FirstMonthIsFirst(b: int -> bool, n: int)
    ensures FirstMonth(b, n).None? <==> forall j :: 1 <= j <= n ==> !b(j)
    ensures FirstMonth(b, n).Some? ==>
      var k := FirstMonth(b, n).value;
      1 <= k <= n && b(k) && forall j :: 1 <= j < k ==> !b(j)
    decreases n
  {
    if n > 0 {
      FirstMonthIsFirst(b, n - 1);
    }
  }

  /** The loop's `emi_miss_month` follows the first-month recurrence of the months with a miss. */
  lemma {:induction false} MissMonthRecurrence(r0: Run, c: Constraints, n: int)
    requires r0.missMonth.None? && r0.totalPenalties == 0.0
    ensures Months(r0, c, n).missMonth == FirstMonth(j => MissedIn(r0, c, j), n)
    ensures Months(r0, c, n).missMonth.None? ==> Months(r0, c, n).totalPenalties == 0.0
    decreases n
  {
    if n > 0 {
      MissMonthRecurrence(r0, c, n - 1);
      var prev := Months(r0, c, n - 1);
      NoMissNoPenalties(prev.balance, prev.emis);
      MissStep(prev, n, c);
    }
  }

  /**
    `emi_miss_month` is the first month in which some EMI is missed, and
    null exactly when no month has a miss; without a miss there are no
    penalties.
  */
  lemma MissMonthIsFirst(r0: Run, c: Constraints, n: int)
    requires r0.missMonth.None? && r0.totalPenalties == 0.0
    ensures Months(r0, c, n).missMonth.None? <==> forall j :: 1 <= j <= n ==> !MissedIn(r0, c, j)
    ensures Months(r0, c, n).missMonth.Some? ==>
      var k := Months(r0, c, n).missMonth.value;
      && 1 <= k <= n
      && MissedIn(r0, c, k)
      && forall j :: 1 <= j < k ==> !MissedIn(r0, c, j)
    ensures Months(r0, c, n).missMonth.None? ==> Months(r0, c, n).totalPenalties == 0.0
  {
    MissMonthRecurrence(r0, c, n);
    FirstMonthIsFirst(j => MissedIn(r0, c, j), n);
  }

  /** An EMI pass without a miss charges no penalty. */
  lemma NoMissNoPenalties(balance: real, emis: seq<Emi>)
    ensures !PayEmis(balance, emis).missed ==> PayEmis(balance, emis).penalties == 0.0
  {
    PayEmisSpec(balance, emis);
  }

  /** One month records a miss in month `m` only when none was recorded before and its EMI pass misses; it adds that pass's penalties. */
  lemma MissStep(r: Run, m: int, c: Constraints)
    ensures var r' := MonthStep(r, m, c); var p := PayEmis(r.balance, r.emis);
      && r'.missMonth == (if p.missed && r.missMonth.None? then Some(m) else r.missMonth)
      && r'.totalPenalties == r.totalPenalties + p.penalties
  {
  }

  /** The balance at the end of month `m` is below the cash buffer. */
  predicate BreachedIn(r0: Run, c: Constraints, m: int) {
    Months(r0, c, m).balance < c.minCashBuffer
  }

  /** The loop's `cash_buffer_breach_month` follows the first-month recurrence of the months ending below the buffer. */
  lemma {:induction false} BreachMonthRecurrence(r0: Run, c: Constraints, n: int)
    requires r0.breachMonth.None?
    ensures Months(r0, c, n).breachMonth == FirstMonth(j => BreachedIn(r0, c, j), n)
    decreases n
  {
    if n > 0 {
      BreachMonthRecurrence(r0, c, n - 1);
      BreachStep(Months(r0, c, n - 1), n, c);
    }
  }

  /**
    `cash_buffer_breach_month` is the first month that ends below the cash
    buffer, and null exactly when no month does.
  */
  lemma BreachMonthIsFirst(r0: Run, c: Constraints, n: int)
    requires r0.breachMonth.None?
    ensures Months(r0, c, n).breachMonth.None? <==> forall j :: 1 <= j <= n ==> !BreachedIn(r0, c, j)
    ensures Months(r0, c, n).breachMonth.Some? ==>
      var k := Months(r0, c, n).breachMonth.value;
      && 1 <= k <= n
      && BreachedIn(r0, c, k)
      && forall j :: 1 <= j < k ==> !BreachedIn(r0, c, j)
  {
    BreachMonthRecurrence(r0, c, n);
    FirstMonthIsFirst(j => BreachedIn(r0, c, j), n);
  }

  /** One month records a breach in month `m` only when none was recorded before and the month ends below the buffer. */
  lemma BreachStep(r: Run, m: int, c: Constraints)
    ensures var r' := MonthStep(r, m, c);
      r'.breachMonth == (if r'.balance < c.minCashBuffer && r.breachMonth.None? then Some(m) else r.breachMonth)
  {
  }
}
