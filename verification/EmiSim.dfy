/**
  The EMI (equated monthly instalment) payment strategies. All pay from cash
  and report no credit utilization.
*/
module EmiSim {
  import opened Wrappers
  import opened SimTypes

  /** The instalment an EMI is scheduled to take this month: its amount while months remain, else nothing. */
  function Due(e: Emi): real {
    if e.remainingMonths > 0 then e.monthlyEmi else 0.0
  }

  /** `emis.reduce(...)`: the sum, left to right, of the instalments of the EMIs that still have months to run. */
  function ScheduledTotal(emis: seq<Emi>): real
    decreases |emis|
  {
    if emis == [] then 0.0 else ScheduledTotal(emis[..|emis| - 1]) + Due(emis[|emis| - 1])
  }

  /** The scheduled total of two lists side by side is the sum of their totals. */
  lemma {:induction false} ScheduledTotalAppend(a: seq<Emi>, b: seq<Emi>)
    ensures ScheduledTotal(a + b) == ScheduledTotal(a) + ScheduledTotal(b)
    decreases |b|
  {
    if b != [] {
      assert (a + b)[..|a + b| - 1] == a + b[..|b| - 1];
      ScheduledTotalAppend(a, b[..|b| - 1]);
    } else {
      assert a + b == a;
    }
  }

  /** With non-negative instalments the scheduled total is non-negative, and finished EMIs add nothing. */
  lemma {:induction false} ScheduledTotalNonNegative(emis: seq<Emi>)
    requires forall j :: 0 <= j < |emis| ==> emis[j].monthlyEmi >= 0.0
    ensures ScheduledTotal(emis) >= 0.0
    decreases |emis|
  {
    if emis != [] {
      ScheduledTotalNonNegative(emis[..|emis| - 1]);
    }
  }

  /** Pay this month's scheduled instalments of every active EMI. */
  function PayEmi(emis: seq<Emi>, currentBalance: real): Outcome {
    var total := ScheduledTotal(emis);
    Outcome(total, Cash, currentBalance - total, None, None)
  }

  /**
    Pay the scheduled instalments plus an extra amount: the excess of the
    user's amount over the scheduled total when the user gave a larger one,
    the cash above the buffer and the scheduled total when the amount is
    `null`, and nothing otherwise (a smaller amount, or an absent one).
  */
  function Extra(emis: seq<Emi>, currentBalance: real, c: Constraints, amount: UserAmount): real {
    var total := ScheduledTotal(emis);
    if amount.Given? && amount.v > total then amount.v - total
    else if amount.NullAmount? then
      (var spare := currentBalance - c.minCashBuffer - total; if spare > 0.0 then spare else 0.0)
    else 0.0
  }

  function PrepayPartial(emis: seq<Emi>, currentBalance: real, c: Constraints, amount: UserAmount): Outcome {
    var totalPay := ScheduledTotal(emis) + Extra(emis, currentBalance, c, amount);
    Outcome(totalPay, Cash, currentBalance - totalPay, None, None)
  }

  /** Pay nothing this month. */
  function SkipEmi(currentBalance: real): Outcome {
    Outcome(0.0, Cash, currentBalance, None, None)
  }

  /** The EMI strategies, by name. */
  datatype EmiStrategy = PayEmiS | PrepayPartialS | SkipEmiS

  function RunEmiStrategy(s: EmiStrategy, emis: seq<Emi>, currentBalance: real, c: Constraints, amount: UserAmount): Outcome {
    match s
    case PayEmiS => PayEmi(emis, currentBalance)
    case PrepayPartialS => PrepayPartial(emis, currentBalance, c, amount)
    case SkipEmiS => SkipEmi(currentBalance)
  }

  // ---------------------------------------------------------------------
  // Properties
  // ---------------------------------------------------------------------

  /** Every EMI strategy pays from cash, leaves the balance less the amount and reports no utilization. */
  lemma EmiStrategiesPayFromCash(s: EmiStrategy, emis: seq<Emi>, currentBalance: real, c: Constraints, amount: UserAmount)
    ensures var r := RunEmiStrategy(s, emis, currentBalance, c, amount);
      && r.source == Cash
      && r.balanceAfter == currentBalance - r.amount
      && r.creditUtilization.None?
      && r.outstandingIncrease.None?
  {
  }

  /** `pay_emi` pays the scheduled instalments of exactly the EMIs with months remaining. */
  lemma {:induction false} PayEmiPaysActiveOnly(emis: seq<Emi>, currentBalance: real, j: nat)
    requires j < |emis| && emis[j].remainingMonths <= 0
    ensures PayEmi(emis, currentBalance).amount == PayEmi(emis[..j] + emis[j + 1..], currentBalance).amount
  {
    assert emis == emis[..j] + [emis[j]] + emis[j + 1..];
    ScheduledTotalAppend(emis[..j] + [emis[j]], emis[j + 1..]);
    ScheduledTotalAppend(emis[..j], [emis[j]]);
    ScheduledTotalAppend(emis[..j], emis[j + 1..]);
    assert ScheduledTotal([emis[j]]) == 0.0 by {
      assert [emis[j]][..0] == [];
    }
  }

  /** `prepay_partial` never pays less than the scheduled total: the extra is never negative. */
  lemma PrepayAtLeastScheduled(emis: seq<Emi>, currentBalance: real, c: Constraints, amount: UserAmount)
    ensures Extra(emis, currentBalance, c, amount) >= 0.0
    ensures PrepayPartial(emis, currentBalance, c, amount).amount >= PayEmi(emis, currentBalance).amount
  {
  }

  /** A user amount above the scheduled total is paid exactly; one at or below it pays just the schedule. */
  lemma PrepayGivenAmount(emis: seq<Emi>, currentBalance: real, c: Constraints, v: real)
    ensures v > ScheduledTotal(emis) ==> PrepayPartial(emis, currentBalance, c, Given(v)).amount == v
    ensures v <= ScheduledTotal(emis) ==> PrepayPartial(emis, currentBalance, c, Given(v)).amount == ScheduledTotal(emis)
  {
  }

  /**
    With a `null` amount, `prepay_partial` pays the schedule plus whatever
    cash lies above the buffer after it, so a balance that covers buffer and
    schedule ends exactly at the buffer.
  */
  lemma PrepayNullAmount(emis: seq<Emi>, currentBalance: real, c: Constraints)
    ensures var total := ScheduledTotal(emis);
      var spare := currentBalance - c.minCashBuffer - total;
      PrepayPartial(emis, currentBalance, c, NullAmount).amount == total + (if spare > 0.0 then spare else 0.0)
    ensures currentBalance >= c.minCashBuffer + ScheduledTotal(emis) ==>
      PrepayPartial(emis, currentBalance, c, NullAmount).balanceAfter == c.minCashBuffer
  {
  }

  /** An absent amount is neither `null` nor a number: `prepay_partial` then pays just the schedule. */
  lemma PrepayMissingAmount(emis: seq<Emi>, currentBalance: real, c: Constraints)
    ensures PrepayPartial(emis, currentBalance, c, MissingAmount).amount == ScheduledTotal(emis)
  {
  }

  /** `skip_emi` pays nothing and leaves the balance as it is. */
  lemma SkipEmiPaysNothing(currentBalance: real)
    ensures SkipEmi(currentBalance).amount == 0.0 && SkipEmi(currentBalance).balanceAfter == currentBalance
  {
  }
}
