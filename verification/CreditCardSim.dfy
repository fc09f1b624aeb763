/**
  The credit-card payment strategies. Each pays from cash, so the balance
  after the action is the current balance less the amount, and each reports
  the card's utilization after the payment.
*/
module CreditCardSim {
  import opened Wrappers
  import opened SimTypes

  /** Pay exactly the minimum due. */
  function MinimumPayment(card: CreditCard, currentBalance: real): Outcome
    requires card.creditLimit != 0.0
  {
    var amount := card.minDue;
    Outcome(amount, Cash, currentBalance - amount,
            Some(Utilization(card.outstanding - amount, card.creditLimit)), None)
  }

  /** Pay the whole outstanding; the utilization reported is 0. */
  function FullPayment(card: CreditCard, currentBalance: real): Outcome {
    var amount := card.outstanding;
    Outcome(amount, Cash, currentBalance - amount, Some(0.0), None)
  }

  /** Cash above the buffer, never negative. */
  function Available(currentBalance: real, c: Constraints): (r: real)
    ensures r >= 0.0 && r >= currentBalance - c.minCashBuffer
    ensures r == 0.0 || r == currentBalance - c.minCashBuffer
  {
    var available := currentBalance - c.minCashBuffer;
    if available < 0.0 then 0.0 else available
  }

  /**
    Pay as much of the outstanding as the cash above the buffer allows, but
    never less than the minimum due.
  */
  function OptimizedPartial(card: CreditCard, currentBalance: real, c: Constraints): Outcome
    requires card.creditLimit != 0.0
  {
    var available := Available(currentBalance, c);
    var amount := if available < card.outstanding then available else card.outstanding;
    var amount' := if amount < card.minDue then card.minDue else amount;
    Outcome(amount', Cash, currentBalance - amount',
            Some(Utilization(card.outstanding - amount', card.creditLimit)), None)
  }

  /** `userAmt || 0`: the user's amount, with `null` and absent read as 0. */
  function UserAmountOrZero(userAmt: UserAmount): real {
    match userAmt
    case Given(v) => v
    case _ => 0.0
  }

  /** Pay the amount the user asked for. */
  function UserDefined(card: CreditCard, currentBalance: real, userAmt: UserAmount): Outcome
    requires card.creditLimit != 0.0
  {
    var amount := UserAmountOrZero(userAmt);
    Outcome(amount, Cash, currentBalance - amount,
            Some(Utilization(card.outstanding - amount, card.creditLimit)), None)
  }

  /** The credit-card strategies, by name. */
  datatype CardStrategy = MinimumPaymentS | OptimizedPartialS | FullPaymentS | UserDefinedS

  function RunCardStrategy(s: CardStrategy, card: CreditCard, currentBalance: real, c: Constraints, userAmt: UserAmount): Outcome
    requires card.creditLimit != 0.0
  {
    match s
    case MinimumPaymentS => MinimumPayment(card, currentBalance)
    case OptimizedPartialS => OptimizedPartial(card, currentBalance, c)
    case FullPaymentS => FullPayment(card, currentBalance)
    case UserDefinedS => UserDefined(card, currentBalance, userAmt)
  }

  // ---------------------------------------------------------------------
  // Properties
  // ---------------------------------------------------------------------

  /**
    Every credit-card strategy pays from cash, leaves the balance less the
    amount, and reports the utilization of what is left outstanding after
    the payment (for `full_payment` that is the 0 it reports).
  */
  lemma CardStrategiesPayFromCash(s: CardStrategy, card: CreditCard, currentBalance: real, c: Constraints, userAmt: UserAmount)
    requires card.creditLimit != 0.0
    ensures var r := RunCardStrategy(s, card, currentBalance, c, userAmt);
      && r.source == Cash
      && r.balanceAfter == currentBalance - r.amount
      && r.creditUtilization == Some(Utilization(card.outstanding - r.amount, card.creditLimit))
      && r.outstandingIncrease.None?
  {
  }

  /** `minimum_payment` pays exactly the minimum due; `full_payment` pays exactly the outstanding. */
  lemma MinimumAndFullAmounts(card: CreditCard, currentBalance: real)
    requires card.creditLimit != 0.0
    ensures MinimumPayment(card, currentBalance).amount == card.minDue
    ensures FullPayment(card, currentBalance).amount == card.outstanding
    ensures FullPayment(card, currentBalance).creditUtilization == Some(0.0)
  {
  }

  /**
    `optimized_partial` pays `max(min(max(0, balance - buffer), outstanding), min_due)`:
    at least the minimum due, and otherwise no more than the cash above the buffer
    or the outstanding.
  */
  lemma OptimizedPartialAmount(card: CreditCard, currentBalance: real, c: Constraints)
    requires card.creditLimit != 0.0
    ensures var a := OptimizedPartial(card, currentBalance, c).amount;
      var avail := if currentBalance - c.minCashBuffer < 0.0 then 0.0 else currentBalance - c.minCashBuffer;
      var capped := if avail < card.outstanding then avail else card.outstanding;
      && a >= card.minDue
      && a >= capped
      && (a == card.minDue || a == capped)
      && (capped >= card.minDue ==> a == capped)
  {
  }

  /**
    When the capped amount already covers the minimum due, `optimized_partial`
    keeps a balance that starts at or above the buffer at or above it, and
    never lowers a balance that starts below it.
  */
  lemma OptimizedPartialKeepsBuffer(card: CreditCard, currentBalance: real, c: Constraints)
    requires card.creditLimit != 0.0
    requires var avail := Available(currentBalance, c);
      (if avail < card.outstanding then avail else card.outstanding) >= card.minDue
    ensures currentBalance >= c.minCashBuffer ==> OptimizedPartial(card, currentBalance, c).balanceAfter >= c.minCashBuffer
    ensures currentBalance < c.minCashBuffer ==> OptimizedPartial(card, currentBalance, c).balanceAfter >= currentBalance
  {
  }

  /** `user_defined` with a `null` or absent amount, or with 0, pays nothing. */
  lemma UserDefinedDefaultsToZero(card: CreditCard, currentBalance: real, userAmt: UserAmount)
    requires card.creditLimit != 0.0
    requires userAmt.NullAmount? || userAmt.MissingAmount? || userAmt == Given(0.0)
    ensures UserDefined(card, currentBalance, userAmt).amount == 0.0
    ensures UserDefined(card, currentBalance, userAmt).balanceAfter == currentBalance
  {
  }
}
