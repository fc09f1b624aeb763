/**
  The strategies for an emergency expense: all cash, all on the credit card,
  or cash down to the buffer and the rest on the card.
*/
module EmergencySim {
  import opened Wrappers
  import opened SimTypes

  /** Pay the whole emergency amount from cash. */
  function PayWithCash(amount: real, currentBalance: real): Outcome {
    Outcome(amount, Cash, currentBalance - amount, None, None)
  }

  /** Put the whole emergency amount on the card: cash is untouched, the outstanding grows by the amount. */
  function PayWithCredit(amount: real, currentBalance: real, card: CreditCard): Outcome
    requires card.creditLimit != 0.0
  {
    var newOutstanding := card.outstanding + amount;
    Outcome(amount, Credit, currentBalance, Some(Utilization(newOutstanding, card.creditLimit)), Some(amount))
  }

  /** The cash part of a split payment: the cash above the buffer, at most the total. */
  function SplitCash(total: real, currentBalance: real, c: Constraints): real {
    var cashAvail := currentBalance - c.minCashBuffer;
    var cashAvail' := if cashAvail < 0.0 then 0.0 else cashAvail;
    if cashAvail' < total then cashAvail' else total
  }

  /** Pay cash down to the buffer and put the rest on the card. */
  function SplitPayment(total: real, currentBalance: real, c: Constraints, card: CreditCard): Outcome
    requires card.creditLimit != 0.0
  {
    var payCash := SplitCash(total, currentBalance, c);
    var payCredit := total - payCash;
    var newOutstanding := card.outstanding + payCredit;
    Outcome(total, Split, currentBalance - payCash, Some(Utilization(newOutstanding, card.creditLimit)), Some(payCredit))
  }

  /** The emergency strategies, by name. */
  datatype EmergencyStrategy = PayWithCashS | PayWithCreditS | SplitPaymentS

  // ---------------------------------------------------------------------
  // Properties
  // ---------------------------------------------------------------------

  /** Paying with cash takes the whole amount from the balance. */
  lemma PayWithCashSpendsAmount(amount: real, currentBalance: real)
    ensures var r := PayWithCash(amount, currentBalance);
      r.amount == amount && r.balanceAfter == currentBalance - amount && r.source == Cash
  {
  }

  /** Paying with credit leaves the balance and moves the full amount onto the card. */
  lemma PayWithCreditMovesAll(amount: real, currentBalance: real, card: CreditCard)
    requires card.creditLimit != 0.0
    ensures var r := PayWithCredit(amount, currentBalance, card);
      && r.balanceAfter == currentBalance
      && r.outstandingIncrease == Some(amount)
      && r.creditUtilization == Some(Utilization(card.outstanding + amount, card.creditLimit))
  {
  }

  /**
    A split payment divides the total exactly: the cash taken plus the amount
    put on the card is the emergency total, and the cash taken is
    `min(max(0, balance - buffer), total)`.
  */
  lemma SplitConservesTotal(total: real, currentBalance: real, c: Constraints, card: CreditCard)
    requires card.creditLimit != 0.0
    ensures var r := SplitPayment(total, currentBalance, c, card);
      var cash := currentBalance - r.balanceAfter;
      var spare := if currentBalance - c.minCashBuffer < 0.0 then 0.0 else currentBalance - c.minCashBuffer;
      && r.amount == total
      && r.outstandingIncrease.Some?
      && cash + r.outstandingIncrease.value == total
      && cash == (if spare < total then spare else total)
  {
  }

  /**
    A split payment never takes a balance that starts at or above the buffer
    below it, and leaves a balance that starts below it unchanged (for a
    non-negative total).
  */
  lemma SplitKeepsBuffer(total: real, currentBalance: real, c: Constraints, card: CreditCard)
    requires card.creditLimit != 0.0
    ensures currentBalance >= c.minCashBuffer ==>
      SplitPayment(total, currentBalance, c, card).balanceAfter >= c.minCashBuffer
    ensures currentBalance < c.minCashBuffer && total >= 0.0 ==>
      SplitPayment(total, currentBalance, c, card).balanceAfter == currentBalance
  {
  }
}
