/**
  The records the financial decision simulation engine works on. Amounts of
  money are exact reals; the display rounding of the engine's output is not
  modelled. A field the engine reads from an absent object is an `Option`.
*/
module SimTypes {
  import opened Wrappers

  /** `obligations.credit_card`. */
  datatype CreditCard = CreditCard(outstanding: real, creditLimit: real, apr: real, minDue: real)

  /** One entry of `obligations.emis`. */
  datatype Emi = Emi(monthlyEmi: real, remainingMonths: int, missPenalty: real, prepayAllowed: bool)

  /** `obligations`: an optional credit card and the list of EMIs. */
  datatype Obligations = Obligations(creditCard: Option<CreditCard>, emis: seq<Emi>)

  /** `constraints`. */
  datatype Constraints = Constraints(minCashBuffer: real, maxCreditUtilization: real)

  /** `user_action.amount`: `null`, absent (`undefined`), or a number. */
  datatype UserAmount = NullAmount | MissingAmount | Given(v: real)

  /** Where a strategy takes the money from. */
  datatype Source = Cash | Credit | Split

  /**
    What a strategy computes for the immediate action. `creditUtilization`
    is `None` for `null`; `outstandingIncrease` is `None` when the strategy
    does not set it.
  */
  datatype Outcome = Outcome(
    amount: real,
    source: Source,
    balanceAfter: real,
    creditUtilization: Option<real>,
    outstandingIncrease: Option<real>)

  /** The flattened `{...state, ...obligations}` the strategies read. */
  datatype SimState = SimState(
    currentBalance: real,
    emergency: Option<real>,   // `state.emergency.amount`, `None` when there is no emergency object
    creditCard: Option<CreditCard>,
    emis: seq<Emi>)

  /** `outstanding / credit_limit * 100`: the utilization, in percent, of an outstanding amount. */
  function Utilization(outstanding: real, creditLimit: real): (r: real)
    requires creditLimit != 0.0
    ensures creditLimit > 0.0 ==> (r > 100.0 <==> outstanding > creditLimit)
    ensures creditLimit > 0.0 ==> (r >= 0.0 <==> outstanding >= 0.0)
  {
    outstanding / creditLimit * 100.0
  }
}
