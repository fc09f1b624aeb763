/** The two financial helpers of the engine. */
module Financials {

  /**
    Monthly interest on a principal at an annual percentage rate; a zero
    principal or a zero rate gives no interest.
  */
  function CalculateMonthlyInterest(principal: real, annualRate: real): (r: real)
    ensures principal == 0.0 || annualRate == 0.0 ==> r == 0.0
    ensures principal >= 0.0 && annualRate >= 0.0 ==> r >= 0.0
  {
    if principal == 0.0 || annualRate == 0.0 then 0.0
    else (principal * (annualRate / 100.0)) / 12.0
  }

  /**
    With exact arithmetic the zero guard changes nothing: the interest is
    always the principal times the annual rate over 1200.
  */
  lemma MonthlyInterestFormula(principal: real, annualRate: real)
    ensures CalculateMonthlyInterest(principal, annualRate) == principal * annualRate / 1200.0
  {
    if principal != 0.0 && annualRate != 0.0 {
      assert principal * (annualRate / 100.0) == principal * annualRate / 100.0;
    }
  }

  /** Interest grows with the principal at a non-negative rate. */
  lemma MonthlyInterestMonotone(p1: real, p2: real, annualRate: real)
    requires p1 <= p2 && annualRate >= 0.0
    ensures CalculateMonthlyInterest(p1, annualRate) <= CalculateMonthlyInterest(p2, annualRate)
  {
    MonthlyInterestFormula(p1, annualRate);
    MonthlyInterestFormula(p2, annualRate);
    assert p1 * annualRate <= p2 * annualRate;
  }

  /** The private-mortgage-insurance placeholder: always zero. */
  function CalculatePMI(principal: real, rate: real, months: int): (r: real)
    ensures r == 0.0
  {
    0.0
  }
}
