/** The interest service: the annual accrual rule at rate 0.12, applied in
    place to a stored customer. */
module InterestService {
  import opened Accrual
  import opened Customers

  /** Looks up the customer (null when there is none) and applies the rule once. */
  method CalculateSavingsInterest(c: Customer?, currentYear: int, years: nat) returns (o: AccrualOutcome)
    modifies c
    ensures c == null ==> o == CustomerNotFound
    ensures c != null ==> c.LedgerValue() == Accrue(old(c.LedgerValue()), ServiceRate, currentYear, years)
    ensures c != null ==> o == if AccrualDue(old(c.LedgerValue()), currentYear) then InterestCalculated else AlreadyCalculated
  {
    if c == null {
      return CustomerNotFound;
    }
    o := c.AccrueInterest(ServiceRate, currentYear, years);
  }
}
