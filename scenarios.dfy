/** Concrete runs of the workflow through the in-place methods, each proved
    from the methods' contracts alone: the documented scenarios, and the two
    defects of the decision endpoint next to their corrected behaviour. */
module Scenarios {
  import opened Basics
  import opened Schema
  import opened Customers
  import opened Accrual
  import opened Transactions
  import opened Corrections

  const Clerk: Profile := Profile(30, Female, Some(50000.0), Some(FinanceBureau))

  /** As written: two withdrawals of 300 are both accepted against a balance
      of 300 and both approved, leaving the savings at -300. */
  method OverdraftByTwoWithdrawals() returns (balance: real)
    ensures balance == -300.0
  {
    var c := new Customer(Account(Clerk, Ledger(300.0, 0.0, None)));
    var w1 := Withdraw(c, 300.0, None);
    var w2 := Withdraw(c, 300.0, None);
    assert w1.Success? && w2.Success?;
    var r1 := ProcessTransaction(w1.value, "approve");
    assert ParseAction("approve") == Some(Approve) by { ParseActionName(Approve); }
    assert ParseType(w1.value.kind) == Some(Withdrawal);
    assert c.saving == 0.0;
    var r2 := ProcessTransaction(w2.value, "approve");
    assert ParseType(w2.value.kind) == Some(Withdrawal);
    balance := c.saving;
  }

  /** Corrected: the second approval of the same pair is refused and the balance stays at zero. */
  method GuardedRefusesOverdraft() returns (balance: real, second: Result<Status, DecisionError>)
    ensures balance == 0.0 && second == Failure(InsufficientFunds)
  {
    var c := new Customer(Account(Clerk, Ledger(300.0, 0.0, None)));
    var w1 := Withdraw(c, 300.0, None);
    var w2 := Withdraw(c, 300.0, None);
    assert w1.Success? && w2.Success?;
    assert ParseAction("approve") == Some(Approve) by { ParseActionName(Approve); }
    assert ParseType(w1.value.kind) == Some(Withdrawal);
    var r1 := ProcessTransactionGuarded(w1.value, "approve");
    assert c.saving == 0.0;
    assert ParseType(w2.value.kind) == Some(Withdrawal);
    second := ProcessTransactionGuarded(w2.value, "approve");
    balance := c.saving;
  }

  /** As written: approving the same deposit of 500 twice credits 1000. */
  method DepositApprovedTwice() returns (balance: real, status: Status)
    ensures balance == 1000.0 && status == Approved
  {
    var c := new Customer(Account(Clerk, OpeningLedger));
    var d := CreateDeposit(c, 500.0, None, Some("receipt"));
    assert d.Success?;
    assert ParseAction("approve") == Some(Approve) by { ParseActionName(Approve); }
    assert ParseType(d.value.kind) == Some(Deposit);
    var r1 := ProcessTransaction(d.value, "approve");
    var r2 := ProcessTransaction(d.value, "approve");
    balance, status := c.saving, d.value.status;
  }

  /** Corrected: the second approval fails as already final and credits nothing. */
  method GuardedRefusesReapproval() returns (balance: real, second: Result<Status, DecisionError>)
    ensures balance == 500.0 && second == Failure(AlreadyFinalized)
  {
    var c := new Customer(Account(Clerk, OpeningLedger));
    var d := CreateDeposit(c, 500.0, None, Some("receipt"));
    assert d.Success?;
    assert ParseAction("approve") == Some(Approve) by { ParseActionName(Approve); }
    assert ParseType(d.value.kind) == Some(Deposit);
    var r1 := ProcessTransactionGuarded(d.value, "approve");
    second := ProcessTransactionGuarded(d.value, "approve");
    balance := c.saving;
  }

  /** A recommendation on a pending loan of 5000 records the status and moves
      nothing; a later approval (sent in upper case) still applies the full effect. */
  method RecommendThenApproveLoan() returns (afterRecommend: Ledger, recommended: Status, afterApprove: Ledger)
    ensures afterRecommend == OpeningLedger && recommended == RecommendedApproval
    ensures afterApprove == Ledger(5000.0, -5000.0, None)
  {
    var c := new Customer(Account(Clerk, OpeningLedger));
    var loan := new Transaction(c, TypeName(Loan), -5000.0, None, None, Pending);
    ParseTypeName(Loan);
    var recommend := ActionName(RecommendApproval);
    ParseActionName(RecommendApproval);
    var r1 := ProcessTransaction(loan, recommend);
    assert c.saving == 0.0 && c.loan == 0.0 && c.lastAccrual == None;
    afterRecommend, recommended := c.LedgerValue(), loan.status;
    ApproveInCapitals();
    var r2 := ProcessTransaction(loan, "APPROVE");
    assert c.saving == 5000.0 && c.loan == -5000.0;
    afterApprove := c.LedgerValue();
  }

  /** The action check accepts "APPROVE". */
  lemma ApproveInCapitals()
    ensures ParseAction("APPROVE") == Some(Approve)
  {
    var s := Lower("APPROVE");
    assert |s| == 7;
    assert s[0] == 'a' && s[1] == 'p' && s[2] == 'p' && s[3] == 'r' && s[4] == 'o' && s[5] == 'v' && s[6] == 'e';
    assert s == "approve";
  }

  /** An action outside the four is refused before anything is touched. */
  method UnknownActionChangesNothing() returns (r: Result<Status, DecisionError>, status: Status, l: Ledger)
    ensures r == Failure(InvalidAction) && status == Pending && l == Ledger(100.0, 0.0, None)
  {
    var c := new Customer(Account(Clerk, Ledger(100.0, 0.0, None)));
    var dep := new Transaction(c, "deposit", 50.0, None, None, Pending);
    assert ParseAction("approved") == None by { NoStatusIsAnAction(Approved); }
    r := ProcessTransaction(dep, "approved");
    status, l := dep.status, c.LedgerValue();
  }

  /** A balance of 1000 with no earlier accrual, opened two years ago, earns 240
      at 12%; a second call in the same year changes nothing. */
  method AccrualOfTwoYears() returns (first: Ledger, second: Ledger)
    ensures first == Ledger(1240.0, 0.0, Some(2026))
    ensures second == first
  {
    var c := new Customer(Account(Clerk, Ledger(1000.0, 0.0, None)));
    var o1 := c.AccrueInterest(ServiceRate, 2026, 2);
    first := c.LedgerValue();
    var o2 := c.AccrueInterest(ServiceRate, 2026, 2);
    second := c.LedgerValue();
  }
}
