/** The transaction workflow of the transaction controller: stored transaction
    records, the four creation endpoints, and the decision endpoint that
    validates an action, dispatches on the transaction type and updates the
    owner's balances and the transaction's status in place. */
module Transactions {
  import opened Basics
  import opened Schema
  import opened Requests
  import opened Customers

  /** Why a decision call fails; in every case nothing is written. */
  datatype DecisionError =
    | InvalidAction
    | TransactionNotFound
    | NoCustomerRecord
    | UnsupportedType
    | InsufficientFunds
    | AlreadyFinalized

  /** The balances of the owner and the status of the transaction after a decision. */
  datatype Decision = Decision(saving: real, loan: real, status: Status)

  /** The status a loan decision records for each action. */
  function LoanStatus(a: Action): Status {
    match a
    case Approve => Approved
    case Reject => Rejected
    case RecommendApproval => RecommendedApproval
    case RecommendRejection => RecommendedRejection
  }

  /** The effect of deciding a transaction of type `t` with stored (signed)
      amount `amount` against the owner's balances. The transaction's current
      status is not an input: the code never reads it. */
  function Decide(t: TxType, a: Action, amount: real, saving: real, loan: real): (r: Result<Decision, DecisionError>)
    // the only failure is the funds check on approving a withdrawal, which
    // compares the balance with the signed (negative) stored amount
    ensures r.Failure? <==> t == Withdrawal && a == Approve && saving < amount
    ensures r.Failure? ==> r.error == InsufficientFunds
    // approval is the only action that moves money, and it always ends approved
    ensures r.Success? ==> (r.value.status == Approved <==> a == Approve)
    ensures r.Success? && a != Approve ==> r.value.saving == saving && r.value.loan == loan
    // recommendations are recorded for loans only; elsewhere any other action rejects
    ensures r.Success? && a != Approve ==> r.value.status == (if t == Loan then LoanStatus(a) else Rejected)
    // net worth moves by the stored amount for cash movements, and not at all for a loan
    ensures r.Success? ==> r.value.saving + r.value.loan == saving + loan + (if a == Approve && t != Loan then amount else 0.0)
    // which balance each type touches
    ensures r.Success? && (t == Deposit || t == Withdrawal) ==> r.value.loan == loan
    ensures r.Success? && t == LoanRepayment ==> r.value.saving == saving
    ensures r.Success? && t == Loan && a == Approve ==> r.value.loan == loan + amount
  {
    match t
    case Deposit =>
      if a != Approve then Success(Decision(saving, loan, Rejected))
      else Success(Decision(saving + amount, loan, Approved))
    case Withdrawal =>
      if a != Approve then Success(Decision(saving, loan, Rejected))
      else if saving < amount then Failure(InsufficientFunds)
      else Success(Decision(saving + amount, loan, Approved))
    case LoanRepayment =>
      if a != Approve then Success(Decision(saving, loan, Rejected))
      else Success(Decision(saving, loan + amount, Approved))
    case Loan =>
      if a == Approve then Success(Decision(saving - amount, loan + amount, Approved))
      else Success(Decision(saving, loan, LoanStatus(a)))
  }

  /** A withdrawal requested against a balance and approved against the same
      balance takes exactly the requested amount and leaves the balance non-negative. */
  lemma WithdrawThenApprove(saving: real, loan: real, amount: real, reason: Option<string>)
    requires amount >= MinAmount
    requires WithdrawRequest(saving, amount, reason).Success?
    ensures var q := WithdrawRequest(saving, amount, reason).value;
            var d := Decide(Withdrawal, Approve, q.amount, saving, loan);
            d == Success(Decision(saving - amount, loan, Approved)) && d.value.saving >= 0.0
  {
  }

  /** A repayment requested and approved against the same balances keeps the
      debt between its old value and zero. */
  lemma RepayThenApprove(saving: real, loan: real, amount: real, upload: Option<string>)
    requires amount >= MinAmount
    requires RepayRequest(loan, amount, upload).Success?
    ensures var q := RepayRequest(loan, amount, upload).value;
            var d := Decide(LoanRepayment, Approve, q.amount, saving, loan);
            d.Success? && loan <= d.value.loan <= 0.0 && d.value.saving == saving
  {
  }

  /** An eligible loan, approved against the same balances, credits the savings
      with the amount and records a debt of at most 200,000 and at most 12% of the salary. */
  lemma LoanThenApprove(saving: real, loan: real, p: Profile, history: seq<Record>, amount: real, reason: Option<string>)
    requires amount >= MinAmount
    requires LoanRequest(loan, p, history, amount, reason).Success?
    ensures var q := LoanRequest(loan, p, history, amount, reason).value;
            var d := Decide(Loan, Approve, q.amount, saving, loan);
            && d.Success?
            && d.value.saving == saving + amount
            && d.value.loan == loan - amount
            && d.value.loan >= -MaxLoan
            && d.value.loan >= -(LoanSalaryShare * SalaryOf(p))
  {
  }

  /** The decision never consults the status, so deciding an approved deposit
      again credits it a second time. */
  lemma ReapprovalReapplies(amount: real, saving: real, loan: real)
    ensures var first := Decide(Deposit, Approve, amount, saving, loan).value;
            var second := Decide(Deposit, Approve, amount, first.saving, first.loan).value;
            second.saving == saving + 2.0 * amount && second.status == Approved
  {
  }

  /** A stored transaction. Its type string, signed amount, texts and owner are
      fixed once stored; the decision endpoint updates only the status. */
  class Transaction {
    const kind: string
    const amount: real
    const reason: Option<string>
    const receipt: Option<string>
    /** The customer of the owning user; null when the user or its customer record is gone. */
    const owner: Customer?
    var status: Status

    /** Loads a stored row. */
    constructor (owner: Customer?, kind: string, amount: real, reason: Option<string>, receipt: Option<string>, status: Status)
      ensures this.owner == owner && this.kind == kind && this.amount == amount
      ensures this.reason == reason && this.receipt == receipt && this.status == status
    {
      this.owner := owner;
      this.kind := kind;
      this.amount := amount;
      this.reason := reason;
      this.receipt := receipt;
      this.status := status;
    }

    /** This is the pending record of request `q` by customer `c`. */
    predicate Records(c: Customer?, q: Request)
      reads this
    {
      owner == c && kind == TypeName(q.kind) && amount == q.amount
      && reason == q.reason && receipt == q.receipt && status == Pending
    }
  }

  /** Stores an accepted request as a fresh pending transaction; a refused one creates nothing. */
  method Submit(c: Customer?, q: Result<Request, RequestError>) returns (r: Result<Transaction, RequestError>)
    ensures r.Failure? <==> q.Failure?
    ensures r.Failure? ==> r.error == q.error
    ensures r.Success? ==> fresh(r.value) && r.value.Records(c, q.value)
  {
    if q.Failure? {
      return Failure(q.error);
    }
    var t := new Transaction(c, TypeName(q.value.kind), q.value.amount, q.value.reason, q.value.receipt, Pending);
    return Success(t);
  }

  /** The deposit endpoint (record creation only: no balance is checked or
      changed, and the user need not have a customer record). */
  method CreateDeposit(c: Customer?, amount: real, reason: Option<string>, upload: Option<string>) returns (r: Result<Transaction, RequestError>)
    requires amount >= MinAmount
    ensures r.Failure? <==> upload.None?
    ensures r.Failure? ==> r.error == UploadFailed
    ensures r.Success? ==> fresh(r.value) && r.value.Records(c, DepositRequest(amount, reason, upload).value)
  {
    r := Submit(c, DepositRequest(amount, reason, upload));
  }

  /** The withdrawal endpoint. */
  method Withdraw(c: Customer, amount: real, reason: Option<string>) returns (r: Result<Transaction, RequestError>)
    requires amount >= MinAmount
    ensures r.Failure? <==> amount > c.saving
    ensures r.Failure? ==> r.error == InsufficientBalance
    ensures r.Success? ==> fresh(r.value) && r.value.Records(c, WithdrawRequest(c.saving, amount, reason).value)
  {
    r := Submit(c, WithdrawRequest(c.saving, amount, reason));
  }

  /** The loan endpoint: a user without a customer record is refused first. */
  method LoanApply(c: Customer?, history: seq<Record>, amount: real, reason: Option<string>) returns (r: Result<Transaction, RequestError>)
    requires amount >= MinAmount
    ensures c == null ==> r == Failure(CustomerRecordNotFound)
    ensures c != null ==> (r.Failure? <==> LoanRequest(c.loan, c.profile, history, amount, reason).Failure?)
    ensures c != null && r.Failure? ==> r.error == LoanRequest(c.loan, c.profile, history, amount, reason).error
    ensures r.Success? ==> c != null && fresh(r.value) && r.value.Records(c, LoanRequest(c.loan, c.profile, history, amount, reason).value)
  {
    if c == null {
      return Failure(CustomerRecordNotFound);
    }
    r := Submit(c, LoanRequest(c.loan, c.profile, history, amount, reason));
  }

  /** The loan-repayment endpoint. */
  method LoanRepay(c: Customer, amount: real, upload: Option<string>) returns (r: Result<Transaction, RequestError>)
    requires amount >= MinAmount
    ensures r.Failure? <==> RepayRequest(c.loan, amount, upload).Failure?
    ensures r.Failure? ==> r.error == RepayRequest(c.loan, amount, upload).error
    ensures r.Success? ==> fresh(r.value) && r.value.Records(c, RepayRequest(c.loan, amount, upload).value)
  {
    r := Submit(c, RepayRequest(c.loan, amount, upload));
  }

  /** The owner's balances, for stating decisions. */
  function SavingOf(c: Customer?): real
    reads c
  {
    if c == null then 0.0 else c.saving
  }

  function LoanOf(c: Customer?): real
    reads c
  {
    if c == null then 0.0 else c.loan
  }

  /** Deciding a deposit: approval credits the savings, anything else rejects. */
  method ProcessDeposit(tx: Transaction, c: Customer, a: Action)
    modifies tx, c
    ensures var d := Decide(Deposit, a, tx.amount, old(c.saving), old(c.loan)).value;
            tx.status == d.status && c.saving == d.saving && c.loan == d.loan
    ensures c.lastAccrual == old(c.lastAccrual)
  {
    if a != Approve {
      tx.status := Rejected;
      return;
    }
    c.saving := c.saving + tx.amount;
    tx.status := Approved;
  }

  /** Deciding a withdrawal: approval runs the funds check and then adds the
      (negative) stored amount to the savings; anything else rejects. */
  method ProcessWithdrawal(tx: Transaction, c: Customer, a: Action) returns (r: Result<Status, DecisionError>)
    modifies tx, c
    ensures var d := Decide(Withdrawal, a, tx.amount, old(c.saving), old(c.loan));
            && (r.Failure? <==> d.Failure?)
            && (r.Failure? ==> r.error == d.error && tx.status == old(tx.status) && c.saving == old(c.saving))
            && (r.Success? ==> r.value == tx.status && tx.status == d.value.status && c.saving == d.value.saving)
    ensures c.loan == old(c.loan) && c.lastAccrual == old(c.lastAccrual)
  {
    if a != Approve {
      tx.status := Rejected;
      return Success(tx.status);
    }
    if c.saving < tx.amount {
      return Failure(InsufficientFunds);
    }
    c.saving := c.saving + tx.amount;
    tx.status := Approved;
    return Success(tx.status);
  }

  /** Deciding a loan repayment: approval adds the stored amount to the loan
      balance; anything else rejects. */
  method ProcessLoanRepayment(tx: Transaction, c: Customer, a: Action)
    modifies tx, c
    ensures var d := Decide(LoanRepayment, a, tx.amount, old(c.saving), old(c.loan)).value;
            tx.status == d.status && c.saving == d.saving && c.loan == d.loan
    ensures c.lastAccrual == old(c.lastAccrual)
  {
    if a != Approve {
      tx.status := Rejected;
      return;
    }
    c.loan := c.loan + tx.amount;
    tx.status := Approved;
  }

  /** Deciding a loan: approval moves the (negative) stored amount from the
      savings into the loan balance; the other actions only record a status. */
  method ProcessLoanRequest(tx: Transaction, c: Customer, a: Action)
    modifies tx, c
    ensures var d := Decide(Loan, a, tx.amount, old(c.saving), old(c.loan)).value;
            tx.status == d.status && c.saving == d.saving && c.loan == d.loan
    ensures c.lastAccrual == old(c.lastAccrual)
  {
    match a
    case Approve =>
      tx.status := Approved;
      c.loan := c.loan + tx.amount;
      c.saving := c.saving - tx.amount;
    case Reject =>
      tx.status := Rejected;
    case RecommendApproval =>
      tx.status := RecommendedApproval;
    case RecommendRejection =>
      tx.status := RecommendedRejection;
  }

  /** The decision endpoint. `tx` is the looked-up transaction (null when the id
      is unknown). The action is validated before anything else; then the
      transaction, its owner and its type are required; then the type's
      decision is applied. Every failure leaves everything unchanged. */
  method ProcessTransaction(tx: Transaction?, rawAction: string) returns (r: Result<Status, DecisionError>)
    modifies tx, if tx == null then null else tx.owner
    ensures ParseAction(rawAction).None? ==> r == Failure(InvalidAction)
    ensures ParseAction(rawAction).Some? && tx == null ==> r == Failure(TransactionNotFound)
    ensures ParseAction(rawAction).Some? && tx != null && tx.owner == null ==> r == Failure(NoCustomerRecord)
    ensures ParseAction(rawAction).Some? && tx != null && tx.owner != null && ParseType(tx.kind).None? ==>
              r == Failure(UnsupportedType)
    ensures r.Failure? && tx != null ==> tx.status == old(tx.status)
    ensures r.Failure? && tx != null && tx.owner != null ==> tx.owner.LedgerValue() == old(tx.owner.LedgerValue())
    ensures r.Success? ==> tx != null && tx.owner != null && ParseAction(rawAction).Some? && ParseType(tx.kind).Some?
    ensures tx != null && tx.owner != null && ParseAction(rawAction).Some? && ParseType(tx.kind).Some? ==>
              var d := Decide(ParseType(tx.kind).value, ParseAction(rawAction).value, tx.amount,
                              old(SavingOf(tx.owner)), old(LoanOf(tx.owner)));
              && (r.Failure? <==> d.Failure?)
              && (r.Failure? ==> r.error == d.error)
              && (r.Success? ==> r == Success(d.value.status) && tx.status == d.value.status
                                 && tx.owner.saving == d.value.saving && tx.owner.loan == d.value.loan)
    ensures tx != null && tx.owner != null ==> tx.owner.lastAccrual == old(tx.owner.lastAccrual)
  {
    var action := ParseAction(rawAction);
    if action.None? {
      return Failure(InvalidAction);
    }
    if tx == null {
      return Failure(TransactionNotFound);
    }
    var c := tx.owner;
    if c == null {
      return Failure(NoCustomerRecord);
    }
    var a := action.value;
    match ParseType(tx.kind) {
      case None =>
        return Failure(UnsupportedType);
      case Some(Deposit) =>
        ProcessDeposit(tx, c, a);
      case Some(Withdrawal) =>
        var w := ProcessWithdrawal(tx, c, a);
        if w.Failure? {
          return Failure(w.error);
        }
      case Some(LoanRepayment) =>
        ProcessLoanRepayment(tx, c, a);
      case Some(Loan) =>
        ProcessLoanRequest(tx, c, a);
    }
    return Success(tx.status);
  }
}
