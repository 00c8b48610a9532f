/** Creation of transaction requests: the guard chains of the deposit,
    withdrawal, loan and loan-repayment endpoints, each producing either the
    pending record to store or the reason it is refused. Deposits and
    repayments are stored with a positive amount, withdrawals and loans with
    the amount negated. */
module Requests {
  import opened Basics
  import opened Schema

  /** The content of a new pending transaction record. */
  datatype Request = Request(kind: TxType, amount: real, reason: Option<string>, receipt: Option<string>)

  /** Why a request is refused; no record is created for any of them. */
  datatype RequestError =
    | CustomerRecordNotFound
    | InsufficientBalance
    | LoanOutstanding
    | NotGovernmentEmployee
    | NotSavedLongEnough
    | OverSalaryShare
    | OverLoanCap
    | NoActiveLoan
    | Overpayment
    | UploadFailed

  /** The smallest amount any request may ask for (the `min:1` rule). */
  const MinAmount: real := 1.0
  /** The share of the salary a loan may reach. */
  const LoanSalaryShare: real := 0.12
  /** The absolute cap on a loan. */
  const MaxLoan: real := 200000.0
  /** How long, in whole months, a customer must have saved before borrowing. */
  const MinSavingMonths: nat := 6

  /** Deposit: the receipt must have been uploaded; the amount is stored as given. */
  function DepositRequest(amount: real, reason: Option<string>, upload: Option<string>): (r: Result<Request, RequestError>)
    requires amount >= MinAmount
    ensures r.Failure? <==> upload.None?
    ensures r.Failure? ==> r.error == UploadFailed
    ensures r.Success? ==> r.value.kind == Deposit && r.value.amount == amount && r.value.amount > 0.0
    ensures r.Success? ==> r.value.receipt == upload && r.value.reason == reason
  {
    if upload.None? then Failure(UploadFailed)
    else Success(Request(Deposit, amount, reason, upload))
  }

  /** Withdrawal: refused when the amount exceeds the savings balance at request
      time; otherwise stored negated, so balance plus stored amount stays non-negative. */
  function WithdrawRequest(saving: real, amount: real, reason: Option<string>): (r: Result<Request, RequestError>)
    requires amount >= MinAmount
    ensures r.Failure? <==> amount > saving
    ensures r.Failure? ==> r.error == InsufficientBalance
    ensures r.Success? ==> r.value.kind == Withdrawal && r.value.amount == -amount && r.value.amount < 0.0
    ensures r.Success? ==> saving + r.value.amount >= 0.0
    ensures r.Success? ==> r.value.reason == reason && r.value.receipt.None?
  {
    if amount > saving then Failure(InsufficientBalance)
    else Success(Request(Withdrawal, -amount, reason, None))
  }

  /** One of the requesting user's stored transactions, with its age in whole months. */
  datatype Record = Record(kind: TxType, status: Status, ageMonths: nat)

  /** The age of the user's earliest deposit record of any status, none if there is none. */
  function FirstDepositAge(history: seq<Record>): (r: Option<nat>)
    ensures r.None? <==> forall i :: 0 <= i < |history| ==> history[i].kind != Deposit
    ensures r.Some? ==> exists i :: 0 <= i < |history| && history[i].kind == Deposit && history[i].ageMonths == r.value
    ensures r.Some? ==> forall i :: 0 <= i < |history| && history[i].kind == Deposit ==> history[i].ageMonths <= r.value
  {
    if history == [] then None
    else
      var rest := FirstDepositAge(history[1..]);
      assert forall i :: 1 <= i < |history| ==> history[i] == history[1..][i - 1];
      if history[0].kind != Deposit then rest
      else if rest.Some? && rest.value > history[0].ageMonths then rest
      else Some(history[0].ageMonths)
  }

  /** The savings-history rule of a loan request: the earliest deposit is at least six months old. */
  predicate SavedLongEnough(history: seq<Record>) {
    match FirstDepositAge(history)
    case None => false
    case Some(age) => age >= MinSavingMonths
  }

  /** The savings-history rule holds exactly when some deposit record, whatever
      its status (a rejected one too), is at least six months old. */
  lemma SavedLongEnoughIff(history: seq<Record>)
    ensures SavedLongEnough(history) <==>
      exists i :: 0 <= i < |history| && history[i].kind == Deposit && history[i].ageMonths >= MinSavingMonths
  {
    if SavedLongEnough(history) {
      var i :| 0 <= i < |history| && history[i].kind == Deposit && history[i].ageMonths == FirstDepositAge(history).value;
    }
  }

  /** The salary the loan cap is computed from; a missing salary counts as zero. */
  function SalaryOf(p: Profile): real {
    p.salary.GetOr(0.0)
  }

  /** Loan application: five eligibility rules checked in order (no outstanding
      debt, a listed bureau, six months of saving, at most 12% of the salary,
      at most 200,000); when all pass, a loan is stored with the amount negated. */
  function LoanRequest(loan: real, p: Profile, history: seq<Record>, amount: real, reason: Option<string>): (r: Result<Request, RequestError>)
    requires amount >= MinAmount
    ensures r.Success? <==>
      && loan >= 0.0
      && p.bureau.Some?
      && SavedLongEnough(history)
      && amount <= LoanSalaryShare * SalaryOf(p)
      && amount <= MaxLoan
    ensures r == Failure(LoanOutstanding) <==> loan < 0.0
    ensures r == Failure(NotGovernmentEmployee) <==> loan >= 0.0 && p.bureau.None?
    ensures r == Failure(NotSavedLongEnough) <==> loan >= 0.0 && p.bureau.Some? && !SavedLongEnough(history)
    ensures r == Failure(OverSalaryShare) <==>
      loan >= 0.0 && p.bureau.Some? && SavedLongEnough(history) && amount > LoanSalaryShare * SalaryOf(p)
    ensures r == Failure(OverLoanCap) <==>
      && loan >= 0.0 && p.bureau.Some? && SavedLongEnough(history)
      && amount <= LoanSalaryShare * SalaryOf(p) && amount > MaxLoan
    ensures r.Failure? ==> r.error in {LoanOutstanding, NotGovernmentEmployee, NotSavedLongEnough, OverSalaryShare, OverLoanCap}
    ensures r.Success? ==> r.value == Request(Loan, -amount, reason, None)
  {
    if loan < 0.0 then Failure(LoanOutstanding)
    else if p.bureau.None? then Failure(NotGovernmentEmployee)
    else if !SavedLongEnough(history) then Failure(NotSavedLongEnough)
    else if amount > LoanSalaryShare * SalaryOf(p) then Failure(OverSalaryShare)
    else if amount > MaxLoan then Failure(OverLoanCap)
    else Success(Request(Loan, -amount, reason, None))
  }

  /** A customer without a salary can never borrow. */
  lemma NoSalaryNoLoan(loan: real, p: Profile, history: seq<Record>, amount: real, reason: Option<string>)
    requires amount >= MinAmount && p.salary.None?
    ensures LoanRequest(loan, p, history, amount, reason).Failure?
  {
  }

  /** Loan repayment: there must be debt (a negative loan balance) and the amount
      may not overpay it; the receipt must then have been uploaded. The amount
      is stored positive. */
  function RepayRequest(loan: real, amount: real, upload: Option<string>): (r: Result<Request, RequestError>)
    requires amount >= MinAmount
    ensures r.Success? <==> loan < 0.0 && loan + amount <= 0.0 && upload.Some?
    ensures r == Failure(NoActiveLoan) <==> loan >= 0.0
    ensures r == Failure(Overpayment) <==> loan < 0.0 && loan + amount > 0.0
    ensures r.Failure? ==> r.error in {NoActiveLoan, Overpayment, UploadFailed}
    ensures r.Success? ==> r.value.kind == LoanRepayment && r.value.amount == amount && r.value.amount > 0.0
    ensures r.Success? ==> loan < loan + r.value.amount <= 0.0
    ensures r.Success? ==> r.value.receipt == upload && r.value.reason.None?
  {
    if loan >= 0.0 then Failure(NoActiveLoan)
    else if loan + amount > 0.0 then Failure(Overpayment)
    else if upload.None? then Failure(UploadFailed)
    else Success(Request(LoanRepayment, amount, None, upload))
  }
}
