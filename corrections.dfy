/** Corrected decisions, beside the faithful ones. Two defects of the decision
    endpoint are repaired here: its funds check compares the balance with the
    signed (negative) stored amount of a withdrawal instead of its size, and it
    never refuses to decide a transaction that is already approved or rejected.
    The faithful members in module Transactions stay the model of the code. */
module Corrections {
  import opened Basics
  import opened Schema
  import opened Requests
  import opened Transactions

  /** The size of a signed stored amount. */
  function Abs(x: real): (r: real)
    ensures r >= 0.0 && r >= x && r >= -x
  {
    if x < 0.0 then -x else x
  }

  /** The intended decision: a final transaction is not decided again, and a
      withdrawal is approved only when the balance covers its size. Otherwise
      it is the decision of the code. */
  function DecideGuarded(status: Status, t: TxType, a: Action, amount: real, saving: real, loan: real): (r: Result<Decision, DecisionError>)
    ensures r.Failure? <==> IsFinal(status) || (t == Withdrawal && a == Approve && saving < Abs(amount))
    ensures IsFinal(status) ==> r == Failure(AlreadyFinalized)
    ensures r.Success? ==> r == Decide(t, a, amount, saving, loan)
    ensures r.Success? && t == Withdrawal && a == Approve ==> r.value.saving >= 0.0
  {
    if IsFinal(status) then Failure(AlreadyFinalized)
    else if t == Withdrawal && a == Approve && saving < Abs(amount) then Failure(InsufficientFunds)
    else Decide(t, a, amount, saving, loan)
  }

  /** The decision after deciding a transaction with each of the given actions
      in turn, with the corrected guards (a refused decision changes nothing). */
  function DecideGuardedAll(d: Decision, t: TxType, actions: seq<Action>, amount: real): Decision
    decreases |actions|
  {
    if actions == [] then d
    else
      var r := DecideGuarded(d.status, t, actions[0], amount, d.saving, d.loan);
      DecideGuardedAll(if r.Success? then r.value else d, t, actions[1..], amount)
  }

  /** A final transaction stays as it is under any further guarded decisions:
      neither its status nor either balance moves. */
  lemma {:induction false} FinalDecisionStays(d: Decision, t: TxType, actions: seq<Action>, amount: real)
    requires IsFinal(d.status)
    ensures DecideGuardedAll(d, t, actions, amount) == d
    decreases |actions|
  {
    if actions != [] {
      FinalDecisionStays(d, t, actions[1..], amount);
    }
  }

  /** No double application: once a guarded decision has approved or rejected a
      transaction, any sequence of further decisions of it leaves its status and
      both balances as that decision left them. */
  lemma DecidedOnlyOnce(status: Status, t: TxType, a: Action, again: seq<Action>, amount: real, saving: real, loan: real)
    requires DecideGuarded(status, t, a, amount, saving, loan).Success?
    requires IsFinal(DecideGuarded(status, t, a, amount, saving, loan).value.status)
    ensures var d := DecideGuarded(status, t, a, amount, saving, loan).value;
            DecideGuardedAll(d, t, again, amount) == d
  {
    FinalDecisionStays(DecideGuarded(status, t, a, amount, saving, loan).value, t, again, amount);
  }

  /** The savings balance after approving pending withdrawals with the given
      stored amounts one after another, as the code decides them (a refused
      approval leaves the balance). */
  function ApproveWithdrawalsAsWritten(saving: real, amounts: seq<real>): real
    decreases |amounts|
  {
    if amounts == [] then saving
    else
      var d := Decide(Withdrawal, Approve, amounts[0], saving, 0.0);
      ApproveWithdrawalsAsWritten(if d.Success? then d.value.saving else saving, amounts[1..])
  }

  /** The same with the corrected funds check. */
  function ApproveWithdrawalsGuarded(saving: real, amounts: seq<real>): real
    decreases |amounts|
  {
    if amounts == [] then saving
    else
      var d := DecideGuarded(Pending, Withdrawal, Approve, amounts[0], saving, 0.0);
      ApproveWithdrawalsGuarded(if d.Success? then d.value.saving else saving, amounts[1..])
  }

  /** As written: two withdrawals of 300, each accepted against a balance of 300
      while the other was still pending, are both approved and overdraw by 300. */
  lemma AsWrittenWithdrawalsOverdraw()
    ensures WithdrawRequest(300.0, 300.0, None) == Success(Request(Withdrawal, -300.0, None, None))
    ensures ApproveWithdrawalsAsWritten(300.0, [-300.0, -300.0]) == -300.0
  {
    var d := Decide(Withdrawal, Approve, -300.0, 300.0, 0.0);
    assert d == Success(Decision(0.0, 0.0, Approved));
    var e := Decide(Withdrawal, Approve, -300.0, 0.0, 0.0);
    assert e == Success(Decision(-300.0, 0.0, Approved));
    assert [-300.0, -300.0][1..] == [-300.0];
  }

  /** Corrected: from a non-negative balance, no sequence of approved
      withdrawals makes the savings balance negative. */
  lemma {:induction false} GuardedWithdrawalsNeverOverdraw(saving: real, amounts: seq<real>)
    requires saving >= 0.0
    ensures ApproveWithdrawalsGuarded(saving, amounts) >= 0.0
    decreases |amounts|
  {
    if amounts != [] {
      var d := DecideGuarded(Pending, Withdrawal, Approve, amounts[0], saving, 0.0);
      GuardedWithdrawalsNeverOverdraw(if d.Success? then d.value.saving else saving, amounts[1..]);
    }
  }

  /** The decision endpoint with both guards added in front of the code's own
      decision; errors for the action, the lookup and the type come first, as before. */
  method ProcessTransactionGuarded(tx: Transaction?, rawAction: string) returns (r: Result<Status, DecisionError>)
    modifies tx, if tx == null then null else tx.owner
    ensures ParseAction(rawAction).None? ==> r == Failure(InvalidAction)
    ensures ParseAction(rawAction).Some? && tx == null ==> r == Failure(TransactionNotFound)
    ensures ParseAction(rawAction).Some? && tx != null && tx.owner == null ==> r == Failure(NoCustomerRecord)
    ensures ParseAction(rawAction).Some? && tx != null && tx.owner != null && ParseType(tx.kind).None? ==>
              r == Failure(UnsupportedType)
    ensures r.Failure? && tx != null ==> tx.status == old(tx.status)
    ensures r.Failure? && tx != null && tx.owner != null ==> tx.owner.LedgerValue() == old(tx.owner.LedgerValue())
    ensures r.Success? ==> tx != null && tx.owner != null && ParseAction(rawAction).Some? && ParseType(tx.kind).Some?
    ensures tx != null && tx.owner != null && ParseAction(rawAction).Some? && ParseType(tx.kind).Some? ==>
              var d := DecideGuarded(old(tx.status), ParseType(tx.kind).value, ParseAction(rawAction).value, tx.amount,
                                     old(SavingOf(tx.owner)), old(LoanOf(tx.owner)));
              && (r.Failure? <==> d.Failure?)
              && (r.Failure? ==> r.error == d.error)
              && (r.Success? ==> r == Success(d.value.status) && tx.status == d.value.status
                                 && tx.owner.saving == d.value.saving && tx.owner.loan == d.value.loan)
    ensures tx != null && tx.owner != null ==> tx.owner.lastAccrual == old(tx.owner.lastAccrual)
  {
    var action := ParseAction(rawAction);
    if action.Some? && tx != null && tx.owner != null && ParseType(tx.kind).Some? {
      if IsFinal(tx.status) {
        return Failure(AlreadyFinalized);
      }
      if ParseType(tx.kind).value == Withdrawal && action.value == Approve && tx.owner.saving < Abs(tx.amount) {
        return Failure(InsufficientFunds);
      }
    }
    r := ProcessTransaction(tx, rawAction);
  }
}
