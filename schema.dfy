/** The shapes of the `customers` and `transactions` records, with the string
    spellings the controllers store and compare against. */
module Schema {
  import opened Basics

  /** The four values of the `transaction_type` column. */
  datatype TxType = Deposit | Withdrawal | Loan | LoanRepayment

  /** The stored spelling of a transaction type (note the space in "loan repayment"). */
  function TypeName(t: TxType): string {
    match t
    case Deposit => "deposit"
    case Withdrawal => "withdrawal"
    case Loan => "loan"
    case LoanRepayment => "loan repayment"
  }

  /** The type switch of the decision endpoint: a stored string that is none of the four names has no type. */
  function ParseType(s: string): (r: Option<TxType>)
    ensures r.Some? ==> TypeName(r.value) == s
    ensures r.None? ==> forall t: TxType :: TypeName(t) != s
  {
    if s == "deposit" then Some(Deposit)
    else if s == "withdrawal" then Some(Withdrawal)
    else if s == "loan repayment" then Some(LoanRepayment)
    else if s == "loan" then Some(Loan)
    else None
  }

  /** Every stored type name is dispatched back to its own type. */
  lemma ParseTypeName(t: TxType)
    ensures ParseType(TypeName(t)) == Some(t)
  {
  }

  /** The values the decision endpoint writes to the `status` column. */
  datatype Status = Pending | Approved | Rejected | RecommendedApproval | RecommendedRejection

  /** The stored spelling of a status: the recommendations are written with a space. */
  function StatusName(s: Status): string {
    match s
    case Pending => "pending"
    case Approved => "approved"
    case Rejected => "rejected"
    case RecommendedApproval => "recommended approval"
    case RecommendedRejection => "recommended rejection"
  }

  /** A final decision, as opposed to a pending request or a recommendation. */
  predicate IsFinal(s: Status) {
    s == Approved || s == Rejected
  }

  /** The four decision actions a reviewer may send. */
  datatype Action = Approve | Reject | RecommendRejection | RecommendApproval

  /** The request spelling of an action: the recommendations are written with a hyphen. */
  function ActionName(a: Action): string {
    match a
    case Approve => "approve"
    case Reject => "reject"
    case RecommendRejection => "recommend-rejection"
    case RecommendApproval => "recommend-approval"
  }

  /** The action check of the decision endpoint: the raw input is lower-cased
      and must then be one of the four action names. */
  function ParseAction(raw: string): (r: Option<Action>)
    ensures r.Some? ==> ActionName(r.value) == Lower(raw)
    ensures r.None? ==> forall a: Action :: ActionName(a) != Lower(raw)
  {
    var s := Lower(raw);
    if s == "approve" then Some(Approve)
    else if s == "reject" then Some(Reject)
    else if s == "recommend-rejection" then Some(RecommendRejection)
    else if s == "recommend-approval" then Some(RecommendApproval)
    else None
  }

  /** Sending an action's own name selects that action. */
  lemma {:induction false} ParseActionName(a: Action)
    ensures ParseAction(ActionName(a)) == Some(a)
  {
    var name := ActionName(a);
    LowerFixesLowercase(name);
    assert Lower(name) == name;
  }

  /** The action check ignores the case of ASCII letters. */
  lemma {:induction false} ParseActionIgnoresCase(raw: string)
    ensures ParseAction(Lower(raw)) == ParseAction(raw)
  {
    LowerIdempotent(raw);
  }

  /** Status spellings hold no upper-case letter, so lower-casing keeps them. */
  lemma StatusNameIsLower(s: Status)
    ensures Lower(StatusName(s)) == StatusName(s)
  {
    var name := StatusName(s);
    assert forall i :: 0 <= i < |name| ==> !IsUpper(name[i]) by {
      match s
      case Pending =>
      case Approved =>
      case Rejected =>
      case RecommendedApproval =>
      case RecommendedRejection =>
    }
    LowerFixesLowercase(name);
  }

  /** No stored status spelling is accepted as an action ("recommended approval"
      is not "recommend-approval"), so a status cannot be echoed back as a decision. */
  lemma NoStatusIsAnAction(s: Status)
    ensures ParseAction(StatusName(s)) == None
  {
    StatusNameIsLower(s);
    forall a: Action
      ensures ActionName(a) != StatusName(s)
    {
      // only "approve" and "pending" share a length, and they differ at once
      if |ActionName(a)| == |StatusName(s)| {
        assert ActionName(a)[0] != StatusName(s)[0];
      }
    }
  }

  /** The values of the `sex` column; registration accepts only the first two. */
  datatype Sex = Male | Female | Other

  /** The five federal government bureaus of the `gov_bureau` column. */
  datatype Bureau =
    | TradeBureau
    | FinanceBureau
    | EnvironmentalProtectionAuthority
    | GovPropertyAdministrationAuthority
    | PublicProcurementPropertyDisposalService

  /** The stored spelling of a bureau. */
  function BureauName(b: Bureau): string {
    match b
    case TradeBureau => "trade_bureau"
    case FinanceBureau => "finance_bureau"
    case EnvironmentalProtectionAuthority => "environmental_protection_authority"
    case GovPropertyAdministrationAuthority => "gov_property_administration_authority"
    case PublicProcurementPropertyDisposalService => "public_procurement_property_disposal_service"
  }

  /** The `in:` rule on a bureau name. */
  function ParseBureau(s: string): (r: Option<Bureau>)
    ensures r.Some? ==> BureauName(r.value) == s
    ensures r.None? ==> forall b: Bureau :: BureauName(b) != s
  {
    if s == "trade_bureau" then Some(TradeBureau)
    else if s == "finance_bureau" then Some(FinanceBureau)
    else if s == "environmental_protection_authority" then Some(EnvironmentalProtectionAuthority)
    else if s == "gov_property_administration_authority" then Some(GovPropertyAdministrationAuthority)
    else if s == "public_procurement_property_disposal_service" then Some(PublicProcurementPropertyDisposalService)
    else None
  }

  /** The stored spelling of a sex in the customers table. */
  function SexName(x: Sex): string {
    match x
    case Male => "male"
    case Female => "female"
    case Other => "other"
  }

  /** The `in:male,female` rule of registration; "other" is not accepted, and
      an accepted value is stored as sent. */
  function ParseRegisteredSex(s: string): (r: Option<Sex>)
    ensures r.Some? <==> s == "male" || s == "female"
    ensures r.Some? ==> r.value != Other && SexName(r.value) == s
    ensures s == "male" ==> r == Some(Male)
    ensures s == "female" ==> r == Some(Female)
  {
    if s == "male" then Some(Male)
    else if s == "female" then Some(Female)
    else None
  }

  /** The descriptive part of a customer record that the core reads. */
  datatype Profile = Profile(age: int, sex: Sex, salary: Option<real>, bureau: Option<Bureau>)

  /** The balances and the accrual stamp of a customer: `saving_balance`,
      `loan_balance` (debt is negative) and the year of `last_interest_calculation`. */
  datatype Ledger = Ledger(saving: real, loan: real, lastAccrual: Option<int>)

  /** A customer record as registration creates it. */
  datatype Account = Account(profile: Profile, ledger: Ledger)
}
