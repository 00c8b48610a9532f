/** Customer records: registration of a new customer with its field rules and
    zero balances, and the mutable customer object that decisions and interest
    accrual update in place. */
module Customers {
  import opened Basics
  import opened Schema
  import opened Accrual

  /** The fields of a registration request that the core's rules look at.
      `None` for the salary or the bureau stands for a field sent as null; a
      request that leaves either field out altogether is not modelled. */
  datatype Form = Form(age: int, sex: string, salary: Option<real>, govBureau: Option<string>)

  /** A field named in a validation failure. */
  datatype Field = AgeField | SexField | SalaryField | GovBureauField

  const MinAge: int := 25
  const MaxAge: int := 100
  const MinSalary: real := 500.0
  const MaxSalary: real := 1000000.0

  /** The registration rule on one field. */
  predicate FieldValid(f: Form, field: Field) {
    match field
    case AgeField => MinAge <= f.age <= MaxAge
    case SexField => ParseRegisteredSex(f.sex).Some?
    case SalaryField => f.salary.None? || MinSalary <= f.salary.value <= MaxSalary
    case GovBureauField => f.govBureau.None? || ParseBureau(f.govBureau.value).Some?
  }

  /** The fields whose rule fails, each checked on its own as the validator does. */
  function InvalidFields(f: Form): (bad: set<Field>)
    ensures forall field :: field in bad <==> !FieldValid(f, field)
  {
    (if FieldValid(f, AgeField) then {} else {AgeField})
    + (if FieldValid(f, SexField) then {} else {SexField})
    + (if FieldValid(f, SalaryField) then {} else {SalaryField})
    + (if FieldValid(f, GovBureauField) then {} else {GovBureauField})
  }

  /** A profile as it can come out of registration. */
  predicate RegisteredProfile(p: Profile) {
    && MinAge <= p.age <= MaxAge
    && p.sex != Other
    && (p.salary.None? || MinSalary <= p.salary.value <= MaxSalary)
  }

  /** The ledger of a customer nobody has transacted for yet. */
  const OpeningLedger: Ledger := Ledger(0.0, 0.0, None)

  /** Registration: the request is refused with every field whose rule fails,
      or a customer is created with zero balances and no interest accrued. */
  function Register(f: Form): (r: Result<Account, set<Field>>)
    ensures r.Failure? ==> r.error != {} && forall field :: field in r.error <==> !FieldValid(f, field)
    ensures r.Success? ==> forall field :: FieldValid(f, field)
    ensures r.Success? ==> r.value.ledger.saving == 0.0 && r.value.ledger.loan == 0.0
    ensures r.Success? ==> r.value.ledger.lastAccrual.None?
    ensures r.Success? ==> RegisteredProfile(r.value.profile)
    ensures r.Success? ==> r.value.profile.age == f.age && r.value.profile.salary == f.salary
    ensures r.Success? ==> SexName(r.value.profile.sex) == f.sex
    ensures r.Success? ==> (r.value.profile.bureau.Some? <==> f.govBureau.Some?)
    ensures r.Success? && f.govBureau.Some? ==> BureauName(r.value.profile.bureau.value) == f.govBureau.value
  {
    var bad := InvalidFields(f);
    if bad != {} then Failure(bad)
    else
      var bureau := if f.govBureau.None? then None else ParseBureau(f.govBureau.value);
      Success(Account(Profile(f.age, ParseRegisteredSex(f.sex).value, f.salary, bureau), OpeningLedger))
  }

  /** The request that registers a given profile. */
  function FormOf(p: Profile): Form {
    Form(p.age,
         SexName(p.sex),
         p.salary,
         match p.bureau case None => None case Some(b) => Some(BureauName(b)))
  }

  /** Registration is onto the registered profiles: each of them is what
      registering its own request yields, with the opening ledger. */
  lemma RegisterFormOf(p: Profile)
    requires RegisteredProfile(p)
    ensures Register(FormOf(p)) == Success(Account(p, OpeningLedger))
  {
    var f := FormOf(p);
    if p.bureau.Some? {
      assert ParseBureau(BureauName(p.bureau.value)) == Some(p.bureau.value) by {
        match p.bureau.value
        case TradeBureau =>
        case FinanceBureau =>
        case EnvironmentalProtectionAuthority =>
        case GovPropertyAdministrationAuthority =>
        case PublicProcurementPropertyDisposalService =>
      }
    }
    assert InvalidFields(f) == {};
  }

  /** A stored customer. The profile is read-only here; the balances and the
      accrual stamp are updated in place by decisions and interest accrual. */
  class Customer {
    const profile: Profile
    var saving: real
    var loan: real
    var lastAccrual: Option<int>

    /** The ledger part of the record as a value. */
    function LedgerValue(): Ledger
      reads this
    {
      Ledger(saving, loan, lastAccrual)
    }

    /** Loads a stored record. */
    constructor (a: Account)
      ensures profile == a.profile && LedgerValue() == a.ledger
    {
      profile := a.profile;
      saving := a.ledger.saving;
      loan := a.ledger.loan;
      lastAccrual := a.ledger.lastAccrual;
    }

    /** The in-place body of both interest call sites, at the given rate: when
        interest is due, credit it and stamp the current year, else leave the
        record as it is. The profile and the loan balance are never written. */
    method AccrueInterest(rate: real, currentYear: int, years: nat) returns (o: AccrualOutcome)
      modifies this
      ensures LedgerValue() == Accrue(old(LedgerValue()), rate, currentYear, years)
      ensures o == if AccrualDue(old(LedgerValue()), currentYear) then InterestCalculated else AlreadyCalculated
    {
      if lastAccrual.None? || lastAccrual.value < currentYear {
        var interest := saving * rate * years as real;
        saving := saving + interest;
        lastAccrual := Some(currentYear);
        o := InterestCalculated;
      } else {
        o := AlreadyCalculated;
      }
    }
  }

  /** What an interest call reports. */
  datatype AccrualOutcome = CustomerNotFound | InterestCalculated | AlreadyCalculated

  /** The customer controller's interest endpoint, at rate 0.075: a missing
      customer is reported and nothing changes; otherwise the rule is applied once. */
  method CalculateSavingsInterest(c: Customer?, currentYear: int, years: nat) returns (o: AccrualOutcome)
    modifies c
    ensures c == null ==> o == CustomerNotFound
    ensures c != null ==> c.LedgerValue() == Accrue(old(c.LedgerValue()), ControllerRate, currentYear, years)
    ensures c != null ==> o == if AccrualDue(old(c.LedgerValue()), currentYear) then InterestCalculated else AlreadyCalculated
  {
    if c == null {
      return CustomerNotFound;
    }
    o := c.AccrueInterest(ControllerRate, currentYear, years);
  }

  /** The registration endpoint: a refused request creates nothing; an
      accepted one creates a fresh customer with zero balances. */
  method RegisterCustomer(f: Form) returns (r: Result<Customer, set<Field>>)
    ensures r.Failure? <==> Register(f).Failure?
    ensures r.Failure? ==> r.error == Register(f).error
    ensures r.Success? ==> fresh(r.value) && r.value.profile == Register(f).value.profile
    ensures r.Success? ==> r.value.LedgerValue() == OpeningLedger
  {
    var reg := Register(f);
    if reg.Failure? {
      return Failure(reg.error);
    }
    var c := new Customer(reg.value);
    return Success(c);
  }
}
