/** The annual savings-interest rule shared by the interest service and the
    customer controller: credit interest at most once per calendar year, for
    the whole years elapsed since the last accrual (or since the account was
    opened), and stamp the accrual date. Dates are abstracted to a current
    year, the year of the last accrual and a supplied count of whole years. */
module Accrual {
  import opened Basics
  import opened Schema

  /** The rate of the interest service. */
  const ServiceRate: real := 0.12
  /** The rate of the customer controller's copy of the rule. */
  const ControllerRate: real := 0.075

  /** Interest is due unless it was already accrued in the current year or later. */
  predicate AccrualDue(l: Ledger, currentYear: int) {
    l.lastAccrual.None? || l.lastAccrual.value < currentYear
  }

  /** One accrual call: when due, `saving += saving * rate * years` and the stamp
      becomes the current year; otherwise nothing changes. */
  function Accrue(l: Ledger, rate: real, currentYear: int, years: nat): (r: Ledger)
    ensures r.loan == l.loan
    ensures !AccrualDue(l, currentYear) ==> r == l
    ensures AccrualDue(l, currentYear) ==> r.lastAccrual == Some(currentYear)
    ensures AccrualDue(l, currentYear) ==> r.saving - l.saving == l.saving * rate * years as real
    ensures !AccrualDue(r, currentYear)
    ensures l.saving >= 0.0 && rate >= 0.0 ==> r.saving >= l.saving
  {
    if AccrualDue(l, currentYear) then
      var interest := l.saving * rate * years as real;
      Ledger(l.saving + interest, l.loan, Some(currentYear))
    else
      l
  }

  /** A call changes the ledger exactly when interest is due this year (even
      when no whole year has passed, the stamp still moves). */
  lemma AccrueChangesIffDue(l: Ledger, rate: real, currentYear: int, years: nat)
    ensures Accrue(l, rate, currentYear, years) != l <==> AccrualDue(l, currentYear)
  {
  }

  /** A second call in the same year changes nothing, whatever it is given. */
  lemma AccrueIdempotentWithinYear(l: Ledger, rate: real, currentYear: int, years: nat, again: nat)
    ensures var once := Accrue(l, rate, currentYear, years);
            Accrue(once, rate, currentYear, again) == once
  {
  }

  /** With no whole year elapsed the balance stays but the date is stamped, so the
      partial year is never credited later. */
  lemma ZeroYearsOnlyStamps(l: Ledger, rate: real, currentYear: int)
    requires AccrualDue(l, currentYear)
    ensures Accrue(l, rate, currentYear, 0) == l.(lastAccrual := Some(currentYear))
  {
  }

  /** The two copies of the rule differ only in their rate: they agree on the
      loan balance and the stamp, and the service credits `0.045 * years` of
      the balance more. */
  lemma CopiesDifferOnlyInRate(l: Ledger, currentYear: int, years: nat)
    ensures var s := Accrue(l, ServiceRate, currentYear, years);
            var c := Accrue(l, ControllerRate, currentYear, years);
            && s.loan == c.loan && s.lastAccrual == c.lastAccrual
            && s.saving - c.saving == (if AccrualDue(l, currentYear) then l.saving * 0.045 * years as real else 0.0)
  {
    if AccrualDue(l, currentYear) {
      var y := years as real;
      assert l.saving * ServiceRate * y - l.saving * ControllerRate * y == l.saving * 0.045 * y;
    }
  }

  /** Interest is simple, not compounded: covering two years in one call credits
      less than accruing once in each of the two years. */
  lemma SimpleNotCompound(l: Ledger, rate: real, year: int)
    requires l.saving > 0.0 && rate > 0.0
    requires AccrualDue(l, year)
    ensures var yearly := Accrue(Accrue(l, rate, year, 1), rate, year + 1, 1);
            var atOnce := Accrue(l, rate, year + 1, 2);
            yearly.saving - atOnce.saving == l.saving * rate * rate
    ensures Accrue(Accrue(l, rate, year, 1), rate, year + 1, 1).saving > Accrue(l, rate, year + 1, 2).saving
  {
    var s := l.saving;
    assert AccrualDue(l, year + 1);
    var first := Accrue(l, rate, year, 1);
    assert first.saving == s + s * rate;
    var yearly := Accrue(first, rate, year + 1, 1);
    assert yearly.saving == (s + s * rate) + (s + s * rate) * rate;
    assert (s + s * rate) * rate == s * rate + s * rate * rate;
    var atOnce := Accrue(l, rate, year + 1, 2);
    assert atOnce.saving == s + s * rate * 2.0;
    var sr := s * rate;
    assert sr > 0.0;
    assert sr * rate > 0.0;
    assert yearly.saving - atOnce.saving == sr * rate;
  }
}
