/**
 * Who is on payroll (lib_finance/payroll_types.py, and the two filters on
 * accounts in lib_finance/compensation.py), in SQL's three-valued logic.
 */
module PayrollTypes {
  import opened Prelude
  import opened Sql
  import opened Tables

  /** The types finance may put on payroll. */
  const SWITCHABLE: set<EmploymentType> := {Contractor, Intern, ServiceAccount}

  function SwitchedOn(stored: set<EmploymentType>): set<EmploymentType> {
    set kind | kind in SWITCHABLE && kind in stored
  }

  function Inside(p: Person): Truth {
    And(Is(!p.isExternal), Or(IsNull(p.employmentType), Not(Equals(p.employmentType, External))))
  }

  /** `kinds` is `[employee, *switched_on]`. */
  function OnPayrollByType(p: Person, stored: set<EmploymentType>): Truth {
    var inKinds := match p.employmentType
      case None => Unknown
      case Some(kind) => Is(kind == Employee || kind in SwitchedOn(stored));
    And(Inside(p), Or(IsNull(p.employmentType), inKinds))
  }

  function OnPayrollIfActive(p: Person, stored: set<EmploymentType>, paid: bool): Truth {
    Or(OnPayrollByType(p, stored), And(Inside(p), Is(paid)))
  }

  function OnPayroll(p: Person, stored: set<EmploymentType>, paid: bool): Truth {
    And(Is(p.isActive), OnPayrollIfActive(p, stored, paid))
  }

  function NotOnPayroll(p: Person, stored: set<EmploymentType>, paid: bool): Truth {
    And(Is(p.isActive), Not(OnPayrollIfActive(p, stored, paid)))
  }

  function LeftOffReason(p: Person): EmploymentType {
    if p.isExternal || p.employmentType == Some(External) then External
    else p.employmentType.GetOr(Employee)
  }

  predicate Outside(p: Person) {
    p.isExternal || p.employmentType == Some(External)
  }

  /** The filter says what its documentation says, null types included. */
  lemma OnPayrollMeaning(p: Person, stored: set<EmploymentType>, paid: bool)
    ensures Selected(OnPayroll(p, stored, paid)) <==>
            && p.isActive
            && !Outside(p)
            && (paid || p.employmentType in {None, Some(Employee)}
                || (p.employmentType.value in SWITCHABLE && p.employmentType.value in stored))
  {
  }

  /** Nobody is skipped: an active account is on payroll or named as left off, never both. */
  lemma NobodySkipped(p: Person, stored: set<EmploymentType>, paid: bool)
    ensures p.isActive ==>
              (Selected(OnPayroll(p, stored, paid)) <==> !Selected(NotOnPayroll(p, stored, paid)))
    ensures !p.isActive ==>
              !Selected(OnPayroll(p, stored, paid)) && !Selected(NotOnPayroll(p, stored, paid))
  {
  }

  /** Whoever is left off is from outside, or of a switchable type that is off and unpaid. */
  lemma LeftOffReasonIsTheReason(p: Person, stored: set<EmploymentType>, paid: bool)
    requires Selected(NotOnPayroll(p, stored, paid))
    ensures LeftOffReason(p) == External <==> Outside(p)
    ensures !Outside(p) ==>
              && !paid
              && p.employmentType == Some(LeftOffReason(p))
              && LeftOffReason(p) in SWITCHABLE && LeftOffReason(p) !in stored
  {
  }
}
