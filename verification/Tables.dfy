/**
 * The rows the finance services read and write, with the columns they use.
 *
 * Days and times are integers in their own order. A payroll line's key is its
 * run and its person, which the database keeps unique.
 */
module Tables {
  import opened Prelude
  import opened Money

  type Day = int
  type Time = int
  type UserId = int
  type DepartmentId = int
  type PayId = int
  type RunId = int
  type ClaimId = int
  type BatchId = int
  type BudgetId = int

  datatype EmploymentType = Employee | Contractor | Intern | External | ServiceAccount

  datatype PaySchedule = Monthly | SemiMonthly | BiWeekly

  datatype Person = Person(
    name: string,
    isActive: bool,
    isExternal: bool,
    employmentType: Option<EmploymentType>,
    department: Option<DepartmentId>)

  /** One decision about somebody's pay: this much, from this day. */
  datatype Pay = Pay(
    user: UserId,
    amount: int,
    currency: Currency,
    schedule: PaySchedule,
    effectiveOn: Day,
    corrects: Option<PayId>)

  /** A run's or a batch's state; both move draft, approved, paid. */
  datatype RunState = Draft | Approved | Paid

  datatype Run = Run(
    schedule: PaySchedule,
    start: Day,
    end: Day,
    state: RunState,
    paidAt: Option<Time>)

  /**
   * A person's line on a run, worked out or as a row. In a draft, a row only
   * holds an adjustment; approval fills in the rest.
   */
  datatype Line = Line(
    pay: Option<PayId>,
    amount: Option<int>,
    currency: Option<Currency>,
    department: Option<DepartmentId>,
    adjustment: int,
    note: Option<string>)
  {
    predicate Missing() {
      amount.None?
    }

    function Total(): Option<int> {
      match amount
      case None => None
      case Some(a) => Some(a + adjustment)
    }

    /** The total, or nothing if the line is missing. */
    function Pays(): int {
      match amount
      case None => 0
      case Some(a) => a + adjustment
    }
  }

  datatype ClaimState = Submitted | Accepted | Declined

  datatype Claim = Claim(
    submitter: UserId,
    amount: int,
    currency: Currency,
    incurredOn: Day,
    state: ClaimState,
    decidedBy: Option<UserId>,
    department: Option<DepartmentId>,
    batch: Option<BatchId>,
    run: Option<RunId>,
    reimbursedAt: Option<Time>)

  datatype Batch = Batch(state: RunState, paidAt: Option<Time>)

  datatype Budget = Budget(
    department: DepartmentId,
    start: Day,
    end: Day,
    amount: int,
    currency: Currency)
}
