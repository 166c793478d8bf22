/**
 * The finance tables as one state, and each service call that writes them as
 * one atomic step on it. A call either is done, with the tables as they are
 * afterwards, or is refused with one of some reasons and changes nothing.
 */
module Books {
  import opened Prelude
  import opened Sql
  import opened Money
  import opened Tables
  import opened PayrollTypes
  import opened Compensation

  datatype Books = Books(
    users: map<UserId, Person>,
    departments: set<DepartmentId>,
    history: History,
    payrollTypes: set<EmploymentType>,
    runs: map<RunId, Run>,
    lines: map<(RunId, UserId), Line>,
    claims: map<ClaimId, Claim>,
    batches: map<BatchId, Batch>,
    budgets: map<BudgetId, Budget>)

  datatype Error =
    | UserNotFound | DepartmentNotFound | DepartmentHasHistory | DepartmentNotEmpty | DepartmentMoveToSame
    | PayNotFound | PayAlreadyCorrected
    | RunNotFound | RunOverlaps | RunNotDraft | RunNotApproved
    | LineNotFound | LineMissingPay | AdjustmentTooLarge
    | ClaimNotFound | ClaimInFuture | ClaimDecided | OwnClaim | ClaimNotApproved | ClaimAlreadySettled
    | BatchNotFound | BatchNotDraft | BatchNotApproved | NotOnRun | SettlementLocked
    | BudgetNotFound | BudgetExists | BudgetPeriodInvalid

  /** Where several reasons are listed, which one is given depends on row order. */
  datatype Answer = Done(books: Books) | Refused(reasons: set<Error>)

  // --- Who a run pays ---------------------------------------------------------------

  predicate IsOnPayroll(b: Books, user: UserId, day: Day)
    requires user in b.users
  {
    Selected(OnPayroll(b.users[user], b.payrollTypes, PayAt(b.history, user, day).Some?))
  }

  /** On payroll on the last day, and paid on this schedule or not paid at all. */
  predicate OnRun(b: Books, run: Run, user: UserId) {
    && user in b.users
    && IsOnPayroll(b, user, run.end)
    && match PayAt(b.history, user, run.end)
       case None => true
       case Some(pay) => b.history[pay].schedule == run.schedule
  }

  /** A fresh `PayrollLine`. */
  const NO_LINE := Line(None, None, None, None, 0, None)

  function RowOf(b: Books, id: RunId, user: UserId): Line {
    if (id, user) in b.lines then b.lines[(id, user)] else NO_LINE
  }

  /** A person's draft line: pay read live, and the row's adjustment if they have pay. */
  function DraftLine(b: Books, id: RunId, run: Run, user: UserId): Line
    requires user in b.users
  {
    var department := b.users[user].department;
    match PayAt(b.history, user, run.end)
    case None => Line(None, None, None, department, 0, None)
    case Some(pay) =>
      var record, row := b.history[pay], RowOf(b, id, user);
      Line(Some(pay), Some(record.amount), Some(record.currency), department, row.adjustment, row.note)
  }

  function DraftLines(b: Books, id: RunId, run: Run): map<UserId, Line> {
    map user | user in b.users && OnRun(b, run, user) :: DraftLine(b, id, run, user)
  }

  function FrozenLines(b: Books, id: RunId): map<UserId, Line> {
    map user | user in b.users && (id, user) in b.lines :: b.lines[(id, user)]
  }

  /** What the run's page shows. */
  function RunLines(b: Books, id: RunId): map<UserId, Line>
    requires id in b.runs
  {
    if b.runs[id].state == Draft then DraftLines(b, id, b.runs[id]) else FrozenLines(b, id)
  }

  // --- Compensation, people and departments --------------------------------------------

  function RecordPay(b: Books, id: PayId, pay: Pay): Answer {
    if pay.user !in b.users then Refused({UserNotFound})
    else if pay.corrects.Some? && (pay.corrects.value !in b.history || b.history[pay.corrects.value].user != pay.user)
    then Refused({PayNotFound})
    else if pay.corrects.Some? && pay.corrects.value in Corrected(b.history) then Refused({PayAlreadyCorrected})
    else Done(b.(history := b.history[id := pay]))
  }

  /** The columns of an account that finance reads, set by a site admin. */
  function PutPerson(b: Books, id: UserId, person: Person): Answer {
    if person.department.Some? && person.department.value !in b.departments then Refused({DepartmentNotFound})
    else Done(b.(users := b.users[id := person]))
  }

  function SwitchOn(b: Books, kinds: set<EmploymentType>): Answer {
    Done(b.(payrollTypes := SwitchedOn(kinds)))
  }

  predicate HasFinanceHistory(b: Books, id: DepartmentId) {
    || (exists key | key in b.lines :: b.lines[key].department == Some(id))
    || (exists c | c in b.claims :: b.claims[c].department == Some(id))
    || (exists g | g in b.budgets :: b.budgets[g].department == id)
  }

  function Members(b: Books, id: DepartmentId): set<UserId> {
    set user | user in b.users && b.users[user].department == Some(id)
  }

  function Moved(users: map<UserId, Person>, some: set<UserId>, moveTo: Option<DepartmentId>): map<UserId, Person> {
    map user | user in users :: if user in some then users[user].(department := moveTo) else users[user]
  }

  /** `request` is where its people go: nothing said, nowhere, or a department. */
  function DeleteDepartment(b: Books, id: DepartmentId, request: Option<Option<DepartmentId>>): Answer {
    if id !in b.departments then Refused({DepartmentNotFound})
    else if HasFinanceHistory(b, id) then Refused({DepartmentHasHistory})
    else if Members(b, id) == {} then Done(b.(departments := b.departments - {id}))
    else
      match request
      case None => Refused({DepartmentNotEmpty})
      case Some(moveTo) =>
        if moveTo == Some(id) then Refused({DepartmentMoveToSame})
        else if moveTo.Some? && moveTo.value !in b.departments then Refused({DepartmentNotFound})
        else Done(b.(users := Moved(b.users, Members(b, id), moveTo), departments := b.departments - {id}))
  }

  // --- Payroll runs --------------------------------------------------------------------

  predicate Overlaps(run: Run, schedule: PaySchedule, start: Day, end: Day) {
    run.schedule == schedule && run.start <= end && run.end >= start
  }

  function CreateRun(b: Books, id: RunId, schedule: PaySchedule, start: Day, end: Day): Answer {
    if exists r | r in b.runs :: Overlaps(b.runs[r], schedule, start, end) then Refused({RunOverlaps})
    else Done(b.(runs := b.runs[id := Run(schedule, start, end, Draft, None)]))
  }

  /** Why a draft run is needed and this is not one. */
  function DraftRefusal(b: Books, id: RunId): Option<Error> {
    if id !in b.runs then Some(RunNotFound)
    else if b.runs[id].state != Draft then Some(RunNotDraft)
    else None
  }

  function WithoutRun(lines: map<(RunId, UserId), Line>, id: RunId): map<(RunId, UserId), Line> {
    map key | key in lines && key.0 != id :: lines[key]
  }

  function OffRun(claims: map<ClaimId, Claim>, id: RunId): map<ClaimId, Claim> {
    map c | c in claims :: if claims[c].run == Some(id) then claims[c].(run := None) else claims[c]
  }

  function DeleteRun(b: Books, id: RunId): Answer {
    match DraftRefusal(b, id)
    case Some(error) => Refused({error})
    case None =>
      Done(b.(runs := b.runs - {id}, lines := WithoutRun(b.lines, id), claims := OffRun(b.claims, id)))
  }

  function SetAdjustment(b: Books, id: RunId, user: UserId, amount: int, note: string): Answer {
    match DraftRefusal(b, id)
    case Some(error) => Refused({error})
    case None =>
      var draft := DraftLines(b, id, b.runs[id]);
      if user !in draft then Refused({LineNotFound})
      else if draft[user].Missing() then Refused({LineMissingPay})
      else if draft[user].amount.value + amount < 0 then Refused({AdjustmentTooLarge})
      else
        var row := RowOf(b, id, user).(adjustment := amount, note := Some(note));
        Done(b.(lines := b.lines[(id, user) := row]))
  }

  function ClearAdjustment(b: Books, id: RunId, user: UserId): Answer {
    match DraftRefusal(b, id)
    case Some(error) => Refused({error})
    case None => Done(b.(lines := b.lines - {(id, user)}))
  }

  /** What approval writes for a draft line, over the row there was. */
  function FrozenRow(row: Line, line: Line): Line {
    row.(pay := line.pay, amount := line.amount, currency := line.currency, department := line.department)
  }

  function FrozenRows(b: Books, id: RunId, draft: map<UserId, Line>): map<(RunId, UserId), Line> {
    map user | user in draft :: (id, user) := FrozenRow(RowOf(b, id, user), draft[user])
  }

  function ApproveRun(b: Books, id: RunId): Answer {
    match DraftRefusal(b, id)
    case Some(error) => Refused({error})
    case None =>
      var draft := DraftLines(b, id, b.runs[id]);
      Done(b.(lines := WithoutRun(b.lines, id) + FrozenRows(b, id, draft),
              runs := b.runs[id := b.runs[id].(state := Approved)]))
  }

  function RunPaidBack(claims: map<ClaimId, Claim>, id: RunId, now: Time): map<ClaimId, Claim> {
    map c | c in claims :: if claims[c].run == Some(id) then claims[c].(reimbursedAt := Some(now)) else claims[c]
  }

  function MarkRunPaid(b: Books, id: RunId, now: Time): Answer {
    if id !in b.runs then Refused({RunNotFound})
    else if b.runs[id].state != Approved then Refused({RunNotApproved})
    else Done(b.(runs := b.runs[id := b.runs[id].(state := Paid, paidAt := Some(now))],
                 claims := RunPaidBack(b.claims, id, now)))
  }

  // --- Expense claims ------------------------------------------------------------------

  /** `latest` is tomorrow: somebody may be a timezone ahead. */
  function CreateClaim(b: Books, id: ClaimId, user: UserId, amount: int, currency: Currency, on: Day,
                       latest: Day): Answer {
    if on > latest then Refused({ClaimInFuture})
    else Done(b.(claims := b.claims[id := Claim(user, amount, currency, on, Submitted, None, None, None, None, None)]))
  }

  function OwnUndecidedRefusal(b: Books, id: ClaimId, user: UserId): Option<Error> {
    if id !in b.claims || b.claims[id].submitter != user then Some(ClaimNotFound)
    else if b.claims[id].state != Submitted then Some(ClaimDecided)
    else None
  }

  function UpdateClaim(b: Books, id: ClaimId, user: UserId, amount: Option<int>, currency: Option<Currency>,
                       on: Option<Day>, latest: Day): Answer {
    match OwnUndecidedRefusal(b, id, user)
    case Some(error) => Refused({error})
    case None =>
      if on.Some? && on.value > latest then Refused({ClaimInFuture})
      else
        var claim := b.claims[id];
        Done(b.(claims := b.claims[id := claim.(
          amount := amount.GetOr(claim.amount),
          currency := currency.GetOr(claim.currency),
          incurredOn := on.GetOr(claim.incurredOn))]))
  }

  function WithdrawClaim(b: Books, id: ClaimId, user: UserId): Answer {
    match OwnUndecidedRefusal(b, id, user)
    case Some(error) => Refused({error})
    case None => Done(b.(claims := b.claims - {id}))
  }

  function Decide(b: Books, id: ClaimId, actor: UserId, accept: bool): Answer {
    if id !in b.claims then Refused({ClaimNotFound})
    else if b.claims[id].state != Submitted then Refused({ClaimDecided})
    else if b.claims[id].submitter == actor then Refused({OwnClaim})
    else
      var claim := b.claims[id].(decidedBy := Some(actor));
      Done(b.(claims := b.claims[id :=
        if accept then claim.(state := Accepted, department := DepartmentOf(b, claim.submitter))
        else claim.(state := Declined)]))
  }

  function DepartmentOf(b: Books, user: UserId): Option<DepartmentId> {
    if user in b.users then b.users[user].department else None
  }

  // --- Reimbursements ------------------------------------------------------------------

  predicate Free(claim: Claim) {
    claim.batch.None? && claim.run.None?
  }

  /** Why these claims cannot all be settled, if they cannot. */
  function SettleRefusal(b: Books, ids: set<ClaimId>): set<Error> {
    if exists c | c in ids :: c !in b.claims then {ClaimNotFound}
    else
      (if exists c | c in ids :: b.claims[c].state != Accepted then {ClaimNotApproved} else {})
      + (if exists c | c in ids :: b.claims[c].state == Accepted && !Free(b.claims[c]) then {ClaimAlreadySettled}
        else {})
  }

  function IntoBatch(claims: map<ClaimId, Claim>, ids: set<ClaimId>, batch: BatchId): map<ClaimId, Claim> {
    map c | c in claims :: if c in ids then claims[c].(batch := Some(batch)) else claims[c]
  }

  function CreateBatch(b: Books, batch: BatchId, ids: set<ClaimId>): Answer {
    var refusal := SettleRefusal(b, ids);
    if refusal != {} then Refused(refusal)
    else Done(b.(batches := b.batches[batch := Batch(Draft, None)], claims := IntoBatch(b.claims, ids, batch)))
  }

  function DraftBatchRefusal(b: Books, id: BatchId): Option<Error> {
    if id !in b.batches then Some(BatchNotFound)
    else if b.batches[id].state != Draft then Some(BatchNotDraft)
    else None
  }

  function OutOfBatch(claims: map<ClaimId, Claim>, id: BatchId): map<ClaimId, Claim> {
    map c | c in claims :: if claims[c].batch == Some(id) then claims[c].(batch := None) else claims[c]
  }

  function DeleteBatch(b: Books, id: BatchId): Answer {
    match DraftBatchRefusal(b, id)
    case Some(error) => Refused({error})
    case None => Done(b.(batches := b.batches - {id}, claims := OutOfBatch(b.claims, id)))
  }

  function ApproveBatch(b: Books, id: BatchId): Answer {
    match DraftBatchRefusal(b, id)
    case Some(error) => Refused({error})
    case None => Done(b.(batches := b.batches[id := b.batches[id].(state := Approved)]))
  }

  function BatchPaidBack(claims: map<ClaimId, Claim>, id: BatchId, now: Time): map<ClaimId, Claim> {
    map c | c in claims :: if claims[c].batch == Some(id) then claims[c].(reimbursedAt := Some(now)) else claims[c]
  }

  function MarkBatchPaid(b: Books, id: BatchId, now: Time): Answer {
    if id !in b.batches then Refused({BatchNotFound})
    else if b.batches[id].state != Approved then Refused({BatchNotApproved})
    else Done(b.(batches := b.batches[id := Batch(Paid, Some(now))], claims := BatchPaidBack(b.claims, id, now)))
  }

  function PaidOnRun(b: Books, id: RunId): set<UserId>
    requires id in b.runs
  {
    var draft := DraftLines(b, id, b.runs[id]);
    set user | user in draft && !draft[user].Missing()
  }

  function OntoRun(claims: map<ClaimId, Claim>, ids: set<ClaimId>, run: RunId): map<ClaimId, Claim> {
    map c | c in claims :: if c in ids then claims[c].(run := Some(run)) else claims[c]
  }

  function Carry(b: Books, id: RunId, ids: set<ClaimId>): Answer {
    match DraftRefusal(b, id)
    case Some(error) => Refused({error})
    case None =>
      var refusal := SettleRefusal(b, ids);
      if refusal != {} then Refused(refusal)
      else if exists c | c in ids && c in b.claims :: b.claims[c].submitter !in PaidOnRun(b, id)
      then Refused({NotOnRun})
      else Done(b.(claims := OntoRun(b.claims, ids, id)))
  }

  /** The state of whatever the claim goes out in. */
  function ContainerState(b: Books, claim: Claim): Option<RunState> {
    if claim.batch.Some? && claim.batch.value in b.batches then Some(b.batches[claim.batch.value].state)
    else if claim.run.Some? && claim.run.value in b.runs then Some(b.runs[claim.run.value].state)
    else None
  }

  function Release(b: Books, id: ClaimId): Answer {
    if id !in b.claims then Refused({ClaimNotFound})
    else if ContainerState(b, b.claims[id]) !in {None, Some(Draft)} then Refused({SettlementLocked})
    else
      var batch := b.claims[id].batch;
      var claims := b.claims[id := b.claims[id].(batch := None, run := None)];
      var emptied := batch.Some? && forall c | c in claims :: claims[c].batch != batch;
      Done(b.(claims := claims, batches := if emptied then b.batches - {batch.value} else b.batches))
  }

  // --- Budgets --------------------------------------------------------------------------

  predicate SameBudget(x: Budget, y: Budget) {
    x.department == y.department && x.currency == y.currency && x.start == y.start && x.end == y.end
  }

  function SaveBudget(b: Books, id: BudgetId, budget: Budget): Answer {
    if exists g | g in b.budgets :: g != id && SameBudget(b.budgets[g], budget) then Refused({BudgetExists})
    else Done(b.(budgets := b.budgets[id := budget]))
  }

  function CreateBudget(b: Books, id: BudgetId, budget: Budget): Answer {
    if budget.department !in b.departments then Refused({DepartmentNotFound})
    else SaveBudget(b, id, budget)
  }

  function UpdateBudget(b: Books, id: BudgetId, amount: Option<int>, start: Option<Day>, end: Option<Day>): Answer {
    if id !in b.budgets then Refused({BudgetNotFound})
    else
      var was := b.budgets[id];
      var budget :=
        was.(amount := amount.GetOr(was.amount), start := start.GetOr(was.start), end := end.GetOr(was.end));
      if budget.end < budget.start then Refused({BudgetPeriodInvalid})
      else SaveBudget(b, id, budget)
  }

  function DeleteBudget(b: Books, id: BudgetId): Answer {
    if id !in b.budgets then Refused({BudgetNotFound})
    else Done(b.(budgets := b.budgets - {id}))
  }

  // --- Runs of the whole service ----------------------------------------------------------

  /** One request. New rows carry the key the database gives them. */
  datatype Event =
    | RecordsPay(pid: PayId, pay: Pay)
    | PutsPerson(user: UserId, person: Person)
    | SwitchesOn(kinds: set<EmploymentType>)
    | AddsDepartment(department: DepartmentId)
    | DeletesDepartment(department: DepartmentId, request: Option<Option<DepartmentId>>)
    | CreatesRun(run: RunId, schedule: PaySchedule, start: Day, end: Day)
    | DeletesRun(run: RunId)
    | SetsAdjustment(run: RunId, user: UserId, amount: int, note: string)
    | ClearsAdjustment(run: RunId, user: UserId)
    | ApprovesRun(run: RunId)
    | MarksRunPaid(run: RunId, now: Time)
    | CreatesClaim(claim: ClaimId, user: UserId, amount: int, currency: Currency, on: Day, latest: Day)
    | UpdatesClaim(claim: ClaimId, user: UserId, newAmount: Option<int>, newCurrency: Option<Currency>,
                   newDay: Option<Day>, latest: Day)
    | WithdrawsClaim(claim: ClaimId, user: UserId)
    | Decides(claim: ClaimId, user: UserId, accept: bool)
    | CreatesBatch(batch: BatchId, claims: set<ClaimId>)
    | DeletesBatch(batch: BatchId)
    | ApprovesBatch(batch: BatchId)
    | MarksBatchPaid(batch: BatchId, now: Time)
    | Carries(run: RunId, claims: set<ClaimId>)
    | Releases(claim: ClaimId)
    | CreatesBudget(budget: BudgetId, row: Budget)
    | UpdatesBudget(budget: BudgetId, newAmount: Option<int>, newStart: Option<Day>, newEnd: Option<Day>)
    | DeletesBudget(budget: BudgetId)

  /** What the request models and the database's key sequences guarantee. */
  ghost predicate Admissible(b: Books, e: Event) {
    match e
    case RecordsPay(id, pay) => Newest(b.history, id)
    case CreatesRun(id, _, start, end) => id !in b.runs && start <= end
    case CreatesClaim(id, user, _, _, _, _) => id !in b.claims && user in b.users
    case CreatesBatch(id, ids) => id !in b.batches && ids != {}
    case CreatesBudget(id, row) => id !in b.budgets
    case _ => true
  }

  function Call(b: Books, e: Event): Answer {
    match e
    case RecordsPay(id, pay) => RecordPay(b, id, pay)
    case PutsPerson(id, person) => PutPerson(b, id, person)
    case SwitchesOn(kinds) => SwitchOn(b, kinds)
    case AddsDepartment(id) => Done(b.(departments := b.departments + {id}))
    case DeletesDepartment(id, request) => DeleteDepartment(b, id, request)
    case CreatesRun(id, schedule, start, end) => CreateRun(b, id, schedule, start, end)
    case DeletesRun(id) => DeleteRun(b, id)
    case SetsAdjustment(id, user, amount, note) => SetAdjustment(b, id, user, amount, note)
    case ClearsAdjustment(id, user) => ClearAdjustment(b, id, user)
    case ApprovesRun(id) => ApproveRun(b, id)
    case MarksRunPaid(id, now) => MarkRunPaid(b, id, now)
    case CreatesClaim(id, user, amount, currency, on, latest) => CreateClaim(b, id, user, amount, currency, on, latest)
    case UpdatesClaim(id, user, amount, currency, on, latest) => UpdateClaim(b, id, user, amount, currency, on, latest)
    case WithdrawsClaim(id, user) => WithdrawClaim(b, id, user)
    case Decides(id, user, accept) => Decide(b, id, user, accept)
    case CreatesBatch(id, ids) => CreateBatch(b, id, ids)
    case DeletesBatch(id) => DeleteBatch(b, id)
    case ApprovesBatch(id) => ApproveBatch(b, id)
    case MarksBatchPaid(id, now) => MarkBatchPaid(b, id, now)
    case Carries(id, ids) => Carry(b, id, ids)
    case Releases(id) => Release(b, id)
    case CreatesBudget(id, row) => CreateBudget(b, id, row)
    case UpdatesBudget(id, amount, start, end) => UpdateBudget(b, id, amount, start, end)
    case DeletesBudget(id) => DeleteBudget(b, id)
  }

  // Which requests write which tables.

  predicate OnDirectory(e: Event) {
    e.RecordsPay? || e.PutsPerson? || e.SwitchesOn? || e.AddsDepartment? || e.DeletesDepartment?
    || e.CreatesBudget? || e.UpdatesBudget? || e.DeletesBudget?
  }

  predicate OnRunOnly(e: Event) {
    e.CreatesRun? || e.SetsAdjustment? || e.ClearsAdjustment? || e.ApprovesRun?
  }

  predicate OnClaim(e: Event) {
    e.CreatesClaim? || e.UpdatesClaim? || e.WithdrawsClaim? || e.Decides?
  }

  predicate OnSettlement(e: Event) {
    e.CreatesBatch? || e.DeletesBatch? || e.ApprovesBatch? || e.MarksBatchPaid? || e.Carries? || e.Releases?
  }

  /** Nothing of a run, a claim or a batch is written. */
  ghost predicate LedgerStays(b: Books, after: Books) {
    after.runs == b.runs && after.lines == b.lines && after.claims == b.claims && after.batches == b.batches
  }

  lemma PeopleFrame(b: Books, e: Event)
    requires (e.RecordsPay? || e.PutsPerson? || e.SwitchesOn? || e.AddsDepartment?) && Call(b, e).Done?
    ensures LedgerStays(b, Call(b, e).books)
  {
  }

  lemma DepartmentFrame(b: Books, id: DepartmentId, request: Option<Option<DepartmentId>>)
    requires DeleteDepartment(b, id, request).Done?
    ensures LedgerStays(b, DeleteDepartment(b, id, request).books)
  {
  }

  lemma BudgetFrame(b: Books, e: Event)
    requires (e.CreatesBudget? || e.UpdatesBudget? || e.DeletesBudget?) && Call(b, e).Done?
    ensures LedgerStays(b, Call(b, e).books)
  {
  }

  lemma DirectoryFrame(b: Books, e: Event)
    requires OnDirectory(e) && Call(b, e).Done?
    ensures LedgerStays(b, Call(b, e).books)
  {
    if e.DeletesDepartment? {
      DepartmentFrame(b, e.department, e.request);
    } else if e.CreatesBudget? || e.UpdatesBudget? || e.DeletesBudget? {
      BudgetFrame(b, e);
    } else {
      PeopleFrame(b, e);
    }
  }

  lemma RunFrame(b: Books, e: Event)
    requires OnRunOnly(e) && Call(b, e).Done?
    ensures var after := Call(b, e).books; after.claims == b.claims && after.batches == b.batches
  {
  }

  lemma ClaimFrame(b: Books, e: Event)
    requires OnClaim(e) && Call(b, e).Done?
    ensures var after := Call(b, e).books; after.runs == b.runs && after.lines == b.lines
  {
  }

  lemma SettlementFrame(b: Books, e: Event)
    requires OnSettlement(e) && Call(b, e).Done?
    ensures var after := Call(b, e).books; after.runs == b.runs && after.lines == b.lines
    ensures e.ApprovesBatch? ==> Call(b, e).books.claims == b.claims
  {
  }

  /** A refused call changes nothing. */
  function Next(b: Books, e: Event): Books {
    match Call(b, e)
    case Done(after) => after
    case Refused(_) => b
  }

  function After(b: Books, events: seq<Event>): Books
    decreases |events|
  {
    if events == [] then b else After(Next(b, events[0]), events[1..])
  }

  ghost predicate AllAdmissible(b: Books, events: seq<Event>)
    decreases |events|
  {
    events == [] || (Admissible(b, events[0]) && AllAdmissible(Next(b, events[0]), events[1..]))
  }

  const EMPTY := Books(map[], {}, map[], {}, map[], map[], map[], map[], map[])
}
