/** What holds of the finance tables in every reachable state. */
module Invariants {
  import opened Prelude
  import opened Money
  import opened Tables
  import opened PayrollTypes
  import opened Compensation
  import opened Books

  ghost predicate Placed(b: Books, department: Option<DepartmentId>) {
    department.Some? ==> department.value in b.departments
  }

  ghost predicate PeoplePlaced(b: Books) {
    && (forall user | user in b.users :: Placed(b, b.users[user].department))
    && (forall g | g in b.budgets :: b.budgets[g].department in b.departments)
  }

  /** Two runs on one schedule share no day, and a run's payment is timed. */
  ghost predicate RunsApart(b: Books) {
    && (forall r | r in b.runs ::
        b.runs[r].start <= b.runs[r].end && (b.runs[r].paidAt.Some? <==> b.runs[r].state == Paid))
    && (forall r, s | r in b.runs && s in b.runs
                      && Overlaps(b.runs[r], b.runs[s].schedule, b.runs[s].start, b.runs[s].end) ::
          r == s)
  }

  /** A draft's row is only an adjustment; a frozen row is a copy of one pay
    * record of its person, or of none. */
  ghost predicate LineKept(b: Books, run: RunId, user: UserId, line: Line) {
    && run in b.runs && user in b.users
    && Placed(b, line.department)
    && match line.pay
       case None => line.amount.None? && line.currency.None?
       case Some(pay) =>
         && b.runs[run].state != Draft
         && pay in b.history && b.history[pay].user == user
         && line.amount == Some(b.history[pay].amount) && line.currency == Some(b.history[pay].currency)
  }

  ghost predicate LinesKept(b: Books) {
    && (forall key | key in b.lines :: LineKept(b, key.0, key.1, b.lines[key]))
    && (forall key | key in b.lines && b.runs[key.0].state == Draft :: b.lines[key].department.None?)
  }

  /** When the container a claim goes out in was paid. */
  ghost function SettledAt(b: Books, claim: Claim): Option<Time> {
    if claim.batch.Some? && claim.batch.value in b.batches then b.batches[claim.batch.value].paidAt
    else if claim.run.Some? && claim.run.value in b.runs then b.runs[claim.run.value].paidAt
    else None
  }

  /** In at most one container, only if approved, and paid back exactly when that is paid. */
  ghost predicate ClaimKept(b: Books, claim: Claim) {
    && claim.submitter in b.users
    && (claim.decidedBy.Some? <==> claim.state != Submitted)
    && claim.decidedBy != Some(claim.submitter)
    && Placed(b, claim.department)
    && (claim.batch.None? || claim.run.None?)
    && (!Free(claim) ==> claim.state == Accepted)
    && (claim.batch.Some? ==> claim.batch.value in b.batches)
    && (claim.run.Some? ==> claim.run.value in b.runs)
    && claim.reimbursedAt == SettledAt(b, claim)
  }

  ghost predicate ClaimsKept(b: Books) {
    forall c | c in b.claims :: ClaimKept(b, b.claims[c])
  }

  /** No batch is empty, and a batch's payment is timed. */
  ghost predicate BatchKept(b: Books, batch: BatchId)
    requires batch in b.batches
  {
    && (b.batches[batch].paidAt.Some? <==> b.batches[batch].state == Paid)
    && exists c :: c in b.claims && b.claims[c].batch == Some(batch)
  }

  ghost predicate BatchesKept(b: Books) {
    forall batch | batch in b.batches :: BatchKept(b, batch)
  }

  /** A department has one budget at most for a currency and a period. */
  ghost predicate BudgetsApart(b: Books) {
    forall g, h | g in b.budgets && h in b.budgets && SameBudget(b.budgets[g], b.budgets[h]) :: g == h
  }

  ghost predicate Valid(b: Books) {
    && ValidHistory(b.history)
    && PeoplePlaced(b)
    && RunsApart(b)
    && LinesKept(b)
    && ClaimsKept(b)
    && BatchesKept(b)
    && BudgetsApart(b)
  }

  // --- What a step does not touch stays valid ------------------------------------------

  /** Accounts and pay records are never taken away, nor records changed. */
  ghost predicate Grows(b: Books, after: Books) {
    && b.users.Keys <= after.users.Keys
    && (forall id | id in b.history :: id in after.history && after.history[id] == b.history[id])
  }

  lemma LinesStay(b: Books, after: Books)
    requires LinesKept(b) && Grows(b, after) && after.lines == b.lines
    requires forall key | key in b.lines :: key.0 in after.runs && after.runs[key.0].state == b.runs[key.0].state
    requires forall key | key in b.lines :: Placed(after, b.lines[key].department)
    ensures LinesKept(after)
  {
  }

  lemma ClaimsStay(b: Books, after: Books)
    requires ClaimsKept(b) && Grows(b, after)
    requires after.claims == b.claims && after.batches == b.batches
    requires forall r | r in b.runs :: r in after.runs && after.runs[r].paidAt == b.runs[r].paidAt
    requires forall c | c in b.claims :: Placed(after, b.claims[c].department)
    ensures ClaimsKept(after)
  {
    forall c | c in b.claims ensures ClaimKept(after, b.claims[c]) {
      assert ClaimKept(b, b.claims[c]);
      if b.claims[c].run.Some? {
        var r := b.claims[c].run.value;
        assert b.runs[r].paidAt == after.runs[r].paidAt;
      }
    }
  }

  /** Batches stay filled while no claim leaves one. */
  lemma BatchesStay(b: Books, after: Books)
    requires BatchesKept(b) && after.batches == b.batches
    requires forall c | c in b.claims && b.claims[c].batch.Some? ::
               c in after.claims && after.claims[c].batch == b.claims[c].batch
    ensures BatchesKept(after)
  {
  }

  // --- Each call keeps the state valid ---------------------------------------------------

  ghost predicate DoneIsValid(answer: Answer) {
    answer.Done? ==> Valid(answer.books)
  }

  lemma RecordPayValid(b: Books, id: PayId, pay: Pay)
    requires Valid(b) && Newest(b.history, id)
    ensures DoneIsValid(RecordPay(b, id, pay))
  {
  }

  lemma DirectoryValid(b: Books, after: Books)
    requires Valid(b) && PeoplePlaced(after) && BudgetsApart(after) && Grows(b, after)
    requires after.history == b.history && after.runs == b.runs && after.lines == b.lines
    requires after.claims == b.claims && after.batches == b.batches
    requires forall key | key in b.lines :: Placed(after, b.lines[key].department)
    requires forall c | c in b.claims :: Placed(after, b.claims[c].department)
    ensures Valid(after)
  {
  }

  lemma PlacedNow(b: Books)
    requires Valid(b)
    ensures forall key | key in b.lines :: Placed(b, b.lines[key].department)
    ensures forall c | c in b.claims :: Placed(b, b.claims[c].department)
  {
  }

  lemma PeopleMoved(b: Books, e: Event)
    requires Valid(b) && (e.PutsPerson? || e.SwitchesOn? || e.AddsDepartment?) && Call(b, e).Done?
    ensures PeoplePlaced(Call(b, e).books) && Call(b, e).books.budgets == b.budgets
  {
  }

  lemma SavedBudgetKept(b: Books, id: BudgetId, budget: Budget)
    requires PeoplePlaced(b) && BudgetsApart(b) && budget.department in b.departments && SaveBudget(b, id, budget).Done?
    ensures var after := SaveBudget(b, id, budget).books;
            PeoplePlaced(after) && BudgetsApart(after)
  {
  }

  lemma DeletedBudgetKept(b: Books, id: BudgetId)
    requires PeoplePlaced(b) && BudgetsApart(b) && DeleteBudget(b, id).Done?
    ensures var after := DeleteBudget(b, id).books;
            PeoplePlaced(after) && BudgetsApart(after)
  {
  }

  lemma UpdatedBudgetKept(b: Books, id: BudgetId, amount: Option<int>, start: Option<Day>, end: Option<Day>)
    requires PeoplePlaced(b) && BudgetsApart(b) && UpdateBudget(b, id, amount, start, end).Done?
    ensures var after := UpdateBudget(b, id, amount, start, end).books;
            PeoplePlaced(after) && BudgetsApart(after)
  {
    var was := b.budgets[id];
    var budget := was.(amount := amount.GetOr(was.amount), start := start.GetOr(was.start), end := end.GetOr(was.end));
    SavedBudgetKept(b, id, budget);
  }

  lemma BudgetsMoved(b: Books, e: Event)
    requires Valid(b) && (e.CreatesBudget? || e.UpdatesBudget? || e.DeletesBudget?) && Call(b, e).Done?
    ensures PeoplePlaced(Call(b, e).books) && BudgetsApart(Call(b, e).books)
  {
    match e
    case CreatesBudget(id, row) => SavedBudgetKept(b, id, row);
    case UpdatesBudget(id, amount, start, end) => UpdatedBudgetKept(b, id, amount, start, end);
    case DeletesBudget(id) => DeletedBudgetKept(b, id);
  }

  lemma PeopleValid(b: Books, e: Event)
    requires Valid(b) && OnDirectory(e) && !e.RecordsPay? && !e.DeletesDepartment?
    ensures DoneIsValid(Call(b, e))
  {
    if Call(b, e).Done? {
      var after := Call(b, e).books;
      if e.CreatesBudget? || e.UpdatesBudget? || e.DeletesBudget? {
        BudgetsMoved(b, e);
      } else {
        PeopleMoved(b, e);
      }
      PlacedNow(b);
      DirectoryFrame(b, e);
      DepartmentsStay(b, e, after);
      DirectoryValid(b, after);
    }
  }

  lemma DepartmentsStay(b: Books, e: Event, after: Books)
    requires OnDirectory(e) && !e.RecordsPay? && !e.DeletesDepartment? && Call(b, e) == Done(after)
    ensures b.departments <= after.departments && b.users.Keys <= after.users.Keys && after.history == b.history
  {
  }

  /** Where the members went, if there were any. */
  lemma MembersMoved(b: Books, after: Books, id: DepartmentId, request: Option<Option<DepartmentId>>)
    requires DeleteDepartment(b, id, request) == Done(after)
    ensures after.departments == b.departments - {id}
    ensures if Members(b, id) == {} then after.users == b.users
            else request.Some? && Placed(after, request.value)
                 && after.users == Moved(b.users, Members(b, id), request.value)
  {
  }

  lemma NobodyThere(b: Books, after: Books, id: DepartmentId, user: UserId)
    requires PeoplePlaced(b) && after.departments == b.departments - {id}
    requires user in b.users && user !in Members(b, id)
    ensures Placed(after, b.users[user].department)
  {
  }

  /** Nobody is left in a department deleted, and nothing else names it. */
  lemma DepartmentGone(b: Books, after: Books, id: DepartmentId, request: Option<Option<DepartmentId>>)
    requires Valid(b) && DeleteDepartment(b, id, request) == Done(after)
    ensures forall user | user in after.users :: Placed(after, after.users[user].department)
  {
    MembersMoved(b, after, id, request);
    forall user | user in after.users ensures Placed(after, after.users[user].department) {
      if user !in Members(b, id) { NobodyThere(b, after, id, user); }
    }
  }

  lemma UnusedDepartment(b: Books, after: Books, id: DepartmentId, request: Option<Option<DepartmentId>>)
    requires Valid(b) && DeleteDepartment(b, id, request) == Done(after)
    ensures forall key | key in b.lines :: Placed(after, b.lines[key].department)
    ensures forall c | c in b.claims :: Placed(after, b.claims[c].department)
    ensures forall g | g in b.budgets :: b.budgets[g].department in after.departments
  {
  }

  lemma OnlyPeopleMove(b: Books, after: Books, id: DepartmentId, request: Option<Option<DepartmentId>>)
    requires DeleteDepartment(b, id, request) == Done(after)
    ensures after == b.(users := after.users, departments := b.departments - {id}) && after.users.Keys == b.users.Keys
  {
  }

  lemma DeleteDepartmentValid(b: Books, id: DepartmentId, request: Option<Option<DepartmentId>>)
    requires Valid(b)
    ensures DoneIsValid(DeleteDepartment(b, id, request))
  {
    match DeleteDepartment(b, id, request)
    case Refused(_) =>
    case Done(after) =>
      OnlyPeopleMove(b, after, id, request);
      DepartmentGone(b, after, id, request);
      UnusedDepartment(b, after, id, request);
      DirectoryValid(b, after);
  }

  lemma CreateRunValid(b: Books, id: RunId, schedule: PaySchedule, start: Day, end: Day)
    requires Valid(b) && id !in b.runs && start <= end
    ensures DoneIsValid(CreateRun(b, id, schedule, start, end))
  {
    if CreateRun(b, id, schedule, start, end).Done? {
      var after := CreateRun(b, id, schedule, start, end).books;
      forall key | key in b.lines ensures key.0 in b.runs { assert LineKept(b, key.0, key.1, b.lines[key]); }
      PlacedNow(b);
      LinesStay(b, after);
      ClaimsStay(b, after);
      BatchesStay(b, after);
    }
  }

  lemma DeleteRunValid(b: Books, id: RunId)
    requires Valid(b)
    ensures DoneIsValid(DeleteRun(b, id))
  {
    if DeleteRun(b, id).Done? {
      var after := DeleteRun(b, id).books;
      forall key | key in after.lines ensures LineKept(after, key.0, key.1, after.lines[key]) {
        assert LineKept(b, key.0, key.1, b.lines[key]);
      }
      forall c | c in after.claims ensures ClaimKept(after, after.claims[c]) {
        assert ClaimKept(b, b.claims[c]);
      }
      BatchesStay(b, after);
    }
  }

  /** A draft's row is only an adjustment, and any other is as it was. */
  ghost predicate AdjustmentRow(b: Books, key: (RunId, UserId), line: Line) {
    || (key in b.lines && line == b.lines[key].(adjustment := line.adjustment, note := line.note))
    || (&& key !in b.lines && key.0 in b.runs && key.1 in b.users
        && line == NO_LINE.(adjustment := line.adjustment, note := line.note))
  }

  lemma RowAdjusted(b: Books, e: Event, after: Books, key: (RunId, UserId))
    requires (e.SetsAdjustment? || e.ClearsAdjustment?) && Call(b, e) == Done(after) && key in after.lines
    ensures AdjustmentRow(b, key, after.lines[key])
    ensures after == b.(lines := after.lines)
  {
  }

  lemma AdjustedRowKept(b: Books, e: Event, after: Books, key: (RunId, UserId))
    requires Valid(b) && (e.SetsAdjustment? || e.ClearsAdjustment?) && Call(b, e) == Done(after) && key in after.lines
    ensures LineKept(after, key.0, key.1, after.lines[key])
    ensures after.runs[key.0].state == Draft ==> after.lines[key].department.None?
  {
    RowAdjusted(b, e, after, key);
    if key in b.lines { assert LineKept(b, key.0, key.1, b.lines[key]); }
  }

  lemma AdjustedRowsKept(b: Books, e: Event, after: Books)
    requires Valid(b) && (e.SetsAdjustment? || e.ClearsAdjustment?) && Call(b, e) == Done(after)
    ensures LinesKept(after)
  {
    forall key | key in after.lines
      ensures LineKept(after, key.0, key.1, after.lines[key])
      ensures after.runs[key.0].state == Draft ==> after.lines[key].department.None?
    {
      AdjustedRowKept(b, e, after, key);
    }
  }

  lemma OnlyRowsAdjusted(b: Books, e: Event, after: Books)
    requires (e.SetsAdjustment? || e.ClearsAdjustment?) && Call(b, e) == Done(after)
    ensures after == b.(lines := after.lines)
  {
  }

  /** Rows can be anything kept: nothing else looks at them. */
  lemma OtherRowsValid(b: Books, after: Books)
    requires Valid(b) && after == b.(lines := after.lines) && LinesKept(after)
    ensures Valid(after)
  {
  }

  lemma AdjustmentValid(b: Books, e: Event)
    requires Valid(b) && (e.SetsAdjustment? || e.ClearsAdjustment?)
    ensures DoneIsValid(Call(b, e))
  {
    match Call(b, e)
    case Refused(_) =>
    case Done(after) =>
      AdjustedRowsKept(b, e, after);
      OnlyRowsAdjusted(b, e, after);
      OtherRowsValid(b, after);
  }

  lemma FrozenRowKept(b: Books, id: RunId, user: UserId)
    requires Valid(b) && ApproveRun(b, id).Done?
    requires (id, user) in ApproveRun(b, id).books.lines
    ensures var after := ApproveRun(b, id).books; LineKept(after, id, user, after.lines[(id, user)])
  {
    var after := ApproveRun(b, id).books;
    var draft := DraftLines(b, id, b.runs[id]);
    assert (id, user) in FrozenRows(b, id, draft);
    assert after.lines[(id, user)] == FrozenRow(RowOf(b, id, user), draft[user]);
  }

  lemma OtherRowKept(b: Books, id: RunId, key: (RunId, UserId))
    requires Valid(b) && ApproveRun(b, id).Done? && key in ApproveRun(b, id).books.lines && key.0 != id
    ensures var after := ApproveRun(b, id).books;
            && LineKept(after, key.0, key.1, after.lines[key])
            && (after.runs[key.0].state == Draft ==> after.lines[key].department.None?)
  {
    var after := ApproveRun(b, id).books;
    assert key in b.lines && after.lines[key] == b.lines[key];
    assert LineKept(b, key.0, key.1, b.lines[key]);
  }

  lemma ApproveKeepsLines(b: Books, id: RunId)
    requires Valid(b) && ApproveRun(b, id).Done?
    ensures LinesKept(ApproveRun(b, id).books)
  {
    var after := ApproveRun(b, id).books;
    forall key | key in after.lines
      ensures LineKept(after, key.0, key.1, after.lines[key])
      ensures after.runs[key.0].state == Draft ==> after.lines[key].department.None?
    {
      if key.0 == id {
        FrozenRowKept(b, id, key.1);
      } else {
        OtherRowKept(b, id, key);
      }
    }
  }

  lemma ApprovedValid(b: Books, after: Books, id: RunId)
    requires Valid(b) && id in b.runs && b.runs[id].state == Draft
    requires after == b.(lines := after.lines, runs := b.runs[id := b.runs[id].(state := Approved)])
    requires LinesKept(after)
    ensures Valid(after)
  {
  }

  lemma ApproveRunValid(b: Books, id: RunId)
    requires Valid(b)
    ensures DoneIsValid(ApproveRun(b, id))
  {
    if ApproveRun(b, id).Done? {
      ApproveKeepsLines(b, id);
      ApprovedValid(b, ApproveRun(b, id).books, id);
    }
  }

  lemma MarkRunPaidValid(b: Books, id: RunId, now: Time)
    requires Valid(b)
    ensures DoneIsValid(MarkRunPaid(b, id, now))
  {
    if MarkRunPaid(b, id, now).Done? {
      var after := MarkRunPaid(b, id, now).books;
      forall key | key in after.lines
        ensures LineKept(after, key.0, key.1, after.lines[key])
        ensures after.runs[key.0].state == Draft ==> after.lines[key].department.None?
      {
        assert LineKept(b, key.0, key.1, b.lines[key]);
      }
      forall c | c in after.claims ensures ClaimKept(after, after.claims[c]) {
        assert ClaimKept(b, b.claims[c]);
      }
      BatchesStay(b, after);
    }
  }

  lemma OwnClaimsKept(b: Books, e: Event, after: Books)
    requires Valid(b) && Admissible(b, e) && OnClaim(e) && Call(b, e) == Done(after)
    ensures ClaimsKept(after)
  {
  }

  lemma OwnClaimsInNoBatch(b: Books, e: Event, after: Books)
    requires Valid(b) && Admissible(b, e) && OnClaim(e) && Call(b, e) == Done(after)
    ensures BatchesKept(after) && LinesKept(after)
  {
    forall c | c in b.claims && b.claims[c].batch.Some?
      ensures c in after.claims && after.claims[c].batch == b.claims[c].batch
    {
      assert ClaimKept(b, b.claims[c]);
    }
    BatchesStay(b, after);
    PlacedNow(b);
    LinesStay(b, after);
  }

  lemma ClaimValid(b: Books, e: Event)
    requires Valid(b) && Admissible(b, e) && OnClaim(e)
    ensures DoneIsValid(Call(b, e))
  {
    match Call(b, e)
    case Refused(_) =>
    case Done(after) =>
      OwnClaimsKept(b, e, after);
      OwnClaimsInNoBatch(b, e, after);
  }

  lemma CreateBatchValid(b: Books, id: BatchId, ids: set<ClaimId>)
    requires Valid(b) && id !in b.batches && ids != {}
    ensures DoneIsValid(CreateBatch(b, id, ids))
  {
    if CreateBatch(b, id, ids).Done? {
      var after := CreateBatch(b, id, ids).books;
      PlacedNow(b);
      LinesStay(b, after);
      forall c | c in after.claims ensures ClaimKept(after, after.claims[c]) {
        assert ClaimKept(b, b.claims[c]);
      }
      forall batch | batch in after.batches ensures BatchKept(after, batch) {
        if batch == id {
          var c := Any(ids);
          assert after.claims[c].batch == Some(id);
        } else {
          assert BatchKept(b, batch);
          var c :| c in b.claims && b.claims[c].batch == Some(batch);
          assert after.claims[c].batch == Some(batch);
        }
      }
    }
  }

  lemma DeleteBatchValid(b: Books, id: BatchId)
    requires Valid(b)
    ensures DoneIsValid(DeleteBatch(b, id))
  {
    if DeleteBatch(b, id).Done? {
      var after := DeleteBatch(b, id).books;
      PlacedNow(b);
      LinesStay(b, after);
      forall c | c in after.claims ensures ClaimKept(after, after.claims[c]) {
        assert ClaimKept(b, b.claims[c]);
      }
      forall batch | batch in after.batches ensures BatchKept(after, batch) {
        assert BatchKept(b, batch);
        var c :| c in b.claims && b.claims[c].batch == Some(batch);
        assert after.claims[c].batch == Some(batch);
      }
    }
  }

  /** A batch keeps its claims while only states and times change. */
  lemma BatchesStayFilled(b: Books, after: Books)
    requires BatchesKept(b) && after.batches.Keys <= b.batches.Keys
    requires forall batch | batch in after.batches ::
               after.batches[batch].paidAt.Some? <==> after.batches[batch].state == Paid
    requires forall c | c in b.claims :: c in after.claims && after.claims[c].batch == b.claims[c].batch
    ensures BatchesKept(after)
  {
    forall batch | batch in after.batches ensures BatchKept(after, batch) {
      assert BatchKept(b, batch);
      var c :| c in b.claims && b.claims[c].batch == Some(batch);
      assert after.claims[c].batch == Some(batch);
    }
  }

  lemma ApprovedBatchesKept(b: Books, id: BatchId)
    requires Valid(b) && ApproveBatch(b, id).Done?
    ensures BatchesKept(ApproveBatch(b, id).books)
  {
    assert BatchKept(b, id);
    BatchesStayFilled(b, ApproveBatch(b, id).books);
  }

  lemma PaidBatchesKept(b: Books, id: BatchId, now: Time)
    requires Valid(b) && MarkBatchPaid(b, id, now).Done?
    ensures BatchesKept(MarkBatchPaid(b, id, now).books)
  {
    BatchesStayFilled(b, MarkBatchPaid(b, id, now).books);
  }

  lemma ApprovedBatchClaims(b: Books, id: BatchId)
    requires Valid(b) && ApproveBatch(b, id).Done?
    ensures ClaimsKept(ApproveBatch(b, id).books)
  {
    var after := ApproveBatch(b, id).books;
    forall c | c in after.claims ensures ClaimKept(after, after.claims[c]) {
      assert ClaimKept(b, b.claims[c]);
    }
  }

  lemma PaidBatchClaims(b: Books, id: BatchId, now: Time)
    requires Valid(b) && MarkBatchPaid(b, id, now).Done?
    ensures ClaimsKept(MarkBatchPaid(b, id, now).books)
  {
    var after := MarkBatchPaid(b, id, now).books;
    forall c | c in after.claims ensures ClaimKept(after, after.claims[c]) {
      assert ClaimKept(b, b.claims[c]);
    }
  }

  lemma MovedBatchLines(b: Books, e: Event)
    requires Valid(b) && (e.ApprovesBatch? || e.MarksBatchPaid?) && Call(b, e).Done?
    ensures LinesKept(Call(b, e).books)
  {
    PlacedNow(b);
    LinesStay(b, Call(b, e).books);
  }

  lemma MoveBatchValid(b: Books, e: Event)
    requires Valid(b) && (e.ApprovesBatch? || e.MarksBatchPaid?)
    ensures DoneIsValid(Call(b, e))
  {
    if Call(b, e).Done? {
      MovedBatchLines(b, e);
      if e.ApprovesBatch? {
        ApprovedBatchesKept(b, e.batch);
        ApprovedBatchClaims(b, e.batch);
      } else {
        PaidBatchesKept(b, e.batch, e.now);
        PaidBatchClaims(b, e.batch, e.now);
      }
    }
  }

  lemma CarryValid(b: Books, id: RunId, ids: set<ClaimId>)
    requires Valid(b)
    ensures DoneIsValid(Carry(b, id, ids))
  {
    if Carry(b, id, ids).Done? {
      var after := Carry(b, id, ids).books;
      PlacedNow(b);
      LinesStay(b, after);
      forall c | c in after.claims ensures ClaimKept(after, after.claims[c]) {
        assert ClaimKept(b, b.claims[c]);
      }
      BatchesStay(b, after);
    }
  }

  lemma ReleaseKeepsClaim(b: Books, id: ClaimId, c: ClaimId)
    requires Valid(b) && Release(b, id).Done? && c in b.claims
    ensures var after := Release(b, id).books; c in after.claims && ClaimKept(after, after.claims[c])
  {
    var after := Release(b, id).books;
    assert ClaimKept(b, b.claims[c]);
    if c == id {
      var claim := b.claims[id];
      assert ContainerState(b, claim) == None || ContainerState(b, claim) == Some(Draft);
      if claim.batch.Some? {
        assert BatchKept(b, claim.batch.value);
        assert b.batches[claim.batch.value].state == Draft;
      } else if claim.run.Some? {
        var r := claim.run.value;
        assert r in b.runs && b.runs[r].state == Draft;
        assert b.runs[r].paidAt.Some? <==> b.runs[r].state == Paid;
      }
      assert SettledAt(b, claim) == None;
    } else {
      assert after.claims[c] == b.claims[c];
      assert b.claims[c].batch.Some? ==> b.claims[c].batch.value in after.batches;
      assert SettledAt(after, b.claims[c]) == SettledAt(b, b.claims[c]);
    }
  }

  lemma ReleaseValid(b: Books, id: ClaimId)
    requires Valid(b)
    ensures DoneIsValid(Release(b, id))
  {
    if Release(b, id).Done? {
      var after := Release(b, id).books;
      PlacedNow(b);
      LinesStay(b, after);
      forall c | c in after.claims ensures ClaimKept(after, after.claims[c]) {
        ReleaseKeepsClaim(b, id, c);
      }
      forall batch | batch in after.batches ensures BatchKept(after, batch) {
        assert BatchKept(b, batch);
        var c :| c in b.claims && b.claims[c].batch == Some(batch);
        assert c != id ==> after.claims[c].batch == Some(batch);
      }
    }
  }

  lemma StepKeepsValid(b: Books, e: Event)
    requires Valid(b) && Admissible(b, e)
    ensures Valid(Next(b, e))
  {
    match e
    case RecordsPay(id, pay) => RecordPayValid(b, id, pay);
    case DeletesDepartment(id, request) => DeleteDepartmentValid(b, id, request);
    case PutsPerson(_, _) | SwitchesOn(_) | AddsDepartment(_)
       | CreatesBudget(_, _) | UpdatesBudget(_, _, _, _) | DeletesBudget(_) => PeopleValid(b, e);
    case CreatesRun(id, schedule, start, end) => CreateRunValid(b, id, schedule, start, end);
    case DeletesRun(id) => DeleteRunValid(b, id);
    case SetsAdjustment(_, _, _, _) | ClearsAdjustment(_, _) => AdjustmentValid(b, e);
    case ApprovesRun(id) => ApproveRunValid(b, id);
    case MarksRunPaid(id, now) => MarkRunPaidValid(b, id, now);
    case CreatesClaim(_, _, _, _, _, _) | UpdatesClaim(_, _, _, _, _, _)
       | WithdrawsClaim(_, _) | Decides(_, _, _) => ClaimValid(b, e);
    case CreatesBatch(id, ids) => CreateBatchValid(b, id, ids);
    case DeletesBatch(id) => DeleteBatchValid(b, id);
    case ApprovesBatch(_) | MarksBatchPaid(_, _) => MoveBatchValid(b, e);
    case Carries(id, ids) => CarryValid(b, id, ids);
    case Releases(id) => ReleaseValid(b, id);
  }

  /** Every state any run of requests reaches from empty tables is valid. */
  lemma {:induction false} ReachableIsValid(b: Books, events: seq<Event>)
    requires Valid(b) && AllAdmissible(b, events)
    ensures Valid(After(b, events))
    decreases |events|
  {
    if events != [] {
      StepKeepsValid(b, events[0]);
      ReachableIsValid(Next(b, events[0]), events[1..]);
    }
  }

  lemma EmptyIsValid()
    ensures Valid(EMPTY)
  {
  }
}
