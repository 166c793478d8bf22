/**
 * The services as they run: methods that update the tables row by row, each
 * proved to do what its atomic step in `Books` says, refusals included.
 */
module Database {
  import opened Prelude
  import opened Money
  import opened Tables
  import opened PayrollTypes
  import opened Compensation
  import opened Books
  import opened Invariants
  import B = Books

  /** The call did what the step says: the tables are as the step leaves them,
    * or it was refused for one of the step's reasons and changed nothing. */
  ghost predicate Follows(answer: Answer, before: Books, after: Books, outcome: Outcome<Error>) {
    match answer
    case Done(books) => outcome == Ok && after == books
    case Refused(reasons) => outcome.Err? && outcome.error in reasons && after == before
  }

  /** The draft lines of everybody not in `todo` are on their rows; every other
    * row is as it was. */
  ghost predicate Filled(before: Books, id: RunId, draft: map<UserId, Line>, todo: set<UserId>,
                         lines: map<(RunId, UserId), Line>)
  {
    && (forall user: UserId :: (id, user) in lines <==> (id, user) in before.lines || (user in draft && user !in todo))
    && (forall user: UserId | user in draft && user !in todo ::
          (id, user) in lines && lines[(id, user)] == FrozenRow(RowOf(before, id, user), draft[user]))
    && (forall user: UserId | user in todo :: (id, user) in lines ==> lines[(id, user)] == RowOf(before, id, user))
    && WithoutRun(lines, id) == WithoutRun(before.lines, id)
  }

  lemma RowsDeleted(lines: map<(RunId, UserId), Line>, id: RunId, rows: set<(RunId, UserId)>)
    requires rows == set key | key in lines && key.0 == id
    ensures lines - rows == WithoutRun(lines, id)
  {
  }

  lemma FillOne(before: Books, id: RunId, draft: map<UserId, Line>, todo: set<UserId>,
                lines: map<(RunId, UserId), Line>, user: UserId)
    requires Filled(before, id, draft, todo, lines) && user in todo && todo <= draft.Keys
    ensures Filled(before, id, draft, todo - {user},
                   lines[(id, user) :=
                     FrozenRow(if (id, user) in lines then lines[(id, user)] else NO_LINE, draft[user])])
  {
  }

  lemma FillNone(before: Books, id: RunId, draft: map<UserId, Line>)
    ensures Filled(before, id, draft, draft.Keys, before.lines)
  {
  }

  /** With the leftover rows deleted, these are the rows approval leaves. */
  lemma FilledIsApproved(before: Books, id: RunId, draft: map<UserId, Line>, lines: map<(RunId, UserId), Line>,
                         orphans: set<(RunId, UserId)>)
    requires Filled(before, id, draft, {}, lines)
    requires orphans == set key | key in lines && key.0 == id && key.1 !in draft
    ensures lines - orphans == WithoutRun(before.lines, id) + FrozenRows(before, id, draft)
  {
    var left, expected := lines - orphans, WithoutRun(before.lines, id) + FrozenRows(before, id, draft);
    forall key: (RunId, UserId)
      ensures key in left <==> key in expected
      ensures key in left ==> left[key] == expected[key]
    {
      var user: UserId := key.1;
      if key.0 == id {
        assert key == (id, user);
        assert key in FrozenRows(before, id, draft) <==> user in draft;
      } else {
        assert key in WithoutRun(lines, id) <==> key in lines;
      }
    }
  }

  class Services {
    var users: map<UserId, Person>
    var departments: set<DepartmentId>
    var history: History
    var payrollTypes: set<EmploymentType>
    var runs: map<RunId, Run>
    var lines: map<(RunId, UserId), Line>
    var claims: map<ClaimId, Claim>
    var batches: map<BatchId, Batch>
    var budgets: map<BudgetId, Budget>

    /** Everything the database holds. */
    function Now(): Books
      reads this
    {
      Books(users, departments, history, payrollTypes, runs, lines, claims, batches, budgets)
    }

    constructor ()
      ensures Now() == EMPTY
    {
      users, departments, history, payrollTypes := map[], {}, map[], {};
      runs, lines, claims, batches, budgets := map[], map[], map[], map[], map[];
    }

    // --- Payroll -------------------------------------------------------------------------

    /** `_draft_lines`: everybody on payroll, those on the other schedule skipped. */
    method DraftLinesOf(id: RunId, run: Run) returns (draft: map<UserId, Line>)
      ensures draft == DraftLines(Now(), id, run)
    {
      var pay := PayOn(history, users.Keys, run.end);
      draft := map[];
      var todo := users.Keys;
      while todo != {}
        invariant todo <= users.Keys
        invariant forall user :: user in draft <==> user in users && user !in todo && OnRun(Now(), run, user)
        invariant forall user | user in draft :: draft[user] == DraftLine(Now(), id, run, user)
        decreases todo
      {
        var user := Pick(todo);
        todo := todo - {user};
        PayOnIsPayAt(history, users.Keys, run.end, user);
        if IsOnPayroll(Now(), user, run.end) {
          var department := users[user].department;
          if user in pay {
            var record := history[pay[user]];
            if record.schedule == run.schedule {
              var adjustment, note := 0, None;
              if (id, user) in lines {
                adjustment, note := lines[(id, user)].adjustment, lines[(id, user)].note;
              }
              draft := draft[user := Line(Some(pay[user]), Some(record.amount), Some(record.currency),
                                          department, adjustment, note)];
            }
          } else {
            draft := draft[user := Line(None, None, None, department, 0, None)];
          }
        }
      }
      forall user: UserId ensures user in draft <==> user in DraftLines(Now(), id, run) {}
    }

    /** Its rows go one by one, its claims in one update, and then the run. */
    method DeleteRun(id: RunId) returns (outcome: Outcome<Error>)
      modifies this`runs, this`lines, this`claims
      ensures Follows(B.DeleteRun(old(Now()), id), old(Now()), Now(), outcome)
    {
      if id !in runs { return Err(RunNotFound); }
      if runs[id].state != Draft { return Err(RunNotDraft); }
      var rows := set key | key in lines && key.0 == id;
      var todo := rows;
      while todo != {}
        invariant todo <= rows
        invariant lines == old(lines) - (rows - todo)
        decreases todo
        modifies this`lines
      {
        var key := Pick(todo);
        lines := lines - {key};
        todo := todo - {key};
        assert lines == old(lines) - (rows - todo);
      }
      assert rows - todo == rows;
      RowsDeleted(old(lines), id, rows);
      claims := map c | c in claims ::
        if claims[c].run == Some(id) then claims[c].(run := None) else claims[c];
      runs := runs - {id};
      return Ok;
    }

    method SetAdjustment(id: RunId, user: UserId, amount: int, note: string) returns (outcome: Outcome<Error>)
      modifies this`lines
      ensures Follows(B.SetAdjustment(old(Now()), id, user, amount, note), old(Now()), Now(), outcome)
    {
      if id !in runs { return Err(RunNotFound); }
      if runs[id].state != Draft { return Err(RunNotDraft); }
      var draft := DraftLinesOf(id, runs[id]);
      if user !in draft { return Err(LineNotFound); }
      if draft[user].amount == None { return Err(LineMissingPay); }
      if draft[user].amount.value + amount < 0 { return Err(AdjustmentTooLarge); }
      var row := if (id, user) in lines then lines[(id, user)] else NO_LINE;
      lines := lines[(id, user) := row.(adjustment := amount, note := Some(note))];
      return Ok;
    }

    /** Every line written over its row or a fresh one; then the rows left over,
      * whose people have no line any more, are deleted. */
    method Freeze(id: RunId, draft: map<UserId, Line>)
      modifies this`lines
      ensures lines == WithoutRun(old(lines), id) + FrozenRows(old(Now()), id, draft)
    {
      ghost var before := Now();
      var todo := draft.Keys;
      FillNone(before, id, draft);
      while todo != {}
        invariant Filled(before, id, draft, todo, lines)
        invariant todo <= draft.Keys
        decreases todo
        modifies this`lines
      {
        var user := Pick(todo);
        FillOne(before, id, draft, todo, lines, user);
        var row := if (id, user) in lines then lines[(id, user)] else NO_LINE;
        lines := lines[(id, user) := FrozenRow(row, draft[user])];
        todo := todo - {user};
      }
      var orphans := set key | key in lines && key.0 == id && key.1 !in draft;
      FilledIsApproved(before, id, draft, lines, orphans);
      lines := lines - orphans;
    }

    /** The draft is read live once and written down. */
    method ApproveRun(id: RunId) returns (outcome: Outcome<Error>)
      modifies this`runs, this`lines
      ensures Follows(B.ApproveRun(old(Now()), id), old(Now()), Now(), outcome)
    {
      if id !in runs { return Err(RunNotFound); }
      if runs[id].state != Draft { return Err(RunNotDraft); }
      var draft := DraftLinesOf(id, runs[id]);
      Freeze(id, draft);
      runs := runs[id := runs[id].(state := Approved)];
      return Ok;
    }

    // --- Expense claims ------------------------------------------------------------------

    method UpdateClaim(id: ClaimId, user: UserId, amount: Option<int>, currency: Option<Currency>, on: Option<Day>,
                       latest: Day)
        returns (outcome: Outcome<Error>)
      modifies this`claims
      ensures Follows(B.UpdateClaim(old(Now()), id, user, amount, currency, on, latest), old(Now()), Now(), outcome)
    {
      if id !in claims || claims[id].submitter != user { return Err(ClaimNotFound); }
      if claims[id].state != Submitted { return Err(ClaimDecided); }
      var claim := claims[id];
      if on.Some? {
        if on.value > latest { return Err(ClaimInFuture); }
        claim := claim.(incurredOn := on.value);
      }
      if amount.Some? { claim := claim.(amount := amount.value); }
      if currency.Some? { claim := claim.(currency := currency.value); }
      claims := claims[id := claim];
      return Ok;
    }

    // --- Reimbursements ------------------------------------------------------------------

    /** `_settleable`: every claim looked at until one cannot be settled. */
    method Settleable(ids: set<ClaimId>) returns (refusal: Option<Error>)
      ensures match refusal
              case None => SettleRefusal(Now(), ids) == {}
              case Some(error) => error in SettleRefusal(Now(), ids)
      ensures refusal.None? ==> ids <= claims.Keys
    {
      if exists c | c in ids :: c !in claims { return Some(ClaimNotFound); }
      var todo := ids;
      while todo != {}
        invariant todo <= ids
        invariant forall c | c in ids && c !in todo :: claims[c].state == Accepted && Free(claims[c])
        decreases todo
      {
        var c := Pick(todo);
        if claims[c].state != Accepted { return Some(ClaimNotApproved); }
        if claims[c].batch.Some? || claims[c].run.Some? { return Some(ClaimAlreadySettled); }
        todo := todo - {c};
      }
      return None;
    }

    method CreateBatch(id: BatchId, ids: set<ClaimId>) returns (outcome: Outcome<Error>)
      requires id !in batches && ids != {}
      modifies this`claims, this`batches
      ensures Follows(B.CreateBatch(old(Now()), id, ids), old(Now()), Now(), outcome)
    {
      var refusal := Settleable(ids);
      if refusal.Some? { return Err(refusal.value); }
      batches := batches[id := Batch(Draft, None)];
      var todo := ids;
      while todo != {}
        invariant todo <= ids && claims.Keys == old(claims).Keys
        invariant claims == IntoBatch(old(claims), ids - todo, id)
        decreases todo
        modifies this`claims
      {
        var c := Pick(todo);
        claims := claims[c := claims[c].(batch := Some(id))];
        todo := todo - {c};
      }
      assert ids - todo == ids;
      return Ok;
    }

    /** Whether somebody whose claim this is has no pay on the draft. */
    method SomebodyIsOff(id: RunId, ids: set<ClaimId>) returns (off: bool)
      requires id in runs
      ensures off <==> exists c | c in ids && c in claims :: claims[c].submitter !in PaidOnRun(Now(), id)
    {
      var draft := DraftLinesOf(id, runs[id]);
      var paid := set user | user in draft && draft[user].amount.Some?;
      forall user: UserId ensures user in paid <==> user in PaidOnRun(Now(), id) {}
      assert paid == PaidOnRun(Now(), id);
      off := exists c | c in ids && c in claims :: claims[c].submitter !in paid;
    }

    method PutOnRun(ids: set<ClaimId>, id: RunId)
      requires ids <= claims.Keys
      modifies this`claims
      ensures claims == OntoRun(old(claims), ids, id)
    {
      var todo := ids;
      while todo != {}
        invariant todo <= ids && claims.Keys == old(claims).Keys
        invariant claims == OntoRun(old(claims), ids - todo, id)
        decreases todo
      {
        var c := Pick(todo);
        claims := claims[c := claims[c].(run := Some(id))];
        todo := todo - {c};
      }
      assert ids - todo == ids;
    }

    /** `carry`: only onto a draft run that pays every submitter. */
    method Carry(id: RunId, ids: set<ClaimId>) returns (outcome: Outcome<Error>)
      modifies this`claims
      ensures Follows(B.Carry(old(Now()), id, ids), old(Now()), Now(), outcome)
    {
      if id !in runs { return Err(RunNotFound); }
      if runs[id].state != Draft { return Err(RunNotDraft); }
      var refusal := Settleable(ids);
      if refusal.Some? { return Err(refusal.value); }
      var off := SomebodyIsOff(id, ids);
      if off { return Err(NotOnRun); }
      PutOnRun(ids, id);
      return Ok;
    }

    /** `release`: back to awaiting; an emptied draft batch goes with the claim. */
    method Release(id: ClaimId) returns (outcome: Outcome<Error>)
      modifies this`claims, this`batches
      ensures Follows(B.Release(old(Now()), id), old(Now()), Now(), outcome)
    {
      if id !in claims { return Err(ClaimNotFound); }
      var claim := claims[id];
      if claim.batch.Some? && claim.batch.value in batches {
        if batches[claim.batch.value].state != Draft { return Err(SettlementLocked); }
      } else if claim.run.Some? && claim.run.value in runs {
        if runs[claim.run.value].state != Draft { return Err(SettlementLocked); }
      }
      claims := claims[id := claim.(batch := None, run := None)];
      if claim.batch.Some? {
        var left := exists c | c in claims :: claims[c].batch == claim.batch;
        if !left {
          batches := batches - {claim.batch.value};
        }
      }
      return Ok;
    }

    // --- Departments ---------------------------------------------------------------------

    /** Its people moved one by one, and then the department deleted. */
    method DeleteDepartment(id: DepartmentId, request: Option<Option<DepartmentId>>) returns (outcome: Outcome<Error>)
      modifies this`users, this`departments
      ensures Follows(B.DeleteDepartment(old(Now()), id, request), old(Now()), Now(), outcome)
    {
      if id !in departments { return Err(DepartmentNotFound); }
      if HasFinanceHistory(Now(), id) { return Err(DepartmentHasHistory); }
      var members := set user | user in users && users[user].department == Some(id);
      assert members == Members(Now(), id);
      if members != {} {
        if request.None? { return Err(DepartmentNotEmpty); }
        var moveTo := request.value;
        if moveTo == Some(id) { return Err(DepartmentMoveToSame); }
        if moveTo.Some? && moveTo.value !in departments { return Err(DepartmentNotFound); }
        var todo := members;
        while todo != {}
          invariant todo <= members && users.Keys == old(users).Keys
          invariant users == Moved(old(users), members - todo, moveTo)
          decreases todo
          modifies this`users
        {
          var user := Pick(todo);
          users := users[user := users[user].(department := moveTo)];
          todo := todo - {user};
        }
        assert members - todo == members;
      }
      departments := departments - {id};
      return Ok;
    }

    // --- Compensation --------------------------------------------------------------------

    /** `record`: the only write there is; nothing is edited or deleted. */
    method RecordPay(id: PayId, pay: Pay) returns (outcome: Outcome<Error>)
      requires Newest(history, id)
      modifies this`history
      ensures Follows(B.RecordPay(old(Now()), id, pay), old(Now()), Now(), outcome)
    {
      if pay.user !in users { return Err(UserNotFound); }
      if pay.corrects.Some? {
        var target := pay.corrects.value;
        if target !in history || history[target].user != pay.user { return Err(PayNotFound); }
        if exists other | other in history :: history[other].corrects == Some(target) {
          return Err(PayAlreadyCorrected);
        }
      }
      history := history[id := pay];
      return Ok;
    }

    // --- Budgets -------------------------------------------------------------------------

    method UpdateBudget(id: BudgetId, amount: Option<int>, start: Option<Day>, end: Option<Day>)
        returns (outcome: Outcome<Error>)
      modifies this`budgets
      ensures Follows(B.UpdateBudget(old(Now()), id, amount, start, end), old(Now()), Now(), outcome)
    {
      if id !in budgets { return Err(BudgetNotFound); }
      var budget := budgets[id];
      if amount.Some? { budget := budget.(amount := amount.value); }
      if start.Some? { budget := budget.(start := start.value); }
      if end.Some? { budget := budget.(end := end.value); }
      if budget.end < budget.start { return Err(BudgetPeriodInvalid); }
      if exists g | g in budgets :: g != id && SameBudget(budgets[g], budget) { return Err(BudgetExists); }
      budgets := budgets[id := budget];
      return Ok;
    }
  }

  /** A method that follows a request's step leaves the tables as the run of
    * requests says, and so whatever holds of every reachable state holds of them. */
  lemma FollowedIsReached(before: Books, e: Event, after: Books, outcome: Outcome<Error>)
    requires Valid(before) && Admissible(before, e) && Follows(Call(before, e), before, after, outcome)
    ensures after == Next(before, e) && Valid(after)
  {
    StepKeepsValid(before, e);
  }
}
