/** Approving a run writes down what its draft showed (lib_finance/payroll.py, `approve`). */
module Approval {
  import opened Prelude
  import opened Money
  import opened Tables
  import opened PayrollTypes
  import opened Books
  import C = Compensation

  /** A draft line's shape: missing means no record, amount or currency, and no adjustment. */
  lemma DraftLineShape(b: Books, id: RunId, run: Run, user: UserId)
    requires user in b.users
    ensures var line := DraftLine(b, id, run, user);
            && (line.Missing() <==> line.currency.None?)
            && (line.Missing() <==> line.pay.None?)
            && line.adjustment == (if line.Missing() then 0 else RowOf(b, id, user).adjustment)
  {
  }

  /** `after` holds a row for the person exactly when the draft has a line, and it
    * says what the line said; the row's own adjustment stays on it. */
  ghost predicate FrozenAs(b: Books, after: Books, id: RunId, user: UserId)
    requires id in b.runs
  {
    var draft := DraftLines(b, id, b.runs[id]);
    && ((id, user) in after.lines <==> user in draft)
    && (user in draft ==>
          && after.lines[(id, user)] == FrozenRow(RowOf(b, id, user), draft[user])
          && after.lines[(id, user)].Total() == draft[user].Total())
  }

  lemma ApprovalChangesState(b: Books, after: Books, id: RunId)
    requires ApproveRun(b, id) == Done(after)
    ensures after.runs == b.runs[id := b.runs[id].(state := Approved)]
  {
  }

  lemma FrozenLine(b: Books, after: Books, id: RunId, user: UserId)
    requires ApproveRun(b, id) == Done(after)
    ensures FrozenAs(b, after, id, user)
  {
    var draft := DraftLines(b, id, b.runs[id]);
    assert (id, user) in FrozenRows(b, id, draft) <==> user in draft;
    if user in draft {
      DraftLineShape(b, id, b.runs[id], user);
    }
  }

  /** The two lines agree on everything that is paid: person, record, amount,
    * currency, department and total. */
  ghost predicate PaysTheSame(x: Line, y: Line) {
    && x.pay == y.pay && x.amount == y.amount && x.currency == y.currency
    && x.department == y.department && x.Total() == y.Total()
  }

  /**
   * Approval refines the draft: the frozen lines are of the same people and
   * pay the same, so no line is lost and no adjustment without a line stays.
   */
  lemma ApprovalRefinesDraft(b: Books, after: Books, id: RunId, user: UserId)
    requires ApproveRun(b, id) == Done(after)
    ensures user in RunLines(after, id) <==> user in RunLines(b, id)
    ensures user in RunLines(b, id) ==> PaysTheSame(RunLines(after, id)[user], RunLines(b, id)[user])
  {
    FrozenLine(b, after, id, user);
  }

  /** No other run's rows are touched. */
  lemma ApprovalTouchesOneRun(b: Books, after: Books, id: RunId, key: (RunId, UserId))
    requires ApproveRun(b, id) == Done(after) && key.0 != id
    ensures key in after.lines <==> key in b.lines
    ensures key in b.lines ==> after.lines[key] == b.lines[key]
  {
  }

  /** The person has pay on the run's last day. */
  predicate PayAtEnd(b: Books, id: RunId, user: UserId)
    requires id in b.runs
  {
    C.PayAt(b.history, user, b.runs[id].end).Some?
  }

  /**
   * The adjustment column itself is kept exactly when the line is paid or its
   * row held none: a person whose pay went away keeps a stale adjustment that
   * the draft no longer showed.
   */
  lemma AdjustmentKeptExactlyWhen(b: Books, after: Books, id: RunId, user: UserId)
    requires ApproveRun(b, id) == Done(after) && user in DraftLines(b, id, b.runs[id])
    ensures (id, user) in after.lines
    ensures after.lines[(id, user)].adjustment == DraftLines(b, id, b.runs[id])[user].adjustment
            <==> PayAtEnd(b, id, user) || RowOf(b, id, user).adjustment == 0
  {
    FrozenLine(b, after, id, user);
    DraftLineShape(b, id, b.runs[id], user);
  }

  // --- Claims it carries -------------------------------------------------------------------

  /** An active insider with pay on the last day, on this schedule. */
  predicate IsPayee(b: Books, run: Run, user: UserId) {
    && user in b.users && b.users[user].isActive && !Outside(b.users[user])
    && match C.PayAt(b.history, user, run.end)
       case None => false
       case Some(pay) => b.history[pay].schedule == run.schedule
  }

  lemma PaidOnRunMeans(b: Books, id: RunId, user: UserId)
    requires id in b.runs
    ensures user in PaidOnRun(b, id) <==> IsPayee(b, b.runs[id], user)
  {
    var run := b.runs[id];
    if user in b.users {
      OnPayrollMeaning(b.users[user], b.payrollTypes, C.PayAt(b.history, user, run.end).Some?);
      DraftLineShape(b, id, run, user);
    }
  }

  /** The page of the approved run pays the person. */
  predicate PaidOnPage(b: Books, id: RunId, user: UserId)
    requires id in b.runs
  {
    user in RunLines(b, id) && !RunLines(b, id)[user].Missing()
  }

  /**
   * Approval does not look again at the claims a draft carries: the run goes on
   * carrying the claim of somebody it does not pay exactly if, at that moment,
   * they are not an active insider with pay for its last day on its schedule.
   */
  lemma CarriesUnpaidExactlyWhen(b: Books, after: Books, id: RunId, c: ClaimId)
    requires ApproveRun(b, id) == Done(after) && c in b.claims && b.claims[c].run == Some(id)
    ensures c in after.claims && after.claims[c] == b.claims[c] && id in after.runs
    ensures !PaidOnPage(after, id, after.claims[c].submitter) <==> !IsPayee(b, b.runs[id], b.claims[c].submitter)
  {
    var user := b.claims[c].submitter;
    ApprovalRefinesDraft(b, after, id, user);
    PaidOnRunMeans(b, id, user);
  }
}
