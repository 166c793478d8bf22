/**
 * The rows that count as actuals (lib_finance/budgets.py, `_approved_lines`
 * and `_reimbursed`): over any run of requests they only ever grow.
 */
module History {
  import opened Prelude
  import opened Money
  import opened Tables
  import opened Books
  import opened Approval
  import opened Invariants
  import opened Settlement

  /** What a counted row says, for a budget or a report. */
  datatype Fact = Fact(day: Day, department: Option<DepartmentId>, currency: Currency, amount: int)

  type LineKey = (RunId, UserId)

  /** A line of an approved or paid run, with an amount. */
  predicate CountedLine(b: Books, key: LineKey) {
    && key in b.lines && key.0 in b.runs && b.runs[key.0].state != Draft
    && b.lines[key].amount.Some? && b.lines[key].currency.Some?
  }

  /** It counts on the run's last day, at its total. */
  function LineFact(b: Books, key: LineKey): Fact
    requires CountedLine(b, key)
  {
    LineSays(b.runs[key.0], b.lines[key])
  }

  function LineSays(run: Run, line: Line): Fact
    requires line.amount.Some? && line.currency.Some?
  {
    Fact(run.end, line.department, line.currency.value, line.Total().value)
  }

  /** A claim paid back counts on the day it was spent. */
  function ClaimFact(claim: Claim): Fact {
    Fact(claim.incurredOn, claim.department, claim.currency, claim.amount)
  }

  /** The query asks only for an amount; a valid row with one has a currency. */
  lemma AmountHasCurrency(b: Books, key: LineKey)
    requires Valid(b) && key in b.lines
    ensures key.0 in b.runs && (b.lines[key].amount.Some? <==> b.lines[key].currency.Some?)
    ensures b.lines[key].amount.Some? ==> b.runs[key.0].state != Draft
  {
  }

  // --- What one request adds -----------------------------------------------------------------

  /** The person is paid by the run's draft as it is shown now. */
  ghost predicate PaidInDraft(b: Books, id: RunId, user: UserId) {
    && id in b.runs && user in DraftLines(b, id, b.runs[id])
    && !DraftLines(b, id, b.runs[id])[user].Missing()
    && DraftLines(b, id, b.runs[id])[user].currency.Some?
  }

  /** A request adds a line only by approving its run's draft, in which it is paid. */
  ghost predicate AddsLine(b: Books, e: Event, key: LineKey) {
    e.ApprovesRun? && e.run == key.0 && PaidInDraft(b, key.0, key.1) && b.runs[key.0].state == Draft
  }

  /** It then says what the draft said that instant. */
  ghost function AddedLine(b: Books, e: Event, key: LineKey): Fact
    requires AddsLine(b, e, key)
  {
    LineSays(b.runs[key.0], DraftLines(b, key.0, b.runs[key.0])[key.1])
  }

  /** One line across one request. */
  ghost predicate LineMoves(b: Books, after: Books, e: Event, key: LineKey) {
    && (CountedLine(after, key) <==> CountedLine(b, key) || AddsLine(b, e, key))
    && (CountedLine(b, key) ==> !AddsLine(b, e, key) && LineFact(after, key) == LineFact(b, key))
    && (AddsLine(b, e, key) ==> LineFact(after, key) == AddedLine(b, e, key))
  }

  lemma ApproveMoves(b: Books, after: Books, id: RunId, key: LineKey)
    requires ApproveRun(b, id) == Done(after)
    ensures LineMoves(b, after, ApprovesRun(id), key)
  {
  }

  lemma CreateRunMoves(b: Books, e: Event, key: LineKey)
    requires Valid(b) && Admissible(b, e) && e.CreatesRun?
    ensures LineMoves(b, Next(b, e), e, key)
  {
  }

  lemma DeleteRunMoves(b: Books, e: Event, key: LineKey)
    requires Valid(b) && e.DeletesRun?
    ensures LineMoves(b, Next(b, e), e, key)
  {
  }

  lemma MarkRunPaidMoves(b: Books, e: Event, key: LineKey)
    requires Valid(b) && e.MarksRunPaid?
    ensures LineMoves(b, Next(b, e), e, key)
  {
  }

  lemma SetAdjustmentMoves(b: Books, id: RunId, user: UserId, amount: int, note: string, key: LineKey)
    ensures LineMoves(b, Next(b, SetsAdjustment(id, user, amount, note)), SetsAdjustment(id, user, amount, note), key)
  {
  }

  lemma ClearAdjustmentMoves(b: Books, id: RunId, user: UserId, key: LineKey)
    ensures LineMoves(b, Next(b, ClearsAdjustment(id, user)), ClearsAdjustment(id, user), key)
  {
  }

  lemma OtherMoves(b: Books, e: Event, key: LineKey)
    requires OnDirectory(e) || OnClaim(e) || OnSettlement(e)
    ensures LineMoves(b, Next(b, e), e, key)
  {
    if Call(b, e).Done? {
      if OnDirectory(e) {
        DirectoryFrame(b, e);
      } else if OnClaim(e) {
        ClaimFrame(b, e);
      } else {
        SettlementFrame(b, e);
      }
    }
  }

  /**
   * One request: the counted lines are those there were, each saying what it
   * said, plus exactly the paid lines of a draft it approves.
   */
  lemma LinesOnlyGrow(b: Books, e: Event, key: LineKey)
    requires Valid(b) && Admissible(b, e)
    ensures LineMoves(b, Next(b, e), e, key)
  {
    if e.ApprovesRun? {
      if Call(b, e).Done? { ApproveMoves(b, Call(b, e).books, e.run, key); }
    } else if e.CreatesRun? {
      CreateRunMoves(b, e, key);
    } else if e.DeletesRun? {
      DeleteRunMoves(b, e, key);
    } else if e.MarksRunPaid? {
      MarkRunPaidMoves(b, e, key);
    } else if e.SetsAdjustment? {
      SetAdjustmentMoves(b, e.run, e.user, e.amount, e.note, key);
    } else if e.ClearsAdjustment? {
      ClearAdjustmentMoves(b, e.run, e.user, key);
    } else {
      OtherMoves(b, e, key);
    }
  }

  /**
   * One request: the counted claims are those there were, each saying what it
   * said, plus exactly the ones it pays, which say what they said before.
   */
  lemma ClaimsOnlyGrow(b: Books, e: Event, c: ClaimId)
    requires Valid(b) && Admissible(b, e)
    ensures PaidBack(Next(b, e), c) <==> PaidBack(b, c) || Pays(b, e, c)
    ensures PaidBack(b, c) ==> !Pays(b, e, c)
    ensures PaidBack(Next(b, e), c) ==> c in b.claims && ClaimFact(Next(b, e).claims[c]) == ClaimFact(b.claims[c])
  {
    PaidBackStays(b, e, c);
    if Pays(b, e, c) {
      assert ClaimKept(b, b.claims[c]);
      DecidedIsFrozen(b, e, c);
    }
  }

  // --- Over any run of requests ----------------------------------------------------------------

  /** No counted row is ever lost or changed, whatever requests follow. */
  lemma {:induction false} HistoryIsFrozen(b: Books, events: seq<Event>, key: LineKey, c: ClaimId)
    requires Valid(b) && AllAdmissible(b, events)
    ensures CountedLine(b, key) ==>
              CountedLine(After(b, events), key) && LineFact(After(b, events), key) == LineFact(b, key)
    ensures PaidBack(b, c) ==>
              PaidBack(After(b, events), c) && After(b, events).claims[c] == b.claims[c]
    decreases |events|
  {
    if events != [] {
      LinesOnlyGrow(b, events[0], key);
      PaidBackStays(b, events[0], c);
      StepKeepsValid(b, events[0]);
      HistoryIsFrozen(Next(b, events[0]), events[1..], key, c);
    }
  }

  /** Pay records, corrections, moves, deletions and draft edits add nothing. */
  ghost predicate AddsNothing(e: Event) {
    !e.ApprovesRun? && !e.MarksRunPaid? && !e.MarksBatchPaid?
  }

  /** While nothing is approved or marked paid, no row starts to count. */
  lemma {:induction false} NothingElseCounts(b: Books, events: seq<Event>, key: LineKey, c: ClaimId)
    requires Valid(b) && AllAdmissible(b, events)
    requires forall e | e in events :: AddsNothing(e)
    ensures CountedLine(After(b, events), key) <==> CountedLine(b, key)
    ensures PaidBack(After(b, events), c) <==> PaidBack(b, c)
    decreases |events|
  {
    if events != [] {
      assert AddsNothing(events[0]);
      LinesOnlyGrow(b, events[0], key);
      PaidBackStays(b, events[0], c);
      StepKeepsValid(b, events[0]);
      NothingElseCounts(Next(b, events[0]), events[1..], key, c);
    }
  }
}
