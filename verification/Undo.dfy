/**
 * What one request undoes of another, and what each leaves to be seen: a draft
 * thrown away leaves the tables as they were before it, and an adjustment or a
 * decision changes its own line or claim and no other.
 */
module Undo {
  import opened Prelude
  import opened Tables
  import opened Books
  import opened Invariants
  import opened Settlement

  // --- A draft thrown away never was ---------------------------------------------------------

  lemma RowAddedAndRemoved<K, V>(m: map<K, V>, k: K, v: V)
    requires k !in m
    ensures m[k := v] - {k} == m
  {
  }

  /** Deleting a run just created leaves the tables as they were. */
  lemma DeleteUndoesCreateRun(b: Books, id: RunId, schedule: PaySchedule, start: Day, end: Day, created: Books)
    requires Valid(b) && id !in b.runs && CreateRun(b, id, schedule, start, end) == Done(created)
    ensures DeleteRun(created, id) == Done(b)
  {
    var after := DeleteRun(created, id).books;
    RowAddedAndRemoved(b.runs, id, Run(schedule, start, end, Draft, None));
    NothingOnRun(b, id);
    assert WithoutRun(b.lines, id) == b.lines;
    forall c: ClaimId
      ensures c in OffRun(b.claims, id) <==> c in b.claims
      ensures c in b.claims ==> OffRun(b.claims, id)[c] == b.claims[c]
    {
    }
    assert OffRun(b.claims, id) == b.claims;
    assert after == b;
  }

  /** A run that is not there has no rows and no claims. */
  lemma NothingOnRun(b: Books, id: RunId)
    requires Valid(b) && id !in b.runs
    ensures forall key | key in b.lines :: key.0 != id
    ensures forall c | c in b.claims :: b.claims[c].run != Some(id)
  {
  }

  /** Deleting a batch just created gives its claims back as they were. */
  lemma DeleteUndoesCreateBatch(b: Books, batch: BatchId, ids: set<ClaimId>, created: Books)
    requires Valid(b) && batch !in b.batches && CreateBatch(b, batch, ids) == Done(created)
    ensures DeleteBatch(created, batch) == Done(b)
  {
    RowAddedAndRemoved(b.batches, batch, Batch(Draft, None));
    forall c | c in b.claims ensures b.claims[c].batch != Some(batch) { assert ClaimKept(b, b.claims[c]); }
    forall c: ClaimId
      ensures c in OutOfBatch(created.claims, batch) <==> c in b.claims
      ensures c in b.claims ==> OutOfBatch(created.claims, batch)[c] == b.claims[c]
    {
    }
    assert OutOfBatch(created.claims, batch) == b.claims;
    assert DeleteBatch(created, batch).books == b;
  }

  /** Releasing the only claim of a batch deletes the batch with it. */
  lemma ReleaseUndoesBatchOfOne(b: Books, batch: BatchId, c: ClaimId, created: Books)
    requires Valid(b) && batch !in b.batches && CreateBatch(b, batch, {c}) == Done(created)
    ensures Release(created, c) == Done(b)
  {
    RowAddedAndRemoved(b.batches, batch, Batch(Draft, None));
    assert c in {c};
    assert c in b.claims && Free(b.claims[c]);
    forall k | k in b.claims ensures b.claims[k].batch != Some(batch) { assert ClaimKept(b, b.claims[k]); }
    assert ContainerState(created, created.claims[c]) == Some(Draft);
    var claims := created.claims[c := created.claims[c].(batch := None, run := None)];
    assert claims == b.claims;
    assert Release(created, c).books == b;
  }

  lemma OffAgain(claims: map<ClaimId, Claim>, c: ClaimId, run: RunId)
    requires c in claims && Free(claims[c])
    ensures var carried := OntoRun(claims, {c}, run);
            c in carried && carried[c := carried[c].(batch := None, run := None)] == claims
  {
  }

  /** Releasing a claim from a draft run undoes carrying it. */
  lemma ReleaseUndoesCarry(b: Books, run: RunId, c: ClaimId, carried: Books)
    requires Valid(b) && Carry(b, run, {c}) == Done(carried)
    ensures Release(carried, c) == Done(b)
  {
    assert c in {c};
    RunCarries(b, run, {c}, carried, c);
    OffAgain(b.claims, c, run);
    assert carried.claims[c].batch.None?;
    assert Release(carried, c).books == b;
  }

  /** Withdrawing a claim just made leaves nothing of it. */
  lemma WithdrawUndoesCreate(b: Books, e: Event, created: Books)
    requires e.CreatesClaim? && e.claim !in b.claims && Call(b, e) == Done(created)
    ensures WithdrawClaim(created, e.claim, e.user) == Done(b)
  {
    RowAddedAndRemoved(b.claims, e.claim, created.claims[e.claim]);
    assert WithdrawClaim(created, e.claim, e.user).books == b;
  }

  /** Clearing an adjustment undoes setting it, where there was no row before. */
  lemma ClearUndoesSet(b: Books, id: RunId, user: UserId, amount: int, note: string, adjusted: Books)
    requires SetAdjustment(b, id, user, amount, note) == Done(adjusted) && (id, user) !in b.lines
    ensures ClearAdjustment(adjusted, id, user) == Done(b)
  {
    RowAddedAndRemoved(b.lines, (id, user), adjusted.lines[(id, user)]);
    assert ClearAdjustment(adjusted, id, user).books == b;
  }

  // --- What a request leaves to be seen ---------------------------------------------------------

  /** One person's line before and after: adjusted so, if it is `mine`. */
  ghost predicate LineAdjusted(was: map<UserId, Line>, now: map<UserId, Line>, person: UserId, mine: bool,
                               amount: int, note: string) {
    && (person in now <==> person in was)
    && (person in was ==>
          now[person] == if mine then was[person].(adjustment := amount, note := Some(note)) else was[person])
  }

  lemma OneLineAdjusted(b: Books, id: RunId, user: UserId, amount: int, note: string, adjusted: Books,
                        other: RunId, person: UserId)
    requires SetAdjustment(b, id, user, amount, note) == Done(adjusted) && other in b.runs && person in b.users
    ensures var was := DraftLine(b, other, b.runs[other], person);
            var now := DraftLine(adjusted, other, b.runs[other], person);
            now == if other == id && person == user then was.(adjustment := amount, note := Some(note)) else was
  {
  }

  /** The draft shows the adjustment on its person's line, and every other line of
    * every draft as it was. */
  lemma AdjustmentShows(b: Books, id: RunId, user: UserId, amount: int, note: string, adjusted: Books,
                        other: RunId, person: UserId)
    requires SetAdjustment(b, id, user, amount, note) == Done(adjusted) && other in b.runs
    ensures LineAdjusted(DraftLines(b, other, b.runs[other]), DraftLines(adjusted, other, b.runs[other]),
                         person, other == id && person == user, amount, note)
  {
    assert adjusted.users == b.users && adjusted.history == b.history && adjusted.payrollTypes == b.payrollTypes;
    if person in b.users { OneLineAdjusted(b, id, user, amount, note, adjusted, other, person); }
  }

  /** An adjusted line is paid, and not below nothing. */
  lemma AdjustedNotBelowZero(b: Books, id: RunId, user: UserId, amount: int, note: string, adjusted: Books)
    requires SetAdjustment(b, id, user, amount, note) == Done(adjusted)
    ensures adjusted.runs == b.runs && user in DraftLines(adjusted, id, b.runs[id])
    ensures var line := DraftLines(adjusted, id, b.runs[id])[user]; !line.Missing() && line.Pays() >= 0
  {
    AdjustmentShows(b, id, user, amount, note, adjusted, id, user);
  }

  /** Gathering puts exactly these claims in the batch, each approved and free before. */
  lemma BatchGathers(b: Books, batch: BatchId, ids: set<ClaimId>, created: Books, c: ClaimId)
    requires Valid(b) && batch !in b.batches && CreateBatch(b, batch, ids) == Done(created)
    ensures c in ids ==> c in b.claims && b.claims[c].state == Accepted && Free(b.claims[c])
    ensures c in created.claims <==> c in b.claims
    ensures c in b.claims ==>
              && (created.claims[c].batch == Some(batch) <==> c in ids)
              && created.claims[c] == b.claims[c].(batch := created.claims[c].batch)
  {
    if c in b.claims { assert ClaimKept(b, b.claims[c]); }
  }

  /** Carrying puts exactly these claims on the draft, each approved and free before
    * and of somebody it pays, and leaves every other claim as it was. */
  lemma RunCarries(b: Books, run: RunId, ids: set<ClaimId>, carried: Books, c: ClaimId)
    requires Valid(b) && Carry(b, run, ids) == Done(carried)
    ensures run in b.runs && b.runs[run].state == Draft
    ensures c in carried.claims <==> c in b.claims
    ensures c in b.claims && c !in ids ==> carried.claims[c] == b.claims[c]
    ensures c in ids ==>
              && c in b.claims && b.claims[c].state == Accepted && Free(b.claims[c])
              && carried.claims[c] == b.claims[c].(run := Some(run))
              && b.claims[c].submitter in PaidOnRun(b, run)
  {
  }

  /** A decision is somebody else's, and accepting copies the department the
    * submitter is in then; wherever people move afterwards, and whatever else is
    * asked, the claim keeps it. */
  lemma {:induction false} DecisionKeepsDepartment(b: Books, c: ClaimId, actor: UserId, decided: Books,
                                                   events: seq<Event>)
    requires Valid(b) && Decide(b, c, actor, true) == Done(decided) && AllAdmissible(decided, events)
    ensures c in After(decided, events).claims
    ensures After(decided, events).claims[c].department == DepartmentOf(b, b.claims[c].submitter)
    ensures After(decided, events).claims[c].decidedBy == Some(actor) && actor != b.claims[c].submitter
  {
    StepKeepsValid(b, Decides(c, actor, true));
    DecidedStays(decided, c, events);
  }

  lemma {:induction false} DecidedStays(b: Books, c: ClaimId, events: seq<Event>)
    requires Valid(b) && AllAdmissible(b, events) && c in b.claims && b.claims[c].state != Submitted
    ensures c in After(b, events).claims
    ensures var now := After(b, events).claims[c];
            now == b.claims[c].(batch := now.batch, run := now.run, reimbursedAt := now.reimbursedAt)
    decreases |events|
  {
    if events != [] {
      DecidedIsFrozen(b, events[0], c);
      StepKeepsValid(b, events[0]);
      DecidedStays(Next(b, events[0]), c, events[1..]);
    }
  }

  /** The same days and schedule, and no further back. */
  ghost predicate Onward(was: Run, now: Run) {
    && now.schedule == was.schedule && now.start == was.start && now.end == was.end
    && (now.state == was.state || (was.state == Approved && now.state == Paid))
    && (was.paidAt.Some? ==> now.paidAt == was.paidAt)
  }

  lemma ApprovalGoesOn(b: Books, id: RunId, approved: RunId)
    requires id in b.runs && b.runs[id].state != Draft && ApproveRun(b, approved).Done?
    ensures var runs := ApproveRun(b, approved).books.runs; id in runs && runs[id] == b.runs[id]
  {
  }

  lemma PaymentGoesOn(b: Books, id: RunId, paid: RunId, now: Time)
    requires RunsApart(b) && id in b.runs && b.runs[id].state != Draft && MarkRunPaid(b, paid, now).Done?
    ensures var runs := MarkRunPaid(b, paid, now).books.runs; id in runs && Onward(b.runs[id], runs[id])
  {
  }

  lemma RunGoesOn(b: Books, e: Event, id: RunId, after: Books)
    requires Valid(b) && Admissible(b, e) && id in b.runs && b.runs[id].state != Draft && Call(b, e) == Done(after)
    requires e.CreatesRun? || e.ApprovesRun? || e.DeletesRun? || e.MarksRunPaid?
    ensures id in after.runs && Onward(b.runs[id], after.runs[id])
  {
    if e.ApprovesRun? {
      ApprovalGoesOn(b, id, e.run);
    } else if e.MarksRunPaid? {
      PaymentGoesOn(b, id, e.run, e.now);
    }
  }

  lemma AdjustingLeavesRuns(b: Books, e: Event, after: Books)
    requires (e.SetsAdjustment? || e.ClearsAdjustment?) && Call(b, e) == Done(after)
    ensures after.runs == b.runs
  {
  }

  /** Once approved, no request deletes a run, takes it back, or moves its days. */
  lemma ForwardOnly(b: Books, e: Event, id: RunId)
    requires Valid(b) && Admissible(b, e) && id in b.runs && b.runs[id].state != Draft
    ensures id in Next(b, e).runs && Onward(b.runs[id], Next(b, e).runs[id])
  {
    match Call(b, e)
    case Refused(_) =>
    case Done(after) =>
      if OnDirectory(e) {
        DirectoryFrame(b, e);
      } else if OnClaim(e) {
        ClaimFrame(b, e);
      } else if OnSettlement(e) {
        SettlementFrame(b, e);
      } else if e.SetsAdjustment? || e.ClearsAdjustment? {
        AdjustingLeavesRuns(b, e, after);
      } else {
        RunGoesOn(b, e, id, after);
      }
  }
}
