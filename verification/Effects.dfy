/**
 * What a request means for whoever asked: which days a run takes, what a
 * payment pays, what approval locks, who may change a claim, and what putting
 * a type on payroll does to a draft.
 */
module Effects {
  import opened Prelude
  import opened Sql
  import opened Money
  import opened Tables
  import opened Totals
  import opened PayrollTypes
  import opened Compensation
  import opened Books
  import opened Invariants
  import opened Settlement
  import opened Undo

  // --- One run a day -------------------------------------------------------------------------

  predicate Covers(run: Run, schedule: PaySchedule, day: Day) {
    run.schedule == schedule && run.start <= day <= run.end
  }

  /** A run is refused exactly if one of its days is already in a run of the same
    * schedule. */
  lemma RunRefusedExactlyWhen(b: Books, id: RunId, schedule: PaySchedule, start: Day, end: Day)
    requires Valid(b) && start <= end
    ensures CreateRun(b, id, schedule, start, end).Refused? <==>
            exists r, day :: r in b.runs && Covers(b.runs[r], schedule, day) && start <= day <= end
  {
    if r :| r in b.runs && Overlaps(b.runs[r], schedule, start, end) {
      var day := if b.runs[r].start <= start then start else b.runs[r].start;
      assert Covers(b.runs[r], schedule, day) && start <= day <= end;
    }
    if r, day :| r in b.runs && Covers(b.runs[r], schedule, day) && start <= day <= end {
      assert Overlaps(b.runs[r], schedule, start, end);
    }
  }

  /** Whatever is asked, and in whatever order, no day is in two runs of a schedule. */
  lemma OneRunADay(events: seq<Event>, schedule: PaySchedule, day: Day, r: RunId, s: RunId)
    requires AllAdmissible(EMPTY, events)
    requires r in After(EMPTY, events).runs && Covers(After(EMPTY, events).runs[r], schedule, day)
    requires s in After(EMPTY, events).runs && Covers(After(EMPTY, events).runs[s], schedule, day)
    ensures r == s
  {
    EmptyIsValid();
    ReachableIsValid(EMPTY, events);
    var runs := After(EMPTY, events).runs;
    assert Overlaps(runs[r], runs[s].schedule, runs[s].start, runs[s].end);
  }

  // --- Payment -------------------------------------------------------------------------------

  /** Marking a batch or a run paid. */
  function PayOut(b: Books, x: Container, now: Time): Answer {
    match x
    case InBatch(batch) => MarkBatchPaid(b, batch, now)
    case OnPayroll(run) => MarkRunPaid(b, run, now)
  }

  /** A payment pays back exactly the claims that go out in it, as of now, none of
    * them paid before; every other claim is as it was. */
  lemma PaidExactly(b: Books, x: Container, now: Time, after: Books, c: ClaimId)
    requires Valid(b) && PayOut(b, x, now) == Done(after)
    ensures c in after.claims <==> c in b.claims
    ensures c in b.claims ==>
              if GoesOutIn(b.claims[c], x)
              then !PaidBack(b, c) && after.claims[c] == b.claims[c].(reimbursedAt := Some(now))
              else after.claims[c] == b.claims[c]
  {
    if PaidBack(b, c) { PaidInPaid(b, c); }
  }

  /** In every currency, what is reimbursed grows by exactly what the batch or run
    * held: no claim is paid that was paid before. */
  lemma PaymentAddsItsContent(b: Books, x: Container, now: Time, after: Books, currency: Currency)
    requires Valid(b) && PayOut(b, x, now) == Done(after)
    ensures Total(Reimbursed(after, currency)) == Total(Reimbursed(b, currency)) + Total(Content(b, x, currency))
  {
    var was, more, later := Reimbursed(b, currency), Content(b, x, currency), Reimbursed(after, currency);
    forall c: ClaimId
      ensures c in later <==> c in was || c in more
      ensures !(c in was && c in more)
      ensures c in was ==> later[c] == was[c]
      ensures c in more ==> later[c] == more[c]
    {
      PaidExactly(b, x, now, after, c);
    }
    assert later.Keys == was.Keys + more.Keys;
    SumUnion(was.Keys, more.Keys, later);
    SumSame(was.Keys, was, later);
    SumSame(more.Keys, more, later);
  }

  // --- What approval locks --------------------------------------------------------------------

  /** The batch or run is there, and approved or paid. */
  ghost predicate Locked(b: Books, x: Container) {
    match x
    case InBatch(batch) => batch in b.batches && b.batches[batch].state != Draft
    case OnPayroll(run) => run in b.runs && b.runs[run].state != Draft
  }

  lemma LockedStays(b: Books, e: Event, x: Container)
    requires Valid(b) && Admissible(b, e) && Locked(b, x)
    ensures Locked(Next(b, e), x)
  {
    match x
    case OnPayroll(run) => ForwardOnly(b, e, run);
    case InBatch(batch) => BatchStaysLocked(b, e, batch);
  }

  lemma BatchStaysLocked(b: Books, e: Event, batch: BatchId)
    requires Valid(b) && Admissible(b, e) && Locked(b, InBatch(batch))
    ensures Locked(Next(b, e), InBatch(batch))
  {
    match Call(b, e)
    case Refused(_) =>
    case Done(after) =>
      if OnDirectory(e) {
        DirectoryFrame(b, e);
      } else if OnRunOnly(e) {
        RunFrame(b, e);
      } else if e.Releases? {
        LockedIsNotReleased(b, e.claim, batch);
      }
  }

  lemma LockedIsNotReleased(b: Books, c: ClaimId, batch: BatchId)
    requires Valid(b) && Locked(b, InBatch(batch)) && Release(b, c).Done?
    ensures var after := Release(b, c).books;
            batch in after.batches && after.batches[batch] == b.batches[batch]
  {
  }

  ghost predicate In(b: Books, x: Container, c: ClaimId) {
    c in b.claims && GoesOutIn(b.claims[c], x)
  }

  lemma UndecidedIsNowhere(b: Books, e: Event, x: Container, c: ClaimId)
    requires Valid(b) && Admissible(b, e) && OnClaim(e) && Call(b, e).Done?
    ensures In(Next(b, e), x, c) <==> In(b, x, c)
  {
    if e.claim in b.claims { assert ClaimKept(b, b.claims[e.claim]); }
  }

  lemma GatheringLeavesLocked(b: Books, batch: BatchId, ids: set<ClaimId>, x: Container, c: ClaimId)
    requires Valid(b) && batch !in b.batches && CreateBatch(b, batch, ids).Done? && Locked(b, x)
    ensures In(CreateBatch(b, batch, ids).books, x, c) <==> In(b, x, c)
  {
    BatchGathers(b, batch, ids, CreateBatch(b, batch, ids).books, c);
  }

  lemma CarryingLeavesLocked(b: Books, run: RunId, ids: set<ClaimId>, x: Container, c: ClaimId)
    requires Valid(b) && Carry(b, run, ids).Done? && Locked(b, x)
    ensures In(Carry(b, run, ids).books, x, c) <==> In(b, x, c)
  {
    if c in b.claims { assert ClaimKept(b, b.claims[c]); }
  }

  lemma ThrowingAwayLeavesLocked(b: Books, e: Event, x: Container, c: ClaimId)
    requires Valid(b) && (e.DeletesBatch? || e.DeletesRun?) && Call(b, e).Done? && Locked(b, x)
    ensures In(Next(b, e), x, c) <==> In(b, x, c)
  {
  }

  lemma ReleaseLeavesLocked(b: Books, e: Event, x: Container, c: ClaimId)
    requires Valid(b) && e.Releases? && Call(b, e).Done? && Locked(b, x)
    ensures In(Next(b, e), x, c) <==> In(b, x, c)
  {
    assert ClaimKept(b, b.claims[e.claim]);
  }

  lemma PayingMovesNoClaim(b: Books, e: Event, x: Container, c: ClaimId)
    requires (e.MarksRunPaid? || e.MarksBatchPaid?) && Call(b, e).Done?
    ensures In(Next(b, e), x, c) <==> In(b, x, c)
  {
  }

  lemma OthersMoveNoClaim(b: Books, e: Event, x: Container, c: ClaimId)
    requires (OnDirectory(e) || OnRunOnly(e) || e.ApprovesBatch?) && Call(b, e).Done?
    ensures In(Next(b, e), x, c) <==> In(b, x, c)
  {
    if OnDirectory(e) {
      DirectoryFrame(b, e);
    } else if OnRunOnly(e) {
      RunFrame(b, e);
    } else {
      SettlementFrame(b, e);
    }
  }

  /** No request puts a claim into what is approved, or takes one out. */
  lemma LockedKeepsItsClaims(b: Books, e: Event, x: Container, c: ClaimId)
    requires Valid(b) && Admissible(b, e) && Locked(b, x)
    ensures In(Next(b, e), x, c) <==> In(b, x, c)
  {
    if Call(b, e).Done? {
      if OnClaim(e) {
        UndecidedIsNowhere(b, e, x, c);
      } else if e.CreatesBatch? {
        GatheringLeavesLocked(b, e.batch, e.claims, x, c);
      } else if e.Carries? {
        CarryingLeavesLocked(b, e.run, e.claims, x, c);
      } else if e.DeletesBatch? || e.DeletesRun? {
        ThrowingAwayLeavesLocked(b, e, x, c);
      } else if e.Releases? {
        ReleaseLeavesLocked(b, e, x, c);
      } else if e.MarksRunPaid? || e.MarksBatchPaid? {
        PayingMovesNoClaim(b, e, x, c);
      } else {
        OthersMoveNoClaim(b, e, x, c);
      }
    }
  }

  /** Over any run of requests, what is approved holds the same claims, each of the
    * same money: what is paid in the end is what was approved. */
  lemma {:induction false} ApprovedIsWhatIsPaid(b: Books, events: seq<Event>, x: Container, c: ClaimId)
    requires Valid(b) && AllAdmissible(b, events) && Locked(b, x)
    ensures Locked(After(b, events), x)
    ensures In(After(b, events), x, c) <==> In(b, x, c)
    ensures In(b, x, c) ==> SameMoney(b.claims[c], After(b, events).claims[c])
    decreases |events|
  {
    if events != [] {
      var e := events[0];
      LockedStays(b, e, x);
      LockedKeepsItsClaims(b, e, x, c);
      if In(b, x, c) {
        assert ClaimKept(b, b.claims[c]);
        DecidedIsFrozen(b, e, c);
      }
      StepKeepsValid(b, e);
      ApprovedIsWhatIsPaid(Next(b, e), events[1..], x, c);
    }
  }

  ghost predicate SameMoney(was: Claim, now: Claim) {
    && now.submitter == was.submitter && now.amount == was.amount && now.currency == was.currency
    && now.incurredOn == was.incurredOn && now.department == was.department
  }

  /** So its total in every currency never changes. */
  lemma ApprovedTotalStays(b: Books, events: seq<Event>, x: Container, currency: Currency)
    requires Valid(b) && AllAdmissible(b, events) && Locked(b, x)
    ensures Total(Content(After(b, events), x, currency)) == Total(Content(b, x, currency))
  {
    var after := After(b, events);
    forall c: ClaimId
      ensures c in Content(after, x, currency) <==> c in Content(b, x, currency)
      ensures c in Content(b, x, currency) ==> Content(after, x, currency)[c] == Content(b, x, currency)[c]
    {
      ApprovedIsWhatIsPaid(b, events, x, c);
    }
    TotalSame(Content(b, x, currency), Content(after, x, currency));
  }

  // --- Whose claim it is ----------------------------------------------------------------------

  /** The submitter themself changing or withdrawing their claim. */
  predicate TheirsToChange(e: Event, c: ClaimId, submitter: UserId) {
    (e.UpdatesClaim? || e.WithdrawsClaim?) && e.claim == c && e.user == submitter
  }

  /** Nobody but its submitter, and nobody once it is decided, can change what a
    * claim asks for or take it back. */
  lemma OnlyItsSubmitter(b: Books, e: Event, c: ClaimId)
    requires Valid(b) && Admissible(b, e) && c in b.claims
    requires b.claims[c].state != Submitted || !TheirsToChange(e, c, b.claims[c].submitter)
    ensures c in Next(b, e).claims && AsksTheSame(b.claims[c], Next(b, e).claims[c])
  {
    if b.claims[c].state != Submitted {
      DecidedIsFrozen(b, e, c);
    } else if Call(b, e).Done? {
      if OnDirectory(e) {
        DirectoryFrame(b, e);
      } else if OnRunOnly(e) {
        RunFrame(b, e);
      } else if OnClaim(e) {
        OthersLeaveIt(b, e, c);
      } else {
        SettlingLeavesIt(b, e, c);
      }
    }
  }

  ghost predicate AsksTheSame(was: Claim, now: Claim) {
    && now.submitter == was.submitter && now.amount == was.amount && now.currency == was.currency
    && now.incurredOn == was.incurredOn && (was.state != Submitted ==> now.state == was.state)
  }

  lemma OthersLeaveIt(b: Books, e: Event, c: ClaimId)
    requires Admissible(b, e) && OnClaim(e) && Call(b, e).Done? && c in b.claims && b.claims[c].state == Submitted
    requires !TheirsToChange(e, c, b.claims[c].submitter)
    ensures c in Next(b, e).claims && AsksTheSame(b.claims[c], Next(b, e).claims[c])
  {
  }

  lemma SettlingLeavesIt(b: Books, e: Event, c: ClaimId)
    requires (OnSettlement(e) || e.DeletesRun? || e.MarksRunPaid?) && Call(b, e).Done? && c in b.claims
    ensures c in Next(b, e).claims && AsksTheSame(b.claims[c], Next(b, e).claims[c])
  {
  }

  /** Over any run of requests in which its submitter leaves it alone. */
  lemma {:induction false} LeftAlone(b: Books, events: seq<Event>, c: ClaimId)
    requires Valid(b) && AllAdmissible(b, events) && c in b.claims
    requires b.claims[c].state != Submitted || forall e | e in events :: !TheirsToChange(e, c, b.claims[c].submitter)
    ensures c in After(b, events).claims && AsksTheSame(b.claims[c], After(b, events).claims[c])
    decreases |events|
  {
    if events != [] {
      OnlyItsSubmitter(b, events[0], c);
      StepKeepsValid(b, events[0]);
      LeftAlone(Next(b, events[0]), events[1..], c);
    }
  }

  /** Decided once is decided for good: no decision, change or withdrawal of it is
    * ever done again. */
  lemma DecidedForGood(b: Books, c: ClaimId, actor: UserId, accept: bool, decided: Books, events: seq<Event>,
                       again: Event)
    requires Valid(b) && Decide(b, c, actor, accept) == Done(decided) && AllAdmissible(decided, events)
    requires (again.Decides? || again.UpdatesClaim? || again.WithdrawsClaim?) && again.claim == c
    ensures Call(After(decided, events), again).Refused?
  {
    StepKeepsValid(b, Decides(c, actor, accept));
    assert c in decided.claims && decided.claims[c].state != Submitted;
    DecidedStays(decided, c, events);
    DecidedRefuses(After(decided, events), again);
  }

  lemma DecidedRefuses(b: Books, again: Event)
    requires again.Decides? || again.UpdatesClaim? || again.WithdrawsClaim?
    requires again.claim in b.claims && b.claims[again.claim].state != Submitted
    ensures Call(b, again).Refused?
  {
  }

  // --- Adjustments -----------------------------------------------------------------------------

  /** Clearing shows on the person's own line of that draft, as no adjustment and
    * no note, and on no other line of any draft. */
  lemma ClearShows(b: Books, id: RunId, user: UserId, cleared: Books, other: RunId, person: UserId)
    requires ClearAdjustment(b, id, user) == Done(cleared) && other in b.runs
    ensures LineCleared(DraftLines(b, other, b.runs[other]), DraftLines(cleared, other, b.runs[other]),
                        person, other == id && person == user)
  {
    assert cleared.users == b.users && cleared.history == b.history && cleared.payrollTypes == b.payrollTypes;
  }

  ghost predicate LineCleared(was: map<UserId, Line>, now: map<UserId, Line>, person: UserId, mine: bool) {
    && (person in now <==> person in was)
    && (person in was ==> now[person] == if mine then was[person].(adjustment := 0, note := None) else was[person])
  }

  // --- Types on payroll ------------------------------------------------------------------------

  /** Afterwards exactly these are on payroll besides the paid: insiders who are
    * employees, untyped, or of a switchable type asked for, whatever was stored. */
  lemma SwitchedOnMeans(b: Books, kinds: set<EmploymentType>, after: Books, user: UserId, day: Day)
    requires SwitchOn(b, kinds) == Done(after) && user in b.users
    ensures var p, paid := b.users[user], PayAt(b.history, user, day).Some?;
            user in after.users && (IsOnPayroll(after, user, day) <==>
              && p.isActive && !Outside(p)
              && (paid || p.employmentType in {None, Some(Employee)}
                  || (p.employmentType.value in SWITCHABLE && p.employmentType.value in kinds)))
  {
    OnPayrollMeaning(b.users[user], after.payrollTypes, PayAt(b.history, user, day).Some?);
  }

  /** Switching types on or off never touches a line that is paid, on any draft:
    * only missing lines come and go. */
  lemma SwitchingMovesNoPay(b: Books, kinds: set<EmploymentType>, after: Books, id: RunId, run: Run, user: UserId)
    requires SwitchOn(b, kinds) == Done(after)
    ensures PaidLine(DraftLines(after, id, run), user) == PaidLine(DraftLines(b, id, run), user)
  {
    if user in b.users {
      SwitchedOnMeans(b, kinds, after, user, run.end);
      OnPayrollMeaning(b.users[user], b.payrollTypes, PayAt(b.history, user, run.end).Some?);
    }
  }

  ghost function PaidLine(draft: map<UserId, Line>, user: UserId): Option<Line> {
    if user in draft && !draft[user].Missing() then Some(draft[user]) else None
  }
}
