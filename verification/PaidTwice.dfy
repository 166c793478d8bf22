/**
 * Whether anybody is paid twice for the same days (lib_finance/payroll.py). Two
 * runs of one schedule share no day; runs of different schedules may, and the
 * day a run goes by is its last.
 */
module PaidTwice {
  import opened Prelude
  import opened Sql
  import opened Money
  import opened Tables
  import opened PayrollTypes
  import opened Compensation
  import opened Books
  import opened Invariants
  import opened Settlement
  import opened Undo
  import opened Approval
  import opened History

  predicate ShareADay(x: Run, y: Run) {
    x.start <= y.end && y.start <= x.end
  }

  /** The approved or paid run pays the person. */
  ghost predicate PaysFor(b: Books, id: RunId, user: UserId) {
    CountedLine(b, (id, user))
  }

  /** Two runs that share a day both pay the person. */
  ghost predicate BothPay(b: Books, r: RunId, s: RunId, user: UserId) {
    && r != s && PaysFor(b, r, user) && PaysFor(b, s, user) && ShareADay(b.runs[r], b.runs[s])
  }

  // --- Exactly when ---------------------------------------------------------------------------

  /** Approval pays exactly the active insiders with pay for the last day on the
    * run's schedule. */
  lemma ApprovalPaysExactly(b: Books, id: RunId, approved: Books, user: UserId)
    requires ApproveRun(b, id) == Done(approved)
    ensures id in b.runs && (PaysFor(approved, id, user) <==> IsPayee(b, b.runs[id], user))
  {
    ApproveMoves(b, approved, id, (id, user));
    PaidOnRunMeans(b, id, user);
    if user in b.users { DraftLineShape(b, id, b.runs[id], user); }
  }

  /** Whom an approved run pays is settled for good. */
  lemma {:induction false} PaysForGood(b: Books, events: seq<Event>, id: RunId, user: UserId)
    requires Valid(b) && AllAdmissible(b, events) && id in b.runs && b.runs[id].state != Draft
    ensures Valid(After(b, events)) && id in After(b, events).runs && After(b, events).runs[id].state != Draft
    ensures After(b, events).runs[id].start == b.runs[id].start && After(b, events).runs[id].end == b.runs[id].end
    ensures PaysFor(After(b, events), id, user) <==> PaysFor(b, id, user)
    decreases |events|
  {
    if events != [] {
      ForwardOnly(b, events[0], id);
      LinesOnlyGrow(b, events[0], (id, user));
      StepKeepsValid(b, events[0]);
      PaysForGood(Next(b, events[0]), events[1..], id, user);
    }
  }

  /**
   * Two approved runs that share a day both pay a person if and only if, each at
   * the moment it was approved, they were an active insider whose pay on its last
   * day was on its schedule. The schedules are then different: pay that moves from
   * one to the other in between is enough.
   */
  lemma PaidTwiceExactlyWhen(b: Books, s: RunId, first: Books, events: seq<Event>, r: RunId, second: Books,
                             user: UserId)
    requires Valid(b) && ApproveRun(b, s) == Done(first) && AllAdmissible(first, events)
    requires ApproveRun(After(first, events), r) == Done(second) && r != s
    requires s in second.runs && r in second.runs && ShareADay(second.runs[r], second.runs[s])
    ensures s in b.runs && r in After(first, events).runs
    ensures BothPay(second, r, s, user) <==>
              IsPayee(b, b.runs[s], user) && IsPayee(After(first, events), After(first, events).runs[r], user)
    ensures second.runs[r].schedule != second.runs[s].schedule
  {
    var between := After(first, events);
    StepKeepsValid(b, ApprovesRun(s));
    ApprovalPaysExactly(b, s, first, user);
    PaysForGood(first, events, s, user);
    ApprovalPaysExactly(between, r, second, user);
    LinesOnlyGrow(between, ApprovesRun(r), (s, user));
    StepKeepsValid(between, ApprovesRun(r));
    ApartByDay(second, r, s);
  }

  lemma ApartByDay(b: Books, r: RunId, s: RunId)
    requires Valid(b) && r in b.runs && s in b.runs && r != s && ShareADay(b.runs[r], b.runs[s])
    ensures b.runs[r].schedule != b.runs[s].schedule
  {
    if b.runs[r].schedule == b.runs[s].schedule {
      assert Overlaps(b.runs[r], b.runs[s].schedule, b.runs[s].start, b.runs[s].end);
    }
  }

  // --- Only on two schedules --------------------------------------------------------------------

  /** A line that is paid copies a pay record of its person on its run's schedule. */
  ghost predicate OnSchedule(b: Books, key: LineKey) {
    CountedLine(b, key) ==>
      && b.lines[key].pay.Some?
      && var pay := b.lines[key].pay.value;
         pay in b.history && b.history[pay].user == key.1 && b.history[pay].schedule == b.runs[key.0].schedule
  }

  lemma ApprovedOnSchedule(b: Books, id: RunId, approved: Books, user: UserId)
    requires ApproveRun(b, id) == Done(approved)
    ensures OnSchedule(approved, (id, user))
  {
    FrozenLine(b, approved, id, user);
    if user in b.users { DraftLineShape(b, id, b.runs[id], user); }
  }

  lemma OtherRowStays(b: Books, id: RunId, approved: Books, key: LineKey)
    requires ApproveRun(b, id) == Done(approved) && key.0 != id && OnSchedule(b, key)
    ensures OnSchedule(approved, key)
  {
    ApprovalTouchesOneRun(b, approved, id, key);
  }

  lemma RunRequestStays(b: Books, e: Event, key: LineKey)
    requires Valid(b) && Admissible(b, e) && OnSchedule(b, key)
    requires e.CreatesRun? || e.DeletesRun? || e.MarksRunPaid? || e.SetsAdjustment? || e.ClearsAdjustment?
    ensures OnSchedule(Next(b, e), key)
  {
    LinesOnlyGrow(b, e, key);
    if CountedLine(Next(b, e), key) { RowStays(b, e, key); }
  }

  lemma AdjustingLeavesSettled(b: Books, e: Event, after: Books, key: LineKey)
    requires (e.SetsAdjustment? || e.ClearsAdjustment?) && Call(b, e) == Done(after) && CountedLine(b, key)
    ensures after.history == b.history && key in after.lines && after.lines[key] == b.lines[key]
  {
  }

  lemma DeletingLeavesSettled(b: Books, id: RunId, key: LineKey)
    requires DeleteRun(b, id).Done? && CountedLine(b, key)
    ensures var after := DeleteRun(b, id).books;
            after.history == b.history && key in after.lines && after.lines[key] == b.lines[key]
  {
  }

  lemma RowStays(b: Books, e: Event, key: LineKey)
    requires Valid(b) && Admissible(b, e) && CountedLine(b, key)
    requires e.CreatesRun? || e.DeletesRun? || e.MarksRunPaid? || e.SetsAdjustment? || e.ClearsAdjustment?
    ensures var after := Next(b, e);
            && after.history == b.history && key in after.lines && after.lines[key] == b.lines[key]
            && key.0 in after.runs && after.runs[key.0].schedule == b.runs[key.0].schedule
  {
    ForwardOnly(b, e, key.0);
    if Call(b, e).Done? {
      if e.SetsAdjustment? || e.ClearsAdjustment? {
        AdjustingLeavesSettled(b, e, Call(b, e).books, key);
      } else if e.DeletesRun? {
        DeletingLeavesSettled(b, e.run, key);
      }
    }
  }

  lemma OtherRequestStays(b: Books, e: Event, key: LineKey)
    requires Valid(b) && Admissible(b, e) && OnSchedule(b, key)
    requires OnDirectory(e) || OnClaim(e) || OnSettlement(e)
    ensures OnSchedule(Next(b, e), key)
  {
    if Call(b, e).Done? {
      HistoryGrows(b, e);
      if OnDirectory(e) {
        DirectoryFrame(b, e);
      } else if OnClaim(e) {
        ClaimFrame(b, e);
      } else {
        SettlementFrame(b, e);
      }
    }
  }

  lemma RecordAdded(b: Books, id: PayId, pay: Pay)
    requires Newest(b.history, id) && RecordPay(b, id, pay).Done?
    ensures forall p | p in b.history ::
              p in RecordPay(b, id, pay).books.history && RecordPay(b, id, pay).books.history[p] == b.history[p]
  {
  }

  lemma PeopleLeaveHistory(b: Books, e: Event)
    requires Call(b, e).Done? && OnDirectory(e) && !e.RecordsPay?
    ensures Call(b, e).books.history == b.history
  {
  }

  lemma ClaimsLeaveHistory(b: Books, e: Event)
    requires Call(b, e).Done? && (OnClaim(e) || OnSettlement(e))
    ensures Call(b, e).books.history == b.history
  {
  }

  lemma HistoryGrows(b: Books, e: Event)
    requires Admissible(b, e) && Call(b, e).Done? && (OnDirectory(e) || OnClaim(e) || OnSettlement(e))
    ensures forall p | p in b.history :: p in Call(b, e).books.history && Call(b, e).books.history[p] == b.history[p]
  {
    if e.RecordsPay? {
      RecordAdded(b, e.pid, e.pay);
    } else if OnDirectory(e) {
      PeopleLeaveHistory(b, e);
    } else {
      ClaimsLeaveHistory(b, e);
    }
  }

  lemma StepKeepsSchedule(b: Books, e: Event, key: LineKey)
    requires Valid(b) && Admissible(b, e) && OnSchedule(b, key)
    ensures OnSchedule(Next(b, e), key)
  {
    if e.ApprovesRun? {
      if Call(b, e).Done? {
        if key.0 == e.run {
          ApprovedOnSchedule(b, e.run, Call(b, e).books, key.1);
        } else {
          OtherRowStays(b, e.run, Call(b, e).books, key);
        }
      }
    } else if OnDirectory(e) || OnClaim(e) || OnSettlement(e) {
      OtherRequestStays(b, e, key);
    } else {
      RunRequestStays(b, e, key);
    }
  }

  lemma {:induction false} ReachableOnSchedule(b: Books, events: seq<Event>, key: LineKey)
    requires Valid(b) && AllAdmissible(b, events) && OnSchedule(b, key)
    ensures OnSchedule(After(b, events), key)
    decreases |events|
  {
    if events != [] {
      StepKeepsSchedule(b, events[0], key);
      StepKeepsValid(b, events[0]);
      ReachableOnSchedule(Next(b, events[0]), events[1..], key);
    }
  }

  /** Whatever is asked, and in whatever order: whoever is paid twice for a day has
    * pay recorded on two schedules. So nobody whose records are all on one is. */
  lemma PaidTwiceHasTwoSchedules(events: seq<Event>, r: RunId, s: RunId, user: UserId)
    requires AllAdmissible(EMPTY, events) && BothPay(After(EMPTY, events), r, s, user)
    ensures exists p, q ::
              var h := After(EMPTY, events).history;
              && p in h && q in h && h[p].user == user && h[q].user == user && h[p].schedule != h[q].schedule
  {
    EmptyIsValid();
    ReachableIsValid(EMPTY, events);
    var b := After(EMPTY, events);
    ReachableOnSchedule(EMPTY, events, (r, user));
    ReachableOnSchedule(EMPTY, events, (s, user));
    ApartByDay(b, r, s);
    assert b.lines[(r, user)].pay.value in b.history && b.lines[(s, user)].pay.value in b.history;
  }
}
