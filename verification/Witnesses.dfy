/**
 * Two runs of requests from empty tables that end where approved runs are not
 * quite what their description says: somebody is adjusted and has a claim
 * carried, and then their pay is corrected to start after the run's last day;
 * and somebody is paid twice for the same days, their pay having moved from one
 * schedule to another.
 */
module Witnesses {
  import opened Prelude
  import opened Sql
  import opened Money
  import opened Tables
  import opened PayrollTypes
  import opened Compensation
  import opened Books
  import opened Invariants
  import opened Approval
  import PaidTwice

  const ANA: UserId := 1
  const BEN: UserId := 2
  const THE_RUN: RunId := 1
  const THE_CLAIM: ClaimId := 1

  const EUR := Currency("EUR")
  const INSIDER := Person("Ana", true, false, None, None)
  const AUDITOR := Person("Ben", true, true, None, None)
  const FIRST_PAY := Pay(ANA, 100, EUR, Monthly, 0, None)
  const CORRECTION := Pay(ANA, 100, EUR, Monthly, 40, Some(1))
  const DRAFT := Run(Monthly, 0, 30, Draft, None)
  const ADJUSTED := NO_LINE.(adjustment := 5, note := Some("bonus"))
  const ASKED := Claim(ANA, 40, EUR, 3, Submitted, None, None, None, None, None)
  const AGREED := ASKED.(state := Accepted, decidedBy := Some(BEN))
  const CARRIED := AGREED.(run := Some(THE_RUN))

  const PEOPLE: map<UserId, Person> := map[ANA := INSIDER, BEN := AUDITOR]
  const PAID: History := map[1 := FIRST_PAY]
  const CORRECTED_PAY: History := map[1 := FIRST_PAY, 2 := CORRECTION]

  /** Everything so far, with the pay, the row and the claim as they are then. */
  function Ledger(history: History, lines: map<(RunId, UserId), Line>, claims: map<ClaimId, Claim>): Books {
    Books(PEOPLE, {}, history, {}, map[THE_RUN := DRAFT], lines, claims, map[], map[])
  }

  const STORY := [
    PutsPerson(ANA, INSIDER), PutsPerson(BEN, AUDITOR), RecordsPay(1, FIRST_PAY),
    CreatesRun(THE_RUN, Monthly, 0, 30), SetsAdjustment(THE_RUN, ANA, 5, "bonus"),
    CreatesClaim(THE_CLAIM, ANA, 40, EUR, 3, 3), Decides(THE_CLAIM, BEN, true), Carries(THE_RUN, {THE_CLAIM}),
    RecordsPay(2, CORRECTION), ApprovesRun(THE_RUN)]

  lemma FirstStep(b: Books, e: Event, rest: seq<Event>)
    ensures After(b, [e] + rest) == After(Next(b, e), rest)
    ensures AllAdmissible(b, [e] + rest) <==> Admissible(b, e) && AllAdmissible(Next(b, e), rest)
  {
    assert ([e] + rest)[1..] == rest;
  }

  lemma PaidAtFirst()
    ensures PayAt(PAID, ANA, 30) == Some(1)
  {
    PayAtLeads(PAID, ANA, 30, 1);
  }

  lemma UnpaidOnceCorrected()
    ensures PayAt(CORRECTED_PAY, ANA, 30) == None
  {
    assert CORRECTED_PAY[2].corrects == Some(1);
    PaidWhenStarted(CORRECTED_PAY, ANA, 30);
  }

  lemma InTheDraft(b: Books)
    requires b.users == PEOPLE && b.history == PAID && b.runs == map[THE_RUN := DRAFT]
    ensures ANA in DraftLines(b, THE_RUN, DRAFT) && DraftLines(b, THE_RUN, DRAFT)[ANA].amount == Some(100)
    ensures ANA in PaidOnRun(b, THE_RUN)
  {
    PaidAtFirst();
    OnPayrollMeaning(INSIDER, b.payrollTypes, true);
  }

  lemma MissingFromTheDraft(b: Books)
    requires b.users == PEOPLE && b.history == CORRECTED_PAY && b.runs == map[THE_RUN := DRAFT]
    ensures ANA in DraftLines(b, THE_RUN, DRAFT) && DraftLines(b, THE_RUN, DRAFT)[ANA].Missing()
  {
    UnpaidOnceCorrected();
    OnPayrollMeaning(INSIDER, b.payrollTypes, false);
  }

  const ROWS: map<(RunId, UserId), Line> := map[(THE_RUN, ANA) := ADJUSTED]

  lemma Adjusting()
    ensures Next(Ledger(PAID, map[], map[]), STORY[4]) == Ledger(PAID, ROWS, map[])
  {
    InTheDraft(Ledger(PAID, map[], map[]));
  }

  lemma Claiming()
    ensures Next(Ledger(PAID, ROWS, map[]), STORY[5]) == Ledger(PAID, ROWS, map[THE_CLAIM := ASKED])
    ensures Next(Ledger(PAID, ROWS, map[THE_CLAIM := ASKED]), STORY[6]) == Ledger(PAID, ROWS, map[THE_CLAIM := AGREED])
  {
  }

  /** The claim is approved and free, and its person is paid by the draft. */
  lemma CanCarry(b: Books)
    requires b == Ledger(PAID, ROWS, map[THE_CLAIM := AGREED])
    ensures SettleRefusal(b, {THE_CLAIM}) == {}
    ensures forall c | c in {THE_CLAIM} && c in b.claims :: b.claims[c].submitter in PaidOnRun(b, THE_RUN)
  {
    InTheDraft(b);
  }

  lemma PutOn(claims: map<ClaimId, Claim>)
    requires claims == map[THE_CLAIM := AGREED]
    ensures OntoRun(claims, {THE_CLAIM}, THE_RUN) == map[THE_CLAIM := CARRIED]
  {
  }

  lemma CarryingIsDone(b: Books, id: RunId, ids: set<ClaimId>)
    requires id in b.runs && b.runs[id].state == Draft && SettleRefusal(b, ids) == {}
    requires forall c | c in ids && c in b.claims :: b.claims[c].submitter in PaidOnRun(b, id)
    ensures Next(b, Carries(id, ids)) == b.(claims := OntoRun(b.claims, ids, id))
  {
  }

  lemma Carrying(b: Books)
    requires b == Ledger(PAID, ROWS, map[THE_CLAIM := AGREED])
    ensures Next(b, Carries(THE_RUN, {THE_CLAIM})) == b.(claims := map[THE_CLAIM := CARRIED])
  {
    CanCarry(b);
    PutOn(b.claims);
    CarryingIsDone(b, THE_RUN, {THE_CLAIM});
  }

  lemma Correcting()
    ensures Next(Ledger(PAID, ROWS, map[THE_CLAIM := CARRIED]), STORY[8])
            == Ledger(CORRECTED_PAY, ROWS, map[THE_CLAIM := CARRIED])
  {
    assert 1 !in Corrected(PAID);
    assert PAID[2 := CORRECTION] == CORRECTED_PAY;
  }

  const LAST := Ledger(CORRECTED_PAY, ROWS, map[THE_CLAIM := CARRIED])

  /** The tables after the first `i` requests. */
  function Stage(i: nat): Books
    requires i <= 9
  {
    if i == 0 then EMPTY
    else if i == 1 then EMPTY.(users := map[ANA := INSIDER])
    else if i == 2 then EMPTY.(users := PEOPLE)
    else if i == 3 then EMPTY.(users := PEOPLE, history := PAID)
    else if i == 4 then Ledger(PAID, map[], map[])
    else if i == 5 then Ledger(PAID, ROWS, map[])
    else if i == 6 then Ledger(PAID, ROWS, map[THE_CLAIM := ASKED])
    else if i == 7 then Ledger(PAID, ROWS, map[THE_CLAIM := AGREED])
    else if i == 8 then Ledger(PAID, ROWS, map[THE_CLAIM := CARRIED])
    else LAST
  }

  lemma Beginning(i: nat)
    requires i < 4
    ensures Admissible(Stage(i), STORY[i]) && Next(Stage(i), STORY[i]) == Stage(i + 1)
  {
  }

  lemma FromStage(i: nat)
    requires i < 9
    ensures Admissible(Stage(i), STORY[i]) && Next(Stage(i), STORY[i]) == Stage(i + 1)
  {
    if i < 4 {
      Beginning(i);
    } else if i == 4 {
      Adjusting();
    } else if i <= 6 {
      Claiming();
    } else if i == 7 {
      Carrying(Stage(7));
    } else {
      Correcting();
    }
  }

  lemma {:induction false} UpTo(i: nat)
    requires i <= 9
    ensures After(EMPTY, STORY) == After(Stage(i), STORY[i..])
    ensures AllAdmissible(Stage(i), STORY[i..]) ==> AllAdmissible(EMPTY, STORY)
  {
    if i == 0 {
      assert STORY[0..] == STORY;
    } else {
      UpTo(i - 1);
      FromStage(i - 1);
      assert STORY[i - 1..] == [STORY[i - 1]] + STORY[i..];
      FirstStep(Stage(i - 1), STORY[i - 1], STORY[i..]);
    }
  }

  lemma ApprovingIsDone(b: Books, id: RunId)
    requires id in b.runs && b.runs[id].state == Draft
    ensures ApproveRun(b, id) == Done(After(b, [ApprovesRun(id)])) && AllAdmissible(b, [ApprovesRun(id)])
  {
    FirstStep(b, ApprovesRun(id), []);
    assert [ApprovesRun(id)] + [] == [ApprovesRun(id)];
  }

  lemma LastRequest(b: Books)
    requires THE_RUN in b.runs && b.runs[THE_RUN].state == Draft
    requires After(EMPTY, STORY) == After(b, STORY[9..])
    requires AllAdmissible(b, STORY[9..]) ==> AllAdmissible(EMPTY, STORY)
    ensures AllAdmissible(EMPTY, STORY)
    ensures ApproveRun(b, THE_RUN) == Done(After(EMPTY, STORY))
  {
    assert STORY[9..] == [ApprovesRun(THE_RUN)];
    ApprovingIsDone(b, THE_RUN);
  }

  lemma LastIsADraft(b: Books)
    requires b == Stage(9)
    ensures b == LAST && THE_RUN in b.runs && b.runs[THE_RUN].state == Draft
  {
  }

  lemma Ending() returns (b: Books)
    ensures b == LAST && AllAdmissible(EMPTY, STORY)
    ensures ApproveRun(b, THE_RUN) == Done(After(EMPTY, STORY))
  {
    b := Stage(9);
    UpTo(9);
    LastIsADraft(b);
    LastRequest(b);
  }

  /** A frozen row nobody is paid by, with the adjustment of a line that is no more. */
  lemma StaleAdjustmentIsReached()
    ensures AllAdmissible(EMPTY, STORY)
    ensures var b := After(EMPTY, STORY);
            && THE_RUN in b.runs && b.runs[THE_RUN].state == Approved
            && (THE_RUN, ANA) in b.lines && b.lines[(THE_RUN, ANA)].Missing()
            && b.lines[(THE_RUN, ANA)].adjustment == 5
  {
    var b := Ending();
    UnpaidOnceCorrected();
    MissingFromTheDraft(b);
    AdjustmentKeptExactlyWhen(b, After(EMPTY, STORY), THE_RUN, ANA);
    FrozenLine(b, After(EMPTY, STORY), THE_RUN, ANA);
  }

  /** An approved run carrying the claim of somebody it does not pay. */
  lemma CarriedUnpaidIsReached()
    ensures AllAdmissible(EMPTY, STORY)
    ensures var b := After(EMPTY, STORY);
            && THE_RUN in b.runs && b.runs[THE_RUN].state == Approved
            && THE_CLAIM in b.claims && b.claims[THE_CLAIM].run == Some(THE_RUN)
            && !PaidOnPage(b, THE_RUN, b.claims[THE_CLAIM].submitter)
  {
    var b := Ending();
    UnpaidOnceCorrected();
    CarriesUnpaidExactlyWhen(b, After(EMPTY, STORY), THE_RUN, THE_CLAIM);
  }

  // --- Paid twice -------------------------------------------------------------------------------

  const HALVES := Pay(ANA, 100, EUR, SemiMonthly, 1, None)
  const WHOLE := Pay(ANA, 200, EUR, Monthly, 20, None)
  const FIRST_HALF := Run(SemiMonthly, 1, 15, Draft, None)
  const MONTH := Run(Monthly, 1, 30, Draft, None)

  const OPENING: seq<Event> := [PutsPerson(ANA, INSIDER), RecordsPay(1, HALVES), CreatesRun(1, SemiMonthly, 1, 15)]
  const BETWEEN: seq<Event> := [RecordsPay(2, WHOLE), CreatesRun(2, Monthly, 1, 30)]

  /** Half a month approved, and then the month, her pay monthly by its end. */
  const SECOND_STORY := OPENING + ([ApprovesRun(1)] + (BETWEEN + [ApprovesRun(2)]))

  lemma {:induction false} RunsOn(b: Books, events: seq<Event>, rest: seq<Event>)
    ensures After(b, events + rest) == After(After(b, events), rest)
    ensures AllAdmissible(b, events) && AllAdmissible(After(b, events), rest) ==> AllAdmissible(b, events + rest)
    decreases |events|
  {
    if events == [] {
      assert events + rest == rest;
    } else {
      assert (events + rest)[1..] == events[1..] + rest;
      RunsOn(Next(b, events[0]), events[1..], rest);
    }
  }

  lemma Opened(b: Books)
    requires b == EMPTY.(users := map[ANA := INSIDER], history := map[1 := HALVES], runs := map[1 := FIRST_HALF])
    ensures AllAdmissible(EMPTY, OPENING) && After(EMPTY, OPENING) == b
  {
    var one := EMPTY.(users := map[ANA := INSIDER]);
    var two := one.(history := map[1 := HALVES]);
    FirstStep(two, OPENING[2], []);
    FirstStep(one, OPENING[1], [OPENING[2]] + []);
    FirstStep(EMPTY, OPENING[0], [OPENING[1]] + ([OPENING[2]] + []));
    assert OPENING == [OPENING[0]] + ([OPENING[1]] + ([OPENING[2]] + []));
    assert Next(EMPTY, OPENING[0]) == one && Next(one, OPENING[1]) == two && Next(two, OPENING[2]) == b;
  }

  /** What the requests in between do to the tables approval left. */
  lemma Goes(b: Books)
    requires b.users == map[ANA := INSIDER] && b.history == map[1 := HALVES]
    requires b.runs == map[1 := FIRST_HALF.(state := Approved)]
    ensures AllAdmissible(b, BETWEEN)
    ensures var m := After(b, BETWEEN);
            && m.users == b.users && m.history == map[1 := HALVES, 2 := WHOLE]
            && m.runs == map[1 := FIRST_HALF.(state := Approved), 2 := MONTH]
  {
    var m := b.(history := map[1 := HALVES, 2 := WHOLE]);
    assert b.history[2 := WHOLE] == m.history;
    FirstStep(m, BETWEEN[1], []);
    FirstStep(b, BETWEEN[0], [BETWEEN[1]] + []);
    assert BETWEEN == [BETWEEN[0]] + ([BETWEEN[1]] + []);
    assert b.runs[2 := MONTH] == map[1 := FIRST_HALF.(state := Approved), 2 := MONTH];
  }

  lemma PaidByHalves(b: Books)
    requires b.users == map[ANA := INSIDER] && b.history == map[1 := HALVES]
    ensures IsPayee(b, FIRST_HALF, ANA)
  {
    PayAtLeads(b.history, ANA, 15, 1);
  }

  lemma PaidByTheMonth(b: Books)
    requires b.users == map[ANA := INSIDER] && b.history == map[1 := HALVES, 2 := WHOLE]
    ensures IsPayee(b, MONTH, ANA)
  {
    PayAtLeads(b.history, ANA, 30, 2);
  }

  lemma SecondEnding(b: Books, first: Books)
    requires b == EMPTY.(users := map[ANA := INSIDER], history := map[1 := HALVES], runs := map[1 := FIRST_HALF])
    requires ApproveRun(b, 1) == Done(first)
    ensures first.users == b.users && first.history == b.history
    ensures first.runs == map[1 := FIRST_HALF.(state := Approved)]
  {
    ApprovalChangesState(b, first, 1);
  }

  lemma SecondStoryEnds(b: Books, first: Books, between: Books, second: Books)
    requires AllAdmissible(EMPTY, OPENING) && After(EMPTY, OPENING) == b
    requires AllAdmissible(b, [ApprovesRun(1)]) && After(b, [ApprovesRun(1)]) == first
    requires AllAdmissible(first, BETWEEN) && After(first, BETWEEN) == between
    requires AllAdmissible(between, [ApprovesRun(2)]) && After(between, [ApprovesRun(2)]) == second
    ensures AllAdmissible(EMPTY, SECOND_STORY) && After(EMPTY, SECOND_STORY) == second
  {
    RunsOn(first, BETWEEN, [ApprovesRun(2)]);
    RunsOn(b, [ApprovesRun(1)], BETWEEN + [ApprovesRun(2)]);
    RunsOn(EMPTY, OPENING, [ApprovesRun(1)] + (BETWEEN + [ApprovesRun(2)]));
  }

  /** The tables before and after each approval. */
  lemma SecondStages() returns (b: Books, first: Books, between: Books, second: Books)
    ensures b == EMPTY.(users := map[ANA := INSIDER], history := map[1 := HALVES], runs := map[1 := FIRST_HALF])
    ensures AllAdmissible(EMPTY, OPENING) && After(EMPTY, OPENING) == b
    ensures AllAdmissible(b, [ApprovesRun(1)]) && After(b, [ApprovesRun(1)]) == first
    ensures AllAdmissible(first, BETWEEN) && After(first, BETWEEN) == between
    ensures AllAdmissible(between, [ApprovesRun(2)]) && After(between, [ApprovesRun(2)]) == second
    ensures ApproveRun(b, 1) == Done(first) && ApproveRun(between, 2) == Done(second)
    ensures between.users == b.users && between.history == map[1 := HALVES, 2 := WHOLE]
    ensures between.runs == map[1 := FIRST_HALF.(state := Approved), 2 := MONTH]
  {
    b := EMPTY.(users := map[ANA := INSIDER], history := map[1 := HALVES], runs := map[1 := FIRST_HALF]);
    Opened(b);
    ApprovingIsDone(b, 1);
    first := After(b, [ApprovesRun(1)]);
    SecondEnding(b, first);
    Goes(first);
    between := After(first, BETWEEN);
    ApprovingIsDone(between, 2);
    second := After(between, [ApprovesRun(2)]);
  }

  lemma BothArePaid(b: Books, first: Books, between: Books, second: Books)
    requires Valid(b) && ApproveRun(b, 1) == Done(first) && AllAdmissible(first, BETWEEN)
    requires After(first, BETWEEN) == between && ApproveRun(between, 2) == Done(second)
    requires 1 in b.runs && b.runs[1] == FIRST_HALF && IsPayee(b, FIRST_HALF, ANA) && IsPayee(between, MONTH, ANA)
    requires between.runs == map[1 := FIRST_HALF.(state := Approved), 2 := MONTH]
    ensures PaidTwice.BothPay(second, 1, 2, ANA)
  {
    ApprovalChangesState(between, second, 2);
    PaidTwice.PaidTwiceExactlyWhen(b, 1, first, BETWEEN, 2, second, ANA);
  }

  /** The first half of the month is paid by both runs. */
  lemma PaidTwiceIsReached()
    ensures AllAdmissible(EMPTY, SECOND_STORY) && PaidTwice.BothPay(After(EMPTY, SECOND_STORY), 1, 2, ANA)
  {
    var b, first, between, second := SecondStages();
    EmptyIsValid();
    ReachableIsValid(EMPTY, OPENING);
    SecondStoryEnds(b, first, between, second);
    PaidByHalves(b);
    PaidByTheMonth(between);
    BothArePaid(b, first, between, second);
  }
}
