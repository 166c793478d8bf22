/**
 * Nobody is skipped and nobody is paid twice: who the draft runs of one last
 * day pay, and what the Compensation list counts (lib_finance/payroll.py,
 * `_draft_lines`; lib_finance/compensation.py, `list_compensation`).
 */
module Payees {
  import opened Prelude
  import opened Sql
  import opened Money
  import opened Tables
  import opened Totals
  import opened PayrollTypes
  import opened Compensation
  import opened Books

  /** The draft of one schedule for one last day, whatever its first day. */
  function DraftOf(schedule: PaySchedule, start: Day, end: Day): Run {
    Run(schedule, start, end, Draft, None)
  }

  ghost predicate PaidBy(b: Books, id: RunId, run: Run, user: UserId) {
    user in DraftLines(b, id, run) && !DraftLines(b, id, run)[user].Missing()
  }

  ghost predicate MissingFrom(b: Books, id: RunId, run: Run, user: UserId) {
    user in DraftLines(b, id, run) && DraftLines(b, id, run)[user].Missing()
  }

  /** On payroll with pay: paid on the draft of one schedule, and on no other line of any. */
  lemma PaidOnOneSchedule(b: Books, id: RunId, start: Day, end: Day, user: UserId)
    requires user in b.users && IsOnPayroll(b, user, end) && PayAt(b.history, user, end).Some?
    ensures var own := b.history[PayAt(b.history, user, end).value].schedule;
            forall schedule ::
              && (PaidBy(b, id, DraftOf(schedule, start, end), user) <==> schedule == own)
              && !MissingFrom(b, id, DraftOf(schedule, start, end), user)
  {
  }

  /** On payroll without pay: missing on the draft of every schedule. */
  lemma UnpaidMissingOnAll(b: Books, id: RunId, start: Day, end: Day, user: UserId)
    requires user in b.users && IsOnPayroll(b, user, end) && PayAt(b.history, user, end).None?
    ensures forall schedule :: MissingFrom(b, id, DraftOf(schedule, start, end), user)
  {
  }

  /** Everybody active is on a draft, or is named as left off with the reason. */
  lemma OnADraftOrLeftOff(b: Books, id: RunId, start: Day, end: Day, user: UserId)
    requires user in b.users && b.users[user].isActive
    ensures (exists schedule :: user in DraftLines(b, id, DraftOf(schedule, start, end))) <==>
            !Selected(NotOnPayroll(b.users[user], b.payrollTypes, PayAt(b.history, user, end).Some?))
  {
    var paid := PayAt(b.history, user, end);
    NobodySkipped(b.users[user], b.payrollTypes, paid.Some?);
    if paid.Some? && IsOnPayroll(b, user, end) {
      assert user in DraftLines(b, id, DraftOf(b.history[paid.value].schedule, start, end));
    } else if IsOnPayroll(b, user, end) {
      assert user in DraftLines(b, id, DraftOf(Monthly, start, end));
    }
  }

  // --- The Compensation list -------------------------------------------------------------

  /** What the page is narrowed to: the people a search found, a department, a currency. */
  datatype Narrowing = Narrowing(
    found: Option<set<UserId>>,
    department: Option<DepartmentId>,
    currency: Option<Currency>)

  predicate PaidIn(b: Books, day: Day, user: UserId, c: Currency) {
    exists id :: id in InEffect(b.history, day) && b.history[id].user == user && b.history[id].currency == c
  }

  /** The `WHERE` of the page. */
  predicate Listed(b: Books, day: Day, n: Narrowing, user: UserId)
    requires user in b.users
  {
    && IsOnPayroll(b, user, day)
    && (n.found.Some? ==> user in n.found.value)
    && (n.department.Some? ==> Selected(Equals(b.users[user].department, n.department.value)))
    && (n.currency.Some? ==> PaidIn(b, day, user, n.currency.value))
  }

  function People(b: Books, day: Day, n: Narrowing): set<UserId> {
    set user | user in b.users && Listed(b, day, n, user)
  }

  function Unpaid(b: Books, day: Day, people: set<UserId>): set<UserId> {
    set user | user in people && !exists id :: id in InEffect(b.history, day) && b.history[id].user == user
  }

  function Effective(b: Books, day: Day, people: set<UserId>): map<PayId, Pay> {
    map id | id in InEffect(b.history, day) && b.history[id].user in people :: b.history[id]
  }

  function PayAmounts(pays: map<PayId, Pay>): map<PayId, int> {
    map id | id in pays :: pays[id].amount
  }

  function PayCounts(pays: map<PayId, Pay>): map<PayId, int> {
    map id | id in pays :: 1
  }

  type PayGroup = (Currency, PaySchedule)

  function PayKey(pays: map<PayId, Pay>): map<PayId, PayGroup> {
    map id | id in pays :: (pays[id].currency, pays[id].schedule)
  }

  datatype CompensationPage = CompensationPage(
    total: int,
    missing: int,
    amounts: map<PayGroup, int>,
    people: map<PayGroup, int>)

  /** Those of `people` who are paid this way. */
  ghost function PaidThisWay(b: Books, day: Day, people: set<UserId>, g: PayGroup): set<UserId> {
    set user | user in people && PayAt(b.history, user, day).Some?
               && var pay := b.history[PayAt(b.history, user, day).value]; (pay.currency, pay.schedule) == g
  }

  ghost function PayOfEach(b: Books, day: Day, people: set<UserId>): map<UserId, int> {
    map user | user in people :: match PayAt(b.history, user, day)
                                 case None => 0
                                 case Some(id) => b.history[id].amount
  }

  /** A currency and schedule is listed if somebody is paid that way, with how
    * many people are and what they are paid together. */
  ghost predicate TotalSays(b: Books, day: Day, people: set<UserId>, page: CompensationPage, g: PayGroup) {
    && (g in page.amounts <==> PaidThisWay(b, day, people, g) != {})
    && (g in page.people <==> PaidThisWay(b, day, people, g) != {})
    && At(page.people, g) == |PaidThisWay(b, day, people, g)|
    && At(page.amounts, g) == Sum(PaidThisWay(b, day, people, g), PayOfEach(b, day, people))
  }

  /** `list_compensation`: everybody counted is in exactly one total or missing. */
  method ListCompensation(b: Books, day: Day, n: Narrowing) returns (page: CompensationPage)
    ensures page.total == |People(b, day, n)|
    ensures Total(page.people) + page.missing == page.total
    ensures forall g :: TotalSays(b, day, People(b, day, n), page, g)
  {
    var people := People(b, day, n);
    var pays := Effective(b, day, people);
    var amounts := GroupBy(PayAmounts(pays), PayKey(pays));
    var counts := GroupBy(PayCounts(pays), PayKey(pays));
    page := CompensationPage(|people|, |Unpaid(b, day, people)|, amounts, counts);
    EverybodyCounted(b, day, people);
    TotalSame(counts, GroupSums(PayCounts(pays), PayKey(pays)));
    GroupConserves(PayCounts(pays), PayKey(pays));
    forall g ensures TotalSays(b, day, people, page, g) {
      PayGroupSays(b, day, people, g);
      assert At(amounts, g) == At(GroupSums(PayAmounts(pays), PayKey(pays)), g);
      assert At(counts, g) == At(GroupSums(PayCounts(pays), PayKey(pays)), g);
    }
  }

  /** Whose each record in effect is. */
  ghost function Payee(pays: map<PayId, Pay>): map<PayId, UserId> {
    map id | id in pays :: pays[id].user
  }

  lemma InEffectIsPay(b: Books, day: Day, user: UserId, id: PayId)
    ensures PayAt(b.history, user, day) == Some(id) <==> id in InEffect(b.history, day) && b.history[id].user == user
  {
    PayAtLeads(b.history, user, day, id);
    InEffectLeads(b.history, day, id);
  }

  /** Everybody has one record in effect, or none. */
  lemma PaidOrUnpaid(b: Books, day: Day, people: set<UserId>)
    ensures var pays := Effective(b, day, people);
            var paid := Image(pays.Keys, Payee(pays));
            people == paid + Unpaid(b, day, people) && paid !! Unpaid(b, day, people)
  {
    var pays := Effective(b, day, people);
    var paid, unpaid := Image(pays.Keys, Payee(pays)), Unpaid(b, day, people);
    forall user: UserId
      ensures user in people <==> user in paid || user in unpaid
      ensures !(user in paid && user in unpaid)
    {
      if user in people && user !in unpaid {
        var id :| id in InEffect(b.history, day) && b.history[id].user == user;
        assert Payee(pays)[id] == user;
      }
    }
  }

  /** Counting records in effect counts the people paid by them. */
  lemma RecordsArePeople(b: Books, day: Day, people: set<UserId>)
    ensures var pays := Effective(b, day, people);
            Total(PayCounts(pays)) == |Image(pays.Keys, Payee(pays))|
  {
    var pays := Effective(b, day, people);
    OneInEffect(b.history, day);
    SumOnes(pays.Keys, PayCounts(pays));
    OneToOne(pays.Keys, Payee(pays));
    assert PayCounts(pays).Keys == pays.Keys;
  }

  lemma EverybodyCounted(b: Books, day: Day, people: set<UserId>)
    ensures Total(PayCounts(Effective(b, day, people))) + |Unpaid(b, day, people)| == |people|
  {
    RecordsArePeople(b, day, people);
    PaidOrUnpaid(b, day, people);
  }

  lemma PayGroupSays(b: Books, day: Day, people: set<UserId>, g: PayGroup)
    ensures var pays := Effective(b, day, people);
            var amounts, counts := GroupSums(PayAmounts(pays), PayKey(pays)), GroupSums(PayCounts(pays), PayKey(pays));
            && (g in amounts <==> PaidThisWay(b, day, people, g) != {})
            && (g in counts <==> PaidThisWay(b, day, people, g) != {})
            && At(counts, g) == |PaidThisWay(b, day, people, g)|
            && At(amounts, g) == Sum(PaidThisWay(b, day, people, g), PayOfEach(b, day, people))
  {
    var pays := Effective(b, day, people);
    var fibre := Fibre(pays.Keys, PayKey(pays), g);
    GroupIsFibre(pays, PayAmounts(pays), g);
    GroupIsFibre(pays, PayCounts(pays), g);
    SumOnes(fibre, PayCounts(pays));
    FibrePays(b, day, people, g, fibre);
  }

  lemma GroupIsFibre(pays: map<PayId, Pay>, m: map<PayId, int>, g: PayGroup)
    requires m.Keys == pays.Keys
    ensures At(GroupSums(m, PayKey(pays)), g) == Sum(Fibre(pays.Keys, PayKey(pays), g), m)
    ensures g in GroupSums(m, PayKey(pays)) <==> Fibre(pays.Keys, PayKey(pays), g) != {}
  {
    AtGroup(m, PayKey(pays), g);
    GroupHasRows(m, PayKey(pays), g);
  }

  /** The records in effect of a group and the people they pay are one to one. */
  lemma FibrePays(b: Books, day: Day, people: set<UserId>, g: PayGroup, fibre: set<PayId>)
    requires fibre == Fibre(Effective(b, day, people).Keys, PayKey(Effective(b, day, people)), g)
    ensures |fibre| == |PaidThisWay(b, day, people, g)|
    ensures fibre != {} <==> PaidThisWay(b, day, people, g) != {}
    ensures Sum(fibre, PayAmounts(Effective(b, day, people)))
            == Sum(PaidThisWay(b, day, people, g), PayOfEach(b, day, people))
  {
    var pays, mine := Effective(b, day, people), PaidThisWay(b, day, people, g);
    PaidByFibre(b, day, people, g, fibre);
    OneInEffect(b.history, day);
    OneToOne(fibre, Payee(pays));
    forall id: PayId | id in fibre
      ensures Payee(pays)[id] in people && PayOfEach(b, day, people)[Payee(pays)[id]] == PayAmounts(pays)[id]
    {
      InEffectIsPay(b, day, b.history[id].user, id);
    }
    SumImage(fibre, Payee(pays), PayAmounts(pays), PayOfEach(b, day, people));
    assert fibre != {} <==> |fibre| > 0;
  }

  lemma PaidByFibre(b: Books, day: Day, people: set<UserId>, g: PayGroup, fibre: set<PayId>)
    requires fibre == Fibre(Effective(b, day, people).Keys, PayKey(Effective(b, day, people)), g)
    ensures PaidThisWay(b, day, people, g) == Image(fibre, Payee(Effective(b, day, people)))
  {
    var pays := Effective(b, day, people);
    forall user: UserId ensures user in PaidThisWay(b, day, people, g) <==> user in Image(fibre, Payee(pays)) {
      if user in PaidThisWay(b, day, people, g) {
        var id := PayAt(b.history, user, day).value;
        InEffectIsPay(b, day, user, id);
        assert id in fibre && Payee(pays)[id] == user;
      }
      if user in Image(fibre, Payee(pays)) {
        var id :| id in fibre && Payee(pays)[id] == user;
        InEffectIsPay(b, day, user, id);
      }
    }
  }
}
