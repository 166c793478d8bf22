/**
 * The payroll report (lib_finance/reports.py, `payroll`): month by month what
 * approved runs cost per currency and how many people they paid, and why it
 * cannot disagree with the budgets' actuals.
 */
module Reports {
  import opened Prelude
  import opened Money
  import opened Tables
  import opened Totals
  import opened Calendar
  import opened Books
  import opened Invariants
  import opened History
  import opened Budgets

  datatype MonthCost = MonthCost(amount: int, people: int)

  datatype PayrollMonth = PayrollMonth(
    month: Day,
    runs: int,
    draftRuns: int,
    headcount: int,
    costs: map<Currency, MonthCost>)

  datatype PayrollReport = PayrollReport(begins: Option<Day>, months: seq<PayrollMonth>)

  // --- What a month of the report says -------------------------------------------------

  /** The calendar month that starts on `month`. */
  function MonthPeriod(month: Day): Period {
    Period(month, AddMonths(month, 1) - 1)
  }

  ghost function MonthRows(b: Books, month: Day): map<LineKey, Fact> {
    ApprovedLines(b, MonthPeriod(month))
  }

  ghost function People(keys: set<LineKey>): set<UserId> {
    set key | key in keys :: key.1
  }

  /** What the rows in one currency add up to. */
  ghost function CurrencySpent<K(!new)>(facts: map<K, Fact>, c: Currency): int {
    Sum(InCurrency(facts, c), AmountsOf(facts))
  }

  ghost function RunsEnding(b: Books, month: Day, draft: bool): set<RunId> {
    set r | r in b.runs && FirstOf(b.runs[r].end) == month && (b.runs[r].state == Draft) == draft
  }

  /** A currency is listed if some line was paid in it, with the lines' sum and
    * the number of people they paid. */
  ghost predicate CostSays(rows: map<LineKey, Fact>, costs: map<Currency, MonthCost>, c: Currency) {
    && (c in costs <==> InCurrency(rows, c) != {})
    && (c in costs ==> costs[c] == MonthCost(CurrencySpent(rows, c), |People(InCurrency(rows, c))|))
  }

  /** A month's page: runs ending in it, people paid in it, and costs. */
  ghost predicate MonthSays(b: Books, m: PayrollMonth) {
    && m.runs == |RunsEnding(b, m.month, false)|
    && m.draftRuns == |RunsEnding(b, m.month, true)|
    && m.headcount == |People(MonthRows(b, m.month).Keys)|
    && forall c :: CostSays(MonthRows(b, m.month), m.costs, c)
  }

  // --- The window -------------------------------------------------------------------------

  predicate Settled(b: Books, r: RunId) {
    r in b.runs && b.runs[r].state != Draft
  }

  /** The first and the last day an approved run ends on. */
  ghost predicate Spans(b: Books, first: Day, last: Day) {
    && (exists r :: Settled(b, r) && b.runs[r].end == first)
    && (exists r :: Settled(b, r) && b.runs[r].end == last)
    && forall r | Settled(b, r) :: first <= b.runs[r].end <= last
  }

  /** The month the report ends with: this one, or the one an approved run reaches. */
  ghost predicate Latest(b: Books, today: Day, begins: Day, until: Day) {
    exists first, last ::
      Spans(b, first, last) && begins == FirstOf(first) && until == Later(FirstOf(today), FirstOf(last))
  }

  function Later(a: Day, b: Day): Day {
    if a >= b then a else b
  }

  /** `SELECT min(period_end), max(period_end)` of the approved runs. */
  method ApprovedEnds(b: Books) returns (ends: Option<(Day, Day)>)
    ensures match ends
            case None => forall r :: !Settled(b, r)
            case Some(e) => Spans(b, e.0, e.1)
  {
    ends := None;
    var todo := b.runs.Keys;
    while todo != {}
      invariant todo <= b.runs.Keys
      invariant ends.None? ==> forall r | Settled(b, r) :: r in todo
      invariant ends.Some? ==>
        && (exists r :: Settled(b, r) && b.runs[r].end == ends.value.0)
        && (exists r :: Settled(b, r) && b.runs[r].end == ends.value.1)
        && forall r | Settled(b, r) && r !in todo :: ends.value.0 <= b.runs[r].end <= ends.value.1
      decreases todo
    {
      var r: RunId := Pick(todo);
      todo := todo - {r};
      var end := b.runs[r].end;
      if b.runs[r].state != Draft {
        assert Settled(b, r);
        match ends {
          case None => ends := Some((end, end));
          case Some(e) => ends := Some((if end < e.0 then end else e.0, Later(e.1, end)));
        }
      }
    }
  }

  // --- The queries ------------------------------------------------------------------------

  type YearMonth = (int, int)
  type CostGroup = (int, int, Currency)

  function MonthKey(rows: map<LineKey, Fact>): map<LineKey, YearMonth> {
    map k | k in rows :: (Year(rows[k].day), Month(rows[k].day))
  }

  function CostKey(rows: map<LineKey, Fact>): map<LineKey, CostGroup> {
    map k | k in rows :: (Year(rows[k].day), Month(rows[k].day), rows[k].currency)
  }

  function GroupsOf<G>(rows: map<LineKey, Fact>, key: map<LineKey, G>): set<G>
    requires rows.Keys <= key.Keys
  {
    set k | k in rows :: key[k]
  }

  function PeopleIn<G(==)>(rows: map<LineKey, Fact>, key: map<LineKey, G>, g: G): set<UserId>
    requires rows.Keys <= key.Keys
  {
    set k | k in rows && key[k] == g :: k.1
  }

  /** `count(distinct user_id) ... GROUP BY key`. */
  function Distinct<G>(rows: map<LineKey, Fact>, key: map<LineKey, G>): map<G, int>
    requires rows.Keys <= key.Keys
  {
    map g | g in GroupsOf(rows, key) :: |PeopleIn(rows, key, g)|
  }

  /** The rows of the months from `start` to `until`. */
  function WindowRows(b: Books, start: Day, until: Day): map<LineKey, Fact> {
    ApprovedLines(b, Period(start, AddMonths(until, 1) - 1))
  }

  /** A month inside the window has the same rows there as on its own. */
  lemma MonthInWindow(b: Books, start: Day, until: Day, month: Day)
    requires IsFirst(start) && IsFirst(until) && IsFirst(month) && start <= month <= until
    ensures MonthRows(b, month).Keys
            == Fibre(WindowRows(b, start, until).Keys, MonthKey(WindowRows(b, start, until)),
                     (Year(month), Month(month)))
    ensures forall k | k in MonthRows(b, month) ::
              k in WindowRows(b, start, until) && WindowRows(b, start, until)[k] == MonthRows(b, month)[k]
  {
    var rows := WindowRows(b, start, until);
    MonthsNest(month, until);
    forall k: LineKey
      ensures k in MonthRows(b, month) <==> k in rows && MonthKey(rows)[k] == (Year(month), Month(month))
    {
      if CountedLine(b, k) { MonthSpans(month, LineFact(b, k).day); }
    }
  }

  lemma MonthsNest(month: Day, until: Day)
    requires IsFirst(month) && IsFirst(until) && month <= until
    ensures AddMonths(month, 1) <= AddMonths(until, 1)
  {
  }

  // --- Each month from the answers ------------------------------------------------------------

  /** The database's answers for one window. */
  datatype Answers = Answers(headcount: map<YearMonth, int>, amounts: map<CostGroup, int>, people: map<CostGroup, int>)

  ghost predicate Answered(rows: map<LineKey, Fact>, a: Answers) {
    && a.headcount == Distinct(rows, MonthKey(rows))
    && Same(a.amounts, GroupSums(AmountsOf(rows), CostKey(rows)))
    && a.people == Distinct(rows, CostKey(rows))
  }

  /** `costs[month]`, which the page fills by appending each row of the answer. */
  ghost predicate CostsIn(a: Answers, month: Day, costs: map<Currency, MonthCost>, todo: set<CostGroup>) {
    forall c :: var g := (Year(month), Month(month), c);
                && (c in costs <==> g in a.amounts && g !in todo)
                && (c in costs ==> costs[c] == MonthCost(At(a.amounts, g), At(a.people, g)))
  }

  function CostsOf(costs: map<Day, map<Currency, MonthCost>>, month: Day): map<Currency, MonthCost> {
    if month in costs then costs[month] else map[]
  }

  ghost predicate AllCostsIn(a: Answers, costs: map<Day, map<Currency, MonthCost>>, todo: set<CostGroup>) {
    forall month | IsFirst(month) :: CostsIn(a, month, CostsOf(costs, month), todo)
  }

  ghost predicate ProperGroups(a: Answers) {
    && a.people.Keys == a.amounts.Keys
    && forall g | g in a.amounts :: 1 <= g.1 <= 12
  }

  lemma AddCost(a: Answers, costs: map<Day, map<Currency, MonthCost>>, todo: set<CostGroup>, g: CostGroup)
    requires ProperGroups(a) && AllCostsIn(a, costs, todo) && g in todo && g in a.amounts
    ensures var m := DateOf(g.0, g.1, 1);
            AllCostsIn(a, costs[m := CostsOf(costs, m)[g.2 := MonthCost(At(a.amounts, g), At(a.people, g))]],
              todo - {g})
  {
    var m := DateOf(g.0, g.1, 1);
    DateReadsBack(g.0, g.1, 1);
    var next := costs[m := CostsOf(costs, m)[g.2 := MonthCost(At(a.amounts, g), At(a.people, g))]];
    forall month | IsFirst(month) ensures CostsIn(a, month, CostsOf(next, month), todo - {g}) {
      assert CostsIn(a, month, CostsOf(costs, month), todo);
      if Year(month) == g.0 && Month(month) == g.1 {
        assert month == m && g == (Year(month), Month(month), g.2);
      }
    }
  }

  method Costs(a: Answers) returns (costs: map<Day, map<Currency, MonthCost>>)
    requires ProperGroups(a)
    ensures AllCostsIn(a, costs, {})
  {
    costs := map[];
    var todo := a.amounts.Keys;
    while todo != {}
      invariant todo <= a.amounts.Keys && AllCostsIn(a, costs, todo)
      decreases todo
    {
      var g := Pick(todo);
      AddCost(a, costs, todo, g);
      var m := DateOf(g.0, g.1, 1);
      costs := costs[m := CostsOf(costs, m)[g.2 := MonthCost(At(a.amounts, g), At(a.people, g))]];
      todo := todo - {g};
    }
  }

  lemma GroupsAreProper(rows: map<LineKey, Fact>, a: Answers)
    requires Answered(rows, a)
    ensures ProperGroups(a)
  {
    var key := CostKey(rows);
    forall g: CostGroup ensures g in a.people <==> g in a.amounts {}
    forall g | g in a.amounts ensures 1 <= g.1 <= 12 {
      var k :| k in rows && key[k] == g;
    }
  }

  /** The group of a month and currency is that month's rows in that currency. */
  lemma CostGroupRows(rows: map<LineKey, Fact>, mine: map<LineKey, Fact>, month: Day, c: Currency)
    requires mine.Keys == Fibre(rows.Keys, MonthKey(rows), (Year(month), Month(month)))
    requires forall k | k in mine :: k in rows && rows[k] == mine[k]
    ensures Fibre(rows.Keys, CostKey(rows), (Year(month), Month(month), c)) == InCurrency(mine, c)
    ensures PeopleIn(rows, CostKey(rows), (Year(month), Month(month), c)) == People(InCurrency(mine, c))
    ensures PeopleIn(rows, MonthKey(rows), (Year(month), Month(month))) == People(mine.Keys)
  {
    var group, fibre := (Year(month), Month(month), c), InCurrency(mine, c);
    forall k: LineKey ensures k in Fibre(rows.Keys, CostKey(rows), group) <==> k in fibre {}
    forall u: UserId ensures u in PeopleIn(rows, CostKey(rows), group) <==> u in People(fibre) {
      if u in PeopleIn(rows, CostKey(rows), group) {
        var k :| k in rows && CostKey(rows)[k] == group && k.1 == u;
        assert k in fibre;
      }
      if u in People(fibre) {
        var k :| k in fibre && k.1 == u;
        assert CostKey(rows)[k] == group;
      }
    }
    forall u: UserId
      ensures u in PeopleIn(rows, MonthKey(rows), (Year(month), Month(month))) <==> u in People(mine.Keys)
    {
      if u in PeopleIn(rows, MonthKey(rows), (Year(month), Month(month))) {
        var k :| k in rows && MonthKey(rows)[k] == (Year(month), Month(month)) && k.1 == u;
        assert k in mine;
      }
      if u in People(mine.Keys) {
        var k :| k in mine && k.1 == u;
        assert MonthKey(rows)[k] == (Year(month), Month(month));
      }
    }
  }

  lemma MonthAnswered(rows: map<LineKey, Fact>, mine: map<LineKey, Fact>, a: Answers, month: Day,
                      costs: map<Currency, MonthCost>, c: Currency)
    requires Answered(rows, a) && CostsIn(a, month, costs, {})
    requires mine.Keys == Fibre(rows.Keys, MonthKey(rows), (Year(month), Month(month)))
    requires forall k | k in mine :: k in rows && rows[k] == mine[k]
    ensures CostSays(mine, costs, c)
  {
    var g := (Year(month), Month(month), c);
    CostGroupRows(rows, mine, month, c);
    CostAnswered(rows, a, g);
    SumSame(InCurrency(mine, c), AmountsOf(mine), AmountsOf(rows));
  }

  lemma CostAnswered(rows: map<LineKey, Fact>, a: Answers, g: CostGroup)
    requires Answered(rows, a)
    ensures At(a.amounts, g) == Sum(Fibre(rows.Keys, CostKey(rows), g), AmountsOf(rows))
    ensures g in a.amounts <==> Fibre(rows.Keys, CostKey(rows), g) != {}
    ensures g in a.amounts ==> At(a.people, g) == |PeopleIn(rows, CostKey(rows), g)|
  {
    AtGroup(AmountsOf(rows), CostKey(rows), g);
    assert AmountsOf(rows).Keys == rows.Keys;
    if g in a.amounts {
      var k :| k in rows && CostKey(rows)[k] == g;
      assert k in Fibre(rows.Keys, CostKey(rows), g);
    }
    if Fibre(rows.Keys, CostKey(rows), g) != {} {
      var k := Any(Fibre(rows.Keys, CostKey(rows), g));
      assert CostKey(rows)[k] == g;
    }
  }

  lemma HeadcountAnswered(rows: map<LineKey, Fact>, mine: map<LineKey, Fact>, a: Answers, month: Day)
    requires Answered(rows, a)
    requires mine.Keys == Fibre(rows.Keys, MonthKey(rows), (Year(month), Month(month)))
    requires forall k | k in mine :: k in rows && rows[k] == mine[k]
    ensures At(a.headcount, (Year(month), Month(month))) == |People(mine.Keys)|
  {
    var g := (Year(month), Month(month));
    CostGroupRows(rows, mine, month, Currency(""));
    if mine.Keys == {} {
      assert People(mine.Keys) == {} && PeopleIn(rows, MonthKey(rows), g) == {};
    } else {
      var k := Any(mine.Keys);
      assert MonthKey(rows)[k] == g;
    }
  }

  // --- Runs and drafts per month ---------------------------------------------------------------

  type RunGroup = (int, int, RunState)

  function RunsInWindow(b: Books, start: Day, until: Day): map<RunId, int> {
    map r | r in b.runs && start <= b.runs[r].end < AddMonths(until, 1) :: 1
  }

  function StateKey(b: Books, rows: map<RunId, int>): map<RunId, RunGroup> {
    map r | r in rows && r in b.runs :: (Year(b.runs[r].end), Month(b.runs[r].end), b.runs[r].state)
  }

  /** Which dictionary a row of the answer is added into, and under which month. */
  function BucketOf(g: RunGroup): (Day, bool) {
    (DateOf(g.0, g.1, 1), g.2 == Draft)
  }

  function Bucket(groups: set<RunGroup>): map<RunGroup, (Day, bool)> {
    map g | g in groups :: BucketOf(g)
  }

  /** `runs` and `drafts`, as one dictionary of both. */
  method RunCounts(b: Books, start: Day, until: Day) returns (counts: map<(Day, bool), int>)
    requires IsFirst(start) && IsFirst(until)
    ensures forall month, draft | IsFirst(month) && start <= month <= until ::
              At(counts, (month, draft)) == |RunsEnding(b, month, draft)|
  {
    var rows := RunsInWindow(b, start, until);
    var answer := GroupBy(rows, StateKey(b, rows));
    counts := GroupBy(answer, Bucket(answer.Keys));
    forall month, draft | IsFirst(month) && start <= month <= until
      ensures At(counts, (month, draft)) == |RunsEnding(b, month, draft)|
    {
      RunsCounted(b, start, until, month, draft);
      assert answer == GroupSums(rows, StateKey(b, rows));
      assert At(counts, (month, draft)) == At(GroupSums(answer, Bucket(answer.Keys)), (month, draft));
    }
  }

  lemma RunsCounted(b: Books, start: Day, until: Day, month: Day, draft: bool)
    requires IsFirst(start) && IsFirst(until) && IsFirst(month) && start <= month <= until
    ensures var rows := RunsInWindow(b, start, until);
            var answer := GroupSums(rows, StateKey(b, rows));
            At(GroupSums(answer, Bucket(answer.Keys)), (month, draft)) == |RunsEnding(b, month, draft)|
  {
    var rows := RunsInWindow(b, start, until);
    var inner := StateKey(b, rows);
    var answer := GroupSums(rows, inner);
    var outer := Bucket(answer.Keys);
    assert inner.Keys == rows.Keys;
    MonthsNest(month, until);
    forall r: RunId ensures r in RunsEnding(b, month, draft) <==> r in rows && BucketOf(inner[r]) == (month, draft) {
      if r in b.runs {
        MonthSpans(month, b.runs[r].end);
        FirstIsFirst(b.runs[r].end);
      }
    }
    forall r | r in inner ensures inner[r] in outer { assert inner[r] in Groups(rows.Keys, inner); }
    RegroupAt(rows, inner, outer, (month, draft), RunsEnding(b, month, draft));
    SumOnes(RunsEnding(b, month, draft), rows);
  }

  // --- The report ---------------------------------------------------------------------------------

  /** How many months there are to list: all, or the last `months` of them. */
  function Listed(all: int, months: Option<int>): int {
    match months
    case None => all
    case Some(n) => if n <= 0 then 0 else if n < all then n else all
  }

  ghost predicate MonthsSay(b: Books, months: seq<PayrollMonth>) {
    forall i | 0 <= i < |months| :: MonthSays(b, months[i])
  }

  /** One month after another, the last of them `until`. */
  ghost predicate EndsWith(months: seq<PayrollMonth>, until: Day) {
    forall i | 0 <= i < |months| :: months[i].month == AddMonths(until, i + 1 - |months|)
  }

  ghost predicate ReportSays(b: Books, months: Option<int>, until: Day, report: PayrollReport) {
    match report.begins
    case None => report.months == [] && forall r :: !Settled(b, r)
    case Some(begins) =>
      && |report.months| == Listed(MonthsBetween(begins, until) + 1, months)
      && EndsWith(report.months, until) && MonthsSay(b, report.months)
  }

  /** Everything the page looks up month by month. */
  datatype Pages = Pages(
    counts: map<(Day, bool), int>,
    headcount: map<YearMonth, int>,
    costs: map<Day, map<Currency, MonthCost>>)

  function Page(p: Pages, month: Day): PayrollMonth {
    PayrollMonth(month, At(p.counts, (month, false)), At(p.counts, (month, true)),
                 At(p.headcount, (Year(month), Month(month))), CostsOf(p.costs, month))
  }

  method Query(b: Books, start: Day, until: Day) returns (p: Pages)
    requires IsFirst(start) && IsFirst(until)
    ensures forall month | IsFirst(month) && start <= month <= until :: MonthSays(b, Page(p, month))
  {
    var counts := RunCounts(b, start, until);
    var rows := WindowRows(b, start, until);
    var amounts := GroupBy(AmountsOf(rows), CostKey(rows));
    var a := Answers(Distinct(rows, MonthKey(rows)), amounts, Distinct(rows, CostKey(rows)));
    GroupsAreProper(rows, a);
    var costs := Costs(a);
    p := Pages(counts, a.headcount, costs);
    forall month | IsFirst(month) && start <= month <= until ensures MonthSays(b, Page(p, month)) {
      PageSays(b, start, until, a, p, month);
    }
  }

  lemma PageSays(b: Books, start: Day, until: Day, a: Answers, p: Pages, month: Day)
    requires IsFirst(start) && IsFirst(until) && IsFirst(month) && start <= month <= until
    requires Answered(WindowRows(b, start, until), a) && AllCostsIn(a, p.costs, {}) && p.headcount == a.headcount
    requires forall draft :: At(p.counts, (month, draft)) == |RunsEnding(b, month, draft)|
    ensures MonthSays(b, Page(p, month))
  {
    var rows, mine := WindowRows(b, start, until), MonthRows(b, month);
    MonthInWindow(b, start, until, month);
    HeadcountAnswered(rows, mine, a, month);
    var costs := CostsOf(p.costs, month);
    forall c ensures CostSays(mine, costs, c) {
      MonthAnswered(rows, mine, a, month, costs, c);
    }
  }

  /** The first month listed. */
  function Start(begins: Day, until: Day, months: Option<int>): Day {
    match months
    case None => begins
    case Some(n) => Later(begins, AddMonths(until, 1 - n))
  }

  /** The first of the last `n` months up to `until`. */
  lemma LastMonths(begins: Day, until: Day, n: int)
    requires IsFirst(begins) && IsFirst(until)
    ensures var first := AddMonths(until, 1 - n);
            && IsFirst(first) && MonthsBetween(first, until) == n - 1
            && (first <= until <==> n >= 1)
            && (begins <= first <==> MonthsBetween(begins, until) >= n - 1)
  {
    var first := AddMonths(until, 1 - n);
    AddMonthsMoves(until, 1 - n);
    MonthsBack(until, first);
    FirstsInOrder(first, until);
    FirstsInOrder(begins, first);
    MonthsChain(begins, first, until);
  }

  lemma MonthsBack(a: Day, b: Day)
    ensures MonthsBetween(b, a) == -MonthsBetween(a, b)
  {
  }

  lemma MonthsChain(a: Day, b: Day, c: Day)
    ensures MonthsBetween(a, c) == MonthsBetween(a, b) + MonthsBetween(b, c)
  {
  }

  lemma WindowLength(begins: Day, until: Day, months: Option<int>)
    requires IsFirst(begins) && IsFirst(until) && begins <= until
    ensures var start := Start(begins, until, months);
            && IsFirst(start) && begins <= start
            && Listed(MonthsBetween(begins, until) + 1, months)
               == (if start <= until then MonthsBetween(start, until) + 1 else 0)
  {
    FirstsInOrder(begins, until);
    if months.Some? { LastMonths(begins, until, months.value); }
  }

  /** The loop's list so far: the months from `start` up to, not including, `month`. */
  ghost predicate ListedTo(b: Books, months: seq<PayrollMonth>, start: Day, month: Day) {
    && IsFirst(month) && month == AddMonths(start, |months|)
    && (forall i | 0 <= i < |months| :: months[i].month == AddMonths(start, i))
    && MonthsSay(b, months)
  }

  lemma ListNext(b: Books, months: seq<PayrollMonth>, start: Day, month: Day, next: PayrollMonth)
    requires IsFirst(start) && ListedTo(b, months, start, month) && next.month == month && MonthSays(b, next)
    ensures ListedTo(b, months + [next], start, AddMonths(month, 1)) && month < AddMonths(month, 1)
  {
    AddMonthsAdds(start, |months|, 1);
    AddMonthsMoves(month, 1);
    MonthSpans(month, month);
  }

  lemma ListDone(b: Books, months: seq<PayrollMonth>, start: Day, until: Day, month: Day)
    requires IsFirst(start) && IsFirst(until) && ListedTo(b, months, start, month) && until < month
    requires start <= until ==> month <= AddMonths(until, 1)
    requires start > until ==> months == []
    ensures |months| == if start <= until then MonthsBetween(start, until) + 1 else 0
    ensures EndsWith(months, until)
  {
    if start <= until {
      AddMonthsMoves(start, |months|);
      AddMonthsMoves(until, 1);
      FirstsInOrder(month, AddMonths(until, 1));
      FirstsInOrder(until, month);
      FirstsInOrder(start, until);
      forall i | 0 <= i < |months| ensures months[i].month == AddMonths(until, i + 1 - |months|) {
        AddMonthsAdds(start, MonthsBetween(start, until), i + 1 - |months|);
      }
    }
  }

  lemma WindowFound(b: Books, today: Day, months: Option<int>, first: Day, last: Day)
    requires Spans(b, first, last)
    ensures var begins, until := FirstOf(first), Later(FirstOf(today), FirstOf(last));
            var start := Start(begins, until, months);
            && IsFirst(begins) && IsFirst(until) && IsFirst(start) && begins <= until && begins <= start
            && Latest(b, today, begins, until)
            && Listed(MonthsBetween(begins, until) + 1, months)
               == (if start <= until then MonthsBetween(start, until) + 1 else 0)
            && ListedTo(b, [], start, start)
  {
    FirstIsFirst(first);
    FirstIsFirst(last);
    FirstIsFirst(today);
    FirstsInOrder(FirstOf(first), FirstOf(last));
    WindowLength(FirstOf(first), Later(FirstOf(today), FirstOf(last)), months);
    MonthsGoOn(Start(FirstOf(first), Later(FirstOf(today), FirstOf(last)), months), 0);
  }

  ghost predicate Listing(b: Books, report: PayrollReport, begins: Day, start: Day, until: Day, month: Day) {
    && report.begins == Some(begins) && ListedTo(b, report.months, start, month)
    && if start <= until then start <= month <= AddMonths(until, 1) else report.months == [] && month == start
  }

  lemma ListOne(b: Books, report: PayrollReport, begins: Day, start: Day, until: Day, month: Day, next: PayrollMonth)
    requires IsFirst(start) && IsFirst(until) && Listing(b, report, begins, start, until, month) && month <= until
    requires next.month == month && MonthSays(b, next)
    ensures Listing(b, PayrollReport(report.begins, report.months + [next]), begins, start, until, AddMonths(month, 1))
    ensures month < AddMonths(month, 1)
  {
    ListNext(b, report.months, start, month, next);
    MonthsNest(month, until);
  }

  /** The loop of `payroll`, one page for every month from `start` up to `until`. */
  method ListMonths(b: Books, begins: Day, start: Day, until: Day)
      returns (months: seq<PayrollMonth>, ghost month: Day)
    requires IsFirst(start) && IsFirst(until)
             && Listing(b, PayrollReport(Some(begins), []), begins, start, until, start)
    ensures Listing(b, PayrollReport(Some(begins), months), begins, start, until, month) && month > until
  {
    var pages := Query(b, start, until);
    months := [];
    var next := start;
    while next <= until
      invariant Listing(b, PayrollReport(Some(begins), months), begins, start, until, next)
      decreases until - next
    {
      var page := Page(pages, next);
      ListOne(b, PayrollReport(Some(begins), months), begins, start, until, next, page);
      months := months + [page];
      next := AddMonths(next, 1);
    }
    month := next;
  }

  /**
   * `payroll`: from the first approved run's month, or the last `months`
   * months, one page for every month in order, up to the latest.
   */
  method Payroll(b: Books, today: Day, months: Option<int>) returns (report: PayrollReport, until: Day)
    ensures ReportSays(b, months, until, report)
    ensures report.begins.Some? ==> Latest(b, today, report.begins.value, until)
  {
    var ends := ApprovedEnds(b);
    if ends == None { return PayrollReport(None, []), FirstOf(today); }
    var begins := FirstOf(ends.value.0);
    until := Later(FirstOf(today), FirstOf(ends.value.1));
    var start := Start(begins, until, months);
    WindowFound(b, today, months, ends.value.0, ends.value.1);
    var listed, month := ListMonths(b, begins, start, until);
    ListDone(b, listed, start, until, month);
    report := PayrollReport(Some(begins), listed);
  }

  // --- Report and budget cannot disagree ------------------------------------------------------------

  function CostAmount(m: PayrollMonth, c: Currency): int {
    if c in m.costs then m.costs[c].amount else 0
  }

  /** The payroll part of an actual. */
  ghost function PayrollActual(b: Books, p: Period, cell: Cell): int {
    Spent(ApprovedLines(b, p), cell)
  }

  /**
   * A month's cost in a currency is the payroll part of the actuals over that
   * calendar month, added up over all departments and Unattributed.
   */
  lemma CostIsTheActuals(b: Books, m: PayrollMonth, c: Currency, actuals: map<Cell, int>)
    requires MonthSays(b, m)
    requires actuals.Keys == Departments(MonthRows(b, m.month), c)
    requires forall cell | cell in actuals :: actuals[cell] == PayrollActual(b, MonthPeriod(m.month), cell)
    ensures CostAmount(m, c) == Total(actuals)
  {
    CostIs(b, m, c);
    SpendIsConserved(MonthRows(b, m.month), c, actuals);
  }

  /** Everything approved so far. */
  ghost function FrozenSpent(b: Books, c: Currency): int {
    Sum(set key | key in b.lines && CountedLine(b, key) && LineFact(b, key).currency == c,
        map key | key in b.lines && CountedLine(b, key) :: LineFact(b, key).amount)
  }

  ghost function CostsTogether(months: seq<PayrollMonth>, c: Currency): int {
    if months == [] then 0 else CostsTogether(months[..|months| - 1], c) + CostAmount(months[|months| - 1], c)
  }

  lemma CurrencySplits(whole: map<LineKey, Fact>, left: map<LineKey, Fact>, right: map<LineKey, Fact>, c: Currency)
    requires forall k :: AddsAt(left, right, whole, k)
    ensures CurrencySpent(whole, c) == CurrencySpent(left, c) + CurrencySpent(right, c)
  {
    forall k: LineKey
      ensures k in InCurrency(whole, c) <==> k in InCurrency(left, c) || k in InCurrency(right, c)
      ensures !(k in InCurrency(left, c) && k in InCurrency(right, c))
      ensures k in left ==> k in whole && left[k] == whole[k]
      ensures k in right ==> k in whole && right[k] == whole[k]
    {
      assert AddsAt(left, right, whole, k);
    }
    assert InCurrency(whole, c) == InCurrency(left, c) + InCurrency(right, c);
    SumUnion(InCurrency(left, c), InCurrency(right, c), AmountsOf(whole));
    SumSame(InCurrency(left, c), AmountsOf(left), AmountsOf(whole));
    SumSame(InCurrency(right, c), AmountsOf(right), AmountsOf(whole));
  }

  /** Everything approved that ended from `start` to the day before `next`. */
  ghost function SpentBefore(b: Books, start: Day, next: Day, c: Currency): int {
    CurrencySpent(ApprovedLines(b, Period(start, next - 1)), c)
  }

  /** A longer period: its rows are just those it gains. */
  lemma PeriodExtends(b: Books, start: Day, mid: Day, next: Day, c: Currency)
    requires start <= mid <= next
    ensures SpentBefore(b, start, next, c) == SpentBefore(b, start, mid, c) + SpentBefore(b, mid, next, c)
  {
    var whole, left, right := Period(start, next - 1), Period(start, mid - 1), Period(mid, next - 1);
    forall key: LineKey ensures AddsAt(ApprovedLines(b, left), ApprovedLines(b, right), ApprovedLines(b, whole), key) {}
    CurrencySplits(ApprovedLines(b, whole), ApprovedLines(b, left), ApprovedLines(b, right), c);
  }

  lemma CostIs(b: Books, m: PayrollMonth, c: Currency)
    requires MonthSays(b, m)
    ensures CostAmount(m, c) == CurrencySpent(MonthRows(b, m.month), c)
  {
    assert CostSays(MonthRows(b, m.month), m.costs, c);
  }

  /** The `i`th month's cost is what was approved in it. */
  ghost predicate Priced(b: Books, m: PayrollMonth, start: Day, i: nat, c: Currency) {
    CostAmount(m, c) == SpentBefore(b, AddMonths(start, i), AddMonths(start, i + 1), c)
  }

  lemma MonthSpent(b: Books, month: Day, next: Day, c: Currency)
    requires next == AddMonths(month, 1)
    ensures CurrencySpent(MonthRows(b, month), c) == SpentBefore(b, month, next, c)
  {
  }

  lemma MonthIsPriced(b: Books, m: PayrollMonth, start: Day, i: nat, c: Currency)
    requires IsFirst(start) && m.month == AddMonths(start, i) && MonthSays(b, m)
    ensures Priced(b, m, start, i, c)
  {
    CostIs(b, m, c);
    AddMonthsAdds(start, i, 1);
    MonthSpent(b, m.month, AddMonths(start, i + 1), c);
  }

  lemma NothingYet(b: Books, start: Day, c: Currency)
    ensures SpentBefore(b, start, start, c) == 0
  {
    assert InCurrency(ApprovedLines(b, Period(start, start - 1)), c) == {};
  }

  lemma MonthsGoOn(start: Day, i: nat)
    requires IsFirst(start)
    ensures start <= AddMonths(start, i) <= AddMonths(start, i + 1)
    ensures AddMonths(start, 0) == start
  {
    AddMonthsMoves(start, i);
    AddMonthsMoves(start, i + 1);
    FirstsInOrder(start, AddMonths(start, i));
    FirstsInOrder(AddMonths(start, i), AddMonths(start, i + 1));
    FirstsInOrder(start, start);
  }

  lemma {:induction false} MonthsTogether(b: Books, months: seq<PayrollMonth>, start: Day, c: Currency)
    requires IsFirst(start) && forall i | 0 <= i < |months| :: Priced(b, months[i], start, i, c)
    ensures CostsTogether(months, c) == SpentBefore(b, start, AddMonths(start, |months|), c)
    decreases |months|
  {
    if months == [] {
      MonthsGoOn(start, 0);
      NothingYet(b, start, c);
    } else {
      var n := |months| - 1;
      MonthsTogether(b, months[..n], start, c);
      MonthsGoOn(start, n);
      assert Priced(b, months[n], start, n, c);
      PeriodExtends(b, start, AddMonths(start, n), AddMonths(start, n + 1), c);
    }
  }

  lemma ReportWindow(b: Books, today: Day, begins: Day, until: Day)
    requires Latest(b, today, begins, until)
    ensures IsFirst(begins) && IsFirst(until) && begins <= until
    ensures AddMonths(begins, MonthsBetween(begins, until) + 1) == AddMonths(until, 1)
    ensures forall r | Settled(b, r) :: begins <= b.runs[r].end <= AddMonths(until, 1) - 1
  {
    var first, last :| Spans(b, first, last) && begins == FirstOf(first)
                       && until == Later(FirstOf(today), FirstOf(last));
    FirstIsFirst(first);
    FirstIsFirst(last);
    FirstIsFirst(today);
    MonthSpans(FirstOf(last), last);
    MonthsNest(FirstOf(last), until);
    AddMonthsAdds(begins, MonthsBetween(begins, until), 1);
    FirstsInOrder(begins, until);
  }

  lemma StartsAtBegins(b: Books, until: Day, report: PayrollReport)
    requires ReportSays(b, None, until, report) && report.begins.Some?
    requires IsFirst(report.begins.value) && IsFirst(until) && report.begins.value <= until
    ensures var begins, n := report.begins.value, |report.months|;
            n == MonthsBetween(begins, until) + 1 && ListedTo(b, report.months, begins, AddMonths(begins, n))
  {
    var begins, n := report.begins.value, |report.months|;
    FirstsInOrder(begins, until);
    AddMonthsMoves(begins, n);
    forall i | 0 <= i < n ensures report.months[i].month == AddMonths(begins, i) {
      AddMonthsAdds(begins, MonthsBetween(begins, until), i + 1 - n);
    }
  }

  lemma AllArePriced(b: Books, months: seq<PayrollMonth>, begins: Day, next: Day, c: Currency)
    requires IsFirst(begins) && ListedTo(b, months, begins, next)
    ensures forall i | 0 <= i < |months| :: Priced(b, months[i], begins, i, c)
  {
    forall i | 0 <= i < |months| ensures Priced(b, months[i], begins, i, c) {
      MonthIsPriced(b, months[i], begins, i, c);
    }
  }

  lemma EverythingWithin(b: Books, p: Period, c: Currency)
    requires forall r | Settled(b, r) :: p.start <= b.runs[r].end <= p.end
    ensures CurrencySpent(ApprovedLines(b, p), c) == FrozenSpent(b, c)
  {
    var rows := ApprovedLines(b, p);
    forall key: LineKey ensures key in rows <==> CountedLine(b, key) {
      if CountedLine(b, key) { assert Settled(b, key.0); }
    }
    var all := set key | key in b.lines && CountedLine(b, key) && LineFact(b, key).currency == c;
    assert all == InCurrency(rows, c);
    SumSame(all, AmountsOf(rows), map key | key in b.lines && CountedLine(b, key) :: LineFact(b, key).amount);
  }

  lemma WindowTotal(b: Books, months: seq<PayrollMonth>, begins: Day, next: Day, c: Currency)
    requires IsFirst(begins) && ListedTo(b, months, begins, next)
    ensures CostsTogether(months, c) == SpentBefore(b, begins, next, c)
  {
    AllArePriced(b, months, begins, next, c);
    MonthsTogether(b, months, begins, c);
  }

  lemma ListedToTheEnd(b: Books, today: Day, until: Day, report: PayrollReport)
    requires ReportSays(b, None, until, report) && report.begins.Some?
    requires Latest(b, today, report.begins.value, until)
    ensures IsFirst(report.begins.value) && ListedTo(b, report.months, report.begins.value, AddMonths(until, 1))
  {
    ReportWindow(b, today, report.begins.value, until);
    StartsAtBegins(b, until, report);
  }

  /** All the months together are all the frozen lines: no run falls between two
    * months, and none outside them. */
  lemma ReportIsEverything(b: Books, today: Day, until: Day, report: PayrollReport, c: Currency)
    requires ReportSays(b, None, until, report) && report.begins.Some?
    requires Latest(b, today, report.begins.value, until)
    ensures CostsTogether(report.months, c) == FrozenSpent(b, c)
  {
    var begins, next := report.begins.value, AddMonths(until, 1);
    ReportWindow(b, today, begins, until);
    ListedToTheEnd(b, today, until, report);
    WindowTotal(b, report.months, begins, next, c);
    EverythingWithin(b, Period(begins, next - 1), c);
  }

  // --- Headcount ------------------------------------------------------------------------------------

  ghost function PeopleCounts(costs: map<Currency, MonthCost>, some: set<Currency>): map<Currency, int> {
    map c | c in some && c in costs :: costs[c].people
  }

  ghost function InCurrencies(rows: map<LineKey, Fact>, some: set<Currency>): set<LineKey> {
    set k | k in rows && rows[k].currency in some
  }

  lemma FewerRowsFewerPeople(some: set<LineKey>, all: set<LineKey>)
    requires some <= all
    ensures |People(some)| <= |People(all)|
  {
    assert People(some) <= People(all);
    SubsetIsSmaller(People(some), People(all));
  }

  lemma UnionIsNoLarger<T(!new)>(a: set<T>, b: set<T>)
    ensures |a + b| <= |a| + |b|
  {
    assert a + b == a + (b - a);
    SubsetIsSmaller(b - a, b);
  }

  lemma {:induction false} AtMostTheSum(rows: map<LineKey, Fact>, costs: map<Currency, MonthCost>, some: set<Currency>)
    requires forall c :: CostSays(rows, costs, c)
    requires some <= costs.Keys
    ensures |People(InCurrencies(rows, some))| <= Total(PeopleCounts(costs, some))
    decreases |some|
  {
    if some == {} {
      assert InCurrencies(rows, some) == {};
    } else {
      var c := Any(some);
      var rest := some - {c};
      AtMostTheSum(rows, costs, rest);
      assert CostSays(rows, costs, c);
      var counts := PeopleCounts(costs, rest);
      TotalInsert(counts, c, costs[c].people);
      assert PeopleCounts(costs, some) == counts[c := costs[c].people];
      assert InCurrencies(rows, some) == InCurrencies(rows, rest) + InCurrency(rows, c);
      assert People(InCurrencies(rows, some)) == People(InCurrencies(rows, rest)) + People(InCurrency(rows, c));
      UnionIsNoLarger(People(InCurrencies(rows, rest)), People(InCurrency(rows, c)));
    }
  }

  /** Headcount counts a person once: it is at least every currency's people, and
    * at most all the currencies' people added up. */
  lemma HeadcountBetween(b: Books, m: PayrollMonth)
    requires MonthSays(b, m)
    ensures forall c | c in m.costs :: m.costs[c].people <= m.headcount
    ensures m.headcount <= Total(PeopleCounts(m.costs, m.costs.Keys))
  {
    var rows := MonthRows(b, m.month);
    forall c | c in m.costs ensures m.costs[c].people <= m.headcount {
      assert CostSays(rows, m.costs, c);
      FewerRowsFewerPeople(InCurrency(rows, c), rows.Keys);
    }
    AtMostTheSum(rows, m.costs, m.costs.Keys);
    forall k: LineKey ensures k in rows ==> k in InCurrencies(rows, m.costs.Keys) {
      if k in rows {
        assert CostSays(rows, m.costs, rows[k].currency);
        assert k in InCurrency(rows, rows[k].currency);
      }
    }
    assert InCurrencies(rows, m.costs.Keys) == rows.Keys;
  }
}
