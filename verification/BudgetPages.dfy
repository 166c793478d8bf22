/**
 * The two pages over actuals (lib_finance/budgets.py): `overview`, every
 * department's budget against its actual, and `breakdown`, where one actual
 * comes from.
 */
module BudgetPages {
  import opened Prelude
  import opened Money
  import opened Tables
  import opened Totals
  import opened Books
  import opened Invariants
  import opened Settlement
  import opened History
  import opened Budgets

  // --- Where one actual comes from ----------------------------------------------------

  /** A run's approved lines, a batch of claims, or claims carried by a run. */
  datatype Origin = RunLinesOf(run: RunId) | BatchOf(batch: BatchId) | ClaimsOn(run: RunId)

  datatype Source = Source(origin: Origin, rows: int, amount: int)

  /** The rows of one cell: the page's `WHERE`. */
  function CellRows<K>(facts: map<K, Fact>, cell: Cell): map<K, Fact> {
    map k | k in facts && CellOf(facts[k]) == cell :: facts[k]
  }

  lemma CellRowsAddUp<K(!new)>(facts: map<K, Fact>, cell: Cell)
    ensures Total(AmountsOf(CellRows(facts, cell))) == Spent(facts, cell)
  {
    var amounts := AmountsOf(CellRows(facts, cell));
    assert amounts.Keys == In(facts, cell);
    SumSame(In(facts, cell), amounts, AmountsOf(facts));
  }

  /** The columns a claim's rows are grouped by. */
  type Columns = (Option<BatchId>, Option<RunId>)

  function OriginOf(columns: Columns): Origin {
    match columns.0
    case Some(batch) => BatchOf(batch)
    case None => ClaimsOn(columns.1.GetOr(0))
  }

  function ColumnsOf(b: Books, rows: map<ClaimId, Fact>): map<ClaimId, Columns> {
    map c | c in rows && c in b.claims :: (b.claims[c].batch, b.claims[c].run)
  }

  function RunOf(rows: map<LineKey, Fact>): map<LineKey, RunId> {
    map key | key in rows :: key.0
  }

  function OnePer<K>(rows: map<K, Fact>): map<K, int> {
    map k | k in rows :: 1
  }

  /** Everything the rows of one origin add up to, and how many they are. */
  ghost predicate Grouped<K(!new), G(!new)>(rows: map<K, Fact>, key: map<K, G>, g: G, count: int, amount: int) {
    && rows.Keys <= key.Keys
    && count == |Fibre(rows.Keys, key, g)|
    && amount == Sum(Fibre(rows.Keys, key, g), AmountsOf(rows))
  }

  ghost predicate HasGroup<K(!new), G(!new)>(rows: map<K, Fact>, key: map<K, G>, g: G) {
    rows.Keys <= key.Keys && Fibre(rows.Keys, key, g) != {}
  }

  /** The answer to one grouped query. */
  ghost predicate AnswerOf<K(!new), G(!new)>(rows: map<K, Fact>, key: map<K, G>, counts: map<G, int>,
                                             sums: map<G, int>) {
    && counts.Keys == sums.Keys && Total(sums) == Total(AmountsOf(rows))
    && (forall g :: g in sums <==> HasGroup(rows, key, g))
    && forall g | g in sums :: Grouped(rows, key, g, At(counts, g), At(sums, g))
  }

  method Ask<K(!new, ==), G(!new, ==)>(rows: map<K, Fact>, key: map<K, G>)
      returns (counts: map<G, int>, sums: map<G, int>)
    requires rows.Keys <= key.Keys
    ensures AnswerOf(rows, key, counts, sums)
  {
    counts := GroupBy(OnePer(rows), key);
    sums := GroupBy(AmountsOf(rows), key);
    AnswersAsked(rows, key, counts, sums);
  }

  lemma AnswersAsked<K(!new), G(!new)>(rows: map<K, Fact>, key: map<K, G>, counts: map<G, int>, sums: map<G, int>)
    requires rows.Keys <= key.Keys
    requires Same(counts, GroupSums(OnePer(rows), key)) && Same(sums, GroupSums(AmountsOf(rows), key))
    ensures AnswerOf(rows, key, counts, sums)
  {
    assert OnePer(rows).Keys == rows.Keys == AmountsOf(rows).Keys;
    TotalSame(sums, GroupSums(AmountsOf(rows), key));
    GroupConserves(AmountsOf(rows), key);
    forall g
      ensures g in sums <==> HasGroup(rows, key, g)
      ensures Grouped(rows, key, g, At(counts, g), At(sums, g))
    {
      AtGroup(AmountsOf(rows), key, g);
      AtGroup(OnePer(rows), key, g);
      SumOnes(Fibre(rows.Keys, key, g), OnePer(rows));
      if HasGroup(rows, key, g) {
        var k := Any(Fibre(rows.Keys, key, g));
        assert key[k] == g;
      }
      if g in sums {
        var k :| k in rows && key[k] == g;
        assert k in Fibre(rows.Keys, key, g);
      }
    }
  }

  // --- The list of sources --------------------------------------------------------------

  ghost function SourceTotal(sources: seq<Source>): int {
    if sources == [] then 0 else SourceTotal(sources[..|sources| - 1]) + sources[|sources| - 1].amount
  }

  ghost predicate Lists(sources: seq<Source>, o: Origin) {
    exists i :: 0 <= i < |sources| && sources[i].origin == o
  }

  ghost predicate EachOnce(sources: seq<Source>) {
    forall i, j | 0 <= i < j < |sources| :: sources[i].origin != sources[j].origin
  }

  lemma Appended(sources: seq<Source>, source: Source)
    requires EachOnce(sources) && !Lists(sources, source.origin)
    ensures EachOnce(sources + [source])
    ensures SourceTotal(sources + [source]) == SourceTotal(sources) + source.amount
    ensures forall o :: Lists(sources + [source], o) <==> Lists(sources, o) || o == source.origin
  {
  }

  // --- The page ---------------------------------------------------------------------------

  /** The rows that count towards one cell. */
  datatype CellTable = CellTable(lines: map<LineKey, Fact>, claims: map<ClaimId, Fact>, columns: map<ClaimId, Columns>)

  function CellTableOf(b: Books, p: Period, cell: Cell): CellTable {
    var claims := CellRows(ReimbursedClaims(b, p), cell);
    CellTable(CellRows(ApprovedLines(b, p), cell), claims, ColumnsOf(b, claims))
  }

  /** Each claim paid back went out in one batch or on one run, not both and not neither. */
  ghost predicate OneContainerEach(t: CellTable) {
    && t.claims.Keys <= t.columns.Keys
    && forall c | c in t.columns :: t.columns[c].0.Some? != t.columns[c].1.Some?
  }

  lemma ClaimsHaveOneContainer(b: Books, p: Period, cell: Cell)
    requires Valid(b)
    ensures OneContainerEach(CellTableOf(b, p, cell))
  {
    var t := CellTableOf(b, p, cell);
    forall c: ClaimId | c in t.columns ensures t.columns[c].0.Some? != t.columns[c].1.Some? {
      PaidInPaid(b, c);
      assert ClaimKept(b, b.claims[c]);
    }
  }

  /** The only columns a claim of this origin can have. */
  function ColumnsFor(o: Origin): Columns {
    match o
    case BatchOf(batch) => (Some(batch), None)
    case ClaimsOn(run) => (None, Some(run))
    case RunLinesOf(run) => (None, None)
  }

  /** The source says how many rows came from its origin and what they add up to. */
  ghost predicate Says(t: CellTable, s: Source) {
    match s.origin
    case RunLinesOf(run) => Grouped(t.lines, RunOf(t.lines), run, s.rows, s.amount)
    case _ => Grouped(t.claims, t.columns, ColumnsFor(s.origin), s.rows, s.amount)
  }

  ghost predicate HasRows(t: CellTable, o: Origin) {
    match o
    case RunLinesOf(run) => HasGroup(t.lines, RunOf(t.lines), run)
    case _ => HasGroup(t.claims, t.columns, ColumnsFor(o))
  }

  ghost predicate AllSay(t: CellTable, sources: seq<Source>) {
    forall i | 0 <= i < |sources| :: Says(t, sources[i])
  }

  /** What the page lists once `doneRuns` and `doneClaims` are listed. */
  ghost predicate SoFar(t: CellTable, sources: seq<Source>, runs: set<RunId>, columns: set<Columns>) {
    && EachOnce(sources) && AllSay(t, sources)
    && (forall run :: Lists(sources, RunLinesOf(run)) <==> run in runs)
    && (forall batch :: Lists(sources, BatchOf(batch)) <==> (Some(batch), None) in columns)
    && (forall run :: Lists(sources, ClaimsOn(run)) <==> (None, Some(run)) in columns)
  }

  lemma ListRun(t: CellTable, sources: seq<Source>, runs: set<RunId>, s: Source)
    requires SoFar(t, sources, runs, {}) && s.origin.RunLinesOf? && s.origin.run !in runs && Says(t, s)
    ensures SoFar(t, sources + [s], runs + {s.origin.run}, {})
    ensures SourceTotal(sources + [s]) == SourceTotal(sources) + s.amount
  {
    Appended(sources, s);
  }

  /** The page with the runs in `todo` still to append. */
  ghost predicate RunsRemaining(t: CellTable, sources: seq<Source>, sums: map<RunId, int>, todo: set<RunId>,
                                whole: int) {
    && todo <= sums.Keys
    && SoFar(t, sources, sums.Keys - todo, {})
    && SourceTotal(sources) + Sum(todo, sums) == whole
  }

  lemma ListOneRun(t: CellTable, sources: seq<Source>, sums: map<RunId, int>, todo: set<RunId>, whole: int, s: Source)
    requires RunsRemaining(t, sources, sums, todo, whole) && s.origin.RunLinesOf? && s.origin.run in todo
    requires At(sums, s.origin.run) == s.amount && Says(t, s)
    ensures RunsRemaining(t, sources + [s], sums, todo - {s.origin.run}, whole)
  {
    ListRun(t, sources, sums.Keys - todo, s);
    SumRemove(todo, sums, s.origin.run);
    assert sums.Keys - (todo - {s.origin.run}) == sums.Keys - todo + {s.origin.run};
  }

  /** The page with the groups in `todo` still to append. */
  ghost predicate Remaining(t: CellTable, sources: seq<Source>, runs: set<RunId>, sums: map<Columns, int>,
                            todo: set<Columns>, whole: int) {
    && todo <= sums.Keys
    && SoFar(t, sources, runs, sums.Keys - todo)
    && SourceTotal(sources) + Sum(todo, sums) == whole
  }

  lemma ListContainer(t: CellTable, sources: seq<Source>, runs: set<RunId>, columns: set<Columns>, g: Columns,
                      s: Source)
    requires SoFar(t, sources, runs, columns) && g !in columns
    requires s.origin == OriginOf(g) && ColumnsFor(s.origin) == g && Says(t, s)
    ensures SoFar(t, sources + [s], runs, columns + {g})
    ensures SourceTotal(sources + [s]) == SourceTotal(sources) + s.amount
  {
    Appended(sources, s);
  }

  lemma ListClaims(t: CellTable, sources: seq<Source>, runs: set<RunId>, sums: map<Columns, int>, todo: set<Columns>,
                   whole: int, g: Columns, s: Source)
    requires Remaining(t, sources, runs, sums, todo, whole) && g in todo && At(sums, g) == s.amount
    requires s.origin == OriginOf(g) && ColumnsFor(s.origin) == g && Says(t, s)
    ensures Remaining(t, sources + [s], runs, sums, todo - {g}, whole)
  {
    ListContainer(t, sources, runs, sums.Keys - todo, g, s);
    SumRemove(todo, sums, g);
    assert sums.Keys - (todo - {g}) == sums.Keys - todo + {g};
  }

  lemma ColumnsBack(t: CellTable, g: Columns)
    requires OneContainerEach(t) && HasGroup(t.claims, t.columns, g)
    ensures ColumnsFor(OriginOf(g)) == g && !OriginOf(g).RunLinesOf?
  {
    var c := Any(Fibre(t.claims.Keys, t.columns, g));
    assert t.columns[c] == g && t.columns[c].0.Some? != t.columns[c].1.Some?;
  }

  /** `sources.append(...)` for each run of the answer. */
  method ListRuns(t: CellTable) returns (sources: seq<Source>, ghost runs: set<RunId>)
    ensures SoFar(t, sources, runs, {}) && forall run :: run in runs <==> HasGroup(t.lines, RunOf(t.lines), run)
    ensures SourceTotal(sources) == Total(AmountsOf(t.lines))
  {
    var counts, sums := Ask(t.lines, RunOf(t.lines));
    sources, runs := [], sums.Keys;
    var todo := sums.Keys;
    assert sums.Keys - todo == {};
    while todo != {}
      invariant RunsRemaining(t, sources, sums, todo, Total(sums))
      decreases todo
    {
      var run: RunId := Pick(todo);
      var source := Source(RunLinesOf(run), At(counts, run), At(sums, run));
      ListOneRun(t, sources, sums, todo, Total(sums), source);
      sources := sources + [source];
      todo := todo - {run};
    }
    assert sums.Keys - todo == runs;
  }

  /** `sources.append(...)` for each batch or run that paid claims back. */
  method ListContainers(t: CellTable, before: seq<Source>, ghost runs: set<RunId>)
      returns (sources: seq<Source>, ghost columns: set<Columns>)
    requires OneContainerEach(t) && SoFar(t, before, runs, {})
    ensures SoFar(t, sources, runs, columns) && forall g :: g in columns <==> HasGroup(t.claims, t.columns, g)
    ensures SourceTotal(sources) == SourceTotal(before) + Total(AmountsOf(t.claims))
  {
    var counts, sums := Ask(t.claims, t.columns);
    sources, columns := before, sums.Keys;
    var todo := sums.Keys;
    ghost var whole := SourceTotal(before) + Total(sums);
    assert sums.Keys - todo == {};
    while todo != {}
      invariant Remaining(t, sources, runs, sums, todo, whole)
      decreases todo
    {
      var g := Pick(todo);
      var source := Source(OriginOf(g), At(counts, g), At(sums, g));
      ColumnsBack(t, g);
      ListClaims(t, sources, runs, sums, todo, whole, g, source);
      sources := sources + [source];
      todo := todo - {g};
    }
    assert sums.Keys - todo == columns;
  }

  method SumSources(sources: seq<Source>) returns (total: int)
    ensures total == SourceTotal(sources)
  {
    total := 0;
    for i := 0 to |sources|
      invariant total == SourceTotal(sources[..i])
    {
      assert sources[..i + 1][..i] == sources[..i];
      total := total + sources[i].amount;
    }
    assert sources[..|sources|] == sources;
  }

  /**
   * `breakdown`: every origin with rows in the cell is listed once, with how
   * many they are and what they add up to, and together they are the actual.
   */
  method Breakdown(b: Books, p: Period, cell: Cell) returns (sources: seq<Source>, total: int)
    requires Valid(b)
    ensures EachOnce(sources) && AllSay(CellTableOf(b, p, cell), sources)
    ensures forall o :: Lists(sources, o) <==> HasRows(CellTableOf(b, p, cell), o)
    ensures total == Actual(b, p, cell)
  {
    var t := CellTableOf(b, p, cell);
    ClaimsHaveOneContainer(b, p, cell);
    ghost var runs, columns;
    sources, runs := ListRuns(t);
    sources, columns := ListContainers(t, sources, runs);
    total := SumSources(sources);
    CellRowsAddUp(ApprovedLines(b, p), cell);
    CellRowsAddUp(ReimbursedClaims(b, p), cell);
    AllListed(t, sources, runs, columns);
  }

  lemma AllListed(t: CellTable, sources: seq<Source>, runs: set<RunId>, columns: set<Columns>)
    requires SoFar(t, sources, runs, columns)
    requires forall run :: run in runs <==> HasGroup(t.lines, RunOf(t.lines), run)
    requires forall g :: g in columns <==> HasGroup(t.claims, t.columns, g)
    ensures forall o :: Lists(sources, o) <==> HasRows(t, o)
  {
  }

  /** A listed run is approved or paid, a listed batch paid, and a run listed for
    * the claims it carried is paid. */
  lemma OriginsAreSettled(b: Books, p: Period, cell: Cell, o: Origin)
    requires Valid(b) && HasRows(CellTableOf(b, p, cell), o)
    ensures match o
            case RunLinesOf(run) => run in b.runs && b.runs[run].state != Draft
            case BatchOf(batch) => batch in b.batches && b.batches[batch].state == Paid
            case ClaimsOn(run) => run in b.runs && b.runs[run].state == Paid
  {
    var t := CellTableOf(b, p, cell);
    match o
    case RunLinesOf(run) =>
      var key := Any(Fibre(t.lines.Keys, RunOf(t.lines), run));
      assert CountedLine(b, key) && key.0 == run;
    case _ =>
      var c: ClaimId := Any(Fibre(t.claims.Keys, t.columns, ColumnsFor(o)));
      assert (b.claims[c].batch, b.claims[c].run) == ColumnsFor(o);
      PaidInPaid(b, c);
  }

  // --- Budgets against actuals --------------------------------------------------------------

  datatype Row = Row(budget: Option<BudgetId>, actual: int)

  predicate ForExactly(budget: Budget, p: Period, cell: Cell) {
    budget.start == p.start && budget.end == p.end && Some(budget.department) == cell.0 && budget.currency == cell.1
  }

  ghost predicate Budgeted(b: Books, p: Period, cell: Cell) {
    exists g: BudgetId :: g in b.budgets && ForExactly(b.budgets[g], p, cell)
  }

  /** The dictionary the page builds; no two budgets want the same key. */
  function BudgetsFor(b: Books, p: Period): map<Cell, BudgetId>
    requires BudgetsApart(b)
  {
    map g | g in b.budgets && b.budgets[g].start == p.start && b.budgets[g].end == p.end ::
      (Some(b.budgets[g].department), b.budgets[g].currency) := g
  }

  /** A cell's row: its budget for exactly this period, if there is one, and its actual. */
  ghost predicate RowSays(b: Books, p: Period, cell: Cell, row: Row) {
    && row.actual == Actual(b, p, cell)
    && match row.budget
       case Some(g) => g in b.budgets && ForExactly(b.budgets[g], p, cell)
       case None => !Budgeted(b, p, cell)
  }

  lemma BudgetFound(b: Books, p: Period, cell: Cell)
    requires BudgetsApart(b)
    ensures cell in BudgetsFor(b, p) <==> Budgeted(b, p, cell)
    ensures cell in BudgetsFor(b, p) ==>
              BudgetsFor(b, p)[cell] in b.budgets && ForExactly(b.budgets[BudgetsFor(b, p)[cell]], p, cell)
  {
  }

  /** Every department a row is about still exists, so its name can be looked up. */
  lemma DepartmentsFound(b: Books, p: Period, cell: Cell)
    requires Valid(b) && cell.0.Some? && (HasSpend(b, p, cell) || Budgeted(b, p, cell))
    ensures cell.0.value in b.departments
  {
    if In(ApprovedLines(b, p), cell) != {} {
      var key: LineKey := Any(In(ApprovedLines(b, p), cell));
      assert LineKept(b, key.0, key.1, b.lines[key]);
    } else if In(ReimbursedClaims(b, p), cell) != {} {
      var c: ClaimId := Any(In(ReimbursedClaims(b, p), cell));
      assert ClaimKept(b, b.claims[c]);
    }
  }

  /**
   * `overview`: a row for every cell with spend in the period or a budget for
   * exactly it, and no other; each with both, the actual zero if nothing was
   * spent; and no row names a department that is gone.
   */
  method Overview(b: Books, p: Period) returns (rows: map<Cell, Row>)
    requires Valid(b)
    ensures forall cell :: cell in rows <==> HasSpend(b, p, cell) || Budgeted(b, p, cell)
    ensures forall cell | cell in rows :: RowSays(b, p, cell, rows[cell])
    ensures forall cell | cell in rows && cell.0.Some? :: cell.0.value in b.departments
  {
    var actual := Actuals(b, p);
    var budgets := BudgetsFor(b, p);
    rows := map cell | cell in actual.Keys + budgets.Keys ::
      Row(if cell in budgets then Some(budgets[cell]) else None, At(actual, cell));
    forall cell: Cell
      ensures cell in rows <==> HasSpend(b, p, cell) || Budgeted(b, p, cell)
      ensures cell in rows ==> RowSays(b, p, cell, rows[cell])
    {
      assert ActualIn(b, p, cell, actual);
      BudgetFound(b, p, cell);
    }
    forall cell: Cell | cell in rows && cell.0.Some? ensures cell.0.value in b.departments {
      DepartmentsFound(b, p, cell);
    }
  }

  function PeriodOf(budget: Budget): Period {
    Period(budget.start, budget.end)
  }

  function CellOfBudget(budget: Budget): Cell {
    (Some(budget.department), budget.currency)
  }

  /** A budget can be made exactly if its department is there and the page for its
    * period shows none yet for the department and currency. */
  lemma BudgetMadeExactlyWhen(b: Books, id: BudgetId, budget: Budget)
    requires id !in b.budgets
    ensures CreateBudget(b, id, budget).Done? <==>
            budget.department in b.departments && !Budgeted(b, PeriodOf(budget), CellOfBudget(budget))
  {
    var p, cell := PeriodOf(budget), CellOfBudget(budget);
    if g: BudgetId :| g in b.budgets && SameBudget(b.budgets[g], budget) {
      assert g != id && ForExactly(b.budgets[g], p, cell);
    }
    if Budgeted(b, p, cell) {
      var g: BudgetId :| g in b.budgets && ForExactly(b.budgets[g], p, cell);
      assert SameBudget(b.budgets[g], budget);
    }
  }

  /** On every page the one budgeted cell gains it, every other cell has the budget
    * it had, and no actual moves. */
  lemma MadeBudgetShows(b: Books, id: BudgetId, budget: Budget, made: Books, p: Period, cell: Cell)
    requires Valid(b) && id !in b.budgets && CreateBudget(b, id, budget) == Done(made)
    ensures BudgetsApart(made)
    ensures cell in BudgetsFor(made, p) <==> cell in BudgetsFor(b, p) || ForExactly(budget, p, cell)
    ensures cell in BudgetsFor(made, p) ==>
              BudgetsFor(made, p)[cell] == if ForExactly(budget, p, cell) then id else BudgetsFor(b, p)[cell]
    ensures Actual(made, p, cell) == Actual(b, p, cell)
  {
    PeopleValid(b, CreatesBudget(id, budget));
    BudgetMadeExactlyWhen(b, id, budget);
    BudgetFound(b, p, cell);
    BudgetFound(made, p, cell);
    OneMoreBudget(b, id, budget, p, cell);
    SameFactsSameActual(b, made, p, cell);
  }

  lemma OneMoreBudget(b: Books, id: BudgetId, budget: Budget, p: Period, cell: Cell)
    requires id !in b.budgets
    ensures Budgeted(b.(budgets := b.budgets[id := budget]), p, cell)
            <==> Budgeted(b, p, cell) || ForExactly(budget, p, cell)
  {
    var budgets := b.budgets[id := budget];
    assert budgets[id] == budget;
    if Budgeted(b, p, cell) {
      var g: BudgetId :| g in b.budgets && ForExactly(b.budgets[g], p, cell);
      assert g in budgets && budgets[g] == b.budgets[g];
    }
  }

  /** Deleting a budget just made leaves the tables as they were. */
  lemma DeleteUndoesCreateBudget(b: Books, id: BudgetId, budget: Budget, made: Books)
    requires id !in b.budgets && CreateBudget(b, id, budget) == Done(made)
    ensures DeleteBudget(made, id) == Done(b)
  {
    assert b.budgets[id := budget] - {id} == b.budgets;
    assert DeleteBudget(made, id).books == b;
  }
}
