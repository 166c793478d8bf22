/**
 * Actuals (lib_finance/budgets.py): what was spent in a period, per department
 * and currency, summed from the rows that count.
 */
module Budgets {
  import opened Prelude
  import opened Money
  import opened Tables
  import opened Totals
  import opened Books
  import opened Invariants
  import opened Settlement
  import opened History

  /** Both days included. */
  datatype Period = Period(start: Day, end: Day)

  /** A department, or none for Unattributed, and a currency. */
  type Cell = (Option<DepartmentId>, Currency)

  predicate Within(f: Fact, p: Period) {
    p.start <= f.day <= p.end
  }

  function CellOf(f: Fact): Cell {
    (f.department, f.currency)
  }

  // --- The rows behind an actual ------------------------------------------------------

  /** `_approved_lines`: by key, what each counted line in the period says. */
  function ApprovedLines(b: Books, p: Period): map<LineKey, Fact> {
    map key | key in b.lines && CountedLine(b, key) && Within(LineFact(b, key), p) :: LineFact(b, key)
  }

  /** `_reimbursed`: likewise the claims paid back. */
  function ReimbursedClaims(b: Books, p: Period): map<ClaimId, Fact> {
    map c | c in b.claims && b.claims[c].reimbursedAt.Some? && Within(ClaimFact(b.claims[c]), p) ::
      ClaimFact(b.claims[c])
  }

  function AmountsOf<K>(facts: map<K, Fact>): map<K, int> {
    map k | k in facts :: facts[k].amount
  }

  function CellsOf<K>(facts: map<K, Fact>): map<K, Cell> {
    map k | k in facts :: CellOf(facts[k])
  }

  ghost function In<K(!new)>(facts: map<K, Fact>, cell: Cell): set<K> {
    set k | k in facts && CellOf(facts[k]) == cell
  }

  /** What the rows of one cell add up to. */
  ghost function Spent<K(!new)>(facts: map<K, Fact>, cell: Cell): int {
    Sum(In(facts, cell), AmountsOf(facts))
  }

  /** The actual of a department in a currency over a period: its approved
    * payroll lines and its claims paid back. */
  ghost function Actual(b: Books, p: Period, cell: Cell): int {
    Spent(ApprovedLines(b, p), cell) + Spent(ReimbursedClaims(b, p), cell)
  }

  ghost predicate HasSpend(b: Books, p: Period, cell: Cell) {
    In(ApprovedLines(b, p), cell) != {} || In(ReimbursedClaims(b, p), cell) != {}
  }

  /** The dictionary has the cell if something was spent in it, with how much. */
  ghost predicate ActualIn(b: Books, p: Period, cell: Cell, totals: map<Cell, int>) {
    && At(totals, cell) == Actual(b, p, cell)
    && (cell in totals <==> HasSpend(b, p, cell))
  }

  lemma GroupedIsSpent<K(!new)>(facts: map<K, Fact>, cell: Cell)
    ensures var sums := GroupSums(AmountsOf(facts), CellsOf(facts));
            At(sums, cell) == Spent(facts, cell) && (cell in sums <==> In(facts, cell) != {})
  {
    AtGroup(AmountsOf(facts), CellsOf(facts), cell);
    assert Fibre(AmountsOf(facts).Keys, CellsOf(facts), cell) == In(facts, cell);
    if cell in GroupSums(AmountsOf(facts), CellsOf(facts)) {
      var k :| k in facts && CellsOf(facts)[k] == cell;
      assert k in In(facts, cell);
    }
    if In(facts, cell) != {} {
      var k := Any(In(facts, cell));
      assert CellsOf(facts)[k] == cell;
    }
  }

  /** The dictionary after both answers were added into it. */
  lemma AddedIsActual(b: Books, p: Period, fromLines: map<Cell, int>, fromClaims: map<Cell, int>,
                      totals: map<Cell, int>)
    requires Same(fromLines, GroupSums(AmountsOf(ApprovedLines(b, p)), CellsOf(ApprovedLines(b, p))))
    requires Same(fromClaims, GroupSums(AmountsOf(ReimbursedClaims(b, p)), CellsOf(ReimbursedClaims(b, p))))
    requires forall cell ::
               (cell in totals <==> cell in fromLines || cell in fromClaims)
               && At(totals, cell) == At(fromLines, cell) + At(fromClaims, cell)
    ensures forall cell :: ActualIn(b, p, cell, totals)
  {
    forall cell: Cell ensures ActualIn(b, p, cell, totals) {
      GroupedIsSpent(ApprovedLines(b, p), cell);
      GroupedIsSpent(ReimbursedClaims(b, p), cell);
    }
  }

  // --- Conservation --------------------------------------------------------------------

  ghost function InCurrency<K(!new)>(facts: map<K, Fact>, c: Currency): set<K> {
    set k | k in facts && facts[k].currency == c
  }

  ghost function Departments<K(!new)>(facts: map<K, Fact>, c: Currency): set<Cell> {
    set k | k in facts && facts[k].currency == c :: CellOf(facts[k])
  }

  /** Over the departments that have any, Unattributed included, the spend in a
    * currency is every row in it: no row is dropped and none counted twice. */
  lemma SpendIsConserved<K(!new)>(facts: map<K, Fact>, c: Currency, spends: map<Cell, int>)
    requires spends.Keys == Departments(facts, c)
    requires forall cell | cell in spends :: spends[cell] == Spent(facts, cell)
    ensures Total(spends) == Sum(InCurrency(facts, c), AmountsOf(facts))
  {
    var m, key := AmountsOf(facts), CellsOf(facts);
    var rows, cells := InCurrency(facts, c), Departments(facts, c);
    forall cell | cell in cells ensures cell in GroupSums(m, key) && GroupSums(m, key)[cell] == spends[cell] {
      GroupedIsSpent(facts, cell);
      var k :| k in facts && facts[k].currency == c && CellOf(facts[k]) == cell;
      assert k in In(facts, cell);
    }
    forall k ensures k in rows <==> k in m && key[k] in cells {
      if k in m && key[k] in cells {
        var j :| j in facts && facts[j].currency == c && CellOf(facts[j]) == key[k];
      }
    }
    SomeGroups(m, key, cells, rows);
    SumSame(cells, spends, GroupSums(m, key));
  }

  ghost function SpentIn<K(!new)>(facts: map<K, Fact>, cells: set<Cell>): map<Cell, int> {
    map cell | cell in cells :: Spent(facts, cell)
  }

  lemma CellsConserve<K(!new)>(facts: map<K, Fact>, c: Currency, cells: set<Cell>)
    requires forall cell | cell in cells :: cell.1 == c
    requires forall k | k in facts && facts[k].currency == c :: CellOf(facts[k]) in cells
    ensures Sum(cells, SpentIn(facts, cells)) == Sum(InCurrency(facts, c), AmountsOf(facts))
  {
    var some := Departments(facts, c);
    var none := cells - some;
    forall cell | cell in none ensures Spent(facts, cell) == 0 {
      assert In(facts, cell) == {};
    }
    SpendIsConserved(facts, c, SpentIn(facts, some));
    assert cells == some + none;
    SumUnion(some, none, SpentIn(facts, cells));
    SumZeros(none, SpentIn(facts, cells));
    SumSame(some, SpentIn(facts, some), SpentIn(facts, cells));
  }

  /** The cells of a dictionary in one currency, Unattributed among them. */
  ghost function CellsIn(totals: map<Cell, int>, c: Currency): set<Cell> {
    set cell | cell in totals && cell.1 == c
  }

  /** Every approved line and every claim paid back in the currency, in the period. */
  ghost function SpentInAll(b: Books, p: Period, c: Currency): int {
    Sum(InCurrency(ApprovedLines(b, p), c), AmountsOf(ApprovedLines(b, p)))
    + Sum(InCurrency(ReimbursedClaims(b, p), c), AmountsOf(ReimbursedClaims(b, p)))
  }

  /** The dictionary of actuals, added up over every department and Unattributed,
    * is every approved line plus every claim paid back, in each currency. */
  lemma ActualsConserve(b: Books, p: Period, totals: map<Cell, int>, c: Currency)
    requires forall cell :: ActualIn(b, p, cell, totals)
    ensures Sum(CellsIn(totals, c), totals) == SpentInAll(b, p, c)
  {
    var lines, claims, cells := ApprovedLines(b, p), ReimbursedClaims(b, p), CellsIn(totals, c);
    forall key | key in lines && lines[key].currency == c ensures CellOf(lines[key]) in cells {
      assert key in In(lines, CellOf(lines[key])) && ActualIn(b, p, CellOf(lines[key]), totals);
    }
    forall k | k in claims && claims[k].currency == c ensures CellOf(claims[k]) in cells {
      assert k in In(claims, CellOf(claims[k])) && ActualIn(b, p, CellOf(claims[k]), totals);
    }
    CellsConserve(lines, c, cells);
    CellsConserve(claims, c, cells);
    forall cell | cell in cells ensures totals[cell] == Spent(lines, cell) + Spent(claims, cell) {
      assert ActualIn(b, p, cell, totals);
    }
    SumAdds(cells, SpentIn(lines, cells), SpentIn(claims, cells), totals);
  }

  // --- The dictionary ----------------------------------------------------------------

  /** `_actuals`: two grouped queries, added into one dictionary. */
  method Actuals(b: Books, p: Period) returns (totals: map<Cell, int>)
    ensures forall cell :: ActualIn(b, p, cell, totals)
    ensures forall c :: Sum(CellsIn(totals, c), totals) == SpentInAll(b, p, c)
  {
    var lines, claims := ApprovedLines(b, p), ReimbursedClaims(b, p);
    var fromLines := GroupBy(AmountsOf(lines), CellsOf(lines));
    totals := Accumulate(map[], fromLines);
    ghost var once := totals;
    var fromClaims := GroupBy(AmountsOf(claims), CellsOf(claims));
    totals := Accumulate(totals, fromClaims);
    AccumulatedTwice(fromLines, fromClaims, once, totals);
    AddedIsActual(b, p, fromLines, fromClaims, totals);
    forall c: Currency ensures Sum(CellsIn(totals, c), totals) == SpentInAll(b, p, c) {
      ActualsConserve(b, p, totals, c);
    }
  }

  /** Splitting a period in two splits every actual exactly. */
  lemma PeriodSplits(b: Books, start: Day, mid: Day, end: Day, cell: Cell)
    requires start <= mid + 1 && mid <= end
    ensures Actual(b, Period(start, end), cell) ==
            Actual(b, Period(start, mid), cell) + Actual(b, Period(mid + 1, end), cell)
  {
    var whole, left, right := Period(start, end), Period(start, mid), Period(mid + 1, end);
    forall key: LineKey ensures AddsAt(ApprovedLines(b, left), ApprovedLines(b, right), ApprovedLines(b, whole), key) {}
    forall c: ClaimId
      ensures AddsAt(ReimbursedClaims(b, left), ReimbursedClaims(b, right), ReimbursedClaims(b, whole), c) {}
    FactsSplit(ApprovedLines(b, whole), ApprovedLines(b, left), ApprovedLines(b, right), cell);
    FactsSplit(ReimbursedClaims(b, whole), ReimbursedClaims(b, left), ReimbursedClaims(b, right), cell);
  }

  /** `whole` is `part` and `more`, which share no row. */
  ghost predicate AddsAt<K(!new)>(part: map<K, Fact>, more: map<K, Fact>, whole: map<K, Fact>, k: K) {
    && (k in whole <==> k in part || k in more)
    && !(k in part && k in more)
    && (k in part && k in whole ==> part[k] == whole[k])
    && (k in more && k in whole ==> more[k] == whole[k])
  }

  lemma FactsSplit<K(!new)>(whole: map<K, Fact>, left: map<K, Fact>, right: map<K, Fact>, cell: Cell)
    requires forall k :: AddsAt(left, right, whole, k)
    ensures Spent(whole, cell) == Spent(left, cell) + Spent(right, cell)
  {
    forall k
      ensures k in whole.Keys <==> k in left.Keys + right.Keys
      ensures k !in left || k !in right
      ensures k in left ==> left[k] == whole[k]
      ensures k in right ==> right[k] == whole[k]
    {
      assert AddsAt(left, right, whole, k);
    }
    assert In(whole, cell) == In(left, cell) + In(right, cell);
    SumUnion(In(left, cell), In(right, cell), AmountsOf(whole));
    SumSame(In(left, cell), AmountsOf(left), AmountsOf(whole));
    SumSame(In(right, cell), AmountsOf(right), AmountsOf(whole));
  }

  // --- Frozen ----------------------------------------------------------------------------

  /** The same rows count, and say the same. */
  ghost predicate SameCounted(b: Books, after: Books) {
    && (forall key: LineKey :: CountedLine(after, key) <==> CountedLine(b, key))
    && (forall key: LineKey | CountedLine(b, key) && CountedLine(after, key) ::
        LineFact(after, key) == LineFact(b, key))
    && (forall c: ClaimId :: PaidBack(after, c) <==> PaidBack(b, c))
    && (forall c: ClaimId | PaidBack(b, c) && PaidBack(after, c) :: after.claims[c] == b.claims[c])
  }

  lemma SameLines(b: Books, after: Books, p: Period)
    requires SameCounted(b, after)
    ensures Same(ApprovedLines(b, p), ApprovedLines(after, p))
  {
  }

  lemma SameClaims(b: Books, after: Books, p: Period)
    requires SameCounted(b, after)
    ensures Same(ReimbursedClaims(b, p), ReimbursedClaims(after, p))
  {
    forall c: ClaimId ensures c in ReimbursedClaims(after, p) <==> c in ReimbursedClaims(b, p) {
      assert PaidBack(after, c) <==> PaidBack(b, c);
    }
  }

  /** Two states whose counted rows are the same have the same actuals. */
  lemma SameFactsSameActual(b: Books, after: Books, p: Period, cell: Cell)
    requires SameCounted(b, after)
    ensures Actual(after, p, cell) == Actual(b, p, cell)
  {
    SameLines(b, after, p);
    SameClaims(b, after, p);
    SpentSame(ApprovedLines(b, p), ApprovedLines(after, p), cell);
    SpentSame(ReimbursedClaims(b, p), ReimbursedClaims(after, p), cell);
  }

  lemma SpentSame<K(!new)>(x: map<K, Fact>, y: map<K, Fact>, cell: Cell)
    requires Same(x, y)
    ensures Spent(x, cell) == Spent(y, cell)
  {
    assert In(x, cell) == In(y, cell);
    SumSame(In(x, cell), AmountsOf(x), AmountsOf(y));
  }

  /**
   * Pay records, corrections, department moves and deletions, and draft edits,
   * in any number and order, leave the actual of every period, department and
   * currency as it was.
   */
  lemma ActualsAreFrozen(b: Books, events: seq<Event>, p: Period, cell: Cell)
    requires Valid(b) && AllAdmissible(b, events)
    requires forall e | e in events :: AddsNothing(e)
    ensures Actual(After(b, events), p, cell) == Actual(b, p, cell)
  {
    var after := After(b, events);
    forall key: LineKey
      ensures CountedLine(after, key) <==> CountedLine(b, key)
      ensures CountedLine(b, key) && CountedLine(after, key) ==> LineFact(after, key) == LineFact(b, key)
    {
      HistoryIsFrozen(b, events, key, 0);
      NothingElseCounts(b, events, key, 0);
    }
    forall c: ClaimId
      ensures PaidBack(after, c) <==> PaidBack(b, c)
      ensures PaidBack(b, c) && PaidBack(after, c) ==> after.claims[c] == b.claims[c]
    {
      HistoryIsFrozen(b, events, (0, 0), c);
      NothingElseCounts(b, events, (0, 0), c);
    }
    SameFactsSameActual(b, after, p, cell);
  }

  /** The rows one request adds: the paid lines of the draft it approves... */
  ghost function NewLines(b: Books, e: Event, p: Period): map<LineKey, Fact> {
    if !e.ApprovesRun? then map[]
    else map user | user in b.users && AddsLine(b, e, (e.run, user)) && Within(AddedLine(b, e, (e.run, user)), p) ::
           (e.run, user) := AddedLine(b, e, (e.run, user))
  }

  /** ...or the claims in what it marks paid. */
  ghost function NewClaims(b: Books, e: Event, p: Period): map<ClaimId, Fact> {
    map c | c in b.claims && Pays(b, e, c) && Within(ClaimFact(b.claims[c]), p) :: ClaimFact(b.claims[c])
  }

  lemma NewLine(b: Books, e: Event, p: Period, key: LineKey)
    ensures key in NewLines(b, e, p) <==> AddsLine(b, e, key) && Within(AddedLine(b, e, key), p)
    ensures key in NewLines(b, e, p) ==> NewLines(b, e, p)[key] == AddedLine(b, e, key)
  {
  }

  lemma LineAdds(b: Books, e: Event, p: Period, key: LineKey)
    requires Valid(b) && Admissible(b, e)
    ensures AddsAt(ApprovedLines(b, p), NewLines(b, e, p), ApprovedLines(Next(b, e), p), key)
  {
    LinesOnlyGrow(b, e, key);
    NewLine(b, e, p, key);
    ApprovedLine(b, p, key);
    ApprovedLine(Next(b, e), p, key);
  }

  lemma ApprovedLine(b: Books, p: Period, key: LineKey)
    ensures key in ApprovedLines(b, p) <==> CountedLine(b, key) && Within(LineFact(b, key), p)
    ensures key in ApprovedLines(b, p) ==> ApprovedLines(b, p)[key] == LineFact(b, key)
  {
  }

  lemma ClaimAdds(b: Books, e: Event, p: Period, c: ClaimId)
    requires Valid(b) && Admissible(b, e)
    ensures AddsAt(ReimbursedClaims(b, p), NewClaims(b, e, p), ReimbursedClaims(Next(b, e), p), c)
  {
    ClaimsOnlyGrow(b, e, c);
  }

  lemma RequestAddsLines(b: Books, e: Event, p: Period, cell: Cell)
    requires Valid(b) && Admissible(b, e)
    ensures Spent(ApprovedLines(Next(b, e), p), cell)
            == Spent(ApprovedLines(b, p), cell) + Spent(NewLines(b, e, p), cell)
  {
    var before, more, after := ApprovedLines(b, p), NewLines(b, e, p), ApprovedLines(Next(b, e), p);
    forall key: LineKey ensures AddsAt(before, more, after, key) { LineAdds(b, e, p, key); }
    FactsSplit(after, before, more, cell);
  }

  lemma RequestAddsClaims(b: Books, e: Event, p: Period, cell: Cell)
    requires Valid(b) && Admissible(b, e)
    ensures Spent(ReimbursedClaims(Next(b, e), p), cell)
            == Spent(ReimbursedClaims(b, p), cell) + Spent(NewClaims(b, e, p), cell)
  {
    var before, more, after := ReimbursedClaims(b, p), NewClaims(b, e, p), ReimbursedClaims(Next(b, e), p);
    forall c: ClaimId ensures AddsAt(before, more, after, c) { ClaimAdds(b, e, p, c); }
    FactsSplit(after, before, more, cell);
  }

  lemma NothingAdded(b: Books, e: Event, p: Period)
    requires AddsNothing(e)
    ensures NewLines(b, e, p) == map[] && NewClaims(b, e, p) == map[]
  {
  }

  /** One request changes an actual by exactly the rows it adds: nothing, unless
    * it approves a run or marks a run or a batch paid. */
  lemma RequestAddsItsRows(b: Books, e: Event, p: Period, cell: Cell)
    requires Valid(b) && Admissible(b, e)
    ensures Actual(Next(b, e), p, cell) ==
            Actual(b, p, cell) + Spent(NewLines(b, e, p), cell) + Spent(NewClaims(b, e, p), cell)
    ensures AddsNothing(e) ==> NewLines(b, e, p) == map[] && NewClaims(b, e, p) == map[]
  {
    RequestAddsLines(b, e, p, cell);
    RequestAddsClaims(b, e, p, cell);
    if AddsNothing(e) { NothingAdded(b, e, p); }
  }
}
