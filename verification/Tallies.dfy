/**
 * A run's totals, worked out two ways in lib_finance/payroll.py: folded in
 * Python over its lines (`_Tally.of`), and summed by the database a page of
 * runs at once (`_frozen_tallies`).
 */
module Tallies {
  import opened Prelude
  import opened Money
  import opened Tables
  import opened Totals
  import opened Books
  import opened Approval
  import opened Invariants

  /** A run's totals per currency, and how many lines and missing ones. */
  datatype Tally = Tally(amounts: map<Currency, int>, counts: map<Currency, int>, lineCount: int, missingCount: int)

  /** A line is missing exactly when it has no currency. */
  predicate Proper(line: Line) {
    line.Missing() <==> line.currency.None?
  }

  ghost function Amounts(lines: map<UserId, Line>): map<UserId, int> {
    map k | k in lines :: lines[k].Pays()
  }

  ghost function PaidIn(lines: map<UserId, Line>, c: Currency): set<UserId> {
    set k | k in lines && !lines[k].Missing() && lines[k].currency == Some(c)
  }

  ghost function AmountIn(lines: map<UserId, Line>, c: Currency): int {
    Sum(PaidIn(lines, c), Amounts(lines))
  }

  ghost function MissingFrom(lines: map<UserId, Line>): set<UserId> {
    set k | k in lines && lines[k].Missing()
  }

  /** In one currency: listed if some line is paid in it, with the sum and the
    * number of the lines that are. */
  ghost predicate TalliesIn(lines: map<UserId, Line>, t: Tally, c: Currency) {
    && (c in t.amounts <==> PaidIn(lines, c) != {})
    && (c in t.counts <==> PaidIn(lines, c) != {})
    && At(t.amounts, c) == AmountIn(lines, c)
    && At(t.counts, c) == |PaidIn(lines, c)|
  }

  /** What a run's totals are. */
  ghost predicate IsTally(lines: map<UserId, Line>, t: Tally) {
    && (forall c :: TalliesIn(lines, t, c))
    && t.lineCount == |lines|
    && t.missingCount == |MissingFrom(lines)|
  }

  // --- Folded in Python ---------------------------------------------------------------

  /** The next line of the fold: counted in its currency, or counted missing. */
  function Count(t: Tally, line: Line): Tally {
    match line.currency
    case Some(c) =>
      if line.amount.None? then t
      else
        Tally(t.amounts[c := At(t.amounts, c) + line.Pays()], t.counts[c := At(t.counts, c) + 1],
              t.lineCount + 1, t.missingCount)
    case None => Tally(t.amounts, t.counts, t.lineCount + 1, t.missingCount + 1)
  }

  /** `more` is `lines` with one more. */
  ghost predicate OneMore(lines: map<UserId, Line>, k: UserId, line: Line, more: map<UserId, Line>) {
    && k !in lines && more == lines[k := line] && Proper(line)
  }

  /** Adding a line adds it to its own currency, if it is paid, and to no other. */
  lemma OneMorePaid(lines: map<UserId, Line>, k: UserId, line: Line, more: map<UserId, Line>, c: Currency)
    requires OneMore(lines, k, line, more)
    ensures PaidIn(more, c) == if line.currency == Some(c) then PaidIn(lines, c) + {k} else PaidIn(lines, c)
    ensures k !in PaidIn(lines, c)
  {
  }

  lemma OneMoreSum(lines: map<UserId, Line>, k: UserId, line: Line, more: map<UserId, Line>, c: Currency)
    requires OneMore(lines, k, line, more)
    ensures AmountIn(more, c) == AmountIn(lines, c) + (if line.currency == Some(c) then line.Pays() else 0)
  {
    OneMorePaid(lines, k, line, more, c);
    SumSame(PaidIn(lines, c), Amounts(lines), Amounts(more));
    if line.currency == Some(c) {
      SumRemove(PaidIn(more, c), Amounts(more), k);
      assert PaidIn(more, c) - {k} == PaidIn(lines, c);
    }
  }

  lemma CountLineIn(lines: map<UserId, Line>, t: Tally, k: UserId, line: Line, more: map<UserId, Line>, c: Currency)
    requires OneMore(lines, k, line, more) && TalliesIn(lines, t, c)
    ensures TalliesIn(more, Count(t, line), c)
  {
    OneMorePaid(lines, k, line, more, c);
    OneMoreSum(lines, k, line, more, c);
  }

  lemma OneMoreMissing(lines: map<UserId, Line>, k: UserId, line: Line, more: map<UserId, Line>)
    requires OneMore(lines, k, line, more)
    ensures |MissingFrom(more)| == |MissingFrom(lines)| + (if line.Missing() then 1 else 0)
  {
    forall j: UserId ensures j in MissingFrom(more) <==> j in MissingFrom(lines) || (j == k && line.Missing()) {}
    assert MissingFrom(more) == if line.Missing() then MissingFrom(lines) + {k} else MissingFrom(lines);
  }

  lemma CountLine(lines: map<UserId, Line>, t: Tally, k: UserId, line: Line, more: map<UserId, Line>)
    requires OneMore(lines, k, line, more) && IsTally(lines, t)
    ensures IsTally(more, Count(t, line))
  {
    forall c ensures TalliesIn(more, Count(t, line), c) {
      CountLineIn(lines, t, k, line, more, c);
    }
    OneMoreMissing(lines, k, line, more);
  }

  /** `t` tallies the lines of everybody not in `todo`. */
  ghost predicate Folded(lines: map<UserId, Line>, todo: set<UserId>, t: Tally) {
    todo <= lines.Keys && IsTally(lines - todo, t)
  }

  lemma FoldNone(lines: map<UserId, Line>)
    ensures Folded(lines, lines.Keys, Tally(map[], map[], 0, 0))
  {
  }

  lemma FoldAll(lines: map<UserId, Line>, t: Tally)
    requires Folded(lines, {}, t)
    ensures IsTally(lines, t)
  {
    assert lines - {} == lines;
  }

  lemma FoldOne(lines: map<UserId, Line>, todo: set<UserId>, t: Tally, user: UserId)
    requires Folded(lines, todo, t) && user in todo && Proper(lines[user])
    ensures Folded(lines, todo - {user}, Count(t, lines[user]))
  {
    assert lines - (todo - {user}) == (lines - todo)[user := lines[user]];
    CountLine(lines - todo, t, user, lines[user], lines - (todo - {user}));
  }

  /** `_Tally.of`: the lines folded one by one, in whatever order they come. */
  method TallyOf(lines: map<UserId, Line>) returns (t: Tally)
    requires AllProper(lines)
    ensures IsTally(lines, t)
  {
    t := Tally(map[], map[], 0, 0);
    var todo := lines.Keys;
    FoldNone(lines);
    while todo != {}
      invariant Folded(lines, todo, t)
      decreases todo
    {
      var user := Pick(todo);
      FoldOne(lines, todo, t, user);
      t := Count(t, lines[user]);
      todo := todo - {user};
    }
    FoldAll(lines, t);
  }

  // --- Approval changes no total ------------------------------------------------------

  ghost predicate AllPayTheSame(x: map<UserId, Line>, y: map<UserId, Line>) {
    x.Keys == y.Keys && forall k | k in x :: PaysTheSame(x[k], y[k])
  }

  /** Lines that pay the same have the same tally. */
  lemma SameTally(x: map<UserId, Line>, y: map<UserId, Line>, t: Tally)
    requires AllPayTheSame(x, y) && IsTally(x, t)
    ensures IsTally(y, t)
  {
    forall c ensures TalliesIn(y, t, c) {
      assert TalliesIn(x, t, c);
      SameIn(x, y, c);
    }
    forall k: UserId ensures k in MissingFrom(x) <==> k in MissingFrom(y) {}
    assert MissingFrom(x) == MissingFrom(y);
  }

  lemma SameIn(x: map<UserId, Line>, y: map<UserId, Line>, c: Currency)
    requires AllPayTheSame(x, y)
    ensures PaidIn(x, c) == PaidIn(y, c) && AmountIn(x, c) == AmountIn(y, c)
  {
    forall k: UserId ensures k in PaidIn(x, c) <==> k in PaidIn(y, c) {}
    forall k: UserId | k in PaidIn(x, c) ensures Amounts(x)[k] == Amounts(y)[k] {}
    SumSame(PaidIn(x, c), Amounts(x), Amounts(y));
  }

  /** Currency totals, line count and missing count are the same the instant
    * before a run is approved and the instant after. */
  lemma ApprovalKeepsTally(b: Books, after: Books, id: RunId, t: Tally)
    requires ApproveRun(b, id) == Done(after)
    requires IsTally(RunLines(b, id), t)
    ensures id in after.runs && IsTally(RunLines(after, id), t)
  {
    ApprovalChangesState(b, after, id);
    AllRefined(b, after, id);
    SameTally(RunLines(b, id), RunLines(after, id), t);
  }

  lemma AllRefined(b: Books, after: Books, id: RunId)
    requires ApproveRun(b, id) == Done(after) && id in after.runs
    ensures AllPayTheSame(RunLines(b, id), RunLines(after, id))
  {
    forall user: UserId
      ensures user in RunLines(after, id) <==> user in RunLines(b, id)
      ensures user in RunLines(b, id) ==> PaysTheSame(RunLines(b, id)[user], RunLines(after, id)[user])
    {
      ApprovalRefinesDraft(b, after, id, user);
    }
  }

  // --- Summed by the database --------------------------------------------------------------

  type RowGroup = (RunId, Option<Currency>)

  /** `WHERE run_id IN (...)`. */
  function RowsOf(b: Books, runs: set<RunId>): map<(RunId, UserId), Line> {
    map key | key in b.lines && key.0 in runs :: b.lines[key]
  }

  /** `GROUP BY run_id, currency`; a missing line's currency is null. */
  function GroupOf(rows: map<(RunId, UserId), Line>): map<(RunId, UserId), RowGroup> {
    map key | key in rows :: (key.0, rows[key].currency)
  }

  /** `sum(amount + adjustment)` skips the nulls; `count(*)` does not. */
  function SummedColumn(rows: map<(RunId, UserId), Line>): map<(RunId, UserId), int> {
    map key | key in rows :: rows[key].Pays()
  }

  function CountedColumn(rows: map<(RunId, UserId), Line>): map<(RunId, UserId), int> {
    map key | key in rows :: 1
  }

  /** One answer for all the groups: `sums` and `counts` list the same groups. */
  datatype Answered = Answered(sums: map<RowGroup, int>, counts: map<RowGroup, int>)

  ghost function OfRun(groups: set<RowGroup>, run: RunId): set<RowGroup> {
    set g | g in groups && g.0 == run
  }

  ghost function RowCount(a: Answered, done: set<RowGroup>, run: RunId): int {
    if OfRun(done, run) <= a.counts.Keys then Sum(OfRun(done, run), a.counts) else 0
  }

  /** The tally of one run after the groups in `done`. */
  ghost predicate PartTally(t: Tally, run: RunId, a: Answered, done: set<RowGroup>) {
    && done <= a.counts.Keys
    && (forall c :: c in t.amounts <==> (run, Some(c)) in done)
    && (forall c :: c in t.counts <==> (run, Some(c)) in done)
    && (forall c | c in t.amounts :: t.amounts[c] == At(a.sums, (run, Some(c))))
    && (forall c | c in t.counts :: t.counts[c] == At(a.counts, (run, Some(c))))
    && t.lineCount == RowCount(a, done, run)
    && t.missingCount == if (run, None) in done then At(a.counts, (run, None)) else 0
  }

  /** One row of the answer added to its run's tally. */
  function CountGroup(t: Tally, currency: Option<Currency>, amount: int, count: int): Tally {
    match currency
    case None => Tally(t.amounts, t.counts, t.lineCount + count, t.missingCount + count)
    case Some(c) => Tally(t.amounts[c := amount], t.counts[c := count], t.lineCount + count, t.missingCount)
  }

  lemma RowCountStep(a: Answered, done: set<RowGroup>, run: RunId, g: RowGroup)
    requires done <= a.counts.Keys && g in a.counts && g !in done
    ensures RowCount(a, done + {g}, run) == RowCount(a, done, run) + (if g.0 == run then At(a.counts, g) else 0)
  {
    var more := OfRun(done + {g}, run);
    if g.0 == run {
      SumRemove(more, a.counts, g);
      assert more - {g} == OfRun(done, run);
    } else {
      assert more == OfRun(done, run);
    }
  }

  lemma CountGroupPart(t: Tally, run: RunId, a: Answered, done: set<RowGroup>, g: RowGroup)
    requires PartTally(t, run, a, done) && g in a.counts && g !in done
    ensures PartTally(if g.0 == run then CountGroup(t, g.1, At(a.sums, g), At(a.counts, g)) else t, run, a, done + {g})
  {
    RowCountStep(a, done, run, g);
    if g.0 == run {
      assert g == (run, g.1);
    }
  }

  ghost predicate PartTallies(tallies: map<RunId, Tally>, runs: set<RunId>, a: Answered, todo: set<RowGroup>) {
    && tallies.Keys == runs && todo <= a.counts.Keys && a.sums.Keys == a.counts.Keys
    && (forall g | g in a.counts :: g.0 in runs)
    && forall run | run in runs :: PartTally(tallies[run], run, a, a.counts.Keys - todo)
  }

  lemma CountGroupParts(tallies: map<RunId, Tally>, runs: set<RunId>, a: Answered, todo: set<RowGroup>, g: RowGroup)
    requires PartTallies(tallies, runs, a, todo) && g in todo
    ensures g.0 in tallies && g in a.sums && g in a.counts
    ensures PartTallies(tallies[g.0 := CountGroup(tallies[g.0], g.1, a.sums[g], a.counts[g])], runs, a, todo - {g})
  {
    var done := a.counts.Keys - todo;
    assert a.counts.Keys - (todo - {g}) == done + {g};
    var next := tallies[g.0 := CountGroup(tallies[g.0], g.1, a.sums[g], a.counts[g])];
    forall run: RunId | run in runs ensures PartTally(next[run], run, a, done + {g}) {
      CountGroupPart(tallies[run], run, a, done, g);
    }
  }

  /** `_frozen_tallies`: the groups of a page of runs, each added to its run. */
  method FrozenTallies(b: Books, runs: set<RunId>) returns (tallies: map<RunId, Tally>)
    requires Valid(b)
    ensures tallies.Keys == runs
    ensures forall run | run in runs :: IsTally(FrozenLines(b, run), tallies[run])
  {
    var rows := RowsOf(b, runs);
    var sums := GroupBy(SummedColumn(rows), GroupOf(rows));
    var counts := GroupBy(CountedColumn(rows), GroupOf(rows));
    tallies := map run | run in runs :: Tally(map[], map[], 0, 0);
    var todo := counts.Keys;
    ghost var a := Answered(sums, counts);
    NoGroupsYet(b, runs, a, tallies);
    while todo != {}
      invariant PartTallies(tallies, runs, a, todo)
      decreases todo
    {
      var g := Pick(todo);
      CountGroupParts(tallies, runs, a, todo, g);
      tallies := tallies[g.0 := CountGroup(tallies[g.0], g.1, sums[g], counts[g])];
      todo := todo - {g};
    }
    GroupsTallyRuns(b, runs, a, tallies);
  }

  /** The answer is the database's. */
  ghost predicate Answers(b: Books, runs: set<RunId>, a: Answered) {
    && Same(a.sums, GroupSums(SummedColumn(RowsOf(b, runs)), GroupOf(RowsOf(b, runs))))
    && Same(a.counts, GroupSums(CountedColumn(RowsOf(b, runs)), GroupOf(RowsOf(b, runs))))
  }

  lemma NoGroupsYet(b: Books, runs: set<RunId>, a: Answered, tallies: map<RunId, Tally>)
    requires Answers(b, runs, a)
    requires tallies.Keys == runs && forall run | run in runs :: tallies[run] == Tally(map[], map[], 0, 0)
    ensures PartTallies(tallies, runs, a, a.counts.Keys)
  {
  }

  /** The people whose frozen line has this currency, or none. */
  ghost function PeopleIn(b: Books, run: RunId, currency: Option<Currency>): set<UserId> {
    set user | user in FrozenLines(b, run) && FrozenLines(b, run)[user].currency == currency
  }

  ghost function PeopleAmount(b: Books, run: RunId, currency: Option<Currency>): int {
    Sum(PeopleIn(b, run, currency), Amounts(FrozenLines(b, run)))
  }

  ghost predicate PeopleKnown(b: Books) {
    forall key | key in b.lines :: key.1 in b.users
  }

  ghost function GroupKeys(b: Books, runs: set<RunId>, g: RowGroup): set<(RunId, UserId)> {
    Fibre(RowsOf(b, runs).Keys, GroupOf(RowsOf(b, runs)), g)
  }

  /** A group's rows are its people, paired with the run. */
  lemma GroupRows(b: Books, runs: set<RunId>, run: RunId, currency: Option<Currency>)
    requires PeopleKnown(b) && run in runs
    ensures GroupKeys(b, runs, (run, currency)) == Pairs(run, PeopleIn(b, run, currency))
  {
    forall k: (RunId, UserId)
      ensures k in GroupKeys(b, runs, (run, currency)) <==> k in Pairs(run, PeopleIn(b, run, currency))
    {
      InPairs(run, PeopleIn(b, run, currency), k);
      var user: UserId := k.1;
      if k.0 == run { assert k == (run, user); }
    }
  }

  /** What the database answers for one group. */
  lemma GroupSumAnswer(b: Books, runs: set<RunId>, a: Answered, run: RunId, currency: Option<Currency>)
    requires PeopleKnown(b) && run in runs && Answers(b, runs, a)
    ensures At(a.sums, (run, currency)) == PeopleAmount(b, run, currency)
  {
    var rows, g := RowsOf(b, runs), (run, currency);
    var column, key := SummedColumn(rows), GroupOf(rows);
    assert column.Keys == rows.Keys;
    GroupRows(b, runs, run, currency);
    AtGroup(column, key, g);
    SumPaired(run, PeopleIn(b, run, currency), Amounts(FrozenLines(b, run)), column);
    assert At(a.sums, g) == At(GroupSums(column, key), g);
    assert Fibre(column.Keys, key, g) == Pairs(run, PeopleIn(b, run, currency));
  }

  lemma GroupCountAnswer(b: Books, runs: set<RunId>, a: Answered, run: RunId, currency: Option<Currency>)
    requires PeopleKnown(b) && run in runs && Answers(b, runs, a)
    ensures At(a.counts, (run, currency)) == |PeopleIn(b, run, currency)|
  {
    var rows, g, people := RowsOf(b, runs), (run, currency), PeopleIn(b, run, currency);
    var column, key := CountedColumn(rows), GroupOf(rows);
    assert column.Keys == rows.Keys;
    GroupRows(b, runs, run, currency);
    AtGroup(column, key, g);
    forall user: UserId | user in people ensures (run, user) in column && column[(run, user)] == Ones(people)[user] {}
    SumPaired(run, people, Ones(people), column);
    SumOnes(people, Ones(people));
    assert At(a.counts, g) == At(GroupSums(column, key), g);
    assert Fibre(column.Keys, key, g) == Pairs(run, people);
  }

  lemma GroupListed(b: Books, runs: set<RunId>, a: Answered, run: RunId, currency: Option<Currency>)
    requires PeopleKnown(b) && run in runs && Answers(b, runs, a)
    ensures (run, currency) in a.counts <==> PeopleIn(b, run, currency) != {}
  {
    var people := PeopleIn(b, run, currency);
    GroupRows(b, runs, run, currency);
    if people != {} {
      var user: UserId := Any(people);
      InPairs(run, people, (run, user));
      assert (run, user) in GroupKeys(b, runs, (run, currency));
    }
    if (run, currency) in a.counts {
      var k: (RunId, UserId) :| k in RowsOf(b, runs) && GroupOf(RowsOf(b, runs))[k] == (run, currency);
      assert k in GroupKeys(b, runs, (run, currency));
      InPairs(run, people, k);
    }
  }

  /** The groups of one run count its rows. */
  lemma GroupsOfRun(b: Books, runs: set<RunId>, a: Answered, run: RunId)
    requires PeopleKnown(b) && run in runs && Answers(b, runs, a)
    ensures RowCount(a, a.counts.Keys, run) == |FrozenLines(b, run)|
  {
    var rows, people := RowsOf(b, runs), FrozenLines(b, run).Keys;
    var groups := OfRun(a.counts.Keys, run);
    var inGroups := set k | k in rows && GroupOf(rows)[k] in groups;
    forall k: (RunId, UserId) ensures k in inGroups <==> k in Pairs(run, people) {
      InPairs(run, people, k);
      var user: UserId := k.1;
      if k.0 == run { assert k == (run, user); }
    }
    assert inGroups == Pairs(run, people);
    SomeGroups(CountedColumn(rows), GroupOf(rows), groups, inGroups);
    SumSame(groups, a.counts, GroupSums(CountedColumn(rows), GroupOf(rows)));
    SumPaired(run, people, Ones(people), CountedColumn(rows));
    SumOnes(people, Ones(people));
    assert RowCount(a, a.counts.Keys, run) == Sum(groups, a.counts);
  }

  ghost predicate AllProper(lines: map<UserId, Line>) {
    forall user | user in lines :: Proper(lines[user])
  }

  lemma ValidRowsAreProper(b: Books, run: RunId)
    requires Valid(b)
    ensures PeopleKnown(b) && AllProper(FrozenLines(b, run))
  {
  }

  lemma ByCurrency(b: Books, run: RunId, c: Currency)
    requires AllProper(FrozenLines(b, run))
    ensures PaidIn(FrozenLines(b, run), c) == PeopleIn(b, run, Some(c))
    ensures MissingFrom(FrozenLines(b, run)) == PeopleIn(b, run, None)
  {
    forall user: UserId
      ensures user in PaidIn(FrozenLines(b, run), c) <==> user in PeopleIn(b, run, Some(c))
      ensures user in MissingFrom(FrozenLines(b, run)) <==> user in PeopleIn(b, run, None)
    {
    }
  }

  lemma GroupTalliesIn(b: Books, runs: set<RunId>, run: RunId, t: Tally, a: Answered, c: Currency)
    requires PeopleKnown(b) && AllProper(FrozenLines(b, run)) && run in runs
    requires Answers(b, runs, a) && PartTally(t, run, a, a.counts.Keys)
    ensures TalliesIn(FrozenLines(b, run), t, c)
  {
    GroupSumAnswer(b, runs, a, run, Some(c));
    GroupCountAnswer(b, runs, a, run, Some(c));
    GroupListed(b, runs, a, run, Some(c));
    ByCurrency(b, run, c);
  }

  /** The two ways agree: the database's groups, added up, are the run's tally. */
  lemma GroupsTallyRun(b: Books, runs: set<RunId>, run: RunId, t: Tally, a: Answered)
    requires PeopleKnown(b) && AllProper(FrozenLines(b, run)) && run in runs
    requires Answers(b, runs, a) && PartTally(t, run, a, a.counts.Keys)
    ensures IsTally(FrozenLines(b, run), t)
  {
    var frozen := FrozenLines(b, run);
    forall c ensures TalliesIn(frozen, t, c) {
      GroupTalliesIn(b, runs, run, t, a, c);
    }
    GroupCountAnswer(b, runs, a, run, None);
    GroupListed(b, runs, a, run, None);
    ByCurrency(b, run, Currency(""));
    GroupsOfRun(b, runs, a, run);
  }

  lemma GroupsTallyRuns(b: Books, runs: set<RunId>, a: Answered, tallies: map<RunId, Tally>)
    requires Valid(b) && Answers(b, runs, a) && PartTallies(tallies, runs, a, {})
    ensures forall run | run in runs :: IsTally(FrozenLines(b, run), tallies[run])
  {
    assert a.counts.Keys - {} == a.counts.Keys;
    forall run | run in runs ensures IsTally(FrozenLines(b, run), tallies[run]) {
      ValidRowsAreProper(b, run);
      GroupsTallyRun(b, runs, run, tallies[run], a);
    }
  }
}
