/**
 * What a run or a batch exports (lib_finance/payroll.py, `export_rows`, and
 * lib_finance/reimbursements.py, `batch_export_rows`), and the totals its page
 * shows: read back, the rows are worth exactly what the page says.
 */
module Export {
  import opened Prelude
  import opened Money
  import opened Tables
  import opened Totals
  import opened Books
  import opened Invariants
  import opened Tallies

  // --- What a run pays back, totalled two ways -------------------------------------------

  type PersonCurrency = (UserId, Currency)

  function OnTheRun(b: Books, run: RunId): map<ClaimId, Claim> {
    map c | c in b.claims && b.claims[c].run == Some(run) :: b.claims[c]
  }

  function ClaimAmounts(claims: map<ClaimId, Claim>): map<ClaimId, int> {
    map c | c in claims :: claims[c].amount
  }

  function OneEach(claims: map<ClaimId, Claim>): map<ClaimId, int> {
    map c | c in claims :: 1
  }

  function PersonKey(claims: map<ClaimId, Claim>): map<ClaimId, PersonCurrency> {
    map c | c in claims :: (claims[c].submitter, claims[c].currency)
  }

  ghost function ClaimsIn(claims: map<ClaimId, Claim>, currency: Currency): set<ClaimId> {
    set c | c in claims && claims[c].currency == currency
  }

  /** Totals per currency, and how many claims each is made of. */
  datatype BackTotals = BackTotals(amounts: map<Currency, int>, counts: map<Currency, int>)

  /** In one currency: listed if a claim is in it, with their sum and number. */
  ghost predicate BackIn(claims: map<ClaimId, Claim>, t: BackTotals, currency: Currency) {
    && (currency in t.amounts <==> ClaimsIn(claims, currency) != {})
    && (currency in t.counts <==> ClaimsIn(claims, currency) != {})
    && At(t.amounts, currency) == Sum(ClaimsIn(claims, currency), ClaimAmounts(claims))
    && At(t.counts, currency) == |ClaimsIn(claims, currency)|
  }

  ghost predicate TotalsBack(claims: map<ClaimId, Claim>, t: BackTotals) {
    forall currency :: BackIn(claims, t, currency)
  }

  /** `_reimbursements`: the claims a run carries, per person per currency. */
  method Reimbursements(b: Books, run: RunId)
      returns (amounts: map<PersonCurrency, int>, counts: map<PersonCurrency, int>)
    ensures amounts == GroupSums(ClaimAmounts(OnTheRun(b, run)), PersonKey(OnTheRun(b, run)))
    ensures counts == GroupSums(OneEach(OnTheRun(b, run)), PersonKey(OnTheRun(b, run)))
  {
    var claims := OnTheRun(b, run);
    amounts := GroupBy(ClaimAmounts(claims), PersonKey(claims));
    counts := GroupBy(OneEach(claims), PersonKey(claims));
  }

  function CurrencyOf(groups: set<PersonCurrency>): map<PersonCurrency, Currency> {
    map g | g in groups :: g.1
  }

  /** `_read`: the same lines added up again, per currency. */
  method ReadTotals(b: Books, run: RunId) returns (t: BackTotals)
    ensures TotalsBack(OnTheRun(b, run), t)
  {
    var amounts, counts := Reimbursements(b, run);
    var perCurrency := GroupBy(amounts, CurrencyOf(amounts.Keys));
    var claimsPer := GroupBy(counts, CurrencyOf(counts.Keys));
    t := BackTotals(perCurrency, claimsPer);
    var claims := OnTheRun(b, run);
    forall currency ensures BackIn(claims, t, currency) {
      RegroupedIn(claims, ClaimAmounts(claims), currency);
      RegroupedIn(claims, OneEach(claims), currency);
      SumOnes(ClaimsIn(claims, currency), OneEach(claims));
    }
  }

  /** The page's second grouping, of one column's first grouping. */
  ghost function Regrouped(claims: map<ClaimId, Claim>, m: map<ClaimId, int>): map<Currency, int>
    requires m.Keys == claims.Keys
  {
    var sums := GroupSums(m, PersonKey(claims));
    GroupSums(sums, CurrencyOf(sums.Keys))
  }

  /** Per person per currency and then per currency is per currency. */
  lemma RegroupedIn(claims: map<ClaimId, Claim>, m: map<ClaimId, int>, currency: Currency)
    requires m.Keys == claims.Keys
    ensures At(Regrouped(claims, m), currency) == Sum(ClaimsIn(claims, currency), m)
    ensures currency in Regrouped(claims, m) <==> ClaimsIn(claims, currency) != {}
  {
    var inner := PersonKey(claims);
    var outer := CurrencyOf(GroupSums(m, inner).Keys);
    forall c | c in inner
      ensures inner[c] in outer && (c in ClaimsIn(claims, currency) <==> outer[inner[c]] == currency)
    {
      assert inner[c] in Groups(m.Keys, inner);
    }
    RegroupAt(m, inner, outer, currency, ClaimsIn(claims, currency));
  }

  function OnRuns(b: Books, runs: set<RunId>): map<ClaimId, Claim> {
    map c | c in b.claims && b.claims[c].run.Some? && b.claims[c].run.value in runs :: b.claims[c]
  }

  function RunKey(claims: map<ClaimId, Claim>): map<ClaimId, (RunId, Currency)> {
    map c | c in claims :: (claims[c].run.GetOr(0), claims[c].currency)
  }

  /** `_reimbursement_totals`: a page of runs at once, summed by the database. */
  method ReimbursementTotals(b: Books, runs: set<RunId>) returns (totals: map<RunId, BackTotals>)
    ensures totals.Keys == runs
    ensures forall run | run in runs :: TotalsBack(OnTheRun(b, run), totals[run])
  {
    var claims := OnRuns(b, runs);
    var sums := GroupBy(ClaimAmounts(claims), RunKey(claims));
    var counts := GroupBy(OneEach(claims), RunKey(claims));
    var amountsOf := Spread(sums);
    var countsOf := Spread(counts);
    totals := map run | run in runs :: BackTotals(Inner(amountsOf, run), Inner(countsOf, run));
    forall run | run in runs ensures TotalsBack(OnTheRun(b, run), totals[run]) {
      RunTotalled(b, runs, run, sums, counts, totals[run]);
    }
  }

  /** One run's part of the database's answer. */
  ghost predicate PartOf(run: RunId, sums: map<(RunId, Currency), int>, mine: map<Currency, int>) {
    forall currency ::
      (currency in mine <==> (run, currency) in sums) && At(mine, currency) == At(sums, (run, currency))
  }

  lemma RunTotalled(b: Books, runs: set<RunId>, run: RunId, sums: map<(RunId, Currency), int>,
                    counts: map<(RunId, Currency), int>, t: BackTotals)
    requires run in runs && PartOf(run, sums, t.amounts) && PartOf(run, counts, t.counts)
    requires Same(sums, GroupSums(ClaimAmounts(OnRuns(b, runs)), RunKey(OnRuns(b, runs))))
    requires Same(counts, GroupSums(OneEach(OnRuns(b, runs)), RunKey(OnRuns(b, runs))))
    ensures TotalsBack(OnTheRun(b, run), t)
  {
    var claims, mine := OnRuns(b, runs), OnTheRun(b, run);
    forall currency ensures BackIn(mine, t, currency) {
      GroupedOnRun(b, runs, run, ClaimAmounts(claims), ClaimAmounts(mine), currency);
      GroupedOnRun(b, runs, run, OneEach(claims), OneEach(mine), currency);
      SumOnes(ClaimsIn(mine, currency), OneEach(mine));
    }
  }

  lemma GroupedOnRun(b: Books, runs: set<RunId>, run: RunId, m: map<ClaimId, int>, mine: map<ClaimId, int>,
                     currency: Currency)
    requires run in runs && m.Keys == OnRuns(b, runs).Keys && mine.Keys == OnTheRun(b, run).Keys
    requires forall c | c in mine :: c in m && m[c] == mine[c]
    ensures var sums, g := GroupSums(m, RunKey(OnRuns(b, runs))), (run, currency);
            && At(sums, g) == Sum(ClaimsIn(OnTheRun(b, run), currency), mine)
            && (g in sums <==> ClaimsIn(OnTheRun(b, run), currency) != {})
  {
    var key, g := RunKey(OnRuns(b, runs)), (run, currency);
    AtGroup(m, key, g);
    GroupHasRows(m, key, g);
    forall c: ClaimId ensures c in Fibre(m.Keys, key, g) <==> c in ClaimsIn(OnTheRun(b, run), currency) {}
    assert Fibre(m.Keys, key, g) == ClaimsIn(OnTheRun(b, run), currency);
    forall c: ClaimId | c in ClaimsIn(OnTheRun(b, run), currency) ensures mine[c] == m[c] {}
    SumSame(ClaimsIn(OnTheRun(b, run), currency), mine, m);
  }

  /** The two ways say the same: a claim's totals are determined. */
  lemma TotalsBackAreUnique(claims: map<ClaimId, Claim>, s: BackTotals, t: BackTotals)
    requires TotalsBack(claims, s) && TotalsBack(claims, t)
    ensures s == t
  {
    forall currency
      ensures currency in s.amounts <==> currency in t.amounts
      ensures currency in s.counts <==> currency in t.counts
      ensures At(s.amounts, currency) == At(t.amounts, currency) && At(s.counts, currency) == At(t.counts, currency)
    {
      assert BackIn(claims, s, currency) && BackIn(claims, t, currency);
    }
    forall currency | currency in s.amounts ensures s.amounts[currency] == t.amounts[currency] {
      assert At(s.amounts, currency) == At(t.amounts, currency);
    }
    forall currency | currency in s.counts ensures s.counts[currency] == t.counts[currency] {
      assert At(s.counts, currency) == At(t.counts, currency);
    }
    assert s.amounts == t.amounts && s.counts == t.counts;
  }

  // --- Rows of an export -------------------------------------------------------------------

  /** Whose row it is and for what: one row of wages, or one per currency paid back. */
  datatype Entry = Wages(person: UserId) | PaysBack(person: UserId, inCurrency: Currency)

  datatype ExportRow = ExportRow(entry: Entry, amount: string, currency: Currency, start: Day, end: Day)

  /** What a reader of the file takes an amount to be. */
  function AmountRead(r: ExportRow): int {
    ReadDecimal(r.amount, r.currency).GetOr(0)
  }

  /** The rows in a currency, read back and added up. */
  ghost function ReadBack(rows: seq<ExportRow>, c: Currency): int {
    if rows == [] then 0
    else
      ReadBack(rows[..|rows| - 1], c)
      + (if rows[|rows| - 1].currency == c then AmountRead(rows[|rows| - 1]) else 0)
  }

  ghost function Entries(rows: seq<ExportRow>): set<Entry> {
    set i | 0 <= i < |rows| :: rows[i].entry
  }

  ghost predicate OncePerEntry(rows: seq<ExportRow>) {
    forall i, j | 0 <= i < j < |rows| :: rows[i].entry != rows[j].entry
  }

  lemma RowAdded(rows: seq<ExportRow>, r: ExportRow)
    requires OncePerEntry(rows) && r.entry !in Entries(rows)
    ensures OncePerEntry(rows + [r]) && Entries(rows + [r]) == Entries(rows) + {r.entry}
    ensures forall c :: ReadBack(rows + [r], c) == ReadBack(rows, c) + (if r.currency == c then AmountRead(r) else 0)
  {
    var more := rows + [r];
    assert more[..|more| - 1] == rows;
    forall e ensures e in Entries(more) <==> e in Entries(rows) || e == r.entry {
      if e in Entries(rows) {
        var i :| 0 <= i < |rows| && rows[i].entry == e;
        assert more[i].entry == e;
      }
      if e == r.entry { assert more[|rows|].entry == e; }
    }
    forall c ensures ReadBack(more, c) == ReadBack(rows, c) + (if r.currency == c then AmountRead(r) else 0) {}
  }

  lemma AmountReadsBack(amount: int, c: Currency, entry: Entry, start: Day, end: Day)
    ensures AmountRead(ExportRow(entry, Decimal(amount, c), c, start, end)) == amount
  {
    DecimalExact(Decimal(amount, c), amount, c);
  }

  // --- Claims paid back: one row per person and currency --------------------------------------

  ghost function MembersOf(claims: map<ClaimId, Claim>, g: PersonCurrency): set<ClaimId> {
    set c | c in claims && (claims[c].submitter, claims[c].currency) == g
  }

  ghost predicate PaysBackRow(claims: map<ClaimId, Claim>, r: ExportRow) {
    && r.entry.PaysBack? && r.currency == r.entry.inCurrency
    && MembersOf(claims, (r.entry.person, r.currency)) != {}
    && r.amount == Decimal(Sum(MembersOf(claims, (r.entry.person, r.currency)), ClaimAmounts(claims)), r.currency)
  }

  /** The groups in `done` have their row, each once, reading back what they add up to. */
  ghost predicate BackRows(claims: map<ClaimId, Claim>, rows: seq<ExportRow>, before: seq<ExportRow>,
                           sums: map<PersonCurrency, int>,
                           done: set<PersonCurrency>)
  {
    && OncePerEntry(rows) && done <= sums.Keys && before <= rows
    && (forall e :: e in Entries(rows) <==> e in Entries(before) || (e.PaysBack? && (e.person, e.inCurrency) in done))
    && (forall i | |before| <= i < |rows| :: PaysBackRow(claims, rows[i]))
    && (forall c :: ReadBack(rows, c) == ReadBack(before, c) + Sum(GroupsIn(done, c), sums))
  }

  ghost function GroupsIn(groups: set<PersonCurrency>, c: Currency): set<PersonCurrency> {
    set g | g in groups && g.1 == c
  }

  ghost predicate SumsClaims(claims: map<ClaimId, Claim>, sums: map<PersonCurrency, int>) {
    Same(sums, GroupSums(ClaimAmounts(claims), PersonKey(claims)))
  }

  function BackRow(g: PersonCurrency, amount: int, start: Day, end: Day): ExportRow {
    ExportRow(PaysBack(g.0, g.1), Decimal(amount, g.1), g.1, start, end)
  }

  lemma GroupIsMembers(claims: map<ClaimId, Claim>, sums: map<PersonCurrency, int>, g: PersonCurrency)
    requires SumsClaims(claims, sums)
    ensures At(sums, g) == Sum(MembersOf(claims, g), ClaimAmounts(claims))
    ensures g in sums <==> MembersOf(claims, g) != {}
  {
    var m, key := ClaimAmounts(claims), PersonKey(claims);
    AtGroup(m, key, g);
    GroupHasRows(m, key, g);
    assert Fibre(m.Keys, key, g) == MembersOf(claims, g);
    assert At(sums, g) == At(GroupSums(m, key), g);
  }

  lemma BackRowAdded(claims: map<ClaimId, Claim>, rows: seq<ExportRow>, before: seq<ExportRow>,
                     sums: map<PersonCurrency, int>,
                     done: set<PersonCurrency>, g: PersonCurrency, r: ExportRow)
    requires BackRows(claims, rows, before, sums, done) && SumsClaims(claims, sums)
    requires g in sums && g !in done && r == BackRow(g, At(sums, g), r.start, r.end)
    requires forall e | e in Entries(before) :: e.Wages?
    ensures BackRows(claims, rows + [r], before, sums, done + {g})
  {
    GroupIsMembers(claims, sums, g);
    RowAdded(rows, r);
    AmountReadsBack(At(sums, g), g.1, r.entry, r.start, r.end);
    forall c
      ensures Sum(GroupsIn(done + {g}, c), sums)
              == Sum(GroupsIn(done, c), sums) + (if g.1 == c then At(sums, g) else 0)
    {
      GroupAdded(sums, done, g, c);
    }
  }

  lemma GroupAdded(sums: map<PersonCurrency, int>, done: set<PersonCurrency>, g: PersonCurrency, c: Currency)
    requires g in sums && g !in done && done <= sums.Keys
    ensures Sum(GroupsIn(done + {g}, c), sums) == Sum(GroupsIn(done, c), sums) + (if g.1 == c then At(sums, g) else 0)
  {
    if g.1 == c {
      SumRemove(GroupsIn(done + {g}, c), sums, g);
      assert GroupsIn(done + {g}, c) - {g} == GroupsIn(done, c);
    } else {
      assert GroupsIn(done + {g}, c) == GroupsIn(done, c);
    }
  }

  /** All the groups in a currency add up to all the claims in it. */
  lemma GroupsAddUp(claims: map<ClaimId, Claim>, sums: map<PersonCurrency, int>, c: Currency)
    requires SumsClaims(claims, sums)
    ensures Sum(GroupsIn(sums.Keys, c), sums) == Sum(ClaimsIn(claims, c), ClaimAmounts(claims))
  {
    var m, key := ClaimAmounts(claims), PersonKey(claims);
    forall k: ClaimId ensures k in ClaimsIn(claims, c) <==> k in m && key[k] in GroupsIn(sums.Keys, c) {
      if k in claims { assert key[k] in Groups(m.Keys, key); }
    }
    SomeGroups(m, key, GroupsIn(sums.Keys, c), ClaimsIn(claims, c));
    SumSame(GroupsIn(sums.Keys, c), sums, GroupSums(m, key));
  }

  // --- A run's export ------------------------------------------------------------------------------

  predicate WagesRow(lines: map<UserId, Line>, run: Run, r: ExportRow) {
    && r.entry.Wages? && r.entry.person in lines
    && var line := lines[r.entry.person];
       && line.amount.Some? && line.currency == Some(r.currency)
       && r.amount == Decimal(line.Pays(), r.currency)
       && OverTheRun(run, r)
  }

  predicate OverTheRun(run: Run, r: ExportRow) {
    r.start == run.start && r.end == run.end
  }

  /** Every row from `from` on has the run's days. */
  ghost predicate AllOverTheRun(run: Run, rows: seq<ExportRow>, from: nat) {
    forall i | from <= i < |rows| :: OverTheRun(run, rows[i])
  }

  /** Everybody not in `todo` who is paid has a row, once. */
  ghost predicate WagesRows(lines: map<UserId, Line>, run: Run, rows: seq<ExportRow>, todo: set<UserId>) {
    && OncePerEntry(rows) && AllProper(lines) && todo <= lines.Keys
    && (forall e ::
          e in Entries(rows) <==> e.Wages? && e.person in lines && e.person !in todo && !lines[e.person].Missing())
    && (forall i | 0 <= i < |rows| :: WagesRow(lines, run, rows[i]))
    && forall c :: ReadBack(rows, c) == AmountIn(lines - todo, c)
  }

  lemma NextLine(lines: map<UserId, Line>, todo: set<UserId>, user: UserId)
    requires AllProper(lines) && user in todo && todo <= lines.Keys
    ensures OneMore(lines - todo, user, lines[user], lines - (todo - {user}))
  {
  }

  lemma MissingSkipped(lines: map<UserId, Line>, run: Run, rows: seq<ExportRow>, todo: set<UserId>, user: UserId)
    requires WagesRows(lines, run, rows, todo) && user in todo && lines[user].Missing()
    ensures WagesRows(lines, run, rows, todo - {user})
  {
    NextLine(lines, todo, user);
    forall c ensures ReadBack(rows, c) == AmountIn(lines - (todo - {user}), c) {
      OneMoreSum(lines - todo, user, lines[user], lines - (todo - {user}), c);
    }
  }

  lemma WagesAdded(lines: map<UserId, Line>, run: Run, rows: seq<ExportRow>, todo: set<UserId>, user: UserId,
                   r: ExportRow)
    requires WagesRows(lines, run, rows, todo) && user in todo
    requires WagesRow(lines, run, r) && r.entry == Wages(user)
    ensures WagesRows(lines, run, rows + [r], todo - {user})
  {
    NextLine(lines, todo, user);
    RowAdded(rows, r);
    AmountReadsBack(lines[user].Pays(), r.currency, r.entry, r.start, r.end);
    forall c ensures ReadBack(rows + [r], c) == AmountIn(lines - (todo - {user}), c) {
      OneMoreSum(lines - todo, user, lines[user], lines - (todo - {user}), c);
    }
  }

  method WagesOf(lines: map<UserId, Line>, run: Run) returns (rows: seq<ExportRow>)
    requires AllProper(lines)
    ensures WagesRows(lines, run, rows, {})
  {
    rows := [];
    var todo := lines.Keys;
    NoWages(lines, run);
    while todo != {}
      invariant WagesRows(lines, run, rows, todo)
      decreases todo
    {
      var user: UserId := Pick(todo);
      var line := lines[user];
      if line.amount.Some? && line.currency.Some? {
        var r := ExportRow(Wages(user), Decimal(line.Pays(), line.currency.value), line.currency.value,
                           run.start, run.end);
        WagesAdded(lines, run, rows, todo, user, r);
        rows := rows + [r];
      } else {
        MissingSkipped(lines, run, rows, todo, user);
      }
      todo := todo - {user};
    }
  }

  lemma NoWages(lines: map<UserId, Line>, run: Run)
    requires AllProper(lines)
    ensures WagesRows(lines, run, [], lines.Keys)
  {
  }

  /** The run's wages and then what it pays back, in full. */
  ghost predicate RunExported(b: Books, id: RunId, rows: seq<ExportRow>)
    requires id in b.runs
  {
    var lines, claims := FrozenLines(b, id), OnTheRun(b, id);
    && OncePerEntry(rows)
    && (forall e :: e in Entries(rows) <==>
          match e
          case Wages(user) => user in lines && !lines[user].Missing()
          case PaysBack(user, c) => MembersOf(claims, (user, c)) != {})
    && (forall i | 0 <= i < |rows| :: WagesRow(lines, b.runs[id], rows[i]) || PaysBackRow(claims, rows[i]))
    && AllOverTheRun(b.runs[id], rows, 0)
    && forall c :: ReadBack(rows, c) == AmountIn(lines, c) + Sum(ClaimsIn(claims, c), ClaimAmounts(claims))
  }

  method AppendBack(ghost claims: map<ClaimId, Claim>, before: seq<ExportRow>, sums: map<PersonCurrency, int>, run: Run)
      returns (rows: seq<ExportRow>)
    requires SumsClaims(claims, sums) && OncePerEntry(before) && forall e | e in Entries(before) :: e.Wages?
    ensures BackRows(claims, rows, before, sums, sums.Keys) && AllOverTheRun(run, rows, |before|)
  {
    rows := before;
    var todo := sums.Keys;
    NoneBack(claims, before, sums, todo);
    while todo != {}
      invariant todo <= sums.Keys && BackRows(claims, rows, before, sums, sums.Keys - todo)
      invariant AllOverTheRun(run, rows, |before|)
      decreases todo
    {
      var g := Pick(todo);
      var r := BackRow(g, At(sums, g), run.start, run.end);
      BackRowAdded(claims, rows, before, sums, sums.Keys - todo, g, r);
      assert sums.Keys - (todo - {g}) == sums.Keys - todo + {g};
      rows := rows + [r];
      todo := todo - {g};
    }
    assert sums.Keys - todo == sums.Keys;
  }

  lemma NoneBack(claims: map<ClaimId, Claim>, before: seq<ExportRow>, sums: map<PersonCurrency, int>,
                 todo: set<PersonCurrency>)
    requires OncePerEntry(before) && todo == sums.Keys
    ensures BackRows(claims, before, before, sums, sums.Keys - todo)
  {
  }

  lemma BothParts(b: Books, id: RunId, wages: seq<ExportRow>, rows: seq<ExportRow>, sums: map<PersonCurrency, int>)
    requires id in b.runs && SumsClaims(OnTheRun(b, id), sums)
    requires WagesRows(FrozenLines(b, id), b.runs[id], wages, {})
    requires BackRows(OnTheRun(b, id), rows, wages, sums, sums.Keys) && AllOverTheRun(b.runs[id], rows, |wages|)
    ensures RunExported(b, id, rows)
  {
    var lines, claims := FrozenLines(b, id), OnTheRun(b, id);
    assert lines - {} == lines;
    forall i | 0 <= i < |rows| ensures WagesRow(lines, b.runs[id], rows[i]) || PaysBackRow(claims, rows[i]) {
      if i < |wages| { assert rows[i] == wages[i]; }
    }
    forall i | 0 <= i < |rows| ensures OverTheRun(b.runs[id], rows[i]) {
      if i < |wages| { assert rows[i] == wages[i] && WagesRow(lines, b.runs[id], wages[i]); }
    }
    forall c ensures ReadBack(rows, c) == AmountIn(lines, c) + Sum(ClaimsIn(claims, c), ClaimAmounts(claims)) {
      GroupsAddUp(claims, sums, c);
    }
    forall e: Entry
      ensures e.PaysBack? ==>
                ((e.person, e.inCurrency) in sums <==> MembersOf(claims, (e.person, e.inCurrency)) != {})
    {
      if e.PaysBack? { GroupIsMembers(claims, sums, (e.person, e.inCurrency)); }
    }
  }

  /** `export_rows`. */
  method ExportRows(b: Books, id: RunId) returns (outcome: Outcome<Error>, rows: seq<ExportRow>)
    requires Valid(b)
    ensures id !in b.runs ==> outcome == Err(RunNotFound)
    ensures id in b.runs && b.runs[id].state == Draft ==> outcome == Err(RunNotApproved)
    ensures id in b.runs && b.runs[id].state != Draft ==> outcome == Ok && RunExported(b, id, rows)
  {
    if id !in b.runs { return Err(RunNotFound), []; }
    if b.runs[id].state == Draft { return Err(RunNotApproved), []; }
    ValidRowsAreProper(b, id);
    var wages := WagesOf(FrozenLines(b, id), b.runs[id]);
    var amounts, counts := Reimbursements(b, id);
    rows := AppendBack(OnTheRun(b, id), wages, amounts, b.runs[id]);
    BothParts(b, id, wages, rows, amounts);
    outcome := Ok;
  }

  /** Read back per currency, a run's rows are worth its totals plus what its
    * page says it pays back. */
  lemma ExportConserves(b: Books, id: RunId, rows: seq<ExportRow>, t: Tally, back: BackTotals, c: Currency)
    requires id in b.runs && RunExported(b, id, rows)
    requires IsTally(FrozenLines(b, id), t) && TotalsBack(OnTheRun(b, id), back)
    ensures ReadBack(rows, c) == At(t.amounts, c) + At(back.amounts, c)
  {
    assert TalliesIn(FrozenLines(b, id), t, c);
    assert BackIn(OnTheRun(b, id), back, c);
  }

  // --- A batch's export -----------------------------------------------------------------------------

  function InTheBatch(b: Books, batch: BatchId): map<ClaimId, Claim> {
    map c | c in b.claims && b.claims[c].batch == Some(batch) :: b.claims[c]
  }

  ghost predicate Grouping(claims: map<ClaimId, Claim>, todo: set<ClaimId>,
                           grouped: map<PersonCurrency, set<ClaimId>>) {
    && todo <= claims.Keys
    && (forall g :: g in grouped <==> MembersOf(claims, g) - todo != {})
    && (forall g | g in grouped :: grouped[g] == MembersOf(claims, g) - todo)
  }

  lemma GroupClaim(claims: map<ClaimId, Claim>, todo: set<ClaimId>, grouped: map<PersonCurrency, set<ClaimId>>,
                   c: ClaimId)
    requires Grouping(claims, todo, grouped) && c in todo
    ensures var g := (claims[c].submitter, claims[c].currency);
            Grouping(claims, todo - {c}, grouped[g := (if g in grouped then grouped[g] else {}) + {c}])
  {
  }

  /** `grouped[(submitter, currency)].append(claim)`, for every claim. */
  method GroupClaims(claims: map<ClaimId, Claim>) returns (grouped: map<PersonCurrency, set<ClaimId>>)
    ensures Grouping(claims, {}, grouped)
  {
    grouped := map[];
    var todo := claims.Keys;
    assert forall g :: MembersOf(claims, g) - todo == {};
    while todo != {}
      invariant Grouping(claims, todo, grouped)
      decreases todo
    {
      var c: ClaimId := Pick(todo);
      GroupClaim(claims, todo, grouped, c);
      var g := (claims[c].submitter, claims[c].currency);
      grouped := grouped[g := (if g in grouped then grouped[g] else {}) + {c}];
      todo := todo - {c};
    }
  }

  /** The first and last day these claims were spent. */
  ghost predicate SpentFrom(claims: map<ClaimId, Claim>, some: set<ClaimId>, start: Day, end: Day) {
    && (exists c :: c in some && c in claims && claims[c].incurredOn == start)
    && (exists c :: c in some && c in claims && claims[c].incurredOn == end)
    && forall c | c in some && c in claims :: start <= claims[c].incurredOn <= end
  }

  /** `min(days)` and `max(days)`. */
  method DaysOf(claims: map<ClaimId, Claim>, some: set<ClaimId>) returns (start: Day, end: Day)
    requires some <= claims.Keys && some != {}
    ensures SpentFrom(claims, some, start, end)
  {
    var first: ClaimId := Pick(some);
    start, end := claims[first].incurredOn, claims[first].incurredOn;
    var todo := some - {first};
    assert SpentFrom(claims, some - todo, start, end);
    while todo != {}
      invariant todo <= some && SpentFrom(claims, some - todo, start, end)
      decreases todo
    {
      var c: ClaimId := Pick(todo);
      var day := claims[c].incurredOn;
      assert forall j: ClaimId :: j in some - (todo - {c}) <==> j in some - todo || j == c;
      if day < start { start := day; }
      if day > end { end := day; }
      todo := todo - {c};
    }
    assert some - todo == some;
  }

  ghost predicate SpansItsClaims(claims: map<ClaimId, Claim>, r: ExportRow) {
    SpentFrom(claims, MembersOf(claims, (r.entry.person, r.currency)), r.start, r.end)
  }

  /** A row for every person and currency, over the days of its claims, and the
    * rows are worth the claims. */
  ghost predicate BatchExported(b: Books, batch: BatchId, rows: seq<ExportRow>) {
    var claims := InTheBatch(b, batch);
    && OncePerEntry(rows)
    && (forall e :: e in Entries(rows) <==> e.PaysBack? && MembersOf(claims, (e.person, e.inCurrency)) != {})
    && (forall i | 0 <= i < |rows| :: PaysBackRow(claims, rows[i]) && SpansItsClaims(claims, rows[i]))
    && forall c :: ReadBack(rows, c) == Sum(ClaimsIn(claims, c), ClaimAmounts(claims))
  }

  ghost function GroupedSums(claims: map<ClaimId, Claim>): map<PersonCurrency, int> {
    GroupSums(ClaimAmounts(claims), PersonKey(claims))
  }

  ghost predicate BatchRows(claims: map<ClaimId, Claim>, rows: seq<ExportRow>, todo: set<PersonCurrency>) {
    && todo <= GroupedSums(claims).Keys
    && BackRows(claims, rows, [], GroupedSums(claims), GroupedSums(claims).Keys - todo)
    && forall i | 0 <= i < |rows| :: SpansItsClaims(claims, rows[i])
  }

  lemma BatchRowAdded(claims: map<ClaimId, Claim>, rows: seq<ExportRow>, todo: set<PersonCurrency>, g: PersonCurrency,
                      amount: int, start: Day, end: Day)
    requires BatchRows(claims, rows, todo) && g in todo
    requires amount == Sum(MembersOf(claims, g), ClaimAmounts(claims))
    requires SpentFrom(claims, MembersOf(claims, g), start, end)
    ensures BatchRows(claims, rows + [BackRow(g, amount, start, end)], todo - {g})
  {
    var sums := GroupedSums(claims);
    GroupIsMembers(claims, sums, g);
    BackRowAdded(claims, rows, [], sums, sums.Keys - todo, g, BackRow(g, amount, start, end));
    assert sums.Keys - (todo - {g}) == sums.Keys - todo + {g};
    assert g == (g.0, g.1);
  }

  lemma BatchDone(b: Books, batch: BatchId, rows: seq<ExportRow>)
    requires BatchRows(InTheBatch(b, batch), rows, {})
    ensures BatchExported(b, batch, rows)
  {
    var claims := InTheBatch(b, batch);
    var sums := GroupedSums(claims);
    assert sums.Keys - {} == sums.Keys;
    forall c ensures ReadBack(rows, c) == Sum(ClaimsIn(claims, c), ClaimAmounts(claims)) {
      GroupsAddUp(claims, sums, c);
    }
    forall e: Entry
      ensures e.PaysBack? ==>
                ((e.person, e.inCurrency) in sums <==> MembersOf(claims, (e.person, e.inCurrency)) != {})
    {
      if e.PaysBack? { GroupIsMembers(claims, sums, (e.person, e.inCurrency)); }
    }
  }

  lemma BatchStarts(claims: map<ClaimId, Claim>, todo: set<PersonCurrency>)
    requires forall g :: g in todo <==> MembersOf(claims, g) != {}
    ensures BatchRows(claims, [], todo)
  {
    var sums := GroupedSums(claims);
    forall g: PersonCurrency ensures g in todo <==> g in sums { GroupIsMembers(claims, sums, g); }
    NoneBack(claims, [], sums, todo);
  }

  /** `batch_export_rows`. */
  method BatchExportRows(b: Books, batch: BatchId) returns (outcome: Outcome<Error>, rows: seq<ExportRow>)
    ensures batch !in b.batches ==> outcome == Err(BatchNotFound)
    ensures batch in b.batches && b.batches[batch].state == Draft ==> outcome == Err(BatchNotApproved)
    ensures batch in b.batches && b.batches[batch].state != Draft ==> outcome == Ok && BatchExported(b, batch, rows)
  {
    if batch !in b.batches { return Err(BatchNotFound), []; }
    if b.batches[batch].state == Draft { return Err(BatchNotApproved), []; }
    var claims := InTheBatch(b, batch);
    var grouped := GroupClaims(claims);
    rows := [];
    var todo := grouped.Keys;
    assert forall g :: MembersOf(claims, g) - {} == MembersOf(claims, g);
    BatchStarts(claims, todo);
    while todo != {}
      invariant todo <= grouped.Keys && BatchRows(claims, rows, todo)
      decreases todo
    {
      var g := Pick(todo);
      var amount := SumOver(grouped[g], ClaimAmounts(claims));
      var start, end := DaysOf(claims, grouped[g]);
      BatchRowAdded(claims, rows, todo, g, amount, start, end);
      rows := rows + [BackRow(g, amount, start, end)];
      todo := todo - {g};
    }
    BatchDone(b, batch, rows);
    outcome := Ok;
  }
}
