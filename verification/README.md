# SoftTrack, proved

A Dafny model of the parts of SoftTrack that are hardest to get right, and
proofs of what they promise. `dafny verify dfyconfig.toml` checks all of it.

**The finance ledger** (`lib_finance`, with `lib_identity/departments.py`).
`Books` holds the tables as one value and every service call that writes them
as one atomic step, refusals included; `Database` has the calls that loop or
choose as methods that change a class's tables row by row, each proved to do its
step. Around them: pay as an append-only history (`Compensation`, `PayrollTypes`,
`Payees`), drafts and what approval freezes (`Approval`, `Tallies`), claims and
how they are settled (`Invariants`, `Settlement`, `Undo`, `Effects`), who is paid
by two runs (`PaidTwice`), runs of requests that end in corners (`Witnesses`), the
rows that count as spent (`History`) and everything added up from them (`Budgets`,
`BudgetPages`, `Calendar`, `Reports`, `Export`, `Money`). `Totals` has the laws of `GROUP BY`
that make the different ways of adding agree; `Sql` is three-valued logic;
`Tables` the rows and their columns.

**Four smaller protocols.** Who reports to whom (`Managers`), where an account
is signed in (`Sessions`), webhook deliveries by any number of loops (`Outbound`,
`WebhookService`) that may get in each other's way (`Overlaps`, `OverlapBound`,
`OverlapRuns`), and digests by any number of workers (`Digest`, `DigestMail`).
Each is a state machine over its requests, with the imperative code as methods
that follow its steps.

**A compiler and a rewrite.** Board filters compiled to SQL (`Filters`), and
labels merged and removed under saved views that are read by that compiler
(`Labels`), and under recurring schedules that go on listing them
(`LabelSchedules`).

How things are modelled:

- A table is a map from primary key to row. Days, times and ids are integers;
  the order in which a query returns rows is left open, so a loop over rows is
  proved for every order.
- A call answers `Done` with the tables after it or `Refused` with the reasons
  it may give. Where the source checks several rows one by one, which of two
  reasons comes first depends on row order, and the model allows either.
- New keys, the time, the password or code being right, and a send's answer
  come in as parameters. A new row gets a key never used before; pay records
  and notifications get larger keys than all before.
- What request models check is assumed where it matters: a run's last day is
  not before its first, a new batch names a claim. That filters repeat no value
  is not assumed: dropping repeats is part of the model (`Filters.Read`).
- The four smaller protocols and the ledger are separate: an account has only
  the columns each of them reads.

Where the code does not quite do what its description says, the code was
followed, and the exact condition is proved:

- A frozen row for somebody whose pay went away keeps an adjustment the draft
  no longer showed (`Approval.AdjustmentKeptExactlyWhen`). Nothing is paid by
  it: the total stays missing. `Witnesses.StaleAdjustmentIsReached` gets there
  from empty tables.
- A run carries claims only for people it pays, but that is asked when they are
  carried and not when it is approved (`Approval.CarriesUnpaidExactlyWhen`,
  `Witnesses.CarriedUnpaidIsReached`).
- Runs of one schedule share no day, so that nobody is paid twice for one, as the
  description has it. Two runs of different schedules can, and both pay whoever's
  pay moved from one to the other before the second was approved
  (`PaidTwice.PaidTwiceExactlyWhen`, `Witnesses.PaidTwiceIsReached`); nobody whose
  pay was only ever on one schedule (`PaidTwice.PaidTwiceHasTwoSchedules`).
- The walk up a reporting chain gives up after 1000 links, so a chain longer
  than that can be closed into a loop, and only so
  (`Managers.StepKeepsForestExactlyWhen`, `Managers.ForestExactlyWhen`); a run
  that does it is `Managers.TooTallToRefuse`. While chains are no longer it
  cannot happen (`Managers.ReachableIsForest`), and up to 1001 accounts they are
  not (`Managers.FewAccountsStayAForest`).
- A webhook's retry is put off from the start of the tick and not from the try,
  so a slow tick shortens it, to nothing if it is slow enough
  (`Outbound.RetryWaitsExactly`, `Outbound.RetriedTooSoon`).
- A webhook's lease lasts two minutes, and neither the claim nor the try asks
  whether the row is still pending. So loops can try a delivery together, and
  each writes back what it made of the row it read. What a loop claims is pending
  exactly if no other finished it since it was selected
  (`Overlaps.ClaimedIsPendingExactlyWhen`); a row never is again once done
  (`Overlaps.DoneForAll`), though it can be sent again
  (`OverlapRuns.SentAfterItSucceeded`), and can be left with a time for a next
  try (`Overlaps.RestsExactlyWhen`, `OverlapRuns.DoneWithATimeIsReached`).
- Tries that overlap are not all counted: the row counts every one exactly when
  each finds the number it had read (`Overlaps.TriesAreCountedExactlyWhen`). While
  that is so, N loops send a delivery N - 1 times more than the four of one, at
  most (`Overlaps.TriedAtMostIfFresh`). In general it is N(N^2 + 6N + 17)/6, eleven
  for two loops (`OverlapBound.TriedAtMost`, `OverlapBound.MaxTriesIs`), and for
  every N a run gets there (`OverlapRuns.BoundIsReached`). Nothing bounds it if
  loops are stopped in the middle of a try: each time allows as many again.
- Pruning runs right after a send, so the row just finished can itself go, if
  fifty of its hook's rows are newer (`Outbound.StepKeeps`).
- A digest that could not be mailed is not tried again, as the source says and
  accepts (`Digest.LostForGood`).
- The label filter's count test is right exactly for lists without repetition
  (`Filters.CountTestExactlyWhen`), which is why repeats are dropped on the way
  in and merging must not leave one.
- A deleted label stays in the lists of recurring schedules, as the source says,
  and drops out when they are read (`Labels.DeletedIsGone`,
  `LabelSchedules.DeletedStaysNamed`). So a schedule that named a merged label and
  not the other files tickets with neither
  (`LabelSchedules.FiledLikeTheMergedExactlyWhen`).

## Model

| member | source | states |
|---|---|---|
| Invariants.StepKeepsValid | backend/lib_finance/reimbursements.py:265-436 | Every request, done or refused, leaves the tables in order: a claim in at most one container and only if approved, paid back exactly when that container is paid, no empty batch, decisions by somebody else, two runs of a schedule never sharing a day, frozen rows copying one record of their person, departments and budgets where they should be |
| Invariants.ReachableIsValid | backend/lib_finance/reimbursements.py:89-114 | The same after any run of requests, in any order, from any state in order |
| Invariants.ReleaseValid | backend/lib_finance/reimbursements.py:402-436 | Releasing the last claim of a batch takes the batch with it, so no batch is left empty |
| Invariants.DeleteDepartmentValid | backend/lib_identity/departments.py:169-233 | A department that goes leaves no account, line, claim or budget naming it |
| Invariants.ApproveRunValid | backend/lib_finance/payroll.py:519-547 | Approval leaves every row a copy of one pay record of its person, or of none |
| Settlement.PaidBackStays | backend/lib_finance/payroll.py:550-572 | One request: a claim is paid back exactly if it was or is now paid; once paid back it is not paid again and its row never changes |
| Settlement.DecidedIsFrozen | backend/lib_finance/expenses.py:156-165 | No request changes a decided claim, except where and when it is paid back |
| Settlement.StepMoves | backend/lib_finance/reimbursements.py:265-436 | What each request may do to each claim: pay exactly those in what it marks paid, and nothing to one paid back |
| Settlement.PaidAtMostOnce | backend/lib_finance/reimbursements.py:306-328 | Over any run of requests a claim is paid at most once, ends up paid back exactly when it was, and stays the same row from then on |
| Settlement.InContainer | backend/lib_finance/expenses.py:82-99 | A claim goes out in a paid batch or run exactly when it is paid back, and in one only |
| Settlement.ReimbursedAddsUp | backend/lib_finance/reimbursements.py:306-328 | Per currency, the claims paid back add up to the paid batches plus what the paid runs carried |
| Undo.DeleteUndoesCreateRun | backend/lib_finance/payroll.py:451-464 | Deleting a run just created gives back the very same tables |
| Undo.DeleteUndoesCreateBatch | backend/lib_finance/reimbursements.py:281-290 | Deleting a batch just created gives back the very same tables |
| Undo.ReleaseUndoesBatchOfOne | backend/lib_finance/reimbursements.py:402-436 | Releasing the only claim of a new batch gives back the very same tables, the batch gone |
| Undo.ReleaseUndoesCarry | backend/lib_finance/reimbursements.py:368-436 | Releasing a claim from a draft run gives back the tables from before it was carried |
| Undo.WithdrawUndoesCreate | backend/lib_finance/expenses.py:209-255 | Withdrawing a claim just made gives back the very same tables |
| Undo.ClearUndoesSet | backend/lib_finance/payroll.py:467-516 | Clearing an adjustment gives back the tables from before it was set, where there was no row |
| Undo.AdjustmentShows | backend/lib_finance/payroll.py:467-502 | An adjustment shows on its own line, and changes no other line of any draft |
| Undo.AdjustedNotBelowZero | backend/lib_finance/payroll.py:481-493 | The line just adjusted is paid, and not below zero |
| Undo.BatchGathers | backend/lib_finance/reimbursements.py:265-278 | A batch is created with exactly the claims named, each approved and in nothing before, and changes nothing else about any claim |
| Undo.RunCarries | backend/lib_finance/reimbursements.py:368-399 | A draft run carries exactly the claims named, each approved and free before and of somebody it pays, and every other claim stays as it was |
| Undo.DecisionKeepsDepartment | backend/lib_finance/expenses.py:383-411 | Acceptance, by somebody else, copies the submitter's department of that moment, and the claim keeps it through any requests after |
| Undo.ForwardOnly | backend/lib_finance/payroll.py:353-361 | No request deletes a run once approved, takes it back, or moves its days |
| Effects.RunRefusedExactlyWhen | backend/lib_finance/payroll.py:409-448 | A run is refused if and only if one of its days is in a run of the same schedule already |
| Effects.OneRunADay | backend/lib_finance/payroll.py:429-448 | Over any run of requests no day is in two runs of one schedule; whether two schedules pay for it is PaidTwice.PaidTwiceExactlyWhen |
| Effects.PaidExactly | backend/lib_finance/reimbursements.py:306-328 | Marking a batch or a run paid pays back exactly the claims in it, as of now, none of them paid before, and leaves every other claim as it was |
| Effects.PaymentAddsItsContent | backend/lib_finance/payroll.py:550-572 | In every currency the total paid back grows by exactly what the batch or run held |
| Effects.ApprovedIsWhatIsPaid | backend/lib_finance/reimbursements.py:293-303 | Over any run of requests an approved batch or run keeps exactly its claims, each of the same person, money, day and department |
| Effects.ApprovedTotalStays | backend/lib_finance/reimbursements.py:293-328 | So its total in every currency never changes from approval on |
| Effects.OnlyItsSubmitter | backend/lib_finance/expenses.py:224-255 | No request but its submitter changing or withdrawing it, while undecided, changes what a claim asks for or takes it away |
| Effects.LeftAlone | backend/lib_finance/expenses.py:209-255 | The same over any run of requests in which its submitter leaves it alone |
| Effects.DecidedForGood | backend/lib_finance/expenses.py:383-411 | Once decided, every further decision, change or withdrawal is refused, whatever comes between |
| Effects.ClearShows | backend/lib_finance/payroll.py:505-516 | Clearing shows as no adjustment and no note on that line of that draft, and on no other line of any draft |
| Effects.SwitchedOnMeans | backend/lib_finance/payroll_types.py:39-81 | After switching, exactly the active insiders who are paid, untyped, employees or of a switchable type asked for are on payroll, whatever was stored before |
| Effects.SwitchingMovesNoPay | backend/lib_finance/payroll_types.py:39-50 | Switching types never touches a paid line of any draft: only missing lines come and go |
| Approval.FrozenLine | backend/lib_finance/payroll.py:519-547 | After approval a person has a row exactly if the draft had a line, so orphaned adjustments are gone, and the row says the line's record, amount, currency, department and total |
| Approval.ApprovalRefinesDraft | backend/lib_finance/payroll.py:519-547 | The run's page names the same people and pays each the same, the instant before and the instant after |
| Approval.ApprovalTouchesOneRun | backend/lib_finance/payroll.py:523-537 | No other run's rows change |
| Approval.AdjustmentKeptExactlyWhen | backend/lib_finance/payroll.py:530-536 | The adjustment column is what the draft showed if and only if the person has pay on the last day or the row held none: a row reused for a missing line keeps a stale one |
| Approval.CarriesUnpaidExactlyWhen | backend/lib_finance/reimbursements.py:368-399 | Who is paid is asked when a claim is carried and not again: an approved run carries the claim of somebody it does not pay if and only if at approval they are not an active insider with pay for the last day on its schedule |
| Witnesses.StaleAdjustmentIsReached | backend/lib_finance/payroll.py:526-538 | Ten requests from empty tables end with a missing frozen row that keeps an adjustment of 5 |
| Witnesses.CarriedUnpaidIsReached | backend/lib_finance/payroll.py:519-547 | The same ten end with an approved run carrying the claim of somebody it does not pay |
| PaidTwice.PaidTwiceExactlyWhen | backend/lib_finance/payroll.py:519-547 | Two approved runs sharing a day both pay a person if and only if, each at the moment it was approved, they were an active insider whose pay on its last day was on its schedule; the two schedules differ |
| PaidTwice.PaidTwiceHasTwoSchedules | backend/lib_softtrack/tables.py:2172-2180 | Over any run of requests, whoever is paid twice for a day has pay recorded on two schedules |
| Witnesses.PaidTwiceIsReached | backend/lib_softtrack/tables.py:2172-2180 | A run of requests from empty tables ends with the first half of a month paid twice, by a semi-monthly run and by a monthly one |
| Tallies.ApprovalKeepsTally | backend/lib_finance/payroll.py:157-180 | Currency totals, line counts and the missing count are the same before and after approval |
| Tallies.TallyOf | backend/lib_finance/payroll.py:166-180 | The fold lists a currency exactly if a line is paid in it, with those lines' sum and number, and counts all lines and the missing ones |
| Tallies.FrozenTallies | backend/lib_finance/payroll.py:183-207 | The database's groups, added up for a page of runs, give each run the tally of its frozen lines: the same the fold gives |
| Tallies.GroupsTallyRun | backend/lib_finance/payroll.py:193-206 | For one run: the groups by currency, with the null currency as missing, are that tally |
| History.LinesOnlyGrow | backend/lib_finance/budgets.py:62-74 | One request: the counted lines are those there were, each saying what it said, plus exactly the paid lines of a draft it approves, saying what the draft said |
| History.ClaimsOnlyGrow | backend/lib_finance/budgets.py:77-87 | One request: the counted claims are those there were, unchanged, plus exactly the ones it pays |
| History.HistoryIsFrozen | backend/lib_finance/budgets.py:62-87 | Over any run of requests no counted row is lost or changed |
| History.NothingElseCounts | backend/lib_finance/payroll.py:519-572 | While nothing is approved or marked paid, no row starts to count |
| History.AmountHasCurrency | backend/lib_finance/budgets.py:62-74 | In every reachable state a row has an amount exactly if it has a currency, and only once its run is approved |
| Budgets.Actuals | backend/lib_finance/budgets.py:90-109 | The dictionary has a department and currency exactly if a row was spent in it, with approved lines plus claims paid back, and in each currency adds up to every such row |
| Budgets.SpendIsConserved | backend/lib_finance/budgets.py:62-109 | In one table of rows: over the departments that have any, Unattributed included, the spend in a currency is every row in it |
| Budgets.ActualsConserve | backend/lib_finance/budgets.py:90-109 | The dictionary built from lines and claims, added up over every department and Unattributed, is every approved line plus every claim paid back, in each currency |
| Budgets.PeriodSplits | backend/lib_finance/budgets.py:62-87 | Splitting a period in two splits every actual exactly |
| Budgets.ActualsAreFrozen | backend/lib_identity/departments.py:169-233 | Pay records, corrections, moves, deletions and draft edits, in any number and order, leave every actual of every period as it was |
| Budgets.RequestAddsItsRows | backend/lib_finance/budgets.py:90-109 | One request changes an actual by exactly the rows it adds, and only approval and the two payments add any |
| BudgetPages.Breakdown | backend/lib_finance/budgets.py:173-266 | Every origin with rows in the cell is listed once, with how many they are and their sum, and together they are the actual |
| BudgetPages.ClaimsHaveOneContainer | backend/lib_finance/budgets.py:218-251 | Each claim paid back went out in one batch or on one run, so it has one source |
| BudgetPages.OriginsAreSettled | backend/lib_finance/budgets.py:227-251 | A source is an approved or paid run, a paid batch, or a paid run that carried claims |
| BudgetPages.Overview | backend/lib_finance/budgets.py:126-170 | A row for exactly the cells with spend or a budget for exactly the period, with both; no row names a department that is gone |
| BudgetPages.BudgetMadeExactlyWhen | backend/lib_finance/budgets.py:277-323 | A budget is made if and only if its department exists and none for exactly its period, department and currency is shown yet |
| BudgetPages.MadeBudgetShows | backend/lib_finance/budgets.py:126-170 | A new budget shows in its own cell of its own period; every other cell of every page keeps its budget, and no actual moves |
| BudgetPages.DeleteUndoesCreateBudget | backend/lib_finance/budgets.py:344-346 | Deleting a budget just made gives back the very same tables |
| Compensation.OneInEffect | backend/lib_finance/compensation.py:58-84 | The ranked query gives at most one record per person |
| Compensation.InEffectLeads | backend/lib_finance/compensation.py:58-84 | Rank one is: started, uncorrected, and before every other such record of the person |
| Compensation.PaidWhenStarted | backend/lib_finance/compensation.py:134-146 | Somebody has pay exactly if some uncorrected record of theirs has started |
| Compensation.ChainAgreesWithQuery | backend/lib_finance/compensation.py:168-183 | On every history and day, the chain's current record is the one the query gives |
| Compensation.StandingsMeanWhatTheySay | backend/lib_finance/compensation.py:185-192 | Every record has exactly the standing its history gives it: corrected, current, scheduled or past |
| Compensation.LiveCount | backend/lib_finance/compensation.py:349-405 | As many records are live as correct nothing |
| Compensation.NewRecordIsLocal | backend/lib_finance/compensation.py:349-393 | A record that corrects nothing changes pay exactly from its own date up to the next live date after it |
| Compensation.CorrectionIsLocal | backend/lib_finance/compensation.py:349-393 | A correction is the pay exactly where it has started and nothing else live overtakes it; elsewhere the pay is whichever record leads without the target, so only days the target was the pay of change, none before the earlier of the two dates |
| PayrollTypes.OnPayrollMeaning | backend/lib_finance/payroll_types.py:61-81 | Under three-valued logic the filter takes exactly active insiders who are paid, untyped, employees or of a type switched on |
| PayrollTypes.NobodySkipped | backend/lib_finance/compensation.py:99-131 | Every active account is on payroll or named as left off, never both, null types included |
| PayrollTypes.LeftOffReasonIsTheReason | backend/lib_finance/payroll_types.py:84-91 | Whoever is left off is from outside, or unpaid and of the switched-off type the reason names |
| Payees.PaidOnOneSchedule | backend/lib_finance/payroll.py:97-126 | Somebody paid is paid on one schedule's draft for a last day, and missing on none |
| Payees.UnpaidMissingOnAll | backend/lib_finance/payroll.py:97-126 | Somebody on payroll without pay is missing on every schedule's draft |
| Payees.OnADraftOrLeftOff | backend/lib_finance/payroll.py:334-339 | An active account is on some draft for a last day, or is named as left off |
| Payees.ListCompensation | backend/lib_finance/compensation.py:222-323 | The people in the totals and the missing ones are everybody listed; each total is the sum and number of the people paid that way |
| Calendar.DateReadsBack | backend/lib_finance/reports.py:40-46 | Year, month and day read back from the day they make |
| Calendar.InOrder | backend/lib_finance/reports.py:40-46 | Days compare as their year, month and day do |
| Calendar.AddMonthsMoves | backend/lib_finance/reports.py:44-46 | Adding months gives the first of the month that many months away, forwards and backwards |
| Calendar.MonthSpans | backend/lib_finance/reports.py:40-46 | A day is in a month exactly from its first to the day before the next month's |
| Reports.ApprovedEnds | backend/lib_finance/reports.py:56-63 | None without an approved run, else the first and last day one ends on |
| Reports.RunCounts | backend/lib_finance/reports.py:81-92 | Per month, the approved and paid runs and the drafts that end in it |
| Reports.Payroll | backend/lib_finance/reports.py:49-132 | Months follow one another without a gap up to the latest, all of them or the last N there are; each says its runs, drafts, people and costs |
| Reports.CostIsTheActuals | backend/lib_finance/reports.py:103-117 | A month's cost in a currency is the payroll part of the budgets' actuals over that month, added up over departments |
| Reports.ReportIsEverything | backend/lib_finance/reports.py:49-132 | All months together are all frozen lines: no run falls between two months or outside them |
| Reports.HeadcountBetween | backend/lib_finance/reports.py:94-117 | Headcount is at least every currency's people and at most all of them added up |
| Money.DivModLaw | backend/lib_finance/payroll.py:582 | Whole and fraction are quotient and remainder by the currency's power of ten |
| Money.DecimalExact | backend/lib_finance/payroll.py:575-583 | Text reads as an amount exactly when it is what that amount is written as, for every integer and currency |
| Export.ReadTotals | backend/lib_finance/payroll.py:297-313 | The page's totals, from lines per person and currency, list exactly the currencies with claims, with their sum and number |
| Export.Reimbursements | backend/lib_finance/payroll.py:210-245 | The claims a run carries, grouped by person and currency, with their sums and numbers |
| Export.ReimbursementTotals | backend/lib_finance/payroll.py:248-268 | The database's totals for a page of runs say the same of each run's claims |
| Export.TotalsBackAreUnique | backend/lib_finance/payroll.py:248-313 | Two totals of the same claims are equal, so the two ways agree |
| Export.ExportRows | backend/lib_finance/payroll.py:586-625 | Refused for no run and for a draft; else one wages row per paid line and one row per person and currency paid back, each with its amount and the days of the run, and nothing else |
| Export.ExportConserves | backend/lib_finance/payroll.py:586-625 | Read back per currency, the rows are worth the run's total plus what it pays back |
| Export.BatchExportRows | backend/lib_finance/reimbursements.py:331-362 | Refused for no batch and for a draft; else one row per person and currency, over the days of its claims, worth the batch's claims when read back |
| Database.Services.DraftLinesOf | backend/lib_finance/payroll.py:97-126 | The loop leaves out exactly who is off payroll or on another schedule |
| Database.Services.DeleteRun | backend/lib_finance/payroll.py:451-464 | Row by row: only a draft goes, its rows with it, its claims free again |
| Database.Services.SetAdjustment | backend/lib_finance/payroll.py:467-502 | Does the step's one row, or refuses for the step's reason and changes nothing |
| Database.Services.Freeze | backend/lib_finance/payroll.py:526-538 | Writing each line over its row or a fresh one and deleting the rows left over leaves exactly the draft's lines |
| Database.Services.ApproveRun | backend/lib_finance/payroll.py:519-547 | Does the approval step, or refuses and changes nothing |
| Database.Services.UpdateClaim | backend/lib_finance/expenses.py:224-242 | Does the step on the fields sent, or refuses |
| Database.Services.Settleable | backend/lib_finance/reimbursements.py:89-114 | Refuses exactly if a claim is unknown, not approved or already going out |
| Database.Services.CreateBatch | backend/lib_finance/reimbursements.py:265-278 | Claim by claim, does the step, or refuses and changes nothing |
| Database.Services.Carry | backend/lib_finance/reimbursements.py:368-399 | Does the step, or refuses a claim whose person the run does not pay |
| Database.Services.Release | backend/lib_finance/reimbursements.py:402-436 | Does the step, or refuses once the container is approved |
| Database.Services.DeleteDepartment | backend/lib_identity/departments.py:169-233 | Member by member, does the step, or refuses |
| Database.Services.RecordPay | backend/lib_finance/compensation.py:349-405 | Appends the record, or refuses a second correction or one of somebody else's |
| Database.Services.UpdateBudget | backend/lib_finance/budgets.py:326-341 | Does the step on the fields sent, or refuses |
| Database.FollowedIsReached | backend/lib_finance/reimbursements.py:265-436 | What a method that follows its step leaves is what the run of requests says, and is in order |
| Managers.AssertCanReportTo | backend/lib_identity/managers.py:21-50 | On every graph, loops included, the walk ends and refuses exactly the manager themselves and whoever is above the manager by at most 1000 links |
| Managers.Directory.SetManager | backend/lib_identity/managers.py:53-76 | Sets the link, or refuses for the first reason that holds and changes nothing |
| Managers.LinkKeepsForestExactlyWhen | backend/lib_identity/managers.py:21-50 | On a forest, a link keeps it if and only if the person is nowhere above the manager |
| Managers.UnlinkKeepsForest | backend/lib_identity/managers.py:55-57 | Taking a manager away keeps the forest |
| Managers.RefusesExactlyLoops | backend/lib_identity/managers.py:21-76 | While no chain is longer than 1000 links, a manager is refused exactly when the link would close a loop |
| Managers.ChainsAreShort | backend/lib_identity/managers.py:16-18 | With at most 1001 accounts no chain of a forest is longer than 1000 links |
| Managers.ReachableIsForest | backend/lib_identity/managers.py:53-76 | Whatever is asked, in any order and for any number of accounts, while no chain is longer than 1000 links nobody is ever above themselves |
| Managers.FewAccountsStayAForest | backend/lib_identity/managers.py:16-18 | With at most 1001 accounts that is so whatever is asked |
| Managers.StepKeepsForestExactlyWhen | backend/lib_identity/managers.py:53-76 | A request keeps the forest if and only if it does not link somebody under an active manager more than 1000 links below them |
| Managers.ForestExactlyWhen | backend/lib_identity/managers.py:21-76 | Over any run of requests nobody is ever above themselves if and only if no request does that |
| Managers.MadeLinkKeepsForestExactlyWhen | backend/lib_identity/managers.py:32-50 | On any forest, a link that is made keeps it if and only if the person is not more than 1000 links above the manager |
| Managers.TooTallToRefuse | backend/lib_identity/managers.py:16-18 | A run of requests makes a line of 1002 accounts; there the top can be put under the bottom, and the loop is closed |
| Sessions.StepMoves | backend/lib_identity/sessions.py:121-297 | Whatever a request does, versions never go back, a row only ends, is used while live or moves to a newer version, and only current things are handed out |
| Sessions.MovesKeepInv | backend/lib_identity/identity.py:89-148 | Every token, row, pending factor and link stays no newer than its account, and a current one only of an active, activated account |
| Sessions.RefusedForever | backend/lib_identity/sessions.py:231-244 | A session token refused once is refused for ever, whatever follows |
| Sessions.HalfRefusedForever | backend/lib_identity/identity.py:422-461 | So is a pending second factor |
| Sessions.LinkRefusedForever | backend/lib_identity/password_reset.py:107-143 | So is a reset link |
| Sessions.LinkWorksAtMostOnce | backend/lib_identity/password_reset.py:77-143 | Over any run a reset link works at most once |
| Sessions.VersionEndsAll | backend/lib_identity/identity.py:634-672 | When an account's version moves on, every token, pending factor and link it had is dead |
| Sessions.OnlyTheReissuedSurvives | backend/lib_identity/sessions.py:199-218 | Of the account's sessions only that of the request itself is then live |
| Sessions.EndSessionsEndsAll | backend/lib_identity/admin.py:240-253 | Ending an account's sessions ends every one, though an account not yet activated keeps its version |
| Sessions.DeactivatedForGood | backend/lib_identity/admin.py:329-342 | Deactivating ends every session for good: reactivating brings none back |
| Sessions.RevokeEndsOne | backend/lib_identity/sessions.py:276-287 | Revoking a session refuses its tokens and no other |
| Sessions.StartedIsAccepted | backend/lib_identity/sessions.py:121-172 | A session just started is let in, and its sweep refuses no token that was accepted |
| Sessions.IssuedLinkIsTheOnly | backend/lib_identity/password_reset.py:77-104 | A link just issued works, no other of the account does, and everybody else keeps theirs |
| Sessions.ReissuedIsTheOnly | backend/lib_identity/identity.py:634-672 | After a change of password or second factor the token handed back is let in, every other of the account is refused, and nobody else is affected |
| Sessions.ListShowsTheLive | backend/lib_identity/sessions.py:93-109 | The SQL list has exactly the rows the Python test accepts |
| Sessions.Service.ReissueToken | backend/lib_identity/sessions.py:199-228 | Keeps the request's row and moves it to the version, or starts one if it had none |
| Sessions.Service.Authenticate | backend/lib_identity/sessions.py:231-244 | Lets in exactly the tokens that are accepted, noting the use at most once a minute |
| Sessions.Service.RevokeSession | backend/lib_identity/sessions.py:276-287 | Ends the account's own live session, or answers that there is none |
| Sessions.Service.EndCurrent | backend/lib_identity/sessions.py:290-297 | Ends the request's row if it has not ended |
| Sessions.Service.ResetPassword | backend/lib_identity/password_reset.py:107-143 | Spends the link, and exactly if it was usable activates the account and moves its version on |
| Outbound.StepKeeps | backend/lib_softtrack/outbound.py:333-466 | For any number of loops: pending means fewer than four tries, a time for the next and not completed, and ends exactly by a try that finishes the row; done means completed, and never ends; only a try written back changes more of a row than its lease; an enabled hook has fewer than five failures in a row; a row goes only when done and fifty of its hook are newer, or with its hook |
| Outbound.ReachableAlone | backend/lib_softtrack/outbound.py:355-394 | With one loop, over any run, what it has in hand is pending, nothing done has a time for a next try, and no row has more than four tries |
| Outbound.DoneIsFinal | backend/lib_softtrack/outbound.py:397-447 | With one loop, succeeded and failed are final over any run of requests and ticks, and a key is never used again |
| Outbound.ReachableIsKept | backend/lib_softtrack/outbound.py:355-394 | The same over any run, however the steps of any number of loops and other requests fall |
| Outbound.OldestFirst | backend/lib_softtrack/outbound.py:363-371 | A selection takes only rows pending and due, and leaves none that is older than one it takes |
| Outbound.ClaimTakes | backend/lib_softtrack/outbound.py:333-352 | A claim takes exactly the selected rows whose lease is none or ended before the tick started, and changes nothing of any row but its lease |
| Outbound.RetryWaitsExactly | backend/lib_softtrack/outbound.py:355-447 | Measured from the end of a failed try of a row nobody else wrote, the next waits its backoff less the age of the tick: its whole backoff if and only if no time has passed since the tick started, and none if and only if the whole backoff has |
| Outbound.RetriedTooSoon | backend/lib_softtrack/outbound.py:60-71 | A run from nothing: a try ends in failure a hundred seconds into its tick, and its retry was due seventy seconds before |
| Outbound.TriedAtMostFour | backend/lib_softtrack/outbound.py:397-447 | One loop starts to send a delivery at most as often as it has tries left, four in all, and once more for each time it is stopped before writing back |
| Outbound.EverySendBringsTheEndNearer | backend/lib_softtrack/outbound.py:397-447 | With one loop the tries left in the whole outbox strictly fall with every send written back |
| Overlaps.PendingExactlyWhen | backend/lib_softtrack/outbound.py:397-447 | However the steps of any number of loops fall, a pending row still there is still pending if and only if no try written back finished it: not sent, sent well, or the fourth by what that loop had read |
| Overlaps.ClaimedIsPendingExactlyWhen | backend/lib_softtrack/outbound.py:333-352 | What a loop claims is still pending if and only if no other loop finished it between the selection and the claim |
| Overlaps.DoneForAll | backend/lib_softtrack/outbound.py:397-447 | With any number of loops a row once done is never pending again |
| Overlaps.RestsExactlyWhen | backend/lib_softtrack/outbound.py:425-440 | In every state of a run a done row has no time for a next try, if and only if no failed try was written back over it once it was done |
| Overlaps.TriesAreCountedExactlyWhen | backend/lib_softtrack/outbound.py:397-447 | With any number of loops a row counts every send that was written back if and only if each found the number of tries it had read; else it counts fewer |
| Overlaps.TriedOnceMorePerHolder | backend/lib_softtrack/outbound.py:469-475 | A row that is done is sent at most once more by each loop that has it selected or claimed then, and by no other |
| Overlaps.TriedAtMostIfFresh | backend/lib_softtrack/outbound.py:355-447 | While every send is written back over the tries it read, a pending delivery is sent at most as often as it has tries left and once more for each loop but one, and for each time a loop is stopped in the middle |
| OverlapBound.TriedAtMost | backend/lib_softtrack/outbound.py:355-447 | However many loops there are, however their tries overlap and however long a send takes, a pending delivery is sent at most MaxTries of their number, and as often again for each time a loop is stopped in the middle |
| OverlapBound.MaxTriesIs | backend/lib_softtrack/outbound.py:60-71 | That number for n loops is n(n^2 + 6n + 17)/6: four for one loop and eleven for two |
| OverlapRuns.BoundIsReached | backend/lib_softtrack/outbound.py:355-447 | For every number of loops a run from nothing, of these loops and with none stopped, sends a delivery exactly that often, so the bound is exact |
| OverlapRuns.SentAfterItSucceeded | backend/lib_softtrack/outbound.py:469-475 | A run from nothing: two loops select one row, the second sends it well, and the first claims it and may send it again |
| OverlapRuns.DoneWithATimeIsReached | backend/lib_softtrack/outbound.py:397-447 | The same run with that second send failing: the delivery has succeeded and has a time for a next try |
| WebhookService.PruneLog | backend/lib_softtrack/outbound.py:450-466 | Deleting below the oldest of the newest fifty deletes exactly what is done and has fifty newer |
| WebhookService.Webhooks.EmitEvent | backend/lib_softtrack/outbound.py:168-229 | One pending row, due now, for exactly the enabled hooks of a team not archived that want the event |
| WebhookService.Webhooks.TryOne | backend/lib_softtrack/outbound.py:397-447 | Leaves the row, its hook and the pruned log as a try in a tick of that clock should, nobody else writing meanwhile |
| WebhookService.Webhooks.GetTo | backend/lib_softtrack/outbound.py:374-394 | A claimed row is sent exactly if its hook is there, on, and of a team not archived, and else fails unsent: the same as reading it, letting the send take its time, writing it back and pruning |
| WebhookService.Webhooks.DeliverDue | backend/lib_softtrack/outbound.py:355-394 | An undisturbed tick, however long each send takes, is a run of those steps: the selection, the claim and each claimed row read and written back, none left behind, and the answer counts the sends |
| WebhookService.Webhooks.UpdateWebhook | backend/lib_softtrack/outbound.py:567-590 | Switching on starts the failures afresh; nothing else does |
| Digest.StepKeeps | backend/lib_softtrack/digest.py:161-236 | Whichever worker moves, what was sent or is claimed is stamped, its reader's and in one place, and sendings are never taken back |
| Digest.ClaimedIsNew | backend/lib_softtrack/digest.py:169-178 | What a claim gets is in no mail tried so far and in no other worker's hands |
| Digest.BatchesAreWhatWaits | backend/lib_softtrack/digest.py:195-213 | A batch holds exactly its person's notifications that are old enough, unread, unmailed and wanted by email, while the account is active |
| Digest.ReachableIsKept | backend/lib_softtrack/digest.py:184-236 | Over any run of any workers' statements and other requests, that stays so |
| Digest.NobodyIsToldTwice | backend/lib_softtrack/digest.py:184-236 | For any number of workers and any interleaving, no notification is in two mails tried, whether they went through or not, and a mail holds only its reader's, wanted by email |
| Digest.LostForGood | backend/lib_softtrack/digest.py:219-234 | What a failed mail told of is never in a mail that goes through, whatever follows |
| Digest.Mailroom.ClaimRows | backend/lib_softtrack/digest.py:161-181 | Stamps and answers exactly the rows not yet stamped |
| Digest.Mailroom.MailOne | backend/lib_softtrack/digest.py:216-234 | One person's batch is claimed and what was got is mailed, or nothing is, and the count says whether it went through |
| Digest.Mailroom.SendPendingDigests | backend/lib_softtrack/digest.py:184-236 | One worker's call is a run of those steps; undisturbed, everything that waited is in a mail afterwards, gone through exactly if its reader's mail does not fail, and the answer counts those that went through |
| DigestMail.RenderBody | backend/lib_softtrack/digest.py:119-158 | Shows exactly the first twenty of the reminders and then the rest, in order, and counts the remainder exactly if there is one |
| DigestMail.SubjectIsTrue | backend/lib_softtrack/digest.py:67-113 | The subject speaks of every item, and uses a noun only if it is every other item's |
| Filters.CompilerPreservesMeaning | backend/lib_softtrack/filters.py:183-249 | For every ticket, nulls included, all clauses are true exactly when the filters accept it |
| Filters.RequestsMeanWhatTheySay | backend/lib_softtrack/models/views.py:20-35 | The same of every set of filters a request can send: the repeats dropped on the way in change nothing |
| Filters.FilterClauses | backend/lib_softtrack/filters.py:183-249 | Appending clause by clause builds that compilation |
| Filters.OneOfMeans | backend/lib_softtrack/filters.py:84-108 | The condition means the choice, or its complement, and no row is lost to a null |
| Filters.OneOfClause | backend/lib_softtrack/filters.py:84-108 | Collecting the parts in a list builds that condition, none where nothing is asked |
| Filters.LabelsMean | backend/lib_softtrack/filters.py:111-130 | The label clause means any of the labels, or every one, or its complement |
| Filters.ExcludeIsTheComplement | backend/lib_softtrack/filters.py:84-108 | Excluding keeps exactly what choosing does not |
| Filters.CountTestExactlyWhen | backend/lib_softtrack/filters.py:124-128 | The count test finds the tickets with every label if and only if no label is listed twice; else none |
| Filters.DueMeans | backend/lib_softtrack/filters.py:71-81 | Overdue, this week and no date, with the week ending on the viewer's Sunday |
| Filters.WhenMeans | backend/lib_softtrack/filters.py:138-162 | Midnights compare as days do: windows and ranges include both ends |
| Filters.WhenClauses | backend/lib_softtrack/filters.py:138-162 | Appending builds the clauses of a window and a range |
| Filters.MissingMeans | backend/lib_softtrack/filters.py:56-68 | What is missing is what the ticket's team estimates in, either if both |
| Filters.MeIsNobody | backend/lib_softtrack/filters.py:213-224 | With nobody looking, me alone keeps nothing, and excluded keeps everything |
| Labels.MergeIsHomomorphism | backend/lib_softtrack/labels.py:234-263 | After a merge a view lists a ticket exactly when the images of what it wanted and what the ticket carried match, in every mode |
| Labels.ListsIsMatch | backend/lib_softtrack/filters.py:111-130 | While each label is listed once, the compiled clause is the match of two sets of labels |
| Labels.MergedListIs | backend/lib_softtrack/labels.py:251-256 | A merged list is the image of the old one, with each label once |
| Labels.MergeKeepsList | backend/lib_softtrack/labels.py:250-257 | A view naming neither label, or both in any mode, lists what it listed |
| Labels.MergeOnlyWidens | backend/lib_softtrack/labels.py:250-257 | Any other view only widens, or, excluding, only narrows |
| Labels.RemoveMeans | backend/lib_softtrack/labels.py:266-285 | After a removal a view lists the match of what is left, everything if nothing is |
| Labels.DeletedIsGone | backend/lib_softtrack/labels.py:185-285 | No ticket, view or rule names a deleted label, lists still hold each label once, and a ticket's and a view's labels are of its team; and nothing at all names the label if and only if no recurring schedule did |
| Labels.MergeList | backend/lib_softtrack/labels.py:251-256 | The loop gives each label's image once, where it first comes |
| Labels.Board.MergeLinks | backend/lib_softtrack/labels.py:234-249 | Replacing link by link gives the image of the links, one per ticket that had both |
| Labels.Board.MergeViews | backend/lib_softtrack/labels.py:250-257 | Exactly the team's views that name the label are rewritten |
| Labels.Board.MergeRules | backend/lib_softtrack/labels.py:258-263 | Exactly the rules that name the label name the other instead, on or off as they were |
| Labels.Board.RemoveViews | backend/lib_softtrack/labels.py:271-278 | The team's views lose the label, and an emptied one its switches |
| Labels.Board.RemoveRules | backend/lib_softtrack/labels.py:279-285 | Exactly the rules that name the label lose it and are switched off |
| Labels.Board.Delete | backend/lib_softtrack/labels.py:185-285 | Merged or removed, or refused for no label, another team's or itself, changing nothing |
| LabelSchedules.FilesMeans | backend/lib_softtrack/schedules.py:484-500 | A schedule files tickets with exactly the labels it lists that are still there, each once |
| LabelSchedules.FilesAfterDeletion | backend/lib_softtrack/labels.py:234-285 | Merged or removed, a label drops out of what every schedule files, the rest in its order, and no schedule's list is touched |
| LabelSchedules.FiledLikeTheMergedExactlyWhen | backend/lib_softtrack/labels.py:234-263 | After a merge a schedule files tickets labelled as those it had filed are now, if and only if it did not file with the merged label or files with the other as well; else with neither |
| LabelSchedules.ReachableIsKept | backend/lib_softtrack/labels.py:185-285 | Whatever is made, named, merged and removed, in any order, a ticket, a view or a rule names only labels that are there, a ticket and a view only its team's, and no list names one twice |
| LabelSchedules.DeletedForGood | backend/lib_softtrack/tables.py:1916-1919 | Over any run a label once deleted is never there again, whatever a schedule still lists |
| LabelSchedules.DeletedStaysNamed | backend/lib_softtrack/labels.py:234-263 | A run from nothing ends with a schedule that lists a merged label and files with neither |

## Left out

- Sorting of lines, rows and lists, pages, search text, and names beside ids: presentation.
- CSV quoting and `safe_text`; an export row here is its fields, and the person stands for their name.
- `change_percent`, the previous and the scheduled records of a chain: rounding and display.
- Receipts, notes on decisions, descriptions, who approved what and when: carried along, never read.
- The two-at-once branches for unique keys: each call is one atomic step.
- The closed list of currencies: a currency is its code, and all but ten have two decimals.
- The range of Python's dates: years have no end here.
- API tokens, provider sign-in, the mail about a new browser, and the hashing of passwords and tokens.
- A webhook's target check, signature and payload; a send is only answered or not, after any time.
- Reading a row with its hook and team is one step, and writing back row and hook is one: nothing comes between those statements.
- A sender's time-out and what bounds how long a lease can be outlived: loops may overlap as much as they will.
- What a digest's sentences say, and looking up the tickets they name.
- Renaming labels, label usage, and who may delete one.
- That a view or schedule sent names each label once: the request models see to it; the rest of what they save is not part of this model.
- When a schedule fires, its pauses and its other fields: only the labels it files with.
- Creating and renaming departments, beyond there being one more.
- The rules engine, transfers, trash and ranks: not part of this model.
- Digest.NobodyIsToldTwice: says nothing of a notification whose worker stopped after claiming it; it is never mailed, as the source accepts.
- Budgets.Actuals: a line counts with its amount and its currency; the query asks only for the amount, and every reachable row has both or neither (`History.AmountHasCurrency`).
- Database.Services.RecordPay: the model's record has no note, kind or recorder.
- Overlaps.TriesAreCountedExactlyWhen: starts where nobody is in the middle of trying the row; a try already under way has read a number from before.
- Creating a run or a claim, deciding, approving a batch and other calls of one or two assignments have no method in `Database`, only their step in `Books`; what they mean is in `Effects`, `Undo` and `BudgetPages`.
