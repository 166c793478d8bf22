/**
 * A set of board filters as SQL (lib_softtrack/filters.py): the compiled
 * clauses, under SQL's three-valued logic, keep exactly the tickets that a
 * plain two-valued reading of the filters accepts, null columns included.
 * Days are proleptic ordinals, the first of them a Monday; timestamps are
 * seconds, and a day starts at a whole multiple of a day's seconds.
 */
module Filters {
  import opened Prelude
  import opened Sql

  type Id = int
  type Day = int
  type Stamp = int

  const DAY_SECONDS := 24 * 60 * 60

  datatype EstimateUnit = Points | Hours | Both

  /** A ticket's row. */
  datatype Ticket = Ticket(
    id: Id,
    team: Id,
    status: Id,
    priority: Id,
    kind: Id,
    assignee: Option<Id>,
    creator: Id,
    project: Option<Id>,
    sprint: Option<Id>,
    due: Option<Day>,
    updatedAt: Stamp,
    createdAt: Stamp,
    estimate: Option<int>,
    timeEstimate: Option<int>)

  /** The other tables the subqueries read. */
  datatype Tables = Tables(
    resolved: set<Id>,
    units: map<Id, EstimateUnit>,
    links: set<(Id, Id)>,
    watches: map<(Id, Id), bool>)

  datatype DueFilter = Overdue | ThisWeek | NoDueDate
  datatype LabelMatch = AnyLabel | AllLabels
  datatype DateWindow = Last7Days | Last30Days | Over30Days
  datatype MissingField = Estimate | Epic | Sprint

  datatype Filters = Filters(
    statuses: seq<Id>, statusExclude: bool,
    priorities: seq<Id>, priorityExclude: bool,
    assignees: seq<Id>, unassigned: bool, assigneeMe: bool, assigneeExclude: bool,
    labels: seq<Id>, labelMatch: LabelMatch, labelExclude: bool,
    kinds: seq<Id>, kindExclude: bool,
    creators: seq<Id>, creatorMe: bool, creatorExclude: bool,
    project: Option<Id>,
    sprint: Option<Id>,
    due: Option<DueFilter>,
    watching: bool,
    updated: Option<DateWindow>, updatedFrom: Option<Day>, updatedTo: Option<Day>,
    created: Option<DateWindow>, createdFrom: Option<Day>, createdTo: Option<Day>,
    hasNo: seq<MissingField>)

  // --- SQL conditions -----------------------------------------------------------------------

  datatype Column =
    | StatusColumn | PriorityColumn | KindColumn | AssigneeColumn | CreatorColumn | ProjectColumn | SprintColumn
    | DueColumn | UpdatedColumn | CreatedColumn | EstimateColumn | TimeEstimateColumn

  function Cell(t: Ticket, c: Column): Option<int> {
    match c
    case StatusColumn => Some(t.status)
    case PriorityColumn => Some(t.priority)
    case KindColumn => Some(t.kind)
    case AssigneeColumn => t.assignee
    case CreatorColumn => Some(t.creator)
    case ProjectColumn => t.project
    case SprintColumn => t.sprint
    case DueColumn => t.due
    case UpdatedColumn => Some(t.updatedAt)
    case CreatedColumn => Some(t.createdAt)
    case EstimateColumn => t.estimate
    case TimeEstimateColumn => t.timeEstimate
  }

  datatype Clause =
    | Never
    | Null(column: Column)
    | OneOf(column: Column, values: seq<int>)
    | EqualTo(column: Column, value: int)
    | Before(column: Column, value: int)
    | From(column: Column, value: int)
    | UpTo(column: Column, value: int)
    | InTeamsOf(units: set<EstimateUnit>)
    | Resolved
    | Carrying(labels: seq<Id>, all: bool)
    | WatchedBy(user: Id)
    | AndAlso(left: Clause, right: Clause)
    | OrElse(left: Clause, right: Clause)
    | Negated(inner: Clause)

  /** The labels a ticket carries, of these. */
  function Carried(tables: Tables, ticket: Id, labels: seq<Id>): set<Id> {
    set l | l in labels && (ticket, l) in tables.links
  }

  /** The subquery of `labels_clause`: any link, or as many distinct labels as were listed. */
  predicate InCarrying(tables: Tables, ticket: Id, labels: seq<Id>, all: bool) {
    if all && |labels| > 1 then |Carried(tables, ticket, labels)| == |labels|
    else Carried(tables, ticket, labels) != {}
  }

  function Eval(c: Clause, tables: Tables, t: Ticket): Truth {
    match c
    case Never => No
    case Null(column) => IsNull(Cell(t, column))
    case OneOf(column, values) => In(Cell(t, column), values)
    case EqualTo(column, value) => Equals(Cell(t, column), value)
    case Before(column, value) => Below(Cell(t, column), value)
    case From(column, value) => AtLeast(Cell(t, column), value)
    case UpTo(column, value) => AtMost(Cell(t, column), value)
    case InTeamsOf(units) => Is(t.team in tables.units && tables.units[t.team] in units)
    case Resolved => Is(t.status in tables.resolved)
    case Carrying(labels, all) => Is(InCarrying(tables, t.id, labels, all))
    case WatchedBy(user) => Is((t.id, user) in tables.watches && tables.watches[(t.id, user)])
    case AndAlso(left, right) => And(Eval(left, tables, t), Eval(right, tables, t))
    case OrElse(left, right) => Or(Eval(left, tables, t), Eval(right, tables, t))
    case Negated(inner) => Not(Eval(inner, tables, t))
  }

  predicate Keeps(c: Clause, tables: Tables, t: Ticket) {
    Selected(Eval(c, tables, t))
  }

  predicate AllKeep(clauses: seq<Clause>, tables: Tables, t: Ticket) {
    forall i | 0 <= i < |clauses| :: Keeps(clauses[i], tables, t)
  }

  // --- What the filters mean, in two values ----------------------------------------------------

  /** One filter of values: what it chose, and whether it was asked anything. */
  datatype Choice = Choice(values: set<int>, orNone: bool, exclude: bool, asked: bool)

  predicate Chosen(c: Choice, cell: Option<int>) {
    match cell
    case None => c.orNone
    case Some(v) => v in c.values
  }

  /** No opinion, or the choice, or, excluding, everything else. */
  predicate Allows(c: Choice, cell: Option<int>) {
    c.asked ==> (Chosen(c, cell) != c.exclude)
  }

  function Values(ids: seq<Id>): set<Id> {
    set i | i in ids
  }

  /** "Me" is the viewer; with nobody looking, nobody. */
  function Me(me: bool, viewer: Option<Id>): set<Id> {
    if me && viewer.Some? then {viewer.value} else {}
  }

  function PlainChoice(ids: seq<Id>, exclude: bool): Choice {
    Choice(Values(ids), false, exclude, ids != [])
  }

  function AssigneeChoice(f: Filters, viewer: Option<Id>): Choice {
    Choice(Values(f.assignees) + Me(f.assigneeMe, viewer), f.unassigned, f.assigneeExclude,
           f.assignees != [] || f.unassigned || f.assigneeMe)
  }

  function CreatorChoice(f: Filters, viewer: Option<Id>): Choice {
    Choice(Values(f.creators) + Me(f.creatorMe, viewer), false, f.creatorExclude, f.creators != [] || f.creatorMe)
  }

  /** Any of the labels, or every one. */
  predicate LabelsChosen(tables: Tables, ticket: Id, labels: seq<Id>, m: LabelMatch) {
    match m
    case AnyLabel => exists l :: l in labels && (ticket, l) in tables.links
    case AllLabels => forall l | l in labels :: (ticket, l) in tables.links
  }

  predicate LabelsAllow(f: Filters, tables: Tables, ticket: Id) {
    f.labels != [] ==> (LabelsChosen(tables, ticket, f.labels, f.labelMatch) != f.labelExclude)
  }

  /** Weeks start on Monday. */
  function WeekOf(d: Day): int {
    (d - 1) / 7
  }

  predicate DueAllows(due: DueFilter, tables: Tables, t: Ticket, today: Day) {
    match due
    case NoDueDate => t.due.None?
    case Overdue => t.due.Some? && t.due.value < today && t.status !in tables.resolved
    case ThisWeek => t.due.Some? && today <= t.due.value && WeekOf(t.due.value) == WeekOf(today)
  }

  /** The day, in UTC, a timestamp falls on. */
  function DayOf(s: Stamp): Day {
    s / DAY_SECONDS
  }

  predicate WindowAllows(s: Stamp, window: Option<DateWindow>, start: Option<Day>, end: Option<Day>, today: Day) {
    && (match window
        case None => true
        case Some(Last7Days) => DayOf(s) >= today - 7
        case Some(Last30Days) => DayOf(s) >= today - 30
        case Some(Over30Days) => DayOf(s) < today - 30)
    && (start.Some? ==> DayOf(s) >= start.value)
    && (end.Some? ==> DayOf(s) <= end.value)
  }

  /** The estimate its team estimates in, or either if it asks both. */
  predicate LacksEstimate(tables: Tables, t: Ticket) {
    t.team in tables.units
    && match tables.units[t.team]
       case Points => t.estimate.None?
       case Hours => t.timeEstimate.None?
       case Both => t.estimate.None? || t.timeEstimate.None?
  }

  predicate Lacks(tables: Tables, t: Ticket, field: MissingField) {
    match field
    case Estimate => LacksEstimate(tables, t)
    case Epic => t.project.None?
    case Sprint => t.sprint.None?
  }

  predicate Watches(tables: Tables, t: Ticket, viewer: Option<Id>) {
    viewer.Some? && (t.id, viewer.value) in tables.watches && tables.watches[(t.id, viewer.value)]
  }

  predicate ChoicesAllow(f: Filters, tables: Tables, t: Ticket, viewer: Option<Id>) {
    && Allows(PlainChoice(f.statuses, f.statusExclude), Some(t.status))
    && Allows(PlainChoice(f.priorities, f.priorityExclude), Some(t.priority))
    && Allows(AssigneeChoice(f, viewer), t.assignee)
    && LabelsAllow(f, tables, t.id)
    && Allows(PlainChoice(f.kinds, f.kindExclude), Some(t.kind))
    && Allows(CreatorChoice(f, viewer), Some(t.creator))
  }

  predicate QuestionsAllow(f: Filters, tables: Tables, t: Ticket, today: Day, viewer: Option<Id>) {
    && (f.project.Some? ==> t.project == f.project)
    && (f.sprint.Some? ==> t.sprint == f.sprint)
    && (f.due.Some? ==> DueAllows(f.due.value, tables, t, today))
    && (f.watching ==> Watches(tables, t, viewer))
    && WindowAllows(t.updatedAt, f.updated, f.updatedFrom, f.updatedTo, today)
    && WindowAllows(t.createdAt, f.created, f.createdFrom, f.createdTo, today)
    && forall i | 0 <= i < |f.hasNo| :: Lacks(tables, t, f.hasNo[i])
  }

  /** Different filters narrow each other. */
  predicate Accepts(f: Filters, tables: Tables, t: Ticket, today: Day, viewer: Option<Id>) {
    ChoicesAllow(f, tables, t, viewer) && QuestionsAllow(f, tables, t, today, viewer)
  }

  // --- The compiler, clause by clause ------------------------------------------------------------

  lemma AllKeepBoth(a: seq<Clause>, c: seq<Clause>, tables: Tables, t: Ticket)
    ensures AllKeep(a + c, tables, t) <==> AllKeep(a, tables, t) && AllKeep(c, tables, t)
  {
    if AllKeep(a + c, tables, t) {
      forall i | 0 <= i < |a| ensures Keeps(a[i], tables, t) { assert (a + c)[i] == a[i]; }
      forall i | 0 <= i < |c| ensures Keeps(c[i], tables, t) { assert (a + c)[|a| + i] == c[i]; }
    }
  }

  lemma KeepsOne(c: Clause, tables: Tables, t: Ticket)
    ensures AllKeep([c], tables, t) <==> Keeps(c, tables, t)
  {
    assert [c][0] == c;
  }

  /** What `one_of` asks: nothing, or one condition. */
  function OneOfClauses(column: Column, values: seq<int>, exclude: bool, orNone: bool): seq<Clause> {
    if values == [] && !orNone then []
    else if exclude then
      var others := OrElse(Null(column), Negated(OneOf(column, values)));
      [if values == [] then Negated(Null(column))
       else if orNone then AndAlso(others, Negated(Null(column)))
       else others]
    else
      [if values == [] then Null(column)
       else if orNone then OrElse(OneOf(column, values), Null(column))
       else OneOf(column, values)]
  }

  /** Excluding keeps the empty column unless it was asked about: never lost to a null. */
  lemma OneOfMeans(column: Column, values: seq<int>, exclude: bool, orNone: bool, tables: Tables, t: Ticket)
    ensures AllKeep(OneOfClauses(column, values, exclude, orNone), tables, t) <==>
            Allows(Choice(Values(values), orNone, exclude, values != [] || orNone), Cell(t, column))
  {
    if values != [] || orNone {
      KeepsOne(OneOfClauses(column, values, exclude, orNone)[0], tables, t);
      var isNull, isOne := Null(column), OneOf(column, values);
      assert Eval(Negated(isNull), tables, t) == Not(IsNull(Cell(t, column)));
      assert Eval(Negated(isOne), tables, t) == Not(In(Cell(t, column), values));
      assert Eval(OrElse(isNull, Negated(isOne)), tables, t)
             == Or(IsNull(Cell(t, column)), Not(In(Cell(t, column), values)));
    }
  }

  /** `one_of`, which collects its parts in a list. */
  method OneOfClause(column: Column, values: seq<int>, exclude: bool, orNone: bool) returns (c: Option<Clause>)
    ensures Listed(c) == OneOfClauses(column, values, exclude, orNone)
  {
    if values == [] && !orNone { return None; }
    var parts := [];
    if exclude {
      if values != [] { parts := parts + [OrElse(Null(column), Negated(OneOf(column, values)))]; }
      if orNone { parts := parts + [Negated(Null(column))]; }
      c := Some(if |parts| == 1 then parts[0] else AndAlso(parts[0], parts[1]));
    } else {
      if values != [] { parts := parts + [OneOf(column, values)]; }
      if orNone { parts := parts + [Null(column)]; }
      c := Some(if |parts| == 1 then parts[0] else OrElse(parts[0], parts[1]));
    }
  }

  /** The clauses that are not None. */
  function Listed(c: Option<Clause>): seq<Clause> {
    match c
    case None => []
    case Some(clause) => [clause]
  }

  predicate NoDuplicates(ids: seq<Id>) {
    forall i, j | 0 <= i < j < |ids| :: ids[i] != ids[j]
  }

  lemma FirstIsApart(ids: seq<Id>)
    requires ids != [] && ids[0] !in ids[1..]
    ensures NoDuplicates(ids) <==> NoDuplicates(ids[1..])
  {
  }

  /** As many values as entries exactly when none is there twice. */
  lemma {:induction false} DistinctCount(ids: seq<Id>)
    ensures |Values(ids)| <= |ids|
    ensures |Values(ids)| == |ids| <==> NoDuplicates(ids)
  {
    if ids != [] {
      var rest := ids[1..];
      DistinctCount(rest);
      assert ids == [ids[0]] + rest;
      assert Values(ids) == {ids[0]} + Values(rest);
      if ids[0] in rest {
        var j :| 0 <= j < |rest| && rest[j] == ids[0];
        assert ids[0] == ids[j + 1];
        assert Values(ids) == Values(rest);
      } else {
        FirstIsApart(ids);
      }
    }
  }

  /**
   * The count test finds the tickets that carry every label exactly when no
   * label is listed twice; otherwise it finds none.
   */
  lemma CountTestExactlyWhen(tables: Tables, ticket: Id, labels: seq<Id>)
    requires |labels| > 1
    ensures InCarrying(tables, ticket, labels, true) <==>
            LabelsChosen(tables, ticket, labels, AllLabels) && NoDuplicates(labels)
  {
    var carried := Carried(tables, ticket, labels);
    DistinctCount(labels);
    assert carried <= Values(labels);
    SubsetIsSmaller(carried, Values(labels));
    if LabelsChosen(tables, ticket, labels, AllLabels) {
      forall l: Id ensures l in carried <==> l in Values(labels) {}
      assert carried == Values(labels);
    } else {
      var l :| l in labels && (ticket, l) !in tables.links;
      assert carried <= Values(labels) - {l};
      SubsetIsSmaller(carried, Values(labels) - {l});
    }
  }

  lemma CarryingMeans(tables: Tables, ticket: Id, labels: seq<Id>, m: LabelMatch)
    requires labels != [] && NoDuplicates(labels)
    ensures InCarrying(tables, ticket, labels, m.AllLabels?) <==> LabelsChosen(tables, ticket, labels, m)
  {
    var carried := Carried(tables, ticket, labels);
    if m.AllLabels? && |labels| > 1 {
      CountTestExactlyWhen(tables, ticket, labels);
    } else {
      assert forall l :: l in carried <==> l in labels && (ticket, l) in tables.links;
      assert labels[0] in labels;
      if |labels| == 1 { assert forall l | l in labels :: l == labels[0]; }
    }
  }

  /** `labels_clause`. */
  function LabelsClause(f: Filters): Option<Clause> {
    if f.labels == [] then None
    else
      var clause := Carrying(f.labels, f.labelMatch.AllLabels?);
      Some(if f.labelExclude then Negated(clause) else clause)
  }

  lemma LabelsMean(f: Filters, tables: Tables, t: Ticket)
    requires NoDuplicates(f.labels)
    ensures AllKeep(Listed(LabelsClause(f)), tables, t) <==> LabelsAllow(f, tables, t.id)
  {
    if f.labels != [] {
      var clause := Carrying(f.labels, f.labelMatch.AllLabels?);
      CarryingMeans(tables, t.id, f.labels, f.labelMatch);
      KeepsOne(LabelsClause(f).value, tables, t);
      assert Eval(Negated(clause), tables, t) == Not(Eval(clause, tables, t));
    }
  }

  /** `today + (6 - weekday)` days is the Sunday of the week. */
  function EndOfWeek(today: Day): Day {
    today + 6 - (today - 1) % 7
  }

  function DueClause(due: DueFilter, today: Day): Clause {
    match due
    case NoDueDate => Null(DueColumn)
    case Overdue => AndAlso(Before(DueColumn, today), Negated(Resolved))
    case ThisWeek => AndAlso(From(DueColumn, today), UpTo(DueColumn, EndOfWeek(today)))
  }

  lemma DueMeans(due: DueFilter, tables: Tables, t: Ticket, today: Day)
    ensures Keeps(DueClause(due, today), tables, t) <==> DueAllows(due, tables, t, today)
  {
    if due.ThisWeek? && t.due.Some? && today <= t.due.value {
      SameWeek(today, t.due.value);
    }
    match due
    case NoDueDate =>
    case Overdue =>
      assert Eval(Negated(Resolved), tables, t) == Not(Is(t.status in tables.resolved));
      assert Eval(Before(DueColumn, today), tables, t) == Below(t.due, today);
    case ThisWeek =>
      assert Eval(From(DueColumn, today), tables, t) == AtLeast(t.due, today);
      assert Eval(UpTo(DueColumn, EndOfWeek(today)), tables, t) == AtMost(t.due, EndOfWeek(today));
  }

  lemma SameWeek(today: Day, d: Day)
    requires today <= d
    ensures d <= EndOfWeek(today) <==> WeekOf(d) == WeekOf(today)
  {
  }

  function Midnight(d: Day): Stamp {
    d * DAY_SECONDS
  }

  lemma FromMidnight(s: Stamp, d: Day)
    ensures s >= Midnight(d) <==> DayOf(s) >= d
  {
  }

  function WindowDays(w: DateWindow): int {
    match w
    case Last7Days => 7
    case Last30Days => 30
    case Over30Days => 30
  }

  function WindowClauses(column: Column, window: Option<DateWindow>, today: Day): seq<Clause> {
    match window
    case None => []
    case Some(w) =>
      var line := Midnight(today - WindowDays(w));
      [if w.Over30Days? then Before(column, line) else From(column, line)]
  }

  function RangeClauses(column: Column, start: Option<Day>, end: Option<Day>): seq<Clause> {
    (if start.Some? then [From(column, Midnight(start.value))] else [])
    + (if end.Some? then [Before(column, Midnight(end.value + 1))] else [])
  }

  function WhenAsked(column: Column, window: Option<DateWindow>, start: Option<Day>, end: Option<Day>,
                     today: Day): seq<Clause> {
    WindowClauses(column, window, today) + RangeClauses(column, start, end)
  }

  /** Midnights compare as days do, so both ends of a range are included. */
  lemma WhenMeans(column: Column, window: Option<DateWindow>, start: Option<Day>, end: Option<Day>, today: Day,
                  tables: Tables, t: Ticket)
    requires Cell(t, column).Some?
    ensures AllKeep(WhenAsked(column, window, start, end, today), tables, t) <==>
            WindowAllows(Cell(t, column).value, window, start, end, today)
  {
    var s := Cell(t, column).value;
    AllKeepBoth(WindowClauses(column, window, today), RangeClauses(column, start, end), tables, t);
    RangeMeans(column, start, end, tables, t);
    if window.Some? {
      FromMidnight(s, today - WindowDays(window.value));
      KeepsOne(WindowClauses(column, window, today)[0], tables, t);
    }
  }

  lemma RangeMeans(column: Column, start: Option<Day>, end: Option<Day>, tables: Tables, t: Ticket)
    requires Cell(t, column).Some?
    ensures AllKeep(RangeClauses(column, start, end), tables, t) <==>
            (start.Some? ==> DayOf(Cell(t, column).value) >= start.value)
             && (end.Some? ==> DayOf(Cell(t, column).value) <= end.value)
  {
    var s := Cell(t, column).value;
    var a := if start.Some? then [From(column, Midnight(start.value))] else [];
    var c := if end.Some? then [Before(column, Midnight(end.value + 1))] else [];
    AllKeepBoth(a, c, tables, t);
    if start.Some? {
      FromMidnight(s, start.value);
      KeepsOne(From(column, Midnight(start.value)), tables, t);
    }
    if end.Some? {
      FromMidnight(s, end.value + 1);
      KeepsOne(Before(column, Midnight(end.value + 1)), tables, t);
    }
  }

  /** `when_clauses`. */
  method WhenClauses(column: Column, window: Option<DateWindow>, start: Option<Day>, end: Option<Day>, today: Day)
      returns (clauses: seq<Clause>)
    ensures clauses == WhenAsked(column, window, start, end, today)
  {
    clauses := [];
    if window.Some? {
      var line := Midnight(today - WindowDays(window.value));
      clauses := clauses + [if window.value.Over30Days? then Before(column, line) else From(column, line)];
    }
    if start.Some? { clauses := clauses + [From(column, Midnight(start.value))]; }
    if end.Some? { clauses := clauses + [Before(column, Midnight(end.value + 1))]; }
  }

  /** `no_estimate`: what is missing is what the ticket's team estimates in. */
  const NO_ESTIMATE := OrElse(AndAlso(Null(EstimateColumn), InTeamsOf({Points, Both})),
                              AndAlso(Null(TimeEstimateColumn), InTeamsOf({Hours, Both})))

  function MissingClause(field: MissingField): Clause {
    match field
    case Estimate => NO_ESTIMATE
    case Epic => Null(ProjectColumn)
    case Sprint => Null(SprintColumn)
  }

  lemma MissingMeans(field: MissingField, tables: Tables, t: Ticket)
    ensures Keeps(MissingClause(field), tables, t) <==> Lacks(tables, t, field)
  {
    var points := AndAlso(Null(EstimateColumn), InTeamsOf({Points, Both}));
    var hours := AndAlso(Null(TimeEstimateColumn), InTeamsOf({Hours, Both}));
    assert Eval(NO_ESTIMATE, tables, t) == Or(Eval(points, tables, t), Eval(hours, tables, t));
    assert Eval(points, tables, t) == And(IsNull(t.estimate), Eval(InTeamsOf({Points, Both}), tables, t));
    assert Eval(hours, tables, t) == And(IsNull(t.timeEstimate), Eval(InTeamsOf({Hours, Both}), tables, t));
  }

  function MissingClauses(fields: seq<MissingField>): seq<Clause> {
    seq(|fields|, i requires 0 <= i < |fields| => MissingClause(fields[i]))
  }

  lemma AllMissingMean(fields: seq<MissingField>, tables: Tables, t: Ticket)
    ensures AllKeep(MissingClauses(fields), tables, t) <==> forall i | 0 <= i < |fields| :: Lacks(tables, t, fields[i])
  {
    forall i | 0 <= i < |fields| ensures Keeps(MissingClauses(fields)[i], tables, t) <==> Lacks(tables, t, fields[i]) {
      MissingMeans(fields[i], tables, t);
    }
  }

  // --- All of it ---------------------------------------------------------------------------------------

  /** `_with_me`. */
  function WithMe(ids: seq<Id>, me: bool, viewer: Option<Id>): seq<Id> {
    if me && viewer.Some? && viewer.value !in ids then ids + [viewer.value] else ids
  }

  /** "Me" chosen alone with nobody looking matches nothing. */
  function MeAlone(me: bool, asked: bool, exclude: bool, viewer: Option<Id>): seq<Clause> {
    if viewer.None? && me && !(asked || exclude) then [Never] else []
  }

  lemma FourKeep(a: seq<Clause>, c: seq<Clause>, d: seq<Clause>, e: seq<Clause>, tables: Tables, t: Ticket)
    ensures AllKeep(a + c + d + e, tables, t) <==>
            AllKeep(a, tables, t) && AllKeep(c, tables, t) && AllKeep(d, tables, t) && AllKeep(e, tables, t)
  {
    AllKeepBoth(a, c, tables, t);
    AllKeepBoth(a + c, d, tables, t);
    AllKeepBoth(a + c + d, e, tables, t);
  }

  lemma PersonMeans(column: Column, ids: seq<Id>, me: bool, exclude: bool, orNone: bool, viewer: Option<Id>,
                    tables: Tables, t: Ticket)
    ensures (AllKeep(OneOfClauses(column, WithMe(ids, me, viewer), exclude, orNone), tables, t)
             && AllKeep(MeAlone(me, WithMe(ids, me, viewer) != [] || orNone, exclude, viewer), tables, t)) <==>
            Allows(Choice(Values(ids) + Me(me, viewer), orNone, exclude, ids != [] || orNone || me), Cell(t, column))
  {
    var all := WithMe(ids, me, viewer);
    forall v: Id ensures v in Values(all) <==> v in Values(ids) + Me(me, viewer) {}
    assert Values(all) == Values(ids) + Me(me, viewer);
    OneOfMeans(column, all, exclude, orNone, tables, t);
    KeepsOne(Never, tables, t);
  }

  function Assignees(f: Filters, viewer: Option<Id>): seq<Id> {
    WithMe(f.assignees, f.assigneeMe, viewer)
  }

  function Creators(f: Filters, viewer: Option<Id>): seq<Id> {
    WithMe(f.creators, f.creatorMe, viewer)
  }

  function AssigneeClauses(f: Filters, viewer: Option<Id>): seq<Clause> {
    OneOfClauses(AssigneeColumn, Assignees(f, viewer), f.assigneeExclude, f.unassigned)
  }

  function CreatorClauses(f: Filters, viewer: Option<Id>): seq<Clause> {
    OneOfClauses(CreatorColumn, Creators(f, viewer), f.creatorExclude, false)
  }

  function AssigneeAlone(f: Filters, viewer: Option<Id>): seq<Clause> {
    MeAlone(f.assigneeMe, Assignees(f, viewer) != [] || f.unassigned, f.assigneeExclude, viewer)
  }

  function CreatorAlone(f: Filters, viewer: Option<Id>): seq<Clause> {
    MeAlone(f.creatorMe, Creators(f, viewer) != [], f.creatorExclude, viewer)
  }

  // The list, a few clauses at a time.

  function FirstPart(f: Filters, viewer: Option<Id>): seq<Clause> {
    OneOfClauses(StatusColumn, f.statuses, f.statusExclude, false)
    + OneOfClauses(PriorityColumn, f.priorities, f.priorityExclude, false)
    + AssigneeClauses(f, viewer)
    + Listed(LabelsClause(f))
  }

  function SecondPart(f: Filters, viewer: Option<Id>): seq<Clause> {
    OneOfClauses(KindColumn, f.kinds, f.kindExclude, false) + CreatorClauses(f, viewer)
  }

  function AlonePart(f: Filters, viewer: Option<Id>): seq<Clause> {
    AssigneeAlone(f, viewer) + CreatorAlone(f, viewer)
  }

  function ThirdPart(f: Filters, today: Day, viewer: Option<Id>): seq<Clause> {
    (if f.project.Some? then [EqualTo(ProjectColumn, f.project.value)] else [])
    + (if f.sprint.Some? then [EqualTo(SprintColumn, f.sprint.value)] else [])
    + (if f.due.Some? then [DueClause(f.due.value, today)] else [])
    + (if f.watching then [if viewer.Some? then WatchedBy(viewer.value) else Never] else [])
  }

  function FourthPart(f: Filters, today: Day): seq<Clause> {
    WhenAsked(UpdatedColumn, f.updated, f.updatedFrom, f.updatedTo, today)
    + WhenAsked(CreatedColumn, f.created, f.createdFrom, f.createdTo, today)
    + MissingClauses(f.hasNo)
  }

  function Compiled(f: Filters, today: Day, viewer: Option<Id>): seq<Clause> {
    FirstPart(f, viewer) + SecondPart(f, viewer) + AlonePart(f, viewer)
      + (ThirdPart(f, today, viewer) + FourthPart(f, today))
  }

  lemma FirstMeans(f: Filters, tables: Tables, t: Ticket, viewer: Option<Id>)
    requires NoDuplicates(f.labels)
    ensures AllKeep(FirstPart(f, viewer), tables, t) <==>
            && Allows(PlainChoice(f.statuses, f.statusExclude), Some(t.status))
            && Allows(PlainChoice(f.priorities, f.priorityExclude), Some(t.priority))
            && AllKeep(AssigneeClauses(f, viewer), tables, t)
            && LabelsAllow(f, tables, t.id)
  {
    FourKeep(OneOfClauses(StatusColumn, f.statuses, f.statusExclude, false),
             OneOfClauses(PriorityColumn, f.priorities, f.priorityExclude, false),
             AssigneeClauses(f, viewer), Listed(LabelsClause(f)), tables, t);
    OneOfMeans(StatusColumn, f.statuses, f.statusExclude, false, tables, t);
    OneOfMeans(PriorityColumn, f.priorities, f.priorityExclude, false, tables, t);
    LabelsMean(f, tables, t);
  }

  lemma SecondMeans(f: Filters, tables: Tables, t: Ticket, viewer: Option<Id>)
    ensures AllKeep(SecondPart(f, viewer), tables, t) <==>
            Allows(PlainChoice(f.kinds, f.kindExclude), Some(t.kind)) && AllKeep(CreatorClauses(f, viewer), tables, t)
  {
    AllKeepBoth(OneOfClauses(KindColumn, f.kinds, f.kindExclude, false), CreatorClauses(f, viewer), tables, t);
    OneOfMeans(KindColumn, f.kinds, f.kindExclude, false, tables, t);
  }

  lemma ChoicesMean(f: Filters, tables: Tables, t: Ticket, viewer: Option<Id>)
    requires NoDuplicates(f.labels)
    ensures (AllKeep(FirstPart(f, viewer), tables, t) && AllKeep(SecondPart(f, viewer), tables, t)
             && AllKeep(AlonePart(f, viewer), tables, t)) <==>
            ChoicesAllow(f, tables, t, viewer)
  {
    FirstMeans(f, tables, t, viewer);
    SecondMeans(f, tables, t, viewer);
    AllKeepBoth(AssigneeAlone(f, viewer), CreatorAlone(f, viewer), tables, t);
    PersonMeans(AssigneeColumn, f.assignees, f.assigneeMe, f.assigneeExclude, f.unassigned, viewer, tables, t);
    PersonMeans(CreatorColumn, f.creators, f.creatorMe, f.creatorExclude, false, viewer, tables, t);
  }

  lemma ThirdMeans(f: Filters, tables: Tables, t: Ticket, today: Day, viewer: Option<Id>)
    ensures AllKeep(ThirdPart(f, today, viewer), tables, t) <==>
            && (f.project.Some? ==> t.project == f.project)
            && (f.sprint.Some? ==> t.sprint == f.sprint)
            && (f.due.Some? ==> DueAllows(f.due.value, tables, t, today))
            && (f.watching ==> Watches(tables, t, viewer))
  {
    FourKeep(if f.project.Some? then [EqualTo(ProjectColumn, f.project.value)] else [],
             if f.sprint.Some? then [EqualTo(SprintColumn, f.sprint.value)] else [],
             if f.due.Some? then [DueClause(f.due.value, today)] else [],
             if f.watching then [if viewer.Some? then WatchedBy(viewer.value) else Never] else [], tables, t);
    if f.project.Some? { KeepsOne(EqualTo(ProjectColumn, f.project.value), tables, t); }
    if f.sprint.Some? { KeepsOne(EqualTo(SprintColumn, f.sprint.value), tables, t); }
    if f.due.Some? {
      KeepsOne(DueClause(f.due.value, today), tables, t);
      DueMeans(f.due.value, tables, t, today);
    }
    KeepsOne(if viewer.Some? then WatchedBy(viewer.value) else Never, tables, t);
  }

  lemma FourthMeans(f: Filters, tables: Tables, t: Ticket, today: Day)
    ensures AllKeep(FourthPart(f, today), tables, t) <==>
            && WindowAllows(t.updatedAt, f.updated, f.updatedFrom, f.updatedTo, today)
            && WindowAllows(t.createdAt, f.created, f.createdFrom, f.createdTo, today)
            && forall i | 0 <= i < |f.hasNo| :: Lacks(tables, t, f.hasNo[i])
  {
    var updated := WhenAsked(UpdatedColumn, f.updated, f.updatedFrom, f.updatedTo, today);
    var created := WhenAsked(CreatedColumn, f.created, f.createdFrom, f.createdTo, today);
    AllKeepBoth(updated, created, tables, t);
    AllKeepBoth(updated + created, MissingClauses(f.hasNo), tables, t);
    WhenMeans(UpdatedColumn, f.updated, f.updatedFrom, f.updatedTo, today, tables, t);
    WhenMeans(CreatedColumn, f.created, f.createdFrom, f.createdTo, today, tables, t);
    AllMissingMean(f.hasNo, tables, t);
  }

  /**
   * The compiler preserves meaning: for every ticket, nulls included, the
   * clauses are all true exactly when the filters accept it.
   */
  lemma CompilerPreservesMeaning(f: Filters, tables: Tables, t: Ticket, today: Day, viewer: Option<Id>)
    requires NoDuplicates(f.labels)
    ensures AllKeep(Compiled(f, today, viewer), tables, t) <==> Accepts(f, tables, t, today, viewer)
  {
    FourKeep(FirstPart(f, viewer), SecondPart(f, viewer), AlonePart(f, viewer),
             ThirdPart(f, today, viewer) + FourthPart(f, today), tables, t);
    AllKeepBoth(ThirdPart(f, today, viewer), FourthPart(f, today), tables, t);
    ChoicesMean(f, tables, t, viewer);
    ThirdMeans(f, tables, t, today, viewer);
    FourthMeans(f, tables, t, today);
  }

  // --- Repeats are dropped on the way in -----------------------------------------------------------

  /** `_as_list`: each value once, where it first comes. */
  function AsList<T(==)>(ids: seq<T>): seq<T> {
    if ids == [] then []
    else
      var seen := AsList(ids[..|ids| - 1]);
      if ids[|ids| - 1] in seen then seen else seen + [ids[|ids| - 1]]
  }

  lemma {:induction false} AsListIs<T(!new)>(ids: seq<T>)
    ensures forall i, j | 0 <= i < j < |AsList(ids)| :: AsList(ids)[i] != AsList(ids)[j]
    ensures forall v :: v in AsList(ids) <==> v in ids
    ensures AsList(ids) == [] <==> ids == []
    decreases |ids|
  {
    if ids != [] {
      var init, last := ids[..|ids| - 1], ids[|ids| - 1];
      AsListIs(init);
      assert ids == init + [last];
      forall v ensures v in AsList(ids) <==> v in ids {
        assert v in ids <==> v in init || v == last;
      }
      assert last in AsList(ids);
    }
  }

  /** The filters as the request model reads them. */
  function Read(f: Filters): Filters {
    f.(statuses := AsList(f.statuses), priorities := AsList(f.priorities), assignees := AsList(f.assignees),
       labels := AsList(f.labels), kinds := AsList(f.kinds), creators := AsList(f.creators), hasNo := AsList(f.hasNo))
  }

  lemma SameChoice(ids: seq<Id>, exclude: bool)
    ensures Values(AsList(ids)) == Values(ids) && (AsList(ids) == [] <==> ids == [])
    ensures PlainChoice(AsList(ids), exclude) == PlainChoice(ids, exclude)
  {
    AsListIs(ids);
  }

  lemma SamePeople(f: Filters, viewer: Option<Id>)
    ensures AssigneeChoice(Read(f), viewer) == AssigneeChoice(f, viewer)
    ensures CreatorChoice(Read(f), viewer) == CreatorChoice(f, viewer)
  {
    SameChoice(f.assignees, false);
    SameChoice(f.creators, false);
  }

  lemma SameLabels(f: Filters, tables: Tables, ticket: Id)
    ensures NoDuplicates(Read(f).labels)
    ensures LabelsAllow(Read(f), tables, ticket) <==> LabelsAllow(f, tables, ticket)
  {
    AsListIs(f.labels);
  }

  lemma SameMissing(f: Filters, tables: Tables, t: Ticket)
    ensures (forall i | 0 <= i < |AsList(f.hasNo)| :: Lacks(tables, t, AsList(f.hasNo)[i])) <==>
            (forall i | 0 <= i < |f.hasNo| :: Lacks(tables, t, f.hasNo[i]))
  {
    AsListIs(f.hasNo);
    var read := AsList(f.hasNo);
    if i :| 0 <= i < |f.hasNo| && !Lacks(tables, t, f.hasNo[i]) {
      assert f.hasNo[i] in read;
      var j :| 0 <= j < |read| && read[j] == f.hasNo[i];
      assert !Lacks(tables, t, read[j]);
    }
    if j :| 0 <= j < |read| && !Lacks(tables, t, read[j]) {
      assert read[j] in f.hasNo;
      var i :| 0 <= i < |f.hasNo| && f.hasNo[i] == read[j];
      assert !Lacks(tables, t, f.hasNo[i]);
    }
  }

  lemma SameChoices(f: Filters, tables: Tables, t: Ticket, viewer: Option<Id>)
    ensures ChoicesAllow(Read(f), tables, t, viewer) <==> ChoicesAllow(f, tables, t, viewer)
  {
    SameChoice(f.statuses, f.statusExclude);
    SameChoice(f.priorities, f.priorityExclude);
    SameChoice(f.kinds, f.kindExclude);
    SamePeople(f, viewer);
    SameLabels(f, tables, t.id);
  }

  /** Repeats say nothing: read without them, filters accept the same tickets. */
  lemma ReadingKeepsMeaning(f: Filters, tables: Tables, t: Ticket, today: Day, viewer: Option<Id>)
    ensures Accepts(Read(f), tables, t, today, viewer) <==> Accepts(f, tables, t, today, viewer)
  {
    SameChoices(f, tables, t, viewer);
    SameMissing(f, tables, t);
  }

  /** For all filters a request can send, repeats and all. */
  lemma RequestsMeanWhatTheySay(f: Filters, tables: Tables, t: Ticket, today: Day, viewer: Option<Id>)
    ensures AllKeep(Compiled(Read(f), today, viewer), tables, t) <==> Accepts(f, tables, t, today, viewer)
  {
    SameLabels(f, tables, t.id);
    ReadingKeepsMeaning(f, tables, t, today, viewer);
    CompilerPreservesMeaning(Read(f), tables, t, today, viewer);
  }

  /** The filters of values, as `filter_clauses` lists them first. */
  method ChoiceList(f: Filters, viewer: Option<Id>) returns (clauses: seq<Clause>)
    ensures clauses == FirstPart(f, viewer) + SecondPart(f, viewer)
  {
    var status := OneOfClause(StatusColumn, f.statuses, f.statusExclude, false);
    var priority := OneOfClause(PriorityColumn, f.priorities, f.priorityExclude, false);
    var assignee := OneOfClause(AssigneeColumn, Assignees(f, viewer), f.assigneeExclude, f.unassigned);
    clauses := Listed(status) + Listed(priority) + Listed(assignee) + Listed(LabelsClause(f));
    var kind := OneOfClause(KindColumn, f.kinds, f.kindExclude, false);
    var creator := OneOfClause(CreatorColumn, Creators(f, viewer), f.creatorExclude, false);
    clauses := clauses + (Listed(kind) + Listed(creator));
  }

  /** "Me" with nobody looking is nobody. */
  method AloneList(f: Filters, viewer: Option<Id>) returns (clauses: seq<Clause>)
    ensures clauses == AlonePart(f, viewer)
  {
    clauses := [];
    if viewer.None? {
      if f.assigneeMe && !(Assignees(f, viewer) != [] || f.unassigned || f.assigneeExclude) {
        clauses := clauses + [Never];
      }
      if f.creatorMe && !(Creators(f, viewer) != [] || f.creatorExclude) { clauses := clauses + [Never]; }
    }
  }

  method MissingList(fields: seq<MissingField>) returns (clauses: seq<Clause>)
    ensures clauses == MissingClauses(fields)
  {
    clauses := [];
    for i := 0 to |fields|
      invariant clauses == MissingClauses(fields[..i])
    {
      clauses := clauses + [MissingClause(fields[i])];
      assert MissingClauses(fields[..i + 1]) == MissingClauses(fields[..i]) + [MissingClause(fields[i])];
    }
    assert fields[..|fields|] == fields;
  }

  /** The single questions. */
  method QuestionList(f: Filters, today: Day, viewer: Option<Id>) returns (clauses: seq<Clause>)
    ensures clauses == ThirdPart(f, today, viewer)
  {
    clauses := [];
    if f.project.Some? { clauses := clauses + [EqualTo(ProjectColumn, f.project.value)]; }
    if f.sprint.Some? { clauses := clauses + [EqualTo(SprintColumn, f.sprint.value)]; }
    if f.due.Some? { clauses := clauses + [DueClause(f.due.value, today)]; }
    if f.watching { clauses := clauses + [if viewer.Some? then WatchedBy(viewer.value) else Never]; }
  }

  /** `filter_clauses`: the list, built clause by clause. */
  method FilterClauses(f: Filters, today: Day, viewer: Option<Id>) returns (clauses: seq<Clause>)
    ensures clauses == Compiled(f, today, viewer)
  {
    clauses := ChoiceList(f, viewer);
    var alone := AloneList(f, viewer);
    var questions := QuestionList(f, today, viewer);
    var updated := WhenClauses(UpdatedColumn, f.updated, f.updatedFrom, f.updatedTo, today);
    var created := WhenClauses(CreatedColumn, f.created, f.createdFrom, f.createdTo, today);
    var missing := MissingList(f.hasNo);
    clauses := clauses + alone + (questions + (updated + created + missing));
  }

  // --- What the switches mean ---------------------------------------------------------------------------

  /** Excluding is the exact complement of a filter that was asked anything. */
  lemma ExcludeIsTheComplement(column: Column, values: seq<int>, orNone: bool, tables: Tables, t: Ticket)
    requires values != [] || orNone
    ensures AllKeep(OneOfClauses(column, values, true, orNone), tables, t) <==>
            !AllKeep(OneOfClauses(column, values, false, orNone), tables, t)
  {
    OneOfMeans(column, values, true, orNone, tables, t);
    OneOfMeans(column, values, false, orNone, tables, t);
  }

  /** With nobody looking, "me" is the empty choice: alone it keeps nothing, and
    * excluded it keeps everything. */
  lemma MeIsNobody(column: Column, exclude: bool, tables: Tables, t: Ticket)
    ensures (AllKeep(OneOfClauses(column, WithMe([], true, None), exclude, false), tables, t)
             && AllKeep(MeAlone(true, false, exclude, None), tables, t)) <==> exclude
  {
    PersonMeans(column, [], true, exclude, false, None, tables, t);
  }
}
