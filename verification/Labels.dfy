/**
 * Deleting a label (lib_softtrack/labels.py): merged into another, the tickets,
 * views and rules that named it name the other; removed, they name it no more.
 * Recurring schedules keep its id, and leave it out whenever they are read
 * (`LabelSchedules`). What a saved view lists is decided by the compiled clause
 * of `Filters`, so that the rewrite of tickets and views is measured by what
 * views mean.
 */
module Labels {
  import opened Prelude
  import F = Filters

  type LabelId = int
  type TicketId = int
  type TeamId = int
  type ViewId = int
  type RuleId = int
  type ScheduleId = int

  datatype View = View(team: TeamId, labels: seq<LabelId>, all: bool, exclude: bool)

  datatype Rule = Rule(ifLabel: Option<LabelId>, addLabel: Option<LabelId>, isEnabled: bool)

  /** A `TicketSchedule`: the labels of the tickets it will file. */
  datatype Schedule = Schedule(team: TeamId, labels: seq<LabelId>)

  /** Keys of labels are given out in order, from `nextLabel` on. */
  datatype Tags = Tags(
    nextLabel: LabelId,
    labels: map<LabelId, TeamId>,
    tickets: map<TicketId, TeamId>,
    links: set<(TicketId, LabelId)>,
    views: map<ViewId, View>,
    rules: map<RuleId, Rule>,
    schedules: map<ScheduleId, Schedule>)

  // --- What a view lists ------------------------------------------------------------------

  function CarriedBy(links: set<(TicketId, LabelId)>, t: TicketId): set<LabelId> {
    set k | k in links && k.0 == t :: k.1
  }

  /** The filter a view's columns stand for. */
  function FilterOf(v: View): F.Filters {
    F.Filters([], false, [], false, [], false, false, false,
              v.labels, if v.all then F.AllLabels else F.AnyLabel, v.exclude,
              [], false, [], false, false, None, None, None, false, None, None, None, None, None, None, [])
  }

  function TablesOf(links: set<(TicketId, LabelId)>): F.Tables {
    F.Tables({}, map[], links, map[])
  }

  /** The view's label clause, as compiled, keeps the ticket. */
  predicate Lists(v: View, links: set<(TicketId, LabelId)>, t: F.Ticket) {
    F.AllKeep(F.Listed(F.LabelsClause(FilterOf(v))), TablesOf(links), t)
  }

  /** What label filters mean, on sets: any of them, or every one; turned round by exclude. */
  predicate Matches(wanted: set<LabelId>, all: bool, exclude: bool, carried: set<LabelId>) {
    wanted != {} ==> ((if all then wanted <= carried else wanted * carried != {}) != exclude)
  }

  /** While labels are listed once each, the clause is the match of sets. */
  lemma ListsIsMatch(v: View, links: set<(TicketId, LabelId)>, t: F.Ticket)
    requires F.NoDuplicates(v.labels)
    ensures Lists(v, links, t) <==> Matches(F.Values(v.labels), v.all, v.exclude, CarriedBy(links, t.id))
  {
    F.LabelsMean(FilterOf(v), TablesOf(links), t);
    var wanted, carried := F.Values(v.labels), CarriedBy(links, t.id);
    forall l: LabelId ensures l in carried <==> (t.id, l) in links {
      if (t.id, l) in links { assert (t.id, l).1 == l; }
    }
    if v.labels != [] {
      assert v.labels[0] in wanted;
      AnyIsMeeting(v.labels, links, t.id, wanted, carried);
    }
  }

  lemma AnyIsMeeting(labels: seq<LabelId>, links: set<(TicketId, LabelId)>, t: TicketId, wanted: set<LabelId>,
                     carried: set<LabelId>)
    requires wanted == F.Values(labels) && forall l: LabelId :: l in carried <==> (t, l) in links
    ensures F.LabelsChosen(TablesOf(links), t, labels, F.AnyLabel) <==> wanted * carried != {}
    ensures F.LabelsChosen(TablesOf(links), t, labels, F.AllLabels) <==> wanted <= carried
  {
    if wanted * carried != {} {
      var l: LabelId := Any(wanted * carried);
      assert l in labels && (t, l) in links;
    }
    if l: LabelId :| l in labels && (t, l) in links {
      assert l in wanted * carried;
    }
    if l: LabelId :| l in wanted && l !in carried {
      assert l in labels && (t, l) !in links;
    } else {
      forall l: LabelId | l in wanted ensures l in carried {}
      assert wanted <= carried;
      forall l: LabelId | l in labels ensures (t, l) in links { assert l in wanted; }
    }
  }

  // --- Merging -----------------------------------------------------------------------------

  /** Where a label goes when `a` is merged into `b`. */
  function Merged(l: LabelId, a: LabelId, b: LabelId): LabelId {
    if l == a then b else l
  }

  function MergedSet(s: set<LabelId>, a: LabelId, b: LabelId): set<LabelId> {
    set l | l in s :: Merged(l, a, b)
  }

  /** A view's list: each label once, where it first comes. */
  function MergedList(ids: seq<LabelId>, a: LabelId, b: LabelId): seq<LabelId> {
    if ids == [] then []
    else
      var init, last := MergedList(ids[..|ids| - 1], a, b), Merged(ids[|ids| - 1], a, b);
      if last in init then init else init + [last]
  }

  lemma {:induction false} MergedListIs(ids: seq<LabelId>, a: LabelId, b: LabelId)
    ensures F.NoDuplicates(MergedList(ids, a, b))
    ensures F.Values(MergedList(ids, a, b)) == MergedSet(F.Values(ids), a, b)
    decreases |ids|
  {
    if ids != [] {
      var init, last := ids[..|ids| - 1], ids[|ids| - 1];
      MergedListIs(init, a, b);
      assert ids == init + [last];
      assert F.Values(ids) == F.Values(init) + {last};
      assert MergedSet(F.Values(ids), a, b) == MergedSet(F.Values(init), a, b) + {Merged(last, a, b)};
      var before := MergedList(init, a, b);
      if Merged(last, a, b) in before {
        assert Merged(last, a, b) in F.Values(before);
      } else {
        assert F.Values(before + [Merged(last, a, b)]) == F.Values(before) + {Merged(last, a, b)};
      }
    }
  }

  function MergedLinks(links: set<(TicketId, LabelId)>, a: LabelId, b: LabelId): set<(TicketId, LabelId)> {
    set k | k in links :: (k.0, Merged(k.1, a, b))
  }

  function MergedView(v: View, team: TeamId, a: LabelId, b: LabelId): View {
    if v.team == team && a in v.labels then v.(labels := MergedList(v.labels, a, b)) else v
  }

  function MergedName(l: Option<LabelId>, a: LabelId, b: LabelId): Option<LabelId> {
    match l
    case None => None
    case Some(x) => Some(Merged(x, a, b))
  }

  function MergedRule(r: Rule, a: LabelId, b: LabelId): Rule {
    Rule(MergedName(r.ifLabel, a, b), MergedName(r.addLabel, a, b), r.isEnabled)
  }

  /** `_merge`. */
  function Merge(s: Tags, team: TeamId, a: LabelId, b: LabelId): Tags {
    s.(links := MergedLinks(s.links, a, b),
       views := map v | v in s.views :: MergedView(s.views[v], team, a, b),
       rules := map r | r in s.rules :: MergedRule(s.rules[r], a, b))
  }

  // --- Removing ----------------------------------------------------------------------------

  function Without(ids: seq<LabelId>, a: LabelId): seq<LabelId> {
    if ids == [] then []
    else Without(ids[..|ids| - 1], a) + (if ids[|ids| - 1] == a then [] else [ids[|ids| - 1]])
  }

  lemma {:induction false} WithoutIs(ids: seq<LabelId>, a: LabelId)
    ensures F.Values(Without(ids, a)) == F.Values(ids) - {a}
    ensures F.NoDuplicates(ids) ==> F.NoDuplicates(Without(ids, a))
    decreases |ids|
  {
    if ids != [] {
      var init, last := ids[..|ids| - 1], ids[|ids| - 1];
      WithoutIs(init, a);
      assert ids == init + [last];
      assert F.Values(ids) == F.Values(init) + {last};
      var kept := Without(init, a);
      if last != a {
        assert F.Values(kept + [last]) == F.Values(kept) + {last};
        if F.NoDuplicates(ids) {
          assert F.NoDuplicates(init);
          forall i | 0 <= i < |kept| ensures kept[i] != last {
            assert kept[i] in F.Values(kept) && kept[i] in init;
            var j :| 0 <= j < |init| && init[j] == kept[i];
            assert ids[j] != ids[|ids| - 1];
          }
        }
      }
    }
  }

  /** A list left empty is no filter, and its switches go with it. */
  function RemovedView(v: View, team: TeamId, a: LabelId): View {
    if v.team == team && a in v.labels then
      var kept := Without(v.labels, a);
      if kept == [] then v.(labels := [], all := false, exclude := false) else v.(labels := kept)
    else v
  }

  predicate Names(r: Rule, a: LabelId) {
    r.ifLabel == Some(a) || r.addLabel == Some(a)
  }

  function RemovedRule(r: Rule, a: LabelId): Rule {
    if !Names(r, a) then r
    else Rule(if r.ifLabel == Some(a) then None else r.ifLabel,
              if r.addLabel == Some(a) then None else r.addLabel,
              false)
  }

  /** `_remove`. */
  function Remove(s: Tags, team: TeamId, a: LabelId): Tags {
    s.(links := (set k | k in s.links && k.1 != a),
       views := map v | v in s.views :: RemovedView(s.views[v], team, a),
       rules := map r | r in s.rules :: RemovedRule(s.rules[r], a))
  }

  // --- The request ----------------------------------------------------------------------------

  datatype Error = LabelNotFound | NotOnThisTeam | MergeIntoSame

  datatype Answer = Done(tags: Tags) | Refused(error: Error)

  function DeleteLabel(s: Tags, a: LabelId, into: Option<LabelId>): Answer {
    if a !in s.labels then Refused(LabelNotFound)
    else
      match into
      case None => Done(Remove(s, s.labels[a], a).(labels := s.labels - {a}))
      case Some(b) =>
        if b !in s.labels || s.labels[b] != s.labels[a] then Refused(NotOnThisTeam)
        else if b == a then Refused(MergeIntoSame)
        else Done(Merge(s, s.labels[a], a, b).(labels := s.labels - {a}))
  }

  /** What saving a view, tagging a ticket and writing a rule check: a label named
    * is there, and on the same team; and a view names each label once. */
  ghost predicate ViewKept(s: Tags, v: View) {
    F.NoDuplicates(v.labels) && forall l | l in v.labels :: l in s.labels && s.labels[l] == v.team
  }

  ghost predicate NameKept(s: Tags, l: Option<LabelId>) {
    l.Some? ==> l.value in s.labels
  }

  /** Checked when it was saved; labels deleted since stay listed. */
  ghost predicate ScheduleKept(s: Tags, schedule: Schedule) {
    && F.NoDuplicates(schedule.labels)
    && forall l | l in schedule.labels :: l < s.nextLabel && (l in s.labels ==> s.labels[l] == schedule.team)
  }

  ghost predicate Kept(s: Tags) {
    && (forall l | l in s.labels :: l < s.nextLabel)
    && (forall k | k in s.schedules :: ScheduleKept(s, s.schedules[k]))
    && (forall k | k in s.links :: k.0 in s.tickets && k.1 in s.labels && s.labels[k.1] == s.tickets[k.0])
    && (forall v | v in s.views :: ViewKept(s, s.views[v]))
    && (forall r | r in s.rules :: NameKept(s, s.rules[r].ifLabel) && NameKept(s, s.rules[r].addLabel))
  }

  /** No ticket, view or rule names the label. */
  ghost predicate Gone(s: Tags, a: LabelId) {
    && a !in s.labels
    && (forall k | k in s.links :: k.1 != a)
    && (forall v | v in s.views :: a !in s.views[v].labels)
    && (forall r | r in s.rules :: !Names(s.rules[r], a))
  }

  ghost predicate NamedBySchedule(s: Tags, a: LabelId) {
    exists k :: k in s.schedules && a in s.schedules[k].labels
  }

  /** Nothing at all names it. */
  ghost predicate Unnamed(s: Tags, a: LabelId) {
    Gone(s, a) && !NamedBySchedule(s, a)
  }

  lemma MergedViewKept(s: Tags, after: Tags, v: View, a: LabelId, b: LabelId)
    requires ViewKept(s, v) && a in s.labels && b in s.labels && s.labels[b] == s.labels[a] && a != b
    requires after.labels == s.labels - {a}
    ensures ViewKept(after, MergedView(v, s.labels[a], a, b)) && a !in MergedView(v, s.labels[a], a, b).labels
  {
    MergedListIs(v.labels, a, b);
    var merged := MergedView(v, s.labels[a], a, b);
    forall l | l in merged.labels ensures l != a && l in after.labels && after.labels[l] == v.team {
      if a in v.labels {
        assert l in F.Values(merged.labels);
        var m :| m in F.Values(v.labels) && Merged(m, a, b) == l;
        assert m in v.labels;
      }
    }
  }

  lemma RemovedViewKept(s: Tags, after: Tags, v: View, a: LabelId)
    requires ViewKept(s, v) && a in s.labels && after.labels == s.labels - {a}
    ensures ViewKept(after, RemovedView(v, s.labels[a], a)) && a !in RemovedView(v, s.labels[a], a).labels
  {
    WithoutIs(v.labels, a);
    var kept := Without(v.labels, a);
    forall l | l in kept ensures l != a && l in v.labels {
      assert l in F.Values(kept);
    }
  }

  lemma SchedulesKeepNaming(s: Tags, after: Tags, a: LabelId)
    requires after.schedules == s.schedules
    ensures NamedBySchedule(after, a) <==> NamedBySchedule(s, a)
  {
  }

  lemma ScheduleStaysKept(s: Tags, after: Tags, k: ScheduleId, a: LabelId)
    requires Kept(s) && k in s.schedules && after.labels == s.labels - {a} && after.nextLabel == s.nextLabel
    ensures ScheduleKept(after, s.schedules[k])
  {
  }

  lemma DeletionFrame(s: Tags, after: Tags, a: LabelId, into: Option<LabelId>)
    requires DeleteLabel(s, a, into) == Done(after)
    ensures after.schedules == s.schedules && after.labels == s.labels - {a} && after.nextLabel == s.nextLabel
    ensures after.views.Keys == s.views.Keys && after.rules.Keys == s.rules.Keys && after.tickets == s.tickets
  {
  }

  lemma ListsStayKept(s: Tags, after: Tags, a: LabelId, into: Option<LabelId>)
    requires Kept(s) && DeleteLabel(s, a, into) == Done(after)
    ensures forall v | v in after.views :: ViewKept(after, after.views[v]) && a !in after.views[v].labels
    ensures forall k | k in after.schedules :: ScheduleKept(after, after.schedules[k])
  {
    DeletionFrame(s, after, a, into);
    forall v | v in s.views ensures ViewKept(after, after.views[v]) && a !in after.views[v].labels {
      if into.Some? {
        MergedViewKept(s, after, s.views[v], a, into.value);
      } else {
        RemovedViewKept(s, after, s.views[v], a);
      }
    }
    forall k | k in s.schedules ensures ScheduleKept(after, s.schedules[k]) { ScheduleStaysKept(s, after, k, a); }
  }

  lemma LinksAndRulesStayKept(s: Tags, after: Tags, a: LabelId, into: Option<LabelId>)
    requires Kept(s) && DeleteLabel(s, a, into) == Done(after)
    ensures forall k | k in after.links ::
              && k.0 in after.tickets && k.1 in after.labels && after.labels[k.1] == after.tickets[k.0] && k.1 != a
    ensures forall r | r in after.rules ::
              && NameKept(after, after.rules[r].ifLabel) && NameKept(after, after.rules[r].addLabel)
              && !Names(after.rules[r], a)
  {
  }

  /** After the deletion no ticket, view or rule names the label, every list still
    * has each label once, and what a ticket, a view or a rule names is still there,
    * a ticket's and a view's of its team. And nothing at all names the deleted label
    * if and only if no schedule did. */
  lemma DeletedIsGone(s: Tags, a: LabelId, into: Option<LabelId>)
    requires Kept(s) && DeleteLabel(s, a, into).Done?
    ensures Gone(DeleteLabel(s, a, into).tags, a) && Kept(DeleteLabel(s, a, into).tags)
    ensures Unnamed(DeleteLabel(s, a, into).tags, a) <==> !NamedBySchedule(s, a)
  {
    var after := DeleteLabel(s, a, into).tags;
    DeletionFrame(s, after, a, into);
    ListsStayKept(s, after, a, into);
    LinksAndRulesStayKept(s, after, a, into);
    SchedulesKeepNaming(s, after, a);
  }

  // --- What a merge does to what views list ------------------------------------------------------

  lemma MergedCarried(links: set<(TicketId, LabelId)>, a: LabelId, b: LabelId, t: TicketId)
    ensures CarriedBy(MergedLinks(links, a, b), t) == MergedSet(CarriedBy(links, t), a, b)
  {
  }

  lemma MergedWanted(v: View, team: TeamId, a: LabelId, b: LabelId)
    requires F.NoDuplicates(v.labels) && (v.team == team || a !in v.labels)
    ensures F.NoDuplicates(MergedView(v, team, a, b).labels)
    ensures F.Values(MergedView(v, team, a, b).labels) == MergedSet(F.Values(v.labels), a, b)
  {
    MergedListIs(v.labels, a, b);
    if a !in v.labels {
      assert MergedSet(F.Values(v.labels), a, b) == F.Values(v.labels);
    }
  }

  /**
   * The merge is a homomorphism: afterwards a view lists a ticket exactly when
   * the images of what it wanted and what the ticket carried match, in every
   * mode; the rewritten list still has each label once.
   */
  lemma MergeIsHomomorphism(s: Tags, v: View, a: LabelId, b: LabelId, t: F.Ticket)
    requires Kept(s) && a in s.labels && ViewKept(s, v)
    ensures var team := s.labels[a];
            var after := Merge(s, team, a, b);
            Lists(MergedView(v, team, a, b), after.links, t) <==>
            Matches(MergedSet(F.Values(v.labels), a, b), v.all, v.exclude, MergedSet(CarriedBy(s.links, t.id), a, b))
  {
    var team := s.labels[a];
    MergedWanted(v, team, a, b);
    MergedCarried(s.links, a, b, t.id);
    ListsIsMatch(MergedView(v, team, a, b), MergedLinks(s.links, a, b), t);
  }

  /** A view that names neither label, or both in any mode, lists what it listed. */
  lemma MergeKeepsList(s: Tags, v: View, a: LabelId, b: LabelId, t: F.Ticket)
    requires Kept(s) && a in s.labels && ViewKept(s, v)
    requires (a !in v.labels && b !in v.labels) || (a in v.labels && b in v.labels && !v.all)
    ensures var team := s.labels[a];
            Lists(MergedView(v, team, a, b), Merge(s, team, a, b).links, t) <==> Lists(v, s.links, t)
  {
    MergeIsHomomorphism(s, v, a, b, t);
    ListsIsMatch(v, s.links, t);
    var wanted, carried := F.Values(v.labels), CarriedBy(s.links, t.id);
    if a in v.labels {
      ImagesMeet(wanted, carried, a, b);
    } else {
      ImagesAside(wanted, carried, a, b);
    }
  }

  lemma ImagesMeet(wanted: set<LabelId>, carried: set<LabelId>, a: LabelId, b: LabelId)
    requires a in wanted && b in wanted
    ensures MergedSet(wanted, a, b) != {}
    ensures MergedSet(wanted, a, b) * MergedSet(carried, a, b) != {} <==> wanted * carried != {}
  {
    assert Merged(b, a, b) in MergedSet(wanted, a, b);
    if wanted * carried != {} {
      var l := Any(wanted * carried);
      assert Merged(l, a, b) in MergedSet(wanted, a, b) * MergedSet(carried, a, b);
    }
    if MergedSet(wanted, a, b) * MergedSet(carried, a, b) != {} {
      var l: LabelId := Any(MergedSet(wanted, a, b) * MergedSet(carried, a, b));
      var w :| w in wanted && Merged(w, a, b) == l;
      var c :| c in carried && Merged(c, a, b) == l;
      assert c in wanted * carried;
    }
  }

  lemma ImagesAside(wanted: set<LabelId>, carried: set<LabelId>, a: LabelId, b: LabelId)
    requires a !in wanted && b !in wanted
    ensures MergedSet(wanted, a, b) == wanted
    ensures wanted * MergedSet(carried, a, b) == wanted * carried
    ensures wanted <= MergedSet(carried, a, b) <==> wanted <= carried
  {
    forall l: LabelId ensures l in MergedSet(wanted, a, b) <==> l in wanted {
      if l in wanted { assert Merged(l, a, b) == l; }
    }
    forall l: LabelId | l in wanted ensures l in MergedSet(carried, a, b) <==> l in carried {
      if l in carried { assert Merged(l, a, b) == l; }
    }
  }

  /** Otherwise a view can only widen, or, excluding, only narrow. */
  lemma MergeOnlyWidens(s: Tags, v: View, a: LabelId, b: LabelId, t: F.Ticket)
    requires Kept(s) && a in s.labels && ViewKept(s, v) && v.labels != []
    ensures var team := s.labels[a];
            var listed := Lists(MergedView(v, team, a, b), Merge(s, team, a, b).links, t);
            (!v.exclude && Lists(v, s.links, t) ==> listed) && (v.exclude && listed ==> Lists(v, s.links, t))
  {
    MergeIsHomomorphism(s, v, a, b, t);
    ListsIsMatch(v, s.links, t);
    var wanted, carried := F.Values(v.labels), CarriedBy(s.links, t.id);
    assert v.labels[0] in wanted;
    assert Merged(v.labels[0], a, b) in MergedSet(wanted, a, b);
    if wanted * carried != {} {
      var l := Any(wanted * carried);
      assert Merged(l, a, b) in MergedSet(wanted, a, b) * MergedSet(carried, a, b);
    }
  }

  lemma RemovedCarried(links: set<(TicketId, LabelId)>, a: LabelId, t: TicketId)
    ensures CarriedBy((set k | k in links && k.1 != a), t) == CarriedBy(links, t) - {a}
  {
  }

  /** Removing a label leaves each view the match of what is left; a view it was
    * alone in lists everything. */
  lemma RemoveMeans(s: Tags, v: View, a: LabelId, t: F.Ticket)
    requires Kept(s) && a in s.labels && ViewKept(s, v)
    ensures var team := s.labels[a];
            Lists(RemovedView(v, team, a), Remove(s, team, a).links, t) <==>
            Matches(F.Values(v.labels) - {a}, v.all, v.exclude, CarriedBy(s.links, t.id) - {a})
  {
    var team := s.labels[a];
    var left := RemovedView(v, team, a);
    WithoutIs(v.labels, a);
    RemovedCarried(s.links, a, t.id);
    ListsIsMatch(left, Remove(s, team, a).links, t);
    assert F.Values(left.labels) == F.Values(v.labels) - {a};
  }

  // --- As the service runs -----------------------------------------------------------------------

  /** The labels of one view, in its order, each once. */
  method MergeList(ids: seq<LabelId>, a: LabelId, b: LabelId) returns (merged: seq<LabelId>)
    ensures merged == MergedList(ids, a, b)
  {
    merged := [];
    for i := 0 to |ids|
      invariant merged == MergedList(ids[..i], a, b)
    {
      assert ids[..i + 1][..i] == ids[..i];
      var id := if ids[i] == a then b else ids[i];
      if id !in merged { merged := merged + [id]; }
    }
    assert ids[..|ids|] == ids;
  }

  class Board {
    var nextLabel: LabelId
    var labels: map<LabelId, TeamId>
    var tickets: map<TicketId, TeamId>
    var links: set<(TicketId, LabelId)>
    var views: map<ViewId, View>
    var rules: map<RuleId, Rule>
    var schedules: map<ScheduleId, Schedule>

    constructor ()
      ensures Kept(Here())
    {
      nextLabel, labels, tickets, links := 1, map[], map[], {};
      views, rules, schedules := map[], map[], map[];
    }

    function Here(): Tags
      reads this
    {
      Tags(nextLabel, labels, tickets, links, views, rules, schedules)
    }

    /** Each of the label's links goes; its ticket gets the other's, unless it has it. */
    method MergeLinks(a: LabelId, b: LabelId)
      requires a != b
      modifies this`links
      ensures links == MergedLinks(old(links), a, b)
    {
      var already := set k | k in links && k.1 == b :: k.0;
      var todo := set k | k in links && k.1 == a;
      ghost var start := links;
      MergeNone(links, a, b);
      while todo != {}
        invariant todo <= links && (forall k | k in links && k.1 == a :: k in todo)
                  && (forall k | k in todo :: k.1 == a)
        invariant MergedLinks(links, a, b) == MergedLinks(start, a, b)
        invariant forall t | t in already :: (t, b) in links
        decreases todo
        modifies this`links
      {
        var k := Pick(todo);
        MergeOneLink(links, a, b, k);
        var ticket: TicketId := k.0;
        links := links - {k};
        if ticket !in already { links := links + {(ticket, b)}; }
        todo := todo - {k};
      }
      MergeNone(links, a, b);
    }

    /** `_views_naming`. */
    method ViewsNaming(team: TeamId, a: LabelId) returns (naming: set<ViewId>)
      ensures naming == set v | v in views && views[v].team == team && a in views[v].labels
    {
      naming := set v | v in views && views[v].team == team && a in views[v].labels;
    }

    method MergeViews(team: TeamId, a: LabelId, b: LabelId)
      modifies this`views
      ensures views == Merge(old(Here()), team, a, b).views
    {
      var naming := ViewsNaming(team, a);
      var todo := naming;
      while todo != {}
        invariant todo <= naming <= views.Keys && views.Keys == old(views).Keys
        invariant forall v | v in views ::
          views[v] == if v in naming && v !in todo then MergedView(old(views)[v], team, a, b) else old(views)[v]
        decreases todo
        modifies this`views
      {
        var v: ViewId := Pick(todo);
        var merged := MergeList(views[v].labels, a, b);
        views := views[v := views[v].(labels := merged)];
        todo := todo - {v};
      }
      forall v: ViewId | v in views ensures views[v] == MergedView(old(views)[v], team, a, b) {}
    }

    method MergeRules(a: LabelId, b: LabelId)
      modifies this`rules
      ensures rules == map r | r in old(rules) :: MergedRule(old(rules)[r], a, b)
    {
      var naming := set r | r in rules && Names(rules[r], a);
      var todo := naming;
      while todo != {}
        invariant todo <= naming <= rules.Keys && rules.Keys == old(rules).Keys
        invariant forall r | r in rules ::
          rules[r] == if r in naming && r !in todo then MergedRule(old(rules)[r], a, b) else old(rules)[r]
        decreases todo
        modifies this`rules
      {
        var r: RuleId := Pick(todo);
        var rule := rules[r];
        if rule.ifLabel == Some(a) { rule := rule.(ifLabel := Some(b)); }
        if rule.addLabel == Some(a) { rule := rule.(addLabel := Some(b)); }
        rules := rules[r := rule];
        todo := todo - {r};
      }
      forall r: RuleId | r in rules ensures rules[r] == MergedRule(old(rules)[r], a, b) {}
    }

    method RemoveViews(team: TeamId, a: LabelId)
      modifies this`views
      ensures views == Remove(old(Here()), team, a).views
    {
      var naming := ViewsNaming(team, a);
      var todo := naming;
      while todo != {}
        invariant todo <= naming <= views.Keys && views.Keys == old(views).Keys
        invariant forall v | v in views ::
          views[v] == if v in naming && v !in todo then RemovedView(old(views)[v], team, a) else old(views)[v]
        decreases todo
        modifies this`views
      {
        var v: ViewId := Pick(todo);
        var view := views[v];
        view := view.(labels := Without(view.labels, a));
        if view.labels == [] {
          view := view.(exclude := false);
          view := view.(all := false);
        }
        views := views[v := view];
        todo := todo - {v};
      }
      forall v: ViewId | v in views ensures views[v] == RemovedView(old(views)[v], team, a) {}
    }

    method RemoveRules(a: LabelId)
      modifies this`rules
      ensures rules == map r | r in old(rules) :: RemovedRule(old(rules)[r], a)
    {
      var naming := set r | r in rules && Names(rules[r], a);
      var todo := naming;
      while todo != {}
        invariant todo <= naming <= rules.Keys && rules.Keys == old(rules).Keys
        invariant forall r | r in rules ::
          rules[r] == if r in naming && r !in todo then RemovedRule(old(rules)[r], a) else old(rules)[r]
        decreases todo
        modifies this`rules
      {
        var r: RuleId := Pick(todo);
        var rule := rules[r];
        if rule.ifLabel == Some(a) { rule := rule.(ifLabel := None); }
        if rule.addLabel == Some(a) { rule := rule.(addLabel := None); }
        rules := rules[r := rule.(isEnabled := false)];
        todo := todo - {r};
      }
      forall r: RuleId | r in rules ensures rules[r] == RemovedRule(old(rules)[r], a) {}
    }

    /** `delete_label`: merged into another, or removed. */
    method Delete(a: LabelId, into: Option<LabelId>) returns (outcome: Outcome<Error>)
      modifies this
      ensures match DeleteLabel(old(Here()), a, into)
              case Done(tags) => outcome == Ok && Here() == tags
              case Refused(error) => outcome == Err(error) && Here() == old(Here())
    {
      if a !in labels { return Err(LabelNotFound); }
      var team := labels[a];
      if into.Some? {
        var b := into.value;
        if b !in labels || labels[b] != team { return Err(NotOnThisTeam); }
        if b == a { return Err(MergeIntoSame); }
        MergeLinks(a, b);
        MergeViews(team, a, b);
        MergeRules(a, b);
      } else {
        links := set k | k in links && k.1 != a;
        RemoveViews(team, a);
        RemoveRules(a);
      }
      labels := labels - {a};
      outcome := Ok;
    }
  }

  lemma MergeNone(links: set<(TicketId, LabelId)>, a: LabelId, b: LabelId)
    ensures (forall k | k in links :: k.1 != a) ==> MergedLinks(links, a, b) == links
  {
  }

  lemma MergeOneLink(links: set<(TicketId, LabelId)>, a: LabelId, b: LabelId, k: (TicketId, LabelId))
    requires k in links && k.1 == a && a != b
    ensures MergedLinks(links - {k} + {(k.0, b)}, a, b) == MergedLinks(links, a, b)
    ensures (k.0, b) in links ==> links - {k} + {(k.0, b)} == links - {k}
  {
  }
}
