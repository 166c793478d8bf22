/**
 * What becomes of recurring schedules when a label they name is deleted
 * (lib_softtrack/labels.py, lib_softtrack/schedules.py): their list is left as
 * it is, and the label drops out whenever a ticket is filed from it. And runs of
 * requests that make, name and delete labels.
 */
module LabelSchedules {
  import opened Prelude
  import opened Labels
  import F = Filters

  // --- What a schedule files ---------------------------------------------------------------

  predicate IsOf(s: Tags, team: TeamId, l: LabelId) {
    l in s.labels && s.labels[l] == team
  }

  /** `[label for label in schedule.label_ids if label in labels]`. */
  function OfTheTeam(s: Tags, team: TeamId, ids: seq<LabelId>): seq<LabelId> {
    if ids == [] then []
    else
      OfTheTeam(s, team, ids[..|ids| - 1]) + (if IsOf(s, team, ids[|ids| - 1]) then [ids[|ids| - 1]] else [])
  }

  /** The labels of a ticket the schedule files now. */
  function Files(s: Tags, schedule: Schedule): seq<LabelId> {
    OfTheTeam(s, schedule.team, schedule.labels)
  }

  /** A ticket is filed with labels of the team only, each once: the listed ones that
    * are still there. */
  lemma {:induction false} OfTheTeamIs(s: Tags, team: TeamId, ids: seq<LabelId>)
    requires F.NoDuplicates(ids)
    ensures F.NoDuplicates(OfTheTeam(s, team, ids))
    ensures forall l :: l in OfTheTeam(s, team, ids) <==> l in ids && IsOf(s, team, l)
    decreases |ids|
  {
    if ids != [] {
      var init, last := ids[..|ids| - 1], ids[|ids| - 1];
      assert ids == init + [last];
      assert F.NoDuplicates(init);
      OfTheTeamIs(s, team, init);
      forall j | 0 <= j < |init| ensures init[j] != last { assert ids[j] != ids[|ids| - 1]; }
    }
  }

  /** A schedule files what it listed and is still a label of its team. */
  lemma FilesMeans(s: Tags, k: ScheduleId)
    requires Kept(s) && k in s.schedules
    ensures F.NoDuplicates(Files(s, s.schedules[k]))
    ensures forall l :: l in Files(s, s.schedules[k]) <==> l in s.schedules[k].labels && l in s.labels
  {
    OfTheTeamIs(s, s.schedules[k].team, s.schedules[k].labels);
    assert ScheduleKept(s, s.schedules[k]);
  }

  lemma {:induction false} OfTheTeamWithout(s: Tags, after: Tags, team: TeamId, ids: seq<LabelId>, a: LabelId)
    requires after.labels == s.labels - {a}
    ensures OfTheTeam(after, team, ids) == Without(OfTheTeam(s, team, ids), a)
    decreases |ids|
  {
    if ids != [] {
      var init, last := ids[..|ids| - 1], ids[|ids| - 1];
      OfTheTeamWithout(s, after, team, init, a);
      if IsOf(s, team, last) {
        var longer := OfTheTeam(s, team, init) + [last];
        assert longer[..|longer| - 1] == OfTheTeam(s, team, init);
        assert Without(OfTheTeam(s, team, init), a) + [] == Without(OfTheTeam(s, team, init), a);
      } else {
        assert OfTheTeam(s, team, init) + [] == OfTheTeam(s, team, init);
        assert OfTheTeam(after, team, init) + [] == OfTheTeam(after, team, init);
      }
    }
  }

  /** Merged or removed, the label just drops out of what every schedule files, the
    * rest in its order; no schedule's list is touched. */
  lemma FilesAfterDeletion(s: Tags, a: LabelId, into: Option<LabelId>, k: ScheduleId)
    requires DeleteLabel(s, a, into).Done? && k in s.schedules
    ensures var after := DeleteLabel(s, a, into).tags;
            && after.schedules == s.schedules
            && Files(after, s.schedules[k]) == Without(Files(s, s.schedules[k]), a)
  {
    var after := DeleteLabel(s, a, into).tags;
    OfTheTeamWithout(s, after, s.schedules[k].team, s.schedules[k].labels, a);
  }

  /**
   * So after a merge a schedule files tickets labelled as the tickets it had filed
   * are now, if and only if it did not name the label, or named the other as well:
   * a schedule that named only the one merged files with neither.
   */
  lemma FiledLikeTheMergedExactlyWhen(s: Tags, a: LabelId, b: LabelId, k: ScheduleId)
    requires Kept(s) && DeleteLabel(s, a, Some(b)).Done? && k in s.schedules
    ensures var after := DeleteLabel(s, a, Some(b)).tags;
            F.Values(Files(after, s.schedules[k])) == MergedSet(F.Values(Files(s, s.schedules[k])), a, b)
            <==> a !in Files(s, s.schedules[k]) || b in Files(s, s.schedules[k])
  {
    var after, filed := DeleteLabel(s, a, Some(b)).tags, Files(s, s.schedules[k]);
    FilesAfterDeletion(s, a, Some(b), k);
    WithoutIs(filed, a);
    var now, merged := F.Values(filed) - {a}, MergedSet(F.Values(filed), a, b);
    if a in filed {
      assert a in F.Values(filed);
      assert Merged(a, a, b) in merged;
      assert b in now <==> b in filed;
    }
    if a !in filed || b in filed {
      forall l: LabelId ensures l in now <==> l in merged {
        if l in now { assert Merged(l, a, b) == l; }
      }
    }
  }

  // --- Runs ------------------------------------------------------------------------------------

  datatype Event =
    | AddsLabel(id: LabelId, team: TeamId)
    | AddsTicket(ticket: TicketId, team: TeamId)
    | SetsLabels(ticket: TicketId, labels: set<LabelId>)
    | SavesView(vid: ViewId, view: View)
    | SavesRule(rid: RuleId, rule: Rule)
    | SavesSchedule(sid: ScheduleId, schedule: Schedule)
    | DeletesLabel(id: LabelId, into: Option<LabelId>)

  /** A label gets a key never used before, and lists sent name each label once. */
  ghost predicate Admissible(s: Tags, e: Event) {
    match e
    case AddsLabel(l, _) => l >= s.nextLabel
    case AddsTicket(t, _) => t !in s.tickets
    case SavesView(_, view) => F.NoDuplicates(view.labels)
    case SavesSchedule(_, schedule) => F.NoDuplicates(schedule.labels)
    case _ => true
  }

  predicate AllOf(s: Tags, team: TeamId, ids: seq<LabelId>) {
    forall l | l in ids :: IsOf(s, team, l)
  }

  predicate Exists(s: Tags, l: Option<LabelId>) {
    l.Some? ==> l.value in s.labels
  }

  /** A request that names a label not there, or of another team, changes nothing. */
  function Step(s: Tags, e: Event): Tags {
    match e
    case AddsLabel(l, team) => s.(labels := s.labels[l := team], nextLabel := l + 1)
    case AddsTicket(t, team) => s.(tickets := s.tickets[t := team])
    case SetsLabels(t, ids) =>
      if t in s.tickets && forall l | l in ids :: IsOf(s, s.tickets[t], l)
      then s.(links := (set k | k in s.links && k.0 != t) + (set l | l in ids :: (t, l))) else s
    case SavesView(id, view) => if AllOf(s, view.team, view.labels) then s.(views := s.views[id := view]) else s
    case SavesRule(id, rule) =>
      if Exists(s, rule.ifLabel) && Exists(s, rule.addLabel) then s.(rules := s.rules[id := rule]) else s
    case SavesSchedule(id, schedule) =>
      if AllOf(s, schedule.team, schedule.labels) then s.(schedules := s.schedules[id := schedule]) else s
    case DeletesLabel(a, into) =>
      match DeleteLabel(s, a, into)
      case Done(after) => after
      case Refused(_) => s
  }

  function After(s: Tags, events: seq<Event>): Tags
    decreases |events|
  {
    if events == [] then s else After(Step(s, events[0]), events[1..])
  }

  ghost predicate AllAdmissible(s: Tags, events: seq<Event>)
    decreases |events|
  {
    events == [] || (Admissible(s, events[0]) && AllAdmissible(Step(s, events[0]), events[1..]))
  }

  lemma LabelAdded(s: Tags, l: LabelId, team: TeamId)
    requires Kept(s) && l >= s.nextLabel
    ensures Kept(s.(labels := s.labels[l := team], nextLabel := l + 1))
  {
    var after := s.(labels := s.labels[l := team], nextLabel := l + 1);
    assert l !in s.labels;
    forall k | k in after.schedules ensures ScheduleKept(after, after.schedules[k]) {
      assert ScheduleKept(s, s.schedules[k]);
    }
    forall v | v in after.views ensures ViewKept(after, after.views[v]) { assert ViewKept(s, s.views[v]); }
  }

  lemma ListSaved(s: Tags, e: Event)
    requires Kept(s) && Admissible(s, e) && (e.SavesView? || e.SavesSchedule? || e.SavesRule?)
    ensures Kept(Step(s, e))
  {
  }

  lemma TicketChanged(s: Tags, e: Event)
    requires Kept(s) && Admissible(s, e) && (e.AddsTicket? || e.SetsLabels?)
    ensures Kept(Step(s, e))
  {
  }

  lemma StepKeeps(s: Tags, e: Event)
    requires Kept(s) && Admissible(s, e)
    ensures Kept(Step(s, e))
  {
    match e
    case AddsLabel(l, team) => LabelAdded(s, l, team);
    case AddsTicket(_, _) => TicketChanged(s, e);
    case SetsLabels(_, _) => TicketChanged(s, e);
    case DeletesLabel(a, into) => if DeleteLabel(s, a, into).Done? { DeletedIsGone(s, a, into); }
    case _ => ListSaved(s, e);
  }

  const EMPTY := Tags(1, map[], map[], {}, map[], map[], map[])

  /** Whatever is made, named, merged and removed, in any order: every label a ticket,
    * a view or a rule names is there, a ticket's and a view's is of its team, and a
    * view or a schedule names it once. */
  lemma {:induction false} ReachableIsKept(s: Tags, events: seq<Event>)
    requires Kept(s) && AllAdmissible(s, events)
    ensures Kept(After(s, events))
    decreases |events|
  {
    if events != [] {
      StepKeeps(s, events[0]);
      ReachableIsKept(Step(s, events[0]), events[1..]);
    }
  }

  /** A label once deleted is never there again, whatever a schedule still lists. */
  lemma {:induction false} DeletedForGood(s: Tags, events: seq<Event>, a: LabelId)
    requires Kept(s) && AllAdmissible(s, events) && a < s.nextLabel && a !in s.labels
    ensures a !in After(s, events).labels
    decreases |events|
  {
    if events != [] {
      StepKeeps(s, events[0]);
      DeletedForGood(Step(s, events[0]), events[1..], a);
    }
  }

  /** Two labels, a schedule that names one of them, and that one merged. */
  const STORY: seq<Event> := [
    AddsLabel(1, 1), AddsLabel(2, 1), SavesSchedule(1, Schedule(1, [1])), DeletesLabel(1, Some(2))]

  lemma FirstStep(s: Tags, e: Event, rest: seq<Event>)
    ensures After(s, [e] + rest) == After(Step(s, e), rest)
    ensures AllAdmissible(s, [e] + rest) <==> Admissible(s, e) && AllAdmissible(Step(s, e), rest)
  {
    assert ([e] + rest)[1..] == rest;
  }

  lemma BeforeTheMerge()
    ensures var s := EMPTY.(nextLabel := 3, labels := map[1 := 1, 2 := 1], schedules := map[1 := Schedule(1, [1])]);
            && AllAdmissible(EMPTY, STORY)
            && After(EMPTY, STORY) == Step(s, DeletesLabel(1, Some(2))) && Kept(s) && Files(s, s.schedules[1]) == [1]
  {
    var one := EMPTY.(nextLabel := 2, labels := map[1 := 1]);
    var two := EMPTY.(nextLabel := 3, labels := map[1 := 1, 2 := 1]);
    var s := two.(schedules := map[1 := Schedule(1, [1])]);
    FirstStep(s, DeletesLabel(1, Some(2)), []);
    FirstStep(two, STORY[2], [DeletesLabel(1, Some(2))] + []);
    FirstStep(one, STORY[1], [STORY[2]] + ([DeletesLabel(1, Some(2))] + []));
    FirstStep(EMPTY, STORY[0], [STORY[1]] + ([STORY[2]] + ([DeletesLabel(1, Some(2))] + [])));
    assert STORY == [STORY[0]] + ([STORY[1]] + ([STORY[2]] + ([DeletesLabel(1, Some(2))] + [])));
    assert [1][..0] == [];
  }

  /** A schedule that names a label no more there, and files with neither label. */
  lemma DeletedStaysNamed()
    ensures AllAdmissible(EMPTY, STORY)
    ensures var s := After(EMPTY, STORY);
            && 1 !in s.labels && NamedBySchedule(s, 1) && 2 in s.labels
            && 1 in s.schedules && Files(s, s.schedules[1]) == []
  {
    BeforeTheMerge();
    var s := EMPTY.(nextLabel := 3, labels := map[1 := 1, 2 := 1], schedules := map[1 := Schedule(1, [1])]);
    FilesAfterDeletion(s, 1, Some(2), 1);
    assert After(EMPTY, STORY).schedules[1].labels == [1];
    assert [1][..0] == [];
  }
}
