/**
 * What a digest says (lib_softtrack/digest.py, `render_digest`): reminders
 * first, then the rest, at most twenty items in all, and a last line that
 * counts what is left.
 */
module DigestMail {
  import opened Prelude

  datatype Kind = DueTomorrow | Overdue | Assigned | FieldAssigned | Mentioned | Commented | StatusChanged

  datatype Item = Item(id: int, kind: Kind, excerpt: string)

  const MAX_LINES := 20

  predicate IsReminder(item: Item) {
    item.kind.DueTomorrow? || item.kind.Overdue?
  }

  predicate IsWatched(item: Item) {
    item.kind.Commented? || item.kind.StatusChanged?
  }

  function Reminders(items: seq<Item>): seq<Item> {
    if items == [] then []
    else (if IsReminder(items[0]) then [items[0]] else []) + Reminders(items[1..])
  }

  function Others(items: seq<Item>): seq<Item> {
    if items == [] then []
    else (if IsReminder(items[0]) then [] else [items[0]]) + Others(items[1..])
  }

  /** A line of the body, by what it is about. */
  datatype Line =
    | RemindersHeading | WatchedHeading | EverythingElse
    | About(item: Item) | Title(item: Item) | Excerpt(item: Item) | LinkTo(item: Item)
    | Blank | AndMore(count: int) | ReadThem | Base | Choose

  // --- What a reader finds in a body -----------------------------------------------------------

  /** The items a body shows, in order. */
  function Shown(lines: seq<Line>): seq<Item> {
    if lines == [] then []
    else Shown(lines[..|lines| - 1]) + (if lines[|lines| - 1].About? then [lines[|lines| - 1].item] else [])
  }

  /** What its "and more" lines count. */
  function Remainders(lines: seq<Line>): seq<int> {
    if lines == [] then []
    else Remainders(lines[..|lines| - 1]) + (if lines[|lines| - 1].AndMore? then [lines[|lines| - 1].count] else [])
  }

  lemma {:induction false} ShownAdds(a: seq<Line>, c: seq<Line>)
    ensures Shown(a + c) == Shown(a) + Shown(c)
    ensures Remainders(a + c) == Remainders(a) + Remainders(c)
    decreases |c|
  {
    if c == [] {
      assert a + c == a;
    } else {
      var init := c[..|c| - 1];
      ShownAdds(a, init);
      assert (a + c)[..|a + c| - 1] == a + init;
    }
  }

  /** The lines of one item, which show it and count nothing. */
  function ReminderLines(item: Item): seq<Line> {
    [About(item), LinkTo(item), Blank]
  }

  function OtherLines(item: Item): seq<Line> {
    [About(item), Title(item)] + (if item.excerpt != "" then [Excerpt(item)] else []) + [LinkTo(item), Blank]
  }

  predicate ShowsOne(lines: seq<Line>, item: Item) {
    Shown(lines) == [item] && Remainders(lines) == []
  }

  lemma {:induction false} PlainLines(lines: seq<Line>)
    requires forall i | 0 <= i < |lines| :: !lines[i].About? && !lines[i].AndMore?
    ensures Shown(lines) == [] && Remainders(lines) == []
    decreases |lines|
  {
    if lines != [] { PlainLines(lines[..|lines| - 1]); }
  }

  /** A line about an item, and then lines about nothing new. */
  lemma ItemShownOnce(item: Item, rest: seq<Line>)
    requires forall i | 0 <= i < |rest| :: !rest[i].About? && !rest[i].AndMore?
    ensures ShowsOne([About(item)] + rest, item)
  {
    ShownAdds([About(item)], rest);
    PlainLines(rest);
    assert [About(item)][..0] == [];
    assert Shown([About(item)]) == Shown([]) + [item];
    assert Remainders([About(item)]) == Remainders([]) + [];
  }

  lemma ItemLines(item: Item)
    ensures ShowsOne(ReminderLines(item), item) && ShowsOne(OtherLines(item), item)
  {
    ItemShownOnce(item, [LinkTo(item), Blank]);
    assert ReminderLines(item) == [About(item)] + [LinkTo(item), Blank];
    var rest := [Title(item)] + (if item.excerpt != "" then [Excerpt(item)] else []) + [LinkTo(item), Blank];
    ItemShownOnce(item, rest);
    assert OtherLines(item) == [About(item)] + rest;
  }

  lemma {:induction false} PartsCount(items: seq<Item>)
    ensures |Reminders(items)| + |Others(items)| == |items|
    ensures forall item :: item in items <==> item in Reminders(items) || item in Others(items)
  {
    if items != [] {
      assert items == [items[0]] + items[1..];
      PartsCount(items[1..]);
    }
  }

  /** What the body should show. */
  function Expected(items: seq<Item>): seq<Item> {
    var all := Reminders(items) + Others(items);
    if |all| <= MAX_LINES then all else all[..MAX_LINES]
  }

  /** The body so far shows these items and counts nothing. */
  ghost predicate Shows(lines: seq<Line>, items: seq<Item>) {
    Shown(lines) == items && Remainders(lines) == []
  }

  lemma ShowsMore(lines: seq<Line>, items: seq<Item>, more: seq<Line>, item: Item)
    requires Shows(lines, items) && ShowsOne(more, item)
    ensures Shows(lines + more, items + [item])
  {
    ShownAdds(lines, more);
  }

  lemma ShowsStill(lines: seq<Line>, items: seq<Item>, plain: seq<Line>)
    requires Shows(lines, items) && forall i | 0 <= i < |plain| :: !plain[i].About? && !plain[i].AndMore?
    ensures Shows(lines + plain, items)
  {
    ShownAdds(lines, plain);
    PlainLines(plain);
  }

  lemma Closed(lines: seq<Line>, plain: seq<Line>)
    requires forall i | 0 <= i < |plain| :: !plain[i].About? && !plain[i].AndMore?
    ensures Shown(lines + plain) == Shown(lines) && Remainders(lines + plain) == Remainders(lines)
  {
    ShownAdds(lines, plain);
    PlainLines(plain);
  }

  lemma CountedLast(lines: seq<Line>, left: int)
    requires Remainders(lines) == []
    ensures Shown(lines + [AndMore(left), Blank]) == Shown(lines)
    ensures Remainders(lines + [AndMore(left), Blank]) == [left]
  {
    ShownAdds(lines, [AndMore(left)]);
    assert [AndMore(left)][..0] == [];
    assert Shown([AndMore(left)]) == Shown([]) + [] && Remainders([AndMore(left)]) == Remainders([]) + [left];
    Closed(lines + [AndMore(left)], [Blank]);
    assert lines + [AndMore(left), Blank] == lines + [AndMore(left)] + [Blank];
  }

  function AtMost(n: int, limit: int): int {
    if n <= limit then n else limit
  }

  /** The reminders, under their heading, and the heading of the rest. */
  method ListReminders(reminders: seq<Item>, others: seq<Item>) returns (lines: seq<Line>, shown: nat)
    ensures shown == AtMost(|reminders|, MAX_LINES) && Shows(lines, reminders[..shown])
  {
    lines, shown := [], 0;
    if reminders == [] { return; }
    lines := lines + [RemindersHeading, Blank];
    PlainLines(lines);
    var limit := AtMost(|reminders|, MAX_LINES);
    while shown < limit
      invariant shown <= limit && Shows(lines, reminders[..shown])
    {
      var item := reminders[shown];
      ItemLines(item);
      ShowsMore(lines, reminders[..shown], ReminderLines(item), item);
      lines := lines + ReminderLines(item);
      assert reminders[..shown + 1] == reminders[..shown] + [item];
      shown := shown + 1;
    }
    if others != [] && shown < MAX_LINES {
      var heading := if forall i | 0 <= i < |others| :: IsWatched(others[i]) then WatchedHeading else EverythingElse;
      ShowsStill(lines, reminders[..shown], [heading, Blank]);
      lines := lines + [heading, Blank];
    }
  }

  /** The first `rest` of the others, after what is there. */
  method ListOthers(before: seq<Line>, others: seq<Item>, rest: nat, ghost already: seq<Item>)
      returns (lines: seq<Line>)
    requires rest <= |others| && Shows(before, already)
    ensures Shows(lines, already + others[..rest])
  {
    lines := before;
    assert already + others[..0] == already;
    for i := 0 to rest
      invariant Shows(lines, already + others[..i])
    {
      ItemLines(others[i]);
      ShowsMore(lines, already + others[..i], OtherLines(others[i]), others[i]);
      lines := lines + OtherLines(others[i]);
      assert already + others[..i + 1] == already + others[..i] + [others[i]];
    }
  }

  lemma FirstTwenty(items: seq<Item>, shown: nat, rest: nat)
    requires shown == AtMost(|Reminders(items)|, MAX_LINES) && rest == AtMost(|Others(items)|, MAX_LINES - shown)
    ensures Reminders(items)[..shown] + Others(items)[..rest] == Expected(items)
  {
  }

  method ListItems(items: seq<Item>) returns (lines: seq<Line>)
    ensures Shows(lines, Expected(items))
  {
    var reminders, others := Reminders(items), Others(items);
    var shown;
    lines, shown := ListReminders(reminders, others);
    var rest := AtMost(|others|, MAX_LINES - shown);
    FirstTwenty(items, shown, rest);
    lines := ListOthers(lines, others, rest, reminders[..shown]);
  }

  lemma ExpectedCount(items: seq<Item>)
    ensures |Expected(items)| == AtMost(|items|, MAX_LINES)
  {
    PartsCount(items);
  }

  /** Shows exactly the first twenty of the reminders and then the rest, and the
    * remainder line counts the others, if there are any. */
  method RenderBody(items: seq<Item>) returns (lines: seq<Line>)
    ensures Shown(lines) == Expected(items) && |Shown(lines)| == AtMost(|items|, MAX_LINES)
    ensures Remainders(lines) == if |items| > MAX_LINES then [|items| - |Shown(lines)|] else []
  {
    ExpectedCount(items);
    lines := ListItems(items);
    if |items| > MAX_LINES {
      CountedLast(lines, |items| - MAX_LINES);
      lines := lines + [AndMore(|items| - MAX_LINES), Blank];
    }
    var closing := [ReadThem, Base, Blank, Choose];
    Closed(lines, closing);
    lines := lines + closing;
  }

  // --- The subject ------------------------------------------------------------------------------

  datatype Noun = Assignment | Mention | Comment | StatusChange

  function NounOf(item: Item): Noun {
    match item.kind
    case Mentioned => Mention
    case Commented => Comment
    case StatusChanged => StatusChange
    case _ => Assignment
  }

  /** One item's sentence, or counts: of reminders, of the rest by their noun if
    * they share one, or of everything. */
  datatype Subject =
    | Sentence(item: Item)
    | OnlyReminders(reminders: int)
    | RemindersAnd(reminders: int, others: int, noun: Option<Noun>)
    | NewNotifications(count: int)

  /** How many items a subject speaks of. */
  function SpokenOf(s: Subject): int {
    match s
    case Sentence(_) => 1
    case OnlyReminders(n) => n
    case RemindersAnd(n, m, _) => n + m
    case NewNotifications(n) => n
  }

  function SubjectOf(items: seq<Item>): Subject {
    var reminders, others := Reminders(items), Others(items);
    if |items| == 1 then Sentence(items[0])
    else if reminders != [] then
      if others == [] then OnlyReminders(|reminders|)
      else RemindersAnd(|reminders|, |others|,
                        if forall i | 0 <= i < |others| :: NounOf(others[i]) == NounOf(others[0])
                        then Some(NounOf(others[0])) else None)
    else NewNotifications(|items|)
  }

  /** The subject speaks of every item, and calls the rest by a noun only if it
    * is every one's. */
  lemma SubjectIsTrue(items: seq<Item>)
    requires items != []
    ensures SpokenOf(SubjectOf(items)) == |items|
    ensures var s := SubjectOf(items);
            s.RemindersAnd? && s.noun.Some? ==>
              forall item | item in items && !IsReminder(item) :: NounOf(item) == s.noun.value
  {
    PartsCount(items);
    OthersAreNotReminders(items);
  }

  lemma {:induction false} OthersAreNotReminders(items: seq<Item>)
    ensures forall item :: item in Reminders(items) <==> item in items && IsReminder(item)
    ensures forall item :: item in Others(items) <==> item in items && !IsReminder(item)
  {
    if items != [] {
      assert items == [items[0]] + items[1..];
      OthersAreNotReminders(items[1..]);
    }
  }
}
