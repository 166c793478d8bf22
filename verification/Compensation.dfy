/**
 * Pay as an effective-dated history of records that are only ever added
 * (lib_finance/compensation.py). The database's ranked query and the list the
 * page reads are modelled separately and proved to agree.
 */
module Compensation {
  import opened Prelude
  import opened Tables
  import opened Totals

  type History = map<PayId, Pay>

  /** What `record` keeps: a correction names an earlier record of the same
    * person, and a record is corrected at most once. */
  ghost predicate ValidHistory(h: History) {
    && (forall id | id in h && h[id].corrects.Some? ::
          h[id].corrects.value in h && h[id].corrects.value < id
          && h[h[id].corrects.value].user == h[id].user)
    && (forall i, j | i in h && j in h && h[i].corrects.Some? && h[i].corrects == h[j].corrects :: i == j)
  }

  function Corrected(h: History): set<PayId> {
    set id | id in h && h[id].corrects.Some? :: h[id].corrects.value
  }

  predicate Live(h: History, id: PayId) {
    id in h && id !in Corrected(h)
  }

  // --- The ranked query --------------------------------------------------------

  /** `ORDER BY effective_on DESC, id DESC`. */
  predicate Before(a: PayId, x: Pay, b: PayId, y: Pay) {
    x.effectiveOn > y.effectiveOn || (x.effectiveOn == y.effectiveOn && a > b)
  }

  predicate Started(h: History, day: Day, id: PayId) {
    Live(h, id) && h[id].effectiveOn <= day
  }

  /** `row_number()` within the person's started, uncorrected records. */
  function Rank(h: History, day: Day, id: PayId): nat
    requires id in h
  {
    1 + |set j | j in h && Started(h, day, j) && h[j].user == h[id].user && Before(j, h[j], id, h[id])|
  }

  function InEffect(h: History, day: Day): set<PayId> {
    set id | id in h && Started(h, day, id) && Rank(h, day, id) == 1
  }

  /** First of the person's started records: no other comes before it. */
  ghost predicate Leads(h: History, day: Day, id: PayId) {
    && Started(h, day, id)
    && forall j | j in h && Started(h, day, j) && h[j].user == h[id].user && j != id ::
         Before(id, h[id], j, h[j])
  }

  lemma InEffectLeads(h: History, day: Day, id: PayId)
    ensures id in InEffect(h, day) <==> Leads(h, day, id)
  {
    if id in h && Started(h, day, id) {
      var ahead := set j | j in h && Started(h, day, j) && h[j].user == h[id].user && Before(j, h[j], id, h[id]);
      if Leads(h, day, id) {
        assert ahead == {};
      } else {
        var j :| j in h && Started(h, day, j) && h[j].user == h[id].user && j != id && !Before(id, h[id], j, h[j]);
        assert j in ahead;
      }
    }
  }

  /** At most one record per person is in effect on a day. */
  lemma OneInEffect(h: History, day: Day)
    ensures forall i, j | i in InEffect(h, day) && j in InEffect(h, day) && h[i].user == h[j].user :: i == j
  {
    forall i | i in InEffect(h, day) ensures Leads(h, day, i) { InEffectLeads(h, day, i); }
  }

  /** What each of these people is paid on `day`; absent with nothing in effect. */
  function PayOn(h: History, users: set<UserId>, day: Day): map<UserId, PayId> {
    OneInEffect(h, day);
    map id | id in InEffect(h, day) && h[id].user in users :: h[id].user := id
  }

  function PayAt(h: History, user: UserId, day: Day): (id: Option<PayId>)
    ensures id.Some? ==> id.value in h && h[id.value].user == user
  {
    var pay := PayOn(h, {user}, day);
    if user in pay then Some(pay[user]) else None
  }

  lemma PayOnIsPayAt(h: History, users: set<UserId>, day: Day, user: UserId)
    requires user in users
    ensures user in PayOn(h, users, day) <==> PayAt(h, user, day).Some?
    ensures user in PayOn(h, users, day) ==> PayOn(h, users, day)[user] == PayAt(h, user, day).value
  {
  }

  lemma PayAtLeads(h: History, user: UserId, day: Day, id: PayId)
    ensures PayAt(h, user, day) == Some(id) <==> Leads(h, day, id) && h[id].user == user
  {
    OneInEffect(h, day);
    InEffectLeads(h, day, id);
  }

  /** Whoever has a started, uncorrected record has pay. */
  lemma {:induction false} SomebodyLeads(h: History, day: Day, user: UserId, some: set<PayId>) returns (id: PayId)
    requires some != {}
    requires forall j | j in some :: j in h && Started(h, day, j) && h[j].user == user
    ensures id in some && forall j | j in some && j != id :: Before(id, h[id], j, h[j])
    decreases |some|
  {
    id := Any(some);
    if some != {id} {
      var best := SomebodyLeads(h, day, user, some - {id});
      if !Before(id, h[id], best, h[best]) {
        id := best;
      }
    }
  }

  lemma PaidWhenStarted(h: History, user: UserId, day: Day)
    ensures PayAt(h, user, day).Some? <==> exists id :: id in h && Started(h, day, id) && h[id].user == user
  {
    if PayAt(h, user, day).Some? {
      PayAtLeads(h, user, day, PayAt(h, user, day).value);
    }
    if exists id :: id in h && Started(h, day, id) && h[id].user == user {
      var mine := set id | id in h && Started(h, day, id) && h[id].user == user;
      var k :| k in h && Started(h, day, k) && h[k].user == user;
      assert k in mine;
      var id := SomebodyLeads(h, day, user, mine);
      PayAtLeads(h, user, day, id);
    }
  }

  // --- One person's records as a list --------------------------------------------

  datatype Entry = Entry(id: PayId, pay: Pay)

  function Insert(e: Entry, s: seq<Entry>): seq<Entry> {
    if s == [] || Before(e.id, e.pay, s[0].id, s[0].pay) then [e] + s
    else [s[0]] + Insert(e, s[1..])
  }

  /** `sorted(records, key=(effective_on, id), reverse=True)`. */
  function Sorted(s: seq<Entry>): seq<Entry> {
    if s == [] then [] else Insert(s[0], Sorted(s[1..]))
  }

  function Filter(s: seq<Entry>, p: Entry -> bool): seq<Entry> {
    if s == [] then []
    else if p(s[0]) then [s[0]] + Filter(s[1..], p)
    else Filter(s[1..], p)
  }

  datatype Standing = Replaced | Current | Scheduled | Past

  /** `_Chain`: one person's records, read on one day. */
  datatype Chain = Chain(records: seq<Entry>, day: Day) {
    /** `corrected_by`'s keys. */
    function CorrectedBy(): set<PayId> {
      set e | e in records && e.pay.corrects.Some? :: e.pay.corrects.value
    }

    function LiveEntries(): seq<Entry> {
      var corrected := CorrectedBy();
      Filter(Sorted(records), (e: Entry) => e.id !in corrected)
    }

    function StartedEntries(): seq<Entry> {
      Filter(LiveEntries(), (e: Entry) => e.pay.effectiveOn <= day)
    }

    function CurrentEntry(): Option<Entry> {
      if StartedEntries() == [] then None else Some(StartedEntries()[0])
    }

    function StandingOf(e: Entry): Standing {
      if e.id in CorrectedBy() then Replaced
      else if CurrentEntry().Some? && e.id == CurrentEntry().value.id then Current
      else if e.pay.effectiveOn > day then Scheduled
      else Past
    }
  }

  /** `records` are this person's rows, each once, in whatever order they came. */
  ghost predicate Lists(h: History, user: UserId, records: seq<Entry>) {
    && (forall e | e in records :: e.id in h && h[e.id] == e.pay && e.pay.user == user)
    && (forall id | id in h && h[id].user == user :: Entry(id, h[id]) in records)
  }

  ghost predicate Descending(s: seq<Entry>) {
    forall i, j | 0 <= i < j < |s| :: s[i] == s[j] || Before(s[i].id, s[i].pay, s[j].id, s[j].pay)
  }

  /** Rows with the same key are the same row. */
  ghost predicate Keyed(s: seq<Entry>) {
    forall e, f | e in s && f in s && e.id == f.id :: e == f
  }

  lemma {:induction false} InsertDescends(e: Entry, s: seq<Entry>)
    requires Descending(s) && Keyed([e] + s)
    ensures forall f :: f in Insert(e, s) <==> f == e || f in s
    ensures Descending(Insert(e, s))
  {
    if s != [] && !Before(e.id, e.pay, s[0].id, s[0].pay) {
      var tail := s[1..];
      assert forall f | f in [e] + tail :: f in [e] + s;
      InsertDescends(e, tail);
      var r := Insert(e, tail);
      assert e in [e] + s && s[0] in [e] + s;
      forall j | 0 <= j < |r| ensures s[0] == r[j] || Before(s[0].id, s[0].pay, r[j].id, r[j].pay) {
        assert r[j] in r;
      }
    } else if s != [] {
      forall j | 0 <= j < |s| ensures Before(e.id, e.pay, s[j].id, s[j].pay) {
        assert s[0] == s[j] || Before(s[0].id, s[0].pay, s[j].id, s[j].pay);
      }
    }
  }

  lemma {:induction false} SortedDescends(s: seq<Entry>)
    requires Keyed(s)
    ensures Descending(Sorted(s))
    ensures forall f :: f in Sorted(s) <==> f in s
  {
    if s != [] {
      assert s == [s[0]] + s[1..];
      SortedDescends(s[1..]);
      assert forall f | f in [s[0]] + Sorted(s[1..]) :: f in s;
      InsertDescends(s[0], Sorted(s[1..]));
    }
  }

  lemma {:induction false} FilterKeeps(s: seq<Entry>, p: Entry -> bool)
    ensures forall e :: e in Filter(s, p) <==> e in s && p(e)
    ensures Descending(s) ==> Descending(Filter(s, p))
  {
    if s != [] {
      assert s == [s[0]] + s[1..];
      FilterKeeps(s[1..], p);
      var r := Filter(s[1..], p);
      if Descending(s) {
        assert Descending(s[1..]);
        forall j | 0 <= j < |r| ensures s[0] == r[j] || Before(s[0].id, s[0].pay, r[j].id, r[j].pay) {
          assert r[j] in s[1..];
        }
      }
    }
  }

  lemma StartedList(h: History, user: UserId, c: Chain)
    requires ValidHistory(h) && Lists(h, user, c.records)
    ensures forall id | id in h && h[id].user == user :: id in c.CorrectedBy() <==> id in Corrected(h)
    ensures Descending(c.StartedEntries())
    ensures forall e :: e in c.StartedEntries() <==>
              e.id in h && h[e.id] == e.pay && e.pay.user == user && Started(h, c.day, e.id)
  {
    forall id | id in h && h[id].user == user ensures id in c.CorrectedBy() <==> id in Corrected(h) {
      if id in Corrected(h) {
        var k :| k in h && h[k].corrects == Some(id);
        assert Entry(k, h[k]) in c.records;
      }
    }
    SortedDescends(c.records);
    var corrected := c.CorrectedBy();
    FilterKeeps(Sorted(c.records), (e: Entry) => e.id !in corrected);
    FilterKeeps(c.LiveEntries(), (e: Entry) => e.pay.effectiveOn <= c.day);
  }

  /** The ranked query and the chain agree, on every day of every history. */
  lemma ChainAgreesWithQuery(h: History, user: UserId, c: Chain)
    requires ValidHistory(h) && Lists(h, user, c.records)
    ensures match PayAt(h, user, c.day)
            case None => c.CurrentEntry() == None
            case Some(id) => id in h && c.CurrentEntry() == Some(Entry(id, h[id]))
  {
    StartedList(h, user, c);
    var started := c.StartedEntries();
    if PayAt(h, user, c.day).Some? {
      var id := PayAt(h, user, c.day).value;
      PayAtLeads(h, user, c.day, id);
      assert Entry(id, h[id]) in started;
    }
    if started != [] {
      var first := started[0];
      assert first in started;
      forall j | j in h && Started(h, c.day, j) && h[j].user == user && j != first.id
        ensures Before(first.id, h[first.id], j, h[j])
      {
        assert Entry(j, h[j]) in started;
      }
      PayAtLeads(h, user, c.day, first.id);
    }
  }

  /** Every record has exactly the standing the history gives it. */
  lemma StandingsMeanWhatTheySay(h: History, user: UserId, c: Chain, id: PayId)
    requires ValidHistory(h) && Lists(h, user, c.records) && id in h && h[id].user == user
    ensures var standing := c.StandingOf(Entry(id, h[id]));
            && (standing == Replaced <==> exists k :: k in h && h[k].corrects == Some(id))
            && (standing == Current <==> id in InEffect(h, c.day))
            && (standing == Scheduled <==> Live(h, id) && h[id].effectiveOn > c.day)
            && (standing == Past <==> Started(h, c.day, id) && id !in InEffect(h, c.day))
  {
    StartedList(h, user, c);
    ChainAgreesWithQuery(h, user, c);
    InEffectLeads(h, c.day, id);
    PayAtLeads(h, user, c.day, id);
  }

  // --- Counting ---------------------------------------------------------------------

  function CorrectingIds(h: History): set<PayId> {
    set id | id in h && h[id].corrects.Some?
  }

  ghost function TargetOf(h: History): map<PayId, PayId> {
    map id | id in CorrectingIds(h) :: h[id].corrects.value
  }

  /** As many records are corrected as correct. */
  lemma CorrectedOnceEach(h: History)
    requires ValidHistory(h)
    ensures |Corrected(h)| == |CorrectingIds(h)|
  {
    forall i: PayId, j: PayId | i in CorrectingIds(h) && j in CorrectingIds(h) && TargetOf(h)[i] == TargetOf(h)[j]
      ensures i == j
    {
      assert h[i].corrects == h[j].corrects;
    }
    OneToOne(CorrectingIds(h), TargetOf(h));
    forall t: PayId ensures t in Corrected(h) <==> t in Image(CorrectingIds(h), TargetOf(h)) {
      if t in Corrected(h) {
        var id :| id in h && h[id].corrects == Some(t);
        assert TargetOf(h)[id] == t;
      }
      if t in Image(CorrectingIds(h), TargetOf(h)) {
        var id :| id in CorrectingIds(h) && TargetOf(h)[id] == t;
        assert h[id].corrects == Some(t);
      }
    }
    assert Corrected(h) == Image(CorrectingIds(h), TargetOf(h));
  }

  lemma TheRestAreAsMany(all: set<PayId>, a: set<PayId>, b: set<PayId>)
    requires a <= all && b <= all && |a| == |b|
    ensures |all - a| == |all - b|
  {
    assert |all - a| == |all| - |a|;
    assert |all - b| == |all| - |b|;
  }

  function LiveIds(h: History): set<PayId> {
    set id | id in h && Live(h, id)
  }

  function Originals(h: History): set<PayId> {
    set id | id in h && h[id].corrects.None?
  }

  lemma TheRest(h: History)
    requires ValidHistory(h)
    ensures Corrected(h) <= h.Keys && CorrectingIds(h) <= h.Keys
    ensures LiveIds(h) == h.Keys - Corrected(h)
    ensures Originals(h) == h.Keys - CorrectingIds(h)
  {
    forall id: PayId
      ensures id in LiveIds(h) <==> id in h.Keys - Corrected(h)
      ensures id in Originals(h) <==> id in h.Keys - CorrectingIds(h)
    {
    }
  }

  /** As many records are live as correct nothing: a correction takes one out and puts one in. */
  lemma LiveCount(h: History)
    requires ValidHistory(h)
    ensures |LiveIds(h)| == |Originals(h)|
  {
    TheRest(h);
    CorrectedOnceEach(h);
    TheRestAreAsMany(h.Keys, Corrected(h), CorrectingIds(h));
  }

  // --- What one new record changes ----------------------------------------------------

  /** A key the database has not given out yet: later than every record. */
  ghost predicate Newest(h: History, id: PayId) {
    forall j | j in h :: j < id
  }

  /** Some live record other than `except` starts after `from` and by `day`. */
  ghost predicate Overtaken(h: History, user: UserId, from: Day, day: Day, except: Option<PayId>) {
    exists j :: j in h && Live(h, j) && h[j].user == user && Some(j) != except && from < h[j].effectiveOn <= day
  }

  lemma CorrectedAfter(h: History, id: PayId, pay: Pay)
    requires id !in h
    ensures Corrected(h[id := pay]) ==
            Corrected(h) + (if pay.corrects.Some? then {pay.corrects.value} else {})
  {
    var h' := h[id := pay];
    forall t | t in Corrected(h) ensures t in Corrected(h') {
      var k :| k in h && h[k].corrects == Some(t);
      assert k in h' && h'[k] == h[k];
    }
    assert id in h' && h'[id] == pay;
  }

  /**
   * A record that corrects nothing changes its person's pay exactly on the
   * days from its own date up to the next live effective date after it.
   */
  lemma NewRecordIsLocal(h: History, id: PayId, pay: Pay, user: UserId, day: Day)
    requires ValidHistory(h) && Newest(h, id) && pay.corrects.None?
    ensures PayAt(h[id := pay], user, day) ==
            if user == pay.user && pay.effectiveOn <= day && !Overtaken(h, user, pay.effectiveOn, day, None)
            then Some(id)
            else PayAt(h, user, day)
  {
    NewestFresh(h, id, pay);
    NewRecordWins(h, id, pay, user, day, None);
    if PayAt(h[id := pay], user, day) != Some(id) {
      OthersStand(h, id, pay, user, day);
    }
  }

  lemma NewestFresh(h: History, id: PayId, pay: Pay)
    requires ValidHistory(h) && Newest(h, id)
    requires pay.corrects.Some? ==> pay.corrects.value in h
    ensures id !in h && id !in Corrected(h[id := pay])
  {
  }

  /** When the new record becomes the pay: it has started and nothing live overtakes it. */
  lemma NewRecordWins(h: History, id: PayId, pay: Pay, user: UserId, day: Day, target: Option<PayId>)
    requires ValidHistory(h) && Newest(h, id) && pay.corrects == target
    requires target.Some? ==> target.value in h && h[target.value].user == pay.user && Live(h, target.value)
    ensures PayAt(h[id := pay], user, day) == Some(id) <==>
            user == pay.user && pay.effectiveOn <= day && !Overtaken(h, user, pay.effectiveOn, day, target)
  {
    var h' := h[id := pay];
    NewestFresh(h, id, pay);
    CorrectedAfter(h, id, pay);
    PayAtLeads(h', user, day, id);
    assert h'[id] == pay && forall j | j in h :: h'[j] == h[j] && (Live(h', j) <==> Live(h, j) && Some(j) != target);
    if user == pay.user && pay.effectiveOn <= day {
      assert Started(h', day, id);
      if Overtaken(h, user, pay.effectiveOn, day, target) {
        var j :| j in h && Live(h, j) && h[j].user == user && Some(j) != target
                 && pay.effectiveOn < h[j].effectiveOn <= day;
        assert Started(h', day, j) && !Before(id, h'[id], j, h'[j]);
      } else {
        forall j | j in h' && Started(h', day, j) && h'[j].user == user && j != id
          ensures Before(id, h'[id], j, h'[j])
        {
          assert Live(h, j);
        }
      }
    }
  }

  /** What has started, once the new record is there: what had, but for its target. */
  lemma StartedAfter(h: History, id: PayId, pay: Pay, day: Day, j: PayId)
    requires ValidHistory(h) && Newest(h, id) && j in h
    ensures h[id := pay][j] == h[j]
    ensures Started(h[id := pay], day, j) <==> Started(h, day, j) && Some(j) != pay.corrects
  {
    CorrectedAfter(h, id, pay);
  }

  lemma StillStands(h: History, id: PayId, pay: Pay, user: UserId, day: Day, was: PayId)
    requires ValidHistory(h) && Newest(h, id) && PayAt(h, user, day) == Some(was) && Some(was) != pay.corrects
    requires PayAt(h[id := pay], user, day) != Some(id)
    ensures PayAt(h[id := pay], user, day) == Some(was)
  {
    var h' := h[id := pay];
    PayAtLeads(h, user, day, was);
    StartedAfter(h, id, pay, day, was);
    PaidWhenStarted(h', user, day);
    var k := PayAt(h', user, day).value;
    PayAtLeads(h', user, day, k);
    StartedAfter(h, id, pay, day, k);
  }

  lemma StillUnpaid(h: History, id: PayId, pay: Pay, user: UserId, day: Day)
    requires ValidHistory(h) && Newest(h, id) && PayAt(h, user, day).None?
    requires PayAt(h[id := pay], user, day) != Some(id)
    ensures PayAt(h[id := pay], user, day).None?
  {
    var h' := h[id := pay];
    PaidWhenStarted(h, user, day);
    if PayAt(h', user, day).Some? {
      var k := PayAt(h', user, day).value;
      PayAtLeads(h', user, day, k);
      StartedAfter(h, id, pay, day, k);
    }
  }

  /** Where the new record is not the pay and its target was not, nothing changes. */
  lemma OthersStand(h: History, id: PayId, pay: Pay, user: UserId, day: Day)
    requires ValidHistory(h) && Newest(h, id)
    requires PayAt(h[id := pay], user, day) != Some(id)
    requires pay.corrects.Some? ==> PayAt(h, user, day) != pay.corrects
    ensures PayAt(h[id := pay], user, day) == PayAt(h, user, day)
  {
    match PayAt(h, user, day)
    case Some(was) => StillStands(h, id, pay, user, day, was);
    case None => StillUnpaid(h, id, pay, user, day);
  }

  /** First of the person's started live records, were `target` not among them. */
  ghost predicate LeadsWithout(h: History, user: UserId, day: Day, target: PayId, k: PayId) {
    && k != target && Started(h, day, k) && h[k].user == user
    && forall j | j in h && Started(h, day, j) && h[j].user == user && j != target && j != k ::
         Before(k, h[k], j, h[j])
  }

  lemma LeaderLeadsWithout(h: History, id: PayId, pay: Pay, user: UserId, day: Day, k: PayId)
    requires ValidHistory(h) && Newest(h, id) && pay.corrects.Some? && pay.corrects.value in h && k != id
    requires PayAt(h[id := pay], user, day) == Some(k)
    ensures LeadsWithout(h, user, day, pay.corrects.value, k)
  {
    var h' := h[id := pay];
    PayAtLeads(h', user, day, k);
    forall j | j in h { StartedAfter(h, id, pay, day, j); }
  }

  lemma NextInLineLeads(h: History, id: PayId, pay: Pay, user: UserId, day: Day, k: PayId)
    requires ValidHistory(h) && Newest(h, id) && pay.corrects.Some? && k != id
    requires pay.corrects.value in h && h[pay.corrects.value].user == pay.user && Live(h, pay.corrects.value)
    requires user == pay.user && pay.effectiveOn <= day ==> Overtaken(h, user, pay.effectiveOn, day, pay.corrects)
    requires LeadsWithout(h, user, day, pay.corrects.value, k)
    ensures PayAt(h[id := pay], user, day) == Some(k)
  {
    var h' := h[id := pay];
    PayAtLeads(h', user, day, k);
    forall j | j in h { StartedAfter(h, id, pay, day, j); }
    if user == pay.user && pay.effectiveOn <= day {
      var j :| j in h && Live(h, j) && h[j].user == user && Some(j) != pay.corrects
               && pay.effectiveOn < h[j].effectiveOn <= day;
      assert j == k || Before(k, h[k], j, h[j]);
    }
  }

  lemma NextInLine(h: History, id: PayId, pay: Pay, user: UserId, day: Day, k: PayId)
    requires ValidHistory(h) && Newest(h, id) && pay.corrects.Some? && k != id
    requires pay.corrects.value in h && h[pay.corrects.value].user == pay.user && Live(h, pay.corrects.value)
    requires PayAt(h[id := pay], user, day) != Some(id)
    ensures PayAt(h[id := pay], user, day) == Some(k) <==> LeadsWithout(h, user, day, pay.corrects.value, k)
  {
    NewRecordWins(h, id, pay, user, day, pay.corrects);
    if PayAt(h[id := pay], user, day) == Some(k) {
      LeaderLeadsWithout(h, id, pay, user, day, k);
    } else if LeadsWithout(h, user, day, pay.corrects.value, k) {
      NextInLineLeads(h, id, pay, user, day, k);
    }
  }

  /**
   * A correction: it is the pay where it has started and nothing else live
   * overtakes it, and elsewhere the pay is whichever of the person's records
   * comes first without its target. So only days its target was the pay of can
   * lose it, and nothing changes before the earlier of the two dates.
   */
  lemma CorrectionIsLocal(h: History, id: PayId, pay: Pay, user: UserId, day: Day)
    requires ValidHistory(h) && Newest(h, id) && pay.corrects.Some?
    requires pay.corrects.value in h && h[pay.corrects.value].user == pay.user && Live(h, pay.corrects.value)
    ensures var target := pay.corrects;
            var after := PayAt(h[id := pay], user, day);
            && (after == Some(id) <==>
                  user == pay.user && pay.effectiveOn <= day && !Overtaken(h, user, pay.effectiveOn, day, target))
            && (forall k | k != id ::
                  after == Some(k) <==> after != Some(id) && LeadsWithout(h, user, day, target.value, k))
            && (after != Some(id) && PayAt(h, user, day) != target ==> after == PayAt(h, user, day))
            && (day < pay.effectiveOn && day < h[target.value].effectiveOn ==> after == PayAt(h, user, day))
  {
    NewRecordWins(h, id, pay, user, day, pay.corrects);
    var after := PayAt(h[id := pay], user, day);
    forall k | k != id
      ensures after == Some(k) <==> after != Some(id) && LeadsWithout(h, user, day, pay.corrects.value, k)
    {
      if after != Some(id) { NextInLine(h, id, pay, user, day, k); }
    }
    CorrectedDaysOnly(h, id, pay, user, day);
  }

  lemma CorrectedDaysOnly(h: History, id: PayId, pay: Pay, user: UserId, day: Day)
    requires ValidHistory(h) && Newest(h, id) && pay.corrects.Some?
    requires pay.corrects.value in h && h[pay.corrects.value].user == pay.user && Live(h, pay.corrects.value)
    ensures var after := PayAt(h[id := pay], user, day);
            && (after != Some(id) && PayAt(h, user, day) != pay.corrects ==> after == PayAt(h, user, day))
            && (day < pay.effectiveOn && day < h[pay.corrects.value].effectiveOn ==> after == PayAt(h, user, day))
  {
    PayAtLeads(h, user, day, pay.corrects.value);
    NewRecordWins(h, id, pay, user, day, pay.corrects);
    if PayAt(h[id := pay], user, day) != Some(id) && PayAt(h, user, day) != pay.corrects {
      OthersStand(h, id, pay, user, day);
    }
  }
}
