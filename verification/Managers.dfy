/**
 * Who reports to whom (lib_identity/managers.py): a bounded walk up the chain
 * refuses a link that would close a loop.
 */
module Managers {
  import opened Prelude

  type UserId = int

  datatype Account = Account(isActive: bool, manager: Option<UserId>)

  type People = map<UserId, Account>

  const MAX_CHAIN := 1000

  datatype Error = UserNotFound | ManagerDeactivated | ManagerIsSelf | ManagerCycle

  /** Managers are accounts too: the column is a foreign key. */
  ghost predicate Closed(p: People) {
    forall u | u in p && p[u].manager.Some? :: p[u].manager.value in p
  }

  /** Who is `n` links above `u`. */
  function Up(p: People, u: UserId, n: nat): Option<UserId> {
    if n == 0 then Some(u)
    else
      match Up(p, u, n - 1)
      case None => None
      case Some(v) => if v in p then p[v].manager else None
  }

  ghost predicate AncestorAt(p: People, u: UserId, above: UserId, n: nat) {
    Up(p, u, n) == Some(above)
  }

  /** `above` is over `u`, by at most `limit` links. */
  ghost predicate AncestorWithin(p: People, u: UserId, above: UserId, limit: nat) {
    exists n: nat :: 1 <= n <= limit && AncestorAt(p, u, above, n)
  }

  /** Nobody is above themselves. */
  ghost predicate Forest(p: People) {
    forall u, n: nat | n >= 1 :: !AncestorAt(p, u, u, n)
  }

  lemma {:induction false} UpAdds(p: People, u: UserId, a: nat, c: nat)
    ensures Up(p, u, a + c) == match Up(p, u, a) case None => None case Some(v) => Up(p, v, c)
    decreases c
  {
    if c > 0 {
      UpAdds(p, u, a, c - 1);
      assert a + c - 1 == a + (c - 1);
    }
  }

  lemma {:induction false} UpInside(p: People, u: UserId, n: nat)
    requires Closed(p) && u in p
    ensures Up(p, u, n).Some? ==> Up(p, u, n).value in p
  {
  }

  // --- The walk -------------------------------------------------------------------------

  /** What the walk knows after `k` links: everybody below is seen, nobody seen
    * has `person` above them by one link, and nobody was met twice. */
  ghost predicate Walked(p: People, manager: UserId, person: UserId, current: UserId, seen: set<UserId>, k: nat) {
    && Up(p, manager, k) == Some(current)
    && |seen| == k <= MAX_CHAIN
    && (forall j: nat | j < k :: Up(p, manager, j).Some? && Up(p, manager, j).value in seen)
    && (forall v | v in seen :: exists j: nat :: j < k && Up(p, manager, j) == Some(v))
    && (forall j: nat | 1 <= j <= k :: !AncestorAt(p, manager, person, j))
  }

  /** Once the walk meets somebody twice, it has met everybody above. */
  lemma {:induction false} NothingNew(p: People, manager: UserId, j: nat, k: nat, n: nat)
    requires j < k && Up(p, manager, j) == Up(p, manager, k)
    ensures exists m: nat :: m < k && Up(p, manager, n) == Up(p, manager, m)
    decreases n
  {
    if n >= k {
      UpAdds(p, manager, k, n - k);
      UpAdds(p, manager, j, n - k);
      assert Up(p, manager, n) == Up(p, manager, j + (n - k));
      NothingNew(p, manager, j, k, j + (n - k));
    }
  }

  lemma NoneAbove(p: People, manager: UserId, k: nat, n: nat)
    requires Up(p, manager, k) == None && n >= k
    ensures Up(p, manager, n) == None
  {
  }

  lemma WalkGoesRound(p: People, manager: UserId, person: UserId, current: UserId, seen: set<UserId>, k: nat)
    requires Walked(p, manager, person, current, seen, k) && current in seen && manager != person
    ensures forall n: nat :: !AncestorAt(p, manager, person, n)
  {
    var j: nat :| j < k && Up(p, manager, j) == Some(current);
    forall n: nat ensures !AncestorAt(p, manager, person, n) {
      NothingNew(p, manager, j, k, n);
      var m: nat :| m < k && Up(p, manager, n) == Up(p, manager, m);
      assert m >= 1 ==> !AncestorAt(p, manager, person, m);
    }
  }

  /**
   * The walk refuses exactly a person who is the manager or is above them by
   * at most 1000 links, on every graph, looping ones included.
   */
  method AssertCanReportTo(p: People, person: UserId, manager: UserId) returns (refusal: Option<Error>)
    requires Closed(p) && manager in p
    ensures refusal == Some(ManagerIsSelf) <==> person == manager
    ensures refusal == Some(ManagerCycle) <==> person != manager && AncestorWithin(p, manager, person, MAX_CHAIN)
    ensures refusal in {None, Some(ManagerIsSelf), Some(ManagerCycle)}
  {
    if manager == person { return Some(ManagerIsSelf); }
    var current := manager;
    var seen: set<UserId> := {};
    while p[current].manager.Some? && |seen| < MAX_CHAIN
      invariant current in p && Walked(p, manager, person, current, seen, |seen|)
      decreases MAX_CHAIN - |seen|
    {
      ghost var k := |seen|;
      if p[current].manager == Some(person) {
        assert AncestorAt(p, manager, person, k + 1);
        return Some(ManagerCycle);
      }
      if current in seen {
        WalkGoesRound(p, manager, person, current, seen, k);
        return None;
      }
      seen := seen + {current};
      current := p[current].manager.value;
      assert Up(p, manager, k + 1) == Some(current);
    }
    refusal := None;
    WalkedEnough(p, manager, person, current, seen);
  }

  lemma WalkedEnough(p: People, manager: UserId, person: UserId, current: UserId, seen: set<UserId>)
    requires current in p && Walked(p, manager, person, current, seen, |seen|)
    requires p[current].manager.None? || |seen| == MAX_CHAIN
    ensures !AncestorWithin(p, manager, person, MAX_CHAIN)
  {
    var k := |seen|;
    forall n: nat | 1 <= n <= MAX_CHAIN ensures !AncestorAt(p, manager, person, n) {
      if n > k { NoneAbove(p, manager, k + 1, n); }
    }
  }

  // --- The link -------------------------------------------------------------------------

  function Linked(p: People, person: UserId, manager: Option<UserId>): People
    requires person in p
  {
    p[person := p[person].(manager := manager)]
  }

  /** Up to `person`, a new link changes nothing. */
  lemma {:induction false} SameUntil(p: People, person: UserId, manager: Option<UserId>, u: UserId, n: nat)
    requires person in p && forall k: nat | k < n :: Up(p, u, k) != Some(person)
    ensures Up(p, u, n) == Up(Linked(p, person, manager), u, n)
  {
    if n > 0 { SameUntil(p, person, manager, u, n - 1); }
  }

  /** Linked back as they were, they are as they were. */
  lemma LinkedBack(p: People, person: UserId, manager: Option<UserId>)
    requires person in p
    ensures Linked(Linked(p, person, manager), person, p[person].manager) == p
  {
  }

  lemma {:induction false} FirstReach(p: People, u: UserId, person: UserId, n: nat) returns (m: nat)
    requires AncestorAt(p, u, person, n)
    ensures m <= n && AncestorAt(p, u, person, m) && forall k: nat | k < m :: Up(p, u, k) != Some(person)
  {
    if j: nat :| j < n && AncestorAt(p, u, person, j) {
      m := FirstReach(p, u, person, j);
    } else {
      m := n;
      forall k: nat | k < m ensures Up(p, u, k) != Some(person) { assert !AncestorAt(p, u, person, k); }
    }
  }

  /** A new loop goes through the new link, so the manager was already below the person. */
  lemma LoopNeedsAncestor(p: People, person: UserId, manager: UserId, u: UserId, n: nat) returns (m: nat)
    requires Forest(p) && person in p && n >= 1
    requires AncestorAt(Linked(p, person, Some(manager)), u, u, n)
    ensures AncestorAt(p, manager, person, m)
  {
    var q := Linked(p, person, Some(manager));
    LinkedBack(p, person, Some(manager));
    if j: nat :| j < n && AncestorAt(q, u, person, j) {
      UpAdds(q, u, j, n);
      UpAdds(q, u, n, j);
      assert j + n == n + j;
      assert Up(q, person, n) == Some(person);
      UpAdds(q, person, 1, n - 1);
      assert Up(q, person, 1) == Some(manager) by { assert Up(q, person, 0) == Some(person); }
      m := FirstReach(q, manager, person, n - 1);
      SameUntil(q, person, p[person].manager, manager, m);
    } else {
      assert !AncestorAt(p, u, u, n);
      forall k: nat | k < n ensures Up(q, u, k) != Some(person) { assert !AncestorAt(q, u, person, k); }
      SameUntil(q, person, p[person].manager, u, n);
      assert false;
    }
  }

  /** A person already above their new manager closes a loop. */
  lemma AncestorClosesLoop(p: People, person: UserId, manager: UserId, n: nat)
    requires person in p && AncestorAt(p, manager, person, n)
    ensures !Forest(Linked(p, person, Some(manager)))
  {
    var q := Linked(p, person, Some(manager));
    var m := FirstReach(p, manager, person, n);
    SameUntil(p, person, Some(manager), manager, m);
    UpAdds(q, person, 1, m);
    assert Up(q, person, 1) == Some(manager) by { assert Up(q, person, 0) == Some(person); }
    assert AncestorAt(q, person, person, 1 + m);
  }

  /** Exactly when a new link keeps the forest: the person is nowhere above the manager. */
  lemma LinkKeepsForestExactlyWhen(p: People, person: UserId, manager: UserId)
    requires Forest(p) && person in p
    ensures Forest(Linked(p, person, Some(manager))) <==> forall n: nat :: !AncestorAt(p, manager, person, n)
  {
    if n: nat :| AncestorAt(p, manager, person, n) {
      AncestorClosesLoop(p, person, manager, n);
    } else if u, n: nat :| n >= 1 && AncestorAt(Linked(p, person, Some(manager)), u, u, n) {
      var m := LoopNeedsAncestor(p, person, manager, u, n);
      assert false;
    }
  }

  lemma {:induction false} UnlinkKeepsForest(p: People, person: UserId)
    requires Forest(p) && person in p
    ensures Forest(Linked(p, person, None))
  {
    var q := Linked(p, person, None);
    forall u, n: nat | n >= 1 ensures !AncestorAt(q, u, u, n) {
      assert !AncestorAt(p, u, u, n);
      if AncestorAt(q, u, u, n) {
        StepsUnlinked(p, person, u, n);
        assert false;
      }
    }
  }

  /** A chain that survives the unlinking was the same before. */
  lemma {:induction false} StepsUnlinked(p: People, person: UserId, u: UserId, n: nat)
    requires person in p && Up(Linked(p, person, None), u, n).Some?
    ensures Up(p, u, n) == Up(Linked(p, person, None), u, n)
  {
    if n > 0 { StepsUnlinked(p, person, u, n - 1); }
  }

  // --- Setting a manager ---------------------------------------------------------------------

  datatype Answer = Done(people: People) | Refused(error: Error)

  /** `set_manager`, with the refusals in the order it makes them. */
  ghost function SetManagerSpec(p: People, person: UserId, to: Option<UserId>): Answer
    requires person in p
  {
    match to
    case None => Done(Linked(p, person, None))
    case Some(manager) =>
      if to == p[person].manager then Done(p)
      else if manager !in p then Refused(UserNotFound)
      else if manager != person && !p[manager].isActive then Refused(ManagerDeactivated)
      else if manager == person then Refused(ManagerIsSelf)
      else if AncestorWithin(p, manager, person, MAX_CHAIN) then Refused(ManagerCycle)
      else Done(Linked(p, person, to))
  }

  class Directory {
    var people: People

    constructor ()
      ensures people == map[]
    {
      people := map[];
    }

    method SetManager(person: UserId, to: Option<UserId>) returns (outcome: Outcome<Error>)
      requires Closed(people) && person in people
      modifies this
      ensures Closed(people)
      ensures match SetManagerSpec(old(people), person, to)
              case Done(p) => outcome == Ok && people == p
              case Refused(error) => outcome == Err(error) && people == old(people)
    {
      if to.None? {
        people := Linked(people, person, None);
        return Ok;
      }
      if to == people[person].manager { return Ok; }
      var manager := to.value;
      if manager !in people { return Err(UserNotFound); }
      if manager != person && !people[manager].isActive { return Err(ManagerDeactivated); }
      var refusal := AssertCanReportTo(people, person, manager);
      if refusal.Some? { return Err(refusal.value); }
      people := Linked(people, person, Some(manager));
      outcome := Ok;
    }
  }

  // --- Every reachable directory is a forest ----------------------------------------------------

  /** Chains are too short for the walk to give up on one. */
  ghost predicate ShortChains(p: People) {
    forall u, v, n: nat | u in p && AncestorAt(p, u, v, n) :: n <= MAX_CHAIN
  }

  /** While no chain is longer than 1000 links, a manager is refused exactly when
    * it is the person or the person is anywhere above it, and so no link that is
    * made closes a loop. */
  lemma RefusesExactlyLoops(p: People, person: UserId, manager: UserId)
    requires Forest(p) && ShortChains(p) && person in p && manager in p
    requires p[manager].isActive && p[person].manager != Some(manager)
    ensures SetManagerSpec(p, person, Some(manager)).Refused? <==> exists n: nat :: AncestorAt(p, manager, person, n)
    ensures SetManagerSpec(p, person, Some(manager)).Done? <==> Forest(Linked(p, person, Some(manager)))
  {
    LinkKeepsForestExactlyWhen(p, person, manager);
    if n: nat :| AncestorAt(p, manager, person, n) {
      assert n <= MAX_CHAIN;
      assert n == 0 ==> manager == person;
    }
    assert person == manager ==> AncestorAt(p, manager, person, 0);
  }

  lemma LevelsDiffer(p: People, u: UserId, j: nat, k: nat)
    requires Forest(p) && j < k && Up(p, u, k).Some?
    ensures Up(p, u, j).Some? && Up(p, u, j) != Up(p, u, k)
  {
    UpAdds(p, u, j, k - j);
    var v := Up(p, u, j).value;
    assert !AncestorAt(p, v, v, k - j);
  }

  /** Everybody on the way up. */
  ghost function Chain(p: People, u: UserId, n: nat): set<UserId> {
    if n == 0 then {u} else Chain(p, u, n - 1) + (match Up(p, u, n) case None => {} case Some(v) => {v})
  }

  lemma {:induction false} InChain(p: People, u: UserId, n: nat, v: UserId) returns (j: nat)
    requires v in Chain(p, u, n)
    ensures j <= n && Up(p, u, j) == Some(v)
  {
    if Up(p, u, n) == Some(v) {
      j := n;
    } else {
      j := InChain(p, u, n - 1, v);
    }
  }

  lemma {:induction false} ChainGrows(p: People, u: UserId, n: nat)
    requires Forest(p) && Closed(p) && u in p && Up(p, u, n).Some?
    ensures |Chain(p, u, n)| == n + 1 && Chain(p, u, n) <= p.Keys
  {
    if n == 0 {
      assert Up(p, u, 0) == Some(u);
    } else {
      var above := Up(p, u, n).value;
      LevelsDiffer(p, u, n - 1, n);
      ChainGrows(p, u, n - 1);
      UpInside(p, u, n);
      if above in Chain(p, u, n - 1) {
        var j := InChain(p, u, n - 1, above);
        LevelsDiffer(p, u, j, n);
      }
    }
  }

  /** A forest's chains are shorter than it has accounts. */
  lemma ChainsAreShort(p: People)
    requires Forest(p) && Closed(p) && |p| <= MAX_CHAIN + 1
    ensures ShortChains(p)
  {
    forall u, v, n: nat | u in p && AncestorAt(p, u, v, n) ensures n <= MAX_CHAIN {
      ChainGrows(p, u, n);
      SubsetIsSmaller(Chain(p, u, n), p.Keys);
    }
  }

  datatype Event =
    | Registers(user: UserId, isActive: bool)
    | SetsActive(user: UserId, active: bool)
    | SetsManager(user: UserId, to: Option<UserId>)

  /** A request about an account that is not there changes nothing. */
  ghost function Next(p: People, e: Event): People {
    match e
    case Registers(u, active) => if u in p then p else p[u := Account(active, None)]
    case SetsActive(u, active) => if u in p then p[u := p[u].(isActive := active)] else p
    case SetsManager(u, to) =>
      if u !in p then p
      else match SetManagerSpec(p, u, to) case Done(after) => after case Refused(_) => p
  }

  ghost function After(p: People, events: seq<Event>): People
    decreases |events|
  {
    if events == [] then p else After(Next(p, events[0]), events[1..])
  }

  /** The same links among the same accounts. */
  lemma {:induction false} SameLinks(p: People, q: People, u: UserId, n: nat)
    requires forall v :: (if v in p then p[v].manager else None) == (if v in q then q[v].manager else None)
    ensures Up(p, u, n) == Up(q, u, n)
  {
    if n > 0 { SameLinks(p, q, u, n - 1); }
  }

  lemma SameLinksForest(p: People, q: People)
    requires Forest(p) && forall v :: (if v in p then p[v].manager else None) == (if v in q then q[v].manager else None)
    ensures Forest(q)
  {
    forall u, n: nat | n >= 1 ensures !AncestorAt(q, u, u, n) {
      SameLinks(p, q, u, n);
      assert !AncestorAt(p, u, u, n);
    }
  }

  /** On any forest: a link that is made keeps it exactly when the person is not
    * more than 1000 links above the manager. */
  lemma MadeLinkKeepsForestExactlyWhen(p: People, person: UserId, manager: UserId)
    requires Forest(p) && person in p && p[person].manager != Some(manager)
    requires SetManagerSpec(p, person, Some(manager)).Done?
    ensures Forest(Linked(p, person, Some(manager))) <==>
            forall n: nat | n > MAX_CHAIN :: !AncestorAt(p, manager, person, n)
  {
    LinkKeepsForestExactlyWhen(p, person, manager);
    forall n: nat | n <= MAX_CHAIN ensures !AncestorAt(p, manager, person, n) {
      assert n == 0 ==> Up(p, manager, 0) == Some(manager);
    }
  }

  /** A link the walk is too short to refuse: to an active account, which the person
    * is more than 1000 links above. */
  ghost predicate TooTall(p: People, e: Event) {
    && e.SetsManager? && e.user in p && e.to.Some? && e.to != p[e.user].manager
    && e.to.value in p && p[e.to.value].isActive
    && exists n: nat :: n > MAX_CHAIN && AncestorAt(p, e.to.value, e.user, n)
  }

  /** In a forest nobody is above somebody at two heights. */
  lemma AboveOnce(p: People, u: UserId, above: UserId, m: nat, n: nat)
    requires Forest(p) && m < n && AncestorAt(p, u, above, m)
    ensures !AncestorAt(p, u, above, n)
  {
    UpAdds(p, u, m, n - m);
    assert !AncestorAt(p, above, above, n - m);
  }

  /** So the walk does not meet them, and the link is made. */
  lemma TooTallIsMade(p: People, e: Event)
    requires Forest(p) && TooTall(p, e)
    ensures SetManagerSpec(p, e.user, e.to).Done?
  {
    var manager, person := e.to.value, e.user;
    var n: nat :| n > MAX_CHAIN && AncestorAt(p, manager, person, n);
    forall m: nat | m <= MAX_CHAIN ensures !AncestorAt(p, manager, person, m) {
      if AncestorAt(p, manager, person, m) { AboveOnce(p, manager, person, m, n); }
    }
    assert Up(p, manager, 0) == Some(manager);
    assert !AncestorAt(p, manager, person, 0);
  }

  /** A request keeps the forest if and only if it is no such link. */
  lemma StepKeepsForestExactlyWhen(p: People, e: Event)
    requires Forest(p) && Closed(p)
    ensures Closed(Next(p, e)) && (Forest(Next(p, e)) <==> !TooTall(p, e))
  {
    if TooTall(p, e) { TooTallIsMade(p, e); }
    match e
    case Registers(u, active) => SameLinksForest(p, Next(p, e));
    case SetsActive(u, active) => SameLinksForest(p, Next(p, e));
    case SetsManager(u, to) =>
      if u in p && to.None? {
        UnlinkKeepsForest(p, u);
      } else if u in p && SetManagerSpec(p, u, to).Done? && to != p[u].manager {
        MadeLinkKeepsForestExactlyWhen(p, u, to.value);
      }
  }

  ghost predicate TooTallAlong(p: People, events: seq<Event>)
    decreases |events|
  {
    events != [] && (TooTall(p, events[0]) || TooTallAlong(Next(p, events[0]), events[1..]))
  }

  ghost predicate ForestAlong(p: People, events: seq<Event>)
    decreases |events|
  {
    Forest(p) && (events == [] || ForestAlong(Next(p, events[0]), events[1..]))
  }

  /** Over any run of requests: nobody is ever above themselves, in any state on the
    * way, if and only if no request links somebody under a manager more than 1000
    * links below them. */
  lemma {:induction false} ForestExactlyWhen(p: People, events: seq<Event>)
    requires Forest(p) && Closed(p)
    ensures ForestAlong(p, events) <==> !TooTallAlong(p, events)
    decreases |events|
  {
    if events != [] {
      StepKeepsForestExactlyWhen(p, events[0]);
      if !TooTall(p, events[0]) { ForestExactlyWhen(Next(p, events[0]), events[1..]); }
    }
  }

  /** No chain is longer than 1000 links when a request comes. */
  ghost predicate ShortAlong(p: People, events: seq<Event>)
    decreases |events|
  {
    events == [] || (ShortChains(p) && ShortAlong(Next(p, events[0]), events[1..]))
  }

  /** So while no chain is longer than 1000 links, however many accounts there are
    * and whatever is asked, nobody is above themselves. */
  lemma {:induction false} ReachableIsForest(p: People, events: seq<Event>)
    requires Forest(p) && Closed(p) && ShortAlong(p, events)
    ensures Forest(After(p, events)) && Closed(After(p, events))
    decreases |events|
  {
    if events != [] {
      StepKeepsForestExactlyWhen(p, events[0]);
      assert !TooTall(p, events[0]) by { ShortIsNotTooTall(p, events[0]); }
      ReachableIsForest(Next(p, events[0]), events[1..]);
    }
  }

  lemma ShortIsNotTooTall(p: People, e: Event)
    requires ShortChains(p)
    ensures !TooTall(p, e)
  {
  }

  lemma {:induction false} AccountsStay(p: People, events: seq<Event>)
    ensures |p| <= |After(p, events)|
    decreases |events|
  {
    if events != [] {
      AccountStays(p, events[0]);
      AccountsStay(Next(p, events[0]), events[1..]);
    }
  }

  lemma AccountStays(p: People, e: Event)
    ensures |p| <= |Next(p, e)|
  {
  }

  /** And so whatever is asked, in any order, while there are at most 1001 accounts. */
  lemma {:induction false} FewAccountsStayAForest(p: People, events: seq<Event>)
    requires Forest(p) && Closed(p) && |After(p, events)| <= MAX_CHAIN + 1
    ensures ShortAlong(p, events) && Forest(After(p, events))
    decreases |events|
  {
    if events != [] {
      AccountsStay(p, events);
      ChainsAreShort(p);
      ShortIsNotTooTall(p, events[0]);
      StepKeepsForestExactlyWhen(p, events[0]);
      FewAccountsStayAForest(Next(p, events[0]), events[1..]);
    }
  }

  // --- Beyond 1000 links --------------------------------------------------------------------------

  function ReportsToNext(u: UserId): Account {
    Account(true, if u <= MAX_CHAIN then Some(u + 1) else None)
  }

  /** The accounts from `k` to 1001, each reporting to the next. */
  function Line(k: nat): People {
    map u: UserId | k <= u <= MAX_CHAIN + 1 :: ReportsToNext(u)
  }

  lemma {:induction false} LineUp(n: nat)
    requires n <= MAX_CHAIN + 1
    ensures Up(Line(0), 0, n) == Some(n)
  {
    if n > 0 { LineUp(n - 1); }
  }

  /** From the top down: everybody registers and is put under the one before. */
  function Building(k: nat): seq<Event>
    decreases MAX_CHAIN + 2 - k
  {
    if k > MAX_CHAIN + 1 then []
    else Building(k + 1) + [Registers(k, true)] + [SetsManager(k, if k <= MAX_CHAIN then Some(k + 1) else None)]
  }

  lemma {:induction false} OneMoreStep(p: People, events: seq<Event>, e: Event)
    ensures After(p, events + [e]) == Next(After(p, events), e)
    decreases |events|
  {
    if events == [] {
      assert events + [e] == [e];
      assert [e][1..] == [];
    } else {
      assert (events + [e])[1..] == events[1..] + [e];
      OneMoreStep(Next(p, events[0]), events[1..], e);
    }
  }

  /** Somebody nobody reports to is above nobody. */
  lemma NobodysManager(p: People, u: UserId, above: UserId)
    requires forall v | v in p :: p[v].manager != Some(above)
    ensures forall n: nat | n >= 1 :: !AncestorAt(p, u, above, n)
  {
  }

  lemma LineExtends(k: nat)
    requires k <= MAX_CHAIN + 1
    ensures var one := Registers(k, true);
            var two := SetsManager(k, if k <= MAX_CHAIN then Some(k + 1) else None);
            Next(Next(Line(k + 1), one), two) == Line(k)
  {
    var p := Next(Line(k + 1), Registers(k, true));
    assert p == Line(k + 1)[k := Account(true, None)];
    if k <= MAX_CHAIN {
      NobodysManager(p, k + 1, k);
      assert SetManagerSpec(p, k, Some(k + 1)) == Done(Linked(p, k, Some(k + 1)));
    }
  }

  lemma {:induction false} LineIsReached(k: nat)
    requires k <= MAX_CHAIN + 2
    ensures After(map[], Building(k)) == Line(k)
    decreases MAX_CHAIN + 2 - k
  {
    if k <= MAX_CHAIN + 1 {
      var one := Registers(k, true);
      LineIsReached(k + 1);
      OneMoreStep(map[], Building(k + 1), one);
      OneMoreStep(map[], Building(k + 1) + [one], SetsManager(k, if k <= MAX_CHAIN then Some(k + 1) else None));
      LineExtends(k);
    }
  }

  lemma TheTopIsTooFar()
    ensures SetManagerSpec(Line(0), MAX_CHAIN + 1, Some(0)).Done?
  {
    forall n: nat | n <= MAX_CHAIN + 1 ensures Up(Line(0), 0, n) == Some(n) { LineUp(n); }
  }

  lemma TheLoopIsClosed()
    ensures !Forest(Linked(Line(0), MAX_CHAIN + 1, Some(0)))
  {
    LineUp(MAX_CHAIN + 1);
    AncestorClosesLoop(Line(0), MAX_CHAIN + 1, 0, MAX_CHAIN + 1);
  }

  /** A line of 1002 accounts is reached by a run of requests; there the walk gives
    * up below the top, and the loop is closed. */
  lemma TooTallToRefuse()
    ensures After(map[], Building(0)) == Line(0)
    ensures SetManagerSpec(Line(0), MAX_CHAIN + 1, Some(0)).Done?
    ensures !Forest(Linked(Line(0), MAX_CHAIN + 1, Some(0)))
  {
    LineIsReached(0);
    TheTopIsTooFar();
    TheLoopIsClosed();
  }
}
