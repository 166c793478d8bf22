/**
 * Runs of delivery loops that get in each other's way: one that sends a delivery
 * again after it succeeded, and for every number of loops one that sends a
 * delivery as often as `OverlapBound` says they can.
 */
module OverlapRuns {
  import opened Prelude
  import opened Outbound
  import opened Overlaps
  import opened OverlapBound

  // --- Runs end to end ----------------------------------------------------------------------

  lemma OneStep(o: Outbox, e: Event, d: DeliveryId)
    requires Admissible(o, e)
    ensures AllAdmissible(o, [e]) && After(o, [e]) == Step(o, e)
    ensures Tries(o, [e], d) == (if Sends(o, e, d) then 1 else 0)
    ensures Interruptions(o, [e], d) == (if Interrupts(o, e, d) then 1 else 0)
  {
    FirstStep(o, e, []);
    assert [e] + [] == [e] && [e][1..] == [];
  }

  lemma {:induction false} RunsOn(o: Outbox, a: seq<Event>, b: seq<Event>, d: DeliveryId)
    requires AllAdmissible(o, a) && AllAdmissible(After(o, a), b)
    ensures AllAdmissible(o, a + b) && After(o, a + b) == After(After(o, a), b)
    ensures Tries(o, a + b, d) == Tries(o, a, d) + Tries(After(o, a), b, d)
    ensures Interruptions(o, a + b, d) == Interruptions(o, a, d) + Interruptions(After(o, a), b, d)
    decreases |a|
  {
    if a == [] {
      assert a + b == b;
    } else {
      RunsOn(Step(o, a[0]), a[1..], b, d);
      assert (a + b)[1..] == a[1..] + b;
    }
  }

  /** The start of a tick sends nothing and interrupts nothing. */
  lemma TickTries(o: Outbox, w: WorkerId, rest: seq<Event>, d: DeliveryId)
    requires Admissible(o, Selects(w)) && AllAdmissible(Claim(Select(o, w), w), rest)
    ensures var events, claimed := [Selects(w), Claims(w), Wait(0)] + rest, Claim(Select(o, w), w);
            && AllAdmissible(o, events) && After(o, events) == After(claimed, rest)
            && Tries(o, events, d) == Tries(claimed, rest, d)
            && Interruptions(o, events, d) == Interruptions(claimed, rest, d)
  {
    var selected, claimed := Select(o, w), Claim(Select(o, w), w);
    assert claimed.(now := claimed.now + 0) == claimed;
    OneStep(o, Selects(w), d);
    OneStep(selected, Claims(w), d);
    OneStep(claimed, Wait(0), d);
    RunsOn(claimed, [Wait(0)], rest, d);
    RunsOn(selected, [Claims(w)], [Wait(0)] + rest, d);
    RunsOn(o, [Selects(w)], [Claims(w)] + ([Wait(0)] + rest), d);
    assert [Selects(w), Claims(w), Wait(0)] + rest == [Selects(w)] + ([Claims(w)] + ([Wait(0)] + rest));
  }

  // --- Sent again after it succeeded -----------------------------------------------------------

  /** Two loops select the same row; the second sends it well, and then the first
    * claims it, and can send it again. */
  function Overlap(a: WorkerId, b: WorkerId, d: DeliveryId): seq<Event> {
    [Selects(a)] + ([Selects(b), Claims(b), Wait(0)] + ([Reads(b, d), Writes(b, true)] + [Claims(a)]))
  }

  /** The second loop's part, the first having only selected. */
  lemma SecondLoopSends(o: Outbox, b: WorkerId, d: DeliveryId)
    requires Ready(o, b, d) && o.deliveries[d].attempts == 0
    ensures var sent := Write(Read(Claim(Select(o, b), b), b, d), b, true);
            && d in sent.deliveries && CanSend(sent, sent.deliveries[d])
            && sent.deliveries[d].status == Succeeded && sent.deliveries[d].attempts == 1
            && sent.deliveries[d].claimedUntil == None
            && (forall v | v != b :: WorkerOf(sent, v) == WorkerOf(o, v))
  {
    var claimed := Claim(Select(o, b), b);
    assert d in Claimed(Select(o, b), b);
    var row := claimed.deliveries[d];
    SavedUndisturbed(row, Tried(row, true, o.now));
  }

  lemma SelectedAside(o: Outbox, a: WorkerId, b: WorkerId, d: DeliveryId)
    requires Ready(o, a, d) && Ready(o, b, d) && a != b
    ensures Ready(Select(o, a), b, d)
    ensures WorkerOf(Select(o, a), a) == Worker(o.now, Due(o), {}, None)
  {
    SelectKeeps(o, a);
  }

  /** The row succeeded at the first try, and this loop is about to send it again. */
  ghost predicate SendsAgain(o: Outbox, w: WorkerId, d: DeliveryId) {
    && d in o.deliveries && o.deliveries[d].status == Succeeded && o.deliveries[d].attempts == 1
    && WorkerOf(o, w).trying.None? && Sends(o, Reads(w, d), d)
  }

  lemma OverlapEnds(o: Outbox, a: WorkerId, b: WorkerId, d: DeliveryId)
    requires Ready(o, a, d) && Ready(o, b, d) && a != b && o.deliveries[d].attempts == 0
    ensures var first := Select(o, a);
            SendsAgain(Claim(Write(Read(Claim(Select(first, b), b), b, d), b, true), a), a, d)
  {
    var first := Select(o, a);
    SelectedAside(o, a, b, d);
    SecondLoopSends(first, b, d);
    assert d in Claimed(Write(Read(Claim(Select(first, b), b), b, d), b, true), a);
  }

  /** A try of the second loop, and then the first one's claim. */
  lemma TryThenClaim(claimed: Outbox, a: WorkerId, b: WorkerId, d: DeliveryId)
    requires a != b && WorkerOf(claimed, b).trying.None?
    requires WorkerOf(claimed, a).taken == {} && WorkerOf(claimed, a).trying.None?
    ensures var events := [Reads(b, d), Writes(b, true)] + [Claims(a)];
            && AllAdmissible(claimed, events)
            && After(claimed, events) == Claim(Write(Read(claimed, b, d), b, true), a)
  {
    var sent := Write(Read(claimed, b, d), b, true);
    assert WorkerOf(sent, a) == WorkerOf(claimed, a);
    OneStep(sent, Claims(a), d);
    TryRuns(claimed, b, d, true);
    RunsOn(claimed, [Reads(b, d), Writes(b, true)], [Claims(a)], d);
  }

  lemma OverlapGoesOn(first: Outbox, a: WorkerId, b: WorkerId, d: DeliveryId)
    requires Admissible(first, Selects(b)) && a != b
    requires WorkerOf(first, a).taken == {} && WorkerOf(first, a).trying.None?
    ensures var events := [Selects(b), Claims(b), Wait(0)] + ([Reads(b, d), Writes(b, true)] + [Claims(a)]);
            && AllAdmissible(first, events)
            && After(first, events) == Claim(Write(Read(Claim(Select(first, b), b), b, d), b, true), a)
  {
    var claimed := Claim(Select(first, b), b);
    TryThenClaim(claimed, a, b, d);
    TickTries(first, b, [Reads(b, d), Writes(b, true)] + [Claims(a)], d);
  }

  lemma OverlapRun(o: Outbox, a: WorkerId, b: WorkerId, d: DeliveryId)
    requires Ready(o, a, d) && Ready(o, b, d) && a != b && o.deliveries[d].attempts == 0
    ensures AllAdmissible(o, Overlap(a, b, d)) && SendsAgain(After(o, Overlap(a, b, d)), a, d)
  {
    SelectedAside(o, a, b, d);
    OverlapGoesOn(Select(o, a), a, b, d);
    FirstStep(o, Selects(a), [Selects(b), Claims(b), Wait(0)] + ([Reads(b, d), Writes(b, true)] + [Claims(a)]));
    OverlapEnds(o, a, b, d);
  }

  /** So with two loops a delivery that succeeded can be sent once more. */
  lemma SentAfterItSucceeded()
    ensures AllAdmissible(EMPTY, OPENING)
    ensures var o := After(EMPTY, OPENING);
            && AllAdmissible(o, Overlap(1, 2, 1))
            && var again := After(o, Overlap(1, 2, 1));
            && 1 in again.deliveries && again.deliveries[1].status == Succeeded
            && Sends(again, Reads(1, 1), 1)
  {
    Opens();
    var o := After(EMPTY, OPENING);
    JustOpenedIsReady(o, 1);
    JustOpenedIsReady(o, 2);
    OverlapRun(o, 1, 2, 1);
  }

  lemma FailsThen(o: Outbox, w: WorkerId, d: DeliveryId)
    requires SendsAgain(o, w, d)
    ensures var after := Write(Read(o, w, d), w, false);
            && d in after.deliveries && after.deliveries[d].status == Succeeded && after.deliveries[d].nextAt.Some?
  {
    var row := o.deliveries[d];
    SavedUndisturbed(row, Tried(row, false, WorkerOf(o, w).at));
  }

  /** And if that fails, the delivery has succeeded and has a time for a next try. */
  lemma DoneWithATimeIsReached()
    ensures AllAdmissible(EMPTY, OPENING)
    ensures var o, events := After(EMPTY, OPENING), Overlap(1, 2, 1) + [Reads(1, 1), Writes(1, false)];
            && AllAdmissible(o, events) && !RestsAlong(o, events, 1)
            && 1 in After(o, events).deliveries
            && After(o, events).deliveries[1].status == Succeeded && After(o, events).deliveries[1].nextAt.Some?
  {
    Opens();
    var o, end := After(EMPTY, OPENING), [Reads(1, 1), Writes(1, false)];
    JustOpenedIsReady(o, 1);
    JustOpenedIsReady(o, 2);
    OverlapRun(o, 1, 2, 1);
    var again := After(o, Overlap(1, 2, 1));
    FailsThen(again, 1, 1);
    TryRuns(again, 1, 1, false);
    RunsOn(o, Overlap(1, 2, 1), end, 1);
    if RestsAlong(o, Overlap(1, 2, 1) + end, 1) { RestsAtTheEnd(o, Overlap(1, 2, 1) + end, 1); }
  }

  lemma {:induction false} RestsAtTheEnd(o: Outbox, events: seq<Event>, d: DeliveryId)
    requires AllAdmissible(o, events) && RestsAlong(o, events, d)
    ensures Rests(After(o, events), d)
    decreases |events|
  {
    if events != [] { RestsAtTheEnd(Step(o, events[0]), events[1..], d); }
  }

  // --- A game of loops ---------------------------------------------------------------------------

  /** A loop starts a try of the one delivery, or writes back that it failed. */
  datatype Move = Takes(loop: WorkerId) | Gives(loop: WorkerId)

  /** How many tries the row counts, and how many each loop trying it has read. */
  datatype Table = Table(tries: nat, held: map<WorkerId, nat>)

  predicate Legal(g: Table, m: Move) {
    match m
    case Takes(w) => w !in g.held
    case Gives(w) => w in g.held && g.held[w] + 1 < MAX_ATTEMPTS
  }

  function Moved(g: Table, m: Move): Table
    requires Legal(g, m)
  {
    match m
    case Takes(w) => g.(held := g.held[w := g.tries])
    case Gives(w) => Table(g.held[w] + 1, g.held - {w})
  }

  predicate AllLegal(g: Table, moves: seq<Move>)
    decreases |moves|
  {
    moves == [] || (Legal(g, moves[0]) && AllLegal(Moved(g, moves[0]), moves[1..]))
  }

  function Played(g: Table, moves: seq<Move>): Table
    requires AllLegal(g, moves)
    decreases |moves|
  {
    if moves == [] then g else Played(Moved(g, moves[0]), moves[1..])
  }

  function TakesIn(moves: seq<Move>): nat {
    if moves == [] then 0 else (if moves[0].Takes? then 1 else 0) + TakesIn(moves[1..])
  }

  lemma {:induction false} PlaysOn(g: Table, a: seq<Move>, b: seq<Move>)
    requires AllLegal(g, a) && AllLegal(Played(g, a), b)
    ensures AllLegal(g, a + b) && Played(g, a + b) == Played(Played(g, a), b)
    ensures TakesIn(a + b) == TakesIn(a) + TakesIn(b)
    decreases |a|
  {
    if a == [] {
      assert a + b == b;
    } else {
      PlaysOn(Moved(g, a[0]), a[1..], b);
      assert (a + b)[1..] == a[1..] + b;
    }
  }

  // --- The game is played by the loops ---------------------------------------------------------------

  /** Longer than any lease, and than any wait for a retry. */
  const LONG := 2000

  function EventsOf(m: Move): seq<Event> {
    match m
    case Takes(w) => [Wait(LONG)] + ([Selects(w), Claims(w), Wait(0)] + [Reads(w, 1)])
    case Gives(w) => [Writes(w, false)]
  }

  function Script(moves: seq<Move>): seq<Event> {
    if moves == [] then [] else EventsOf(moves[0]) + Script(moves[1..])
  }

  ghost predicate RowStands(row: Delivery, tries: nat, now: Time) {
    && row.hook == 1 && row.status == Pending && row.attempts == tries < MAX_ATTEMPTS
    && row.nextAt.Some? && row.nextAt.value <= now + 30 * 60
    && (row.claimedUntil.Some? ==> row.claimedUntil.value <= now + CLAIM_FOR)
  }

  ghost predicate LoopStands(worker: Worker, held: Option<nat>, now: Time) {
    && worker.selected == {} && worker.taken == {} && worker.at <= now
    && match held
       case None => worker.trying.None?
       case Some(read) =>
         && worker.trying.Some?
         && var t := worker.trying.value;
            t.delivery == 1 && t.canSend && t.row.hook == 1 && t.row.status == Pending && t.row.attempts == read
  }

  function HeldBy(g: Table, w: WorkerId): Option<nat> {
    if w in g.held then Some(g.held[w]) else None
  }

  /** The outbox has the one row, and its loops are as the table says. */
  ghost predicate StandsFor(o: Outbox, g: Table) {
    && 0 <= o.now && o.hooks == map[1 := Hook(1, {}, true, 0)] && o.archived == {}
    && (forall d :: d in o.deliveries <==> d == 1)
    && RowStands(o.deliveries[1], g.tries, o.now)
    && forall w :: LoopStands(WorkerOf(o, w), HeldBy(g, w), o.now)
  }

  lemma DueThen(o: Outbox, g: Table, later: Outbox)
    requires StandsFor(o, g) && later == o.(now := o.now + LONG)
    ensures Due(later) == {1} && Claimable(later.deliveries[1], later.now) && CanSend(later, later.deliveries[1])
    ensures StandsFor(later, g)
  {
    assert (set e | e in later.deliveries && IsDue(later.deliveries[e], later.now) && e < 1) == {};
  }

  /** The row is selected, claimed and read. */
  lemma TakenStands(o: Outbox, g: Table, w: WorkerId)
    requires StandsFor(o, g) && w !in g.held
    requires Due(o) == {1} && Claimable(o.deliveries[1], o.now) && CanSend(o, o.deliveries[1])
    ensures Admissible(o, Selects(w))
    ensures var claimed := Claim(Select(o, w), w);
            && WorkerOf(claimed, w).trying.None? && Sends(claimed, Reads(w, 1), 1)
            && StandsFor(Read(claimed, w, 1), Moved(g, Takes(w)))
  {
    assert LoopStands(WorkerOf(o, w), HeldBy(g, w), o.now);
    assert Claimed(Select(o, w), w) == {1};
    var read, after := Read(Claim(Select(o, w), w), w, 1), Moved(g, Takes(w));
    forall v ensures LoopStands(WorkerOf(read, v), HeldBy(after, v), read.now) {
      assert LoopStands(WorkerOf(o, v), HeldBy(g, v), o.now);
    }
  }

  lemma TakeRuns(o: Outbox, g: Table, w: WorkerId)
    requires StandsFor(o, g) && w !in g.held
    ensures AllAdmissible(o, EventsOf(Takes(w)))
    ensures StandsFor(After(o, EventsOf(Takes(w))), Moved(g, Takes(w)))
    ensures Tries(o, EventsOf(Takes(w)), 1) == 1 && Interruptions(o, EventsOf(Takes(w)), 1) == 0
  {
    var later := o.(now := o.now + LONG);
    DueThen(o, g, later);
    TakenStands(later, g, w);
    var claimed := Claim(Select(later, w), w);
    OneStep(o, Wait(LONG), 1);
    OneStep(claimed, Reads(w, 1), 1);
    TickTries(later, w, [Reads(w, 1)], 1);
    RunsOn(o, [Wait(LONG)], [Selects(w), Claims(w), Wait(0)] + [Reads(w, 1)], 1);
  }

  lemma GivenStands(o: Outbox, g: Table, w: WorkerId)
    requires StandsFor(o, g) && Legal(g, Gives(w))
    ensures StandsFor(Write(o, w, false), Moved(g, Gives(w)))
  {
    assert LoopStands(WorkerOf(o, w), HeldBy(g, w), o.now);
    var after, given := Write(o, w, false), Moved(g, Gives(w));
    var t := WorkerOf(o, w).trying.value;
    assert after.deliveries[1] == Saved(o.deliveries[1], t.row, Tried(t.row, false, WorkerOf(o, w).at));
    forall v ensures LoopStands(WorkerOf(after, v), HeldBy(given, v), after.now) {
      assert LoopStands(WorkerOf(o, v), HeldBy(g, v), o.now);
    }
  }

  lemma MoveRuns(o: Outbox, g: Table, m: Move)
    requires StandsFor(o, g) && Legal(g, m)
    ensures AllAdmissible(o, EventsOf(m)) && StandsFor(After(o, EventsOf(m)), Moved(g, m))
    ensures Tries(o, EventsOf(m), 1) == (if m.Takes? then 1 else 0) && Interruptions(o, EventsOf(m), 1) == 0
  {
    match m
    case Takes(w) => TakeRuns(o, g, w);
    case Gives(w) =>
      OneStep(o, Writes(w, false), 1);
      GivenStands(o, g, w);
  }

  /** What is played in the game is run by the loops, a try for every take. */
  lemma {:induction false} GameRuns(o: Outbox, g: Table, moves: seq<Move>)
    requires StandsFor(o, g) && AllLegal(g, moves)
    ensures AllAdmissible(o, Script(moves)) && StandsFor(After(o, Script(moves)), Played(g, moves))
    ensures Tries(o, Script(moves), 1) == TakesIn(moves) && Interruptions(o, Script(moves), 1) == 0
    decreases |moves|
  {
    if moves != [] {
      MoveRuns(o, g, moves[0]);
      GameRuns(After(o, EventsOf(moves[0])), Moved(g, moves[0]), moves[1..]);
      RunsOn(o, EventsOf(moves[0]), Script(moves[1..]), 1);
    }
  }

  // --- The best play -----------------------------------------------------------------------------------

  function TakeAll(i: nat, n: nat): seq<Move>
    requires i <= n
    decreases n - i
  {
    if i == n then [] else [Takes(i)] + TakeAll(i + 1, n)
  }

  /** With `left` tries left all `n` start one; then one after another writes back,
    * and after each those that have play on with one try fewer. */
  function Rounds(n: nat, left: nat): seq<Move>
    decreases left, 1, 0
  {
    if left <= 1 then [] else TakeAll(0, n) + EachGives(0, n, left)
  }

  function EachGives(i: nat, n: nat, left: nat): seq<Move>
    requires i <= n && left > 1
    decreases left, 0, n - i
  {
    if i == n then [] else [Gives(i)] + Rounds(i + 1, left - 1) + EachGives(i + 1, n, left)
  }

  /** And with one left, all try once more. */
  function Best(n: nat): seq<Move> {
    Rounds(n, MAX_ATTEMPTS) + TakeAll(0, n)
  }

  /** How many tries the rounds have. */
  function InRounds(n: nat, left: nat): nat
    decreases left, 1, 0
  {
    if left <= 1 then 0 else n + AfterEach(0, n, left)
  }

  function AfterEach(i: nat, n: nat, left: nat): nat
    requires i <= n && left > 1
    decreases left, 0, n - i
  {
    if i == n then 0 else InRounds(i + 1, left - 1) + AfterEach(i + 1, n, left)
  }

  lemma {:induction false} AfterEachIs(i: nat, n: nat, left: nat)
    requires i <= n && 2 <= left <= 4
    ensures AfterEach(i, n, left) ==
            if left == 2 then 0 else if left == 3 then T(n) - T(i) else Q(n) - Q(i)
    decreases left, n - i
  {
    Grow(i, n);
    if i < n {
      AfterEachIs(i + 1, n, left);
      if left > 2 { AfterEachIs(0, i + 1, left - 1); }
    }
  }

  /** All loops from `i` on up to `n` take the row as it is. */
  lemma {:induction false} AllTake(g: Table, i: nat, n: nat)
    requires i <= n && forall w | i <= w < n :: w !in g.held
    ensures AllLegal(g, TakeAll(i, n)) && TakesIn(TakeAll(i, n)) == n - i
    ensures var after := Played(g, TakeAll(i, n));
            && after.tries == g.tries
            && (forall w :: w in after.held <==> w in g.held || i <= w < n)
            && (forall w | w in g.held :: after.held[w] == g.held[w])
            && (forall w | i <= w < n :: after.held[w] == g.tries)
    decreases n - i
  {
    if i < n {
      AllTake(Moved(g, Takes(i)), i + 1, n);
      assert TakeAll(i, n)[1..] == TakeAll(i + 1, n);
    }
  }

  /** The first `n` loops are free, the others as before. */
  ghost predicate FreedUpTo(g: Table, after: Table, n: nat) {
    && (forall w :: w in after.held <==> w in g.held && !(0 <= w < n))
    && (forall w | w in after.held :: after.held[w] == g.held[w])
  }

  lemma {:induction false} RoundsPlay(g: Table, n: nat, left: nat)
    requires 1 <= left <= MAX_ATTEMPTS && g.tries == MAX_ATTEMPTS - left && n > 0
    requires forall w | 0 <= w < n :: w !in g.held
    ensures AllLegal(g, Rounds(n, left)) && TakesIn(Rounds(n, left)) == InRounds(n, left)
    ensures Played(g, Rounds(n, left)).tries == MAX_ATTEMPTS - 1 && FreedUpTo(g, Played(g, Rounds(n, left)), n)
    decreases left, 1, 0
  {
    if left > 1 {
      AllTake(g, 0, n);
      var taken := Played(g, TakeAll(0, n));
      EachGivesPlay(taken, 0, n, left);
      PlaysOn(g, TakeAll(0, n), EachGives(0, n, left));
    }
  }

  lemma {:induction false} EachGivesPlay(g: Table, i: nat, n: nat, left: nat)
    requires i <= n && 2 <= left <= MAX_ATTEMPTS
    requires forall w | i <= w < n :: w in g.held && g.held[w] == MAX_ATTEMPTS - left
    requires forall w | 0 <= w < i :: w !in g.held
    ensures AllLegal(g, EachGives(i, n, left)) && TakesIn(EachGives(i, n, left)) == AfterEach(i, n, left)
    ensures FreedUpTo(g, Played(g, EachGives(i, n, left)), n)
    ensures i < n || g.tries == MAX_ATTEMPTS - 1 ==> Played(g, EachGives(i, n, left)).tries == MAX_ATTEMPTS - 1
    decreases left, 0, n - i
  {
    if i < n {
      var given := Moved(g, Gives(i));
      RoundsPlay(given, i + 1, left - 1);
      var after := Played(given, Rounds(i + 1, left - 1));
      EachGivesPlay(after, i + 1, n, left);
      assert [Gives(i)][1..] == [];
      PlaysOn(g, [Gives(i)], Rounds(i + 1, left - 1));
      PlaysOn(g, [Gives(i)] + Rounds(i + 1, left - 1), EachGives(i + 1, n, left));
    }
  }

  lemma BestPlays(g: Table, n: nat)
    requires g == Table(0, map[]) && n > 0
    ensures AllLegal(g, Best(n)) && TakesIn(Best(n)) == MaxTries(n)
  {
    RoundsPlay(g, n, MAX_ATTEMPTS);
    var after := Played(g, Rounds(n, MAX_ATTEMPTS));
    AllTake(after, 0, n);
    PlaysOn(g, Rounds(n, MAX_ATTEMPTS), TakeAll(0, n));
    AfterEachIs(0, n, MAX_ATTEMPTS);
  }

  // --- By the first `n` loops -----------------------------------------------------------------------------

  function Loops(n: nat): (loops: set<WorkerId>)
    ensures forall w :: w in loops <==> 0 <= w < n
  {
    if n == 0 then {} else Loops(n - 1) + {n - 1}
  }

  lemma {:induction false} LoopsAreSoMany(n: nat)
    ensures |Loops(n)| == n
  {
    if n > 0 { LoopsAreSoMany(n - 1); }
  }

  predicate By(moves: seq<Move>, n: nat) {
    forall i | 0 <= i < |moves| :: 0 <= moves[i].loop < n
  }

  lemma {:induction false} TakeAllBy(i: nat, n: nat)
    requires i <= n
    ensures By(TakeAll(i, n), n)
    decreases n - i
  {
    if i < n { TakeAllBy(i + 1, n); }
  }

  lemma {:induction false} RoundsBy(n: nat, left: nat)
    ensures By(Rounds(n, left), n)
    decreases left, 1, 0
  {
    if left > 1 {
      TakeAllBy(0, n);
      EachGivesBy(0, n, left);
    }
  }

  lemma {:induction false} EachGivesBy(i: nat, n: nat, left: nat)
    requires i <= n && left > 1
    ensures By(EachGives(i, n, left), n)
    decreases left, 0, n - i
  {
    if i < n {
      RoundsBy(i + 1, left - 1);
      EachGivesBy(i + 1, n, left);
    }
  }

  lemma {:induction false} ScriptBy(moves: seq<Move>, n: nat)
    requires By(moves, n)
    ensures AreLoops(Script(moves), Loops(n))
  {
    if moves != [] {
      assert By(moves[1..], n);
      ScriptBy(moves[1..], n);
      assert forall e | e in EventsOf(moves[0]) :: OfAWorker(e) ==> e.worker == moves[0].loop;
    }
  }

  /** For every number of loops there is a run from nothing, of these loops and none
    * of them ever stopped, that sends a delivery as often as they can: so the bound
    * is exact, and with two loops the delivery is sent eleven times. */
  lemma BoundIsReached(n: nat)
    requires n > 0
    ensures AllAdmissible(EMPTY, OPENING) && |Loops(n)| == n
    ensures var o := After(EMPTY, OPENING);
            && AllAdmissible(o, Script(Best(n))) && AreLoops(Script(Best(n)), Loops(n))
            && Interruptions(o, Script(Best(n)), 1) == 0
            && Tries(o, Script(Best(n)), 1) == MaxTries(n)
  {
    Opens();
    var o := After(EMPTY, OPENING);
    assert StandsFor(o, Table(0, map[]));
    BestPlays(Table(0, map[]), n);
    GameRuns(o, Table(0, map[]), Best(n));
    LoopsAreSoMany(n);
    TakeAllBy(0, n);
    RoundsBy(n, MAX_ATTEMPTS);
    ScriptBy(Best(n), n);
  }
}
