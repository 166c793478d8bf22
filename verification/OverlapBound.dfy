/**
 * How often N delivery loops can send one delivery when their tries overlap and
 * each writes back over what the others wrote (lib_softtrack/outbound.py): a
 * bound for every run, and for every N a run that reaches it.
 */
module OverlapBound {
  import opened Prelude
  import opened Outbound
  import opened Overlaps

  // --- The number ----------------------------------------------------------------------------

  function T(n: nat): nat {
    if n == 0 then 0 else T(n - 1) + n
  }

  function Q(n: nat): nat {
    if n == 0 then 0 else Q(n - 1) + n + T(n)
  }

  /** The most that `n` loops can send one delivery: 4, 11, 22, 38, ... */
  function MaxTries(n: nat): nat {
    2 * n + Q(n)
  }

  lemma {:induction false} TwiceT(n: nat)
    ensures 2 * T(n) == n * n + n
  {
    if n > 0 { TwiceT(n - 1); }
  }

  lemma {:induction false} SixQ(n: nat)
    ensures 6 * Q(n) == n * n * n + 6 * n * n + 5 * n
  {
    if n > 0 {
      SixQ(n - 1);
      TwiceT(n);
    }
  }

  /** As a polynomial: four times by one loop, eleven by two. */
  lemma MaxTriesIs(n: nat)
    ensures 6 * MaxTries(n) == n * n * n + 6 * n * n + 17 * n
    ensures MaxTries(1) == 4 && MaxTries(2) == 11
  {
    SixQ(n);
    SixQ(1);
    SixQ(2);
  }

  lemma {:induction false} Grow(a: nat, b: nat)
    requires a <= b
    ensures T(a) <= T(b) && Q(a) <= Q(b) && T(b) - T(a) <= Q(b) - Q(a) && b - a <= T(b) - T(a)
    decreases b - a
  {
    if a < b { Grow(a, b - 1); }
  }

  // --- How far a delivery is, and who is trying it ---------------------------------------------

  /** A pending delivery with `left` tries left by its row, `free` loops not trying
    * it, and loops whose try, once written back, leaves it one, two or three. */
  datatype Load = Load(left: nat, free: nat, one: nat, two: nat, three: nat)

  /** A free loop counts as if it had started a try, unless that could only finish. */
  function AtOne(l: Load): nat {
    l.one + if l.left <= 2 then l.free else 0
  }

  function AtTwo(l: Load): nat {
    AtOne(l) + l.two + if l.left == 3 then l.free else 0
  }

  function AtThree(l: Load): nat {
    l.one + l.two + l.three + l.free
  }

  /** Of `z` loops in the running, `y` at one and `x` at one or two. */
  function RoomFor(y: nat, x: nat, z: nat): int {
    (T(x) - T(y)) + (Q(z) - Q(x)) + z
  }

  /** How many more tries there can be. */
  function Room(l: Load): int {
    (if l.left >= 2 then l.free else 0) + RoomFor(AtOne(l), AtTwo(l), AtThree(l))
  }

  /** Counting loops lower leaves less room. */
  lemma LowerIsLess(y: nat, x: nat, y': nat, x': nat, z: nat)
    requires y <= y' && x <= x'
    ensures RoomFor(y', x', z) <= RoomFor(y, x, z)
  {
    Grow(y, y');
    Grow(x, x');
  }

  /** So does one loop fewer, that was at one. */
  lemma OneFewer(y: nat, x: nat, z: nat)
    requires 1 <= y <= x <= z
    ensures RoomFor(y - 1, x - 1, z - 1) + 1 <= RoomFor(y, x, z)
  {
    Grow(y, x);
    Grow(x, z);
  }

  /** At two. */
  lemma OneFewerAtTwo(y: nat, x: nat, z: nat)
    requires y < x <= z
    ensures RoomFor(y, x - 1, z - 1) + 1 <= RoomFor(y, x, z)
  {
    Grow(x, z);
  }

  /** At three. */
  lemma OneFewerAtThree(y: nat, x: nat, z: nat)
    requires y <= x < z
    ensures RoomFor(y, x, z - 1) + 1 <= RoomFor(y, x, z)
  {
  }

  /** A free loop starts a try that leaves `left - 1`. */
  function Started(l: Load): Load
    requires l.free > 0
  {
    var fewer := l.(free := l.free - 1);
    match l.left
    case 2 => fewer.(one := l.one + 1)
    case 3 => fewer.(two := l.two + 1)
    case 4 => fewer.(three := l.three + 1)
    case _ => fewer
  }

  lemma StartUsesOne(l: Load)
    requires 1 <= l.left <= 4 && l.free > 0
    ensures Room(Started(l)) + 1 <= Room(l)
  {
    var s := Started(l);
    if l.left == 1 {
      assert AtOne(s) == AtOne(l) - 1 && AtTwo(s) == AtTwo(l) - 1 && AtThree(s) == AtThree(l) - 1;
      OneFewer(AtOne(l), AtTwo(l), AtThree(l));
    } else {
      assert AtOne(s) == AtOne(l) && AtTwo(s) == AtTwo(l) && AtThree(s) == AtThree(l);
    }
  }

  /** A loop out of the running is one fewer, whatever else it did. */
  lemma FewerFree(l: Load)
    requires 1 <= l.left <= 4 && l.free > 0
    ensures Room(l.(free := l.free - 1)) <= Room(l)
  {
    var s := l.(free := l.free - 1);
    assert AtThree(s) == AtThree(l) - 1;
    if l.left <= 2 {
      assert AtOne(s) == AtOne(l) - 1 && AtTwo(s) == AtTwo(l) - 1;
      OneFewer(AtOne(l), AtTwo(l), AtThree(l));
    } else if l.left == 3 {
      assert AtOne(s) == AtOne(l) && AtTwo(s) == AtTwo(l) - 1;
      OneFewerAtTwo(AtOne(l), AtTwo(l), AtThree(l));
    } else {
      assert AtOne(s) == AtOne(l) && AtTwo(s) == AtTwo(l);
      OneFewerAtThree(AtOne(l), AtTwo(l), AtThree(l));
    }
  }

  /** A try written back leaves the delivery `left`, whatever it had. */
  function Back(l: Load, left: nat): Load
    requires 1 <= left <= 3
    requires match left case 1 => l.one > 0 case 2 => l.two > 0 case _ => l.three > 0
  {
    var more := l.(left := left, free := l.free + 1);
    match left
    case 1 => more.(one := l.one - 1)
    case 2 => more.(two := l.two - 1)
    case _ => more.(three := l.three - 1)
  }

  lemma BackAtOne(l: Load)
    requires 1 <= l.left <= 4 && l.one > 0
    ensures Room(Back(l, 1)) <= Room(l)
  {
    var s := Back(l, 1);
    assert AtOne(s) == l.one + l.free && AtTwo(s) == AtOne(s) + l.two && AtThree(s) == AtThree(l);
    LowerIsLess(AtOne(l), AtTwo(l), AtOne(s), AtTwo(s), AtThree(l));
  }

  /** One loop fewer at two or more is worth it, for all to be at one. */
  lemma DownToOne(y: nat, x: nat, y': nat, x': nat, z: nat)
    requires y < y' && x <= x'
    ensures RoomFor(y', x', z) + 1 <= RoomFor(y, x, z)
  {
    Grow(y + 1, y');
    Grow(x, x');
  }

  lemma BackAtTwo(l: Load)
    requires 1 <= l.left <= 4 && l.two > 0
    ensures Room(Back(l, 2)) <= Room(l)
  {
    var s := Back(l, 2);
    if l.left == 1 {
      assert AtTwo(s) == AtTwo(l) && AtOne(s) == AtOne(l) + 1;
    } else {
      assert AtOne(s) == AtOne(l) + (if l.left == 2 then 1 else l.free + 1) && AtTwo(s) >= AtTwo(l);
      DownToOne(AtOne(l), AtTwo(l), AtOne(s), AtTwo(s), AtThree(l));
    }
  }

  lemma DownToTwo(y: nat, x: nat, x': nat, z: nat)
    requires y <= x < x'
    ensures RoomFor(y, x', z) + 1 <= RoomFor(y, x, z)
  {
    Grow(x + 1, x');
  }

  /** Down to two, with `free` loops up from one to two. */
  lemma UpToTwo(y: nat, x: nat, free: nat, z: nat)
    requires free <= y <= x
    ensures RoomFor(y - free, x + 1, z) + free + 1 <= RoomFor(y, x, z)
  {
    Grow(y, x);
  }

  lemma BackAtThree(l: Load)
    requires 1 <= l.left <= 4 && l.three > 0
    ensures Room(Back(l, 3)) <= Room(l)
  {
    var s := Back(l, 3);
    assert AtThree(s) == AtThree(l) && AtOne(s) == l.one && AtTwo(s) == l.one + l.two + l.free + 1;
    if l.left >= 3 {
      assert AtOne(l) == l.one;
      DownToTwo(AtOne(l), AtTwo(l), AtTwo(s), AtThree(l));
    } else {
      assert AtOne(l) == l.one + l.free && AtTwo(l) == AtOne(l) + l.two;
      UpToTwo(AtOne(l), AtTwo(l), l.free, AtThree(l));
    }
  }

  lemma RoomIsBounded(l: Load, n: nat)
    requires AtThree(l) <= n
    ensures l.free <= Room(l) <= MaxTries(n)
  {
    Grow(AtOne(l), AtTwo(l));
    Grow(AtTwo(l), AtThree(l));
    Grow(0, AtTwo(l));
    Grow(AtThree(l), n);
  }

  // --- In the outbox --------------------------------------------------------------------------------

  /** What a loop's try leaves the row when it is written back; none, if it finishes
    * it whatever the answer; less than none, if the loop is not trying the row. */
  ghost function Leaves(o: Outbox, w: WorkerId, d: DeliveryId): int {
    if !IsTrying(o, w, d) then -1
    else
      var t := WorkerOf(o, w).trying.value;
      if t.canSend && t.row.status == Pending then MAX_ATTEMPTS - 1 - t.row.attempts else 0
  }

  ghost function Leaving(o: Outbox, d: DeliveryId, loops: set<WorkerId>, k: int): set<WorkerId> {
    set w | w in loops && Leaves(o, w, d) == k
  }

  ghost function LoadOf(o: Outbox, d: DeliveryId, loops: set<WorkerId>): Load {
    Load(LeftOf(o, d), |Free(o, d, loops)|,
         |Leaving(o, d, loops, 1)|, |Leaving(o, d, loops, 2)|, |Leaving(o, d, loops, 3)|)
  }

  lemma UnionIsNoLarger<X(!new)>(a: set<X>, b: set<X>, all: set<X>)
    requires a !! b && a + b <= all
    ensures |a| + |b| <= |all|
  {
    SubsetIsSmaller(a + b, all);
  }

  /** A loop is counted once. */
  lemma NoMoreThanTheLoops(o: Outbox, d: DeliveryId, loops: set<WorkerId>)
    ensures AtThree(LoadOf(o, d, loops)) <= |loops|
  {
    var free, one, two := Free(o, d, loops), Leaving(o, d, loops, 1), Leaving(o, d, loops, 2);
    var three := Leaving(o, d, loops, 3);
    UnionIsNoLarger(free, one, free + one);
    UnionIsNoLarger(free + one, two, free + one + two);
    UnionIsNoLarger(free + one + two, three, loops);
  }

  lemma OneLess(s: set<WorkerId>, w: WorkerId)
    ensures |s| == |s - {w}| + (if w in s then 1 else 0)
  {
    if w in s { assert s == s - {w} + {w}; } else { assert s == s - {w}; }
  }

  /** One element may come or go. */
  lemma OneMoves(was: set<WorkerId>, now: set<WorkerId>, w: WorkerId)
    requires forall v | v != w :: v in now <==> v in was
    ensures |now| == |was| - (if w in was then 1 else 0) + (if w in now then 1 else 0)
  {
    forall v: WorkerId ensures v in was - {w} <==> v in now - {w} {
      if v != w { assert v in now <==> v in was; }
    }
    assert was - {w} == now - {w};
    OneLess(was, w);
    OneLess(now, w);
  }

  lemma OthersLeaveTheSame(o: Outbox, e: Event, d: DeliveryId, v: WorkerId)
    requires Admissible(o, e) && !(OfAWorker(e) && e.worker == v)
    ensures Leaves(Step(o, e), v, d) == Leaves(o, v, d)
    ensures IsTrying(Step(o, e), v, d) <==> IsTrying(o, v, d)
  {
  }

  /** A step moves its own loop from one count to another. */
  lemma LoadMoves(o: Outbox, e: Event, d: DeliveryId, loops: set<WorkerId>, k: int)
    requires Admissible(o, e) && OfAWorker(e) && e.worker in loops
    ensures var was, now := Leaves(o, e.worker, d), Leaves(Step(o, e), e.worker, d);
            |Leaving(Step(o, e), d, loops, k)|
            == |Leaving(o, d, loops, k)| - (if was == k then 1 else 0) + (if now == k then 1 else 0)
  {
    forall v | v != e.worker
      ensures v in Leaving(Step(o, e), d, loops, k) <==> v in Leaving(o, d, loops, k)
    {
      OthersLeaveTheSame(o, e, d, v);
    }
    OneMoves(Leaving(o, d, loops, k), Leaving(Step(o, e), d, loops, k), e.worker);
  }

  lemma FreeMoves(o: Outbox, e: Event, d: DeliveryId, loops: set<WorkerId>)
    requires Admissible(o, e) && OfAWorker(e) && e.worker in loops
    ensures |Free(Step(o, e), d, loops)|
            == |Free(o, d, loops)| - (if IsTrying(o, e.worker, d) then 0 else 1)
               + (if IsTrying(Step(o, e), e.worker, d) then 0 else 1)
  {
    forall v | v != e.worker ensures v in Free(Step(o, e), d, loops) <==> v in Free(o, d, loops) {
      OthersLeaveTheSame(o, e, d, v);
    }
    OneMoves(Free(o, d, loops), Free(Step(o, e), d, loops), e.worker);
  }

  /** The counts of a step of a loop, all together. */
  lemma LoadChange(o: Outbox, e: Event, d: DeliveryId, loops: set<WorkerId>)
    requires Admissible(o, e) && OfAWorker(e) && e.worker in loops
    ensures var was, now := Leaves(o, e.worker, d), Leaves(Step(o, e), e.worker, d);
            var l, m := LoadOf(o, d, loops), LoadOf(Step(o, e), d, loops);
            && m.one == l.one - (if was == 1 then 1 else 0) + (if now == 1 then 1 else 0)
            && m.two == l.two - (if was == 2 then 1 else 0) + (if now == 2 then 1 else 0)
            && m.three == l.three - (if was == 3 then 1 else 0) + (if now == 3 then 1 else 0)
            && m.free == l.free - (if IsTrying(o, e.worker, d) then 0 else 1)
                         + (if IsTrying(Step(o, e), e.worker, d) then 0 else 1)
  {
    LoadMoves(o, e, d, loops, 1);
    LoadMoves(o, e, d, loops, 2);
    LoadMoves(o, e, d, loops, 3);
    FreeMoves(o, e, d, loops);
  }

  lemma SendStarts(o: Outbox, e: Event, d: DeliveryId, loops: set<WorkerId>)
    requires Inv(o) && Admissible(o, e) && e.Reads? && e.worker in loops && Sends(o, e, d)
    requires o.deliveries[d].status == Pending
    ensures |Free(o, d, loops)| > 0 && LoadOf(Step(o, e), d, loops) == Started(LoadOf(o, d, loops))
  {
    LoadChange(o, e, d, loops);
    SubsetIsSmaller({e.worker}, Free(o, d, loops));
  }

  /** A row is read that nobody is to be sent. */
  ghost predicate ReadsInVain(o: Outbox, e: Event, d: DeliveryId) {
    && e.Reads? && e.delivery == d && d in WorkerOf(o, e.worker).taken
    && d in o.deliveries && !CanSend(o, o.deliveries[d])
  }

  lemma VainReadIsOneFewer(o: Outbox, e: Event, d: DeliveryId, loops: set<WorkerId>)
    requires Inv(o) && Admissible(o, e) && e.Reads? && e.worker in loops && ReadsInVain(o, e, d)
    ensures |Free(o, d, loops)| > 0
    ensures LoadOf(Step(o, e), d, loops) == LoadOf(o, d, loops).(free := |Free(o, d, loops)| - 1)
  {
    LoadChange(o, e, d, loops);
    SubsetIsSmaller({e.worker}, Free(o, d, loops));
  }

  lemma WriteIsBack(o: Outbox, e: Event, d: DeliveryId, loops: set<WorkerId>)
    requires Inv(o) && Admissible(o, e) && e.Writes? && e.worker in loops && PutsOff(o, e, d)
    requires o.deliveries[d].status == Pending
    ensures var left, l := MAX_ATTEMPTS - 1 - TriedBy(o, e, d).row.attempts, LoadOf(o, d, loops);
            && 1 <= left <= 3
            && (match left case 1 => l.one > 0 case 2 => l.two > 0 case _ => l.three > 0)
            && LoadOf(Step(o, e), d, loops) == Back(l, left)
  {
    var left := MAX_ATTEMPTS - 1 - TriedBy(o, e, d).row.attempts;
    assert WorkerKept(o, o.workers[e.worker]);
    assert e.worker in Leaving(o, d, loops, left);
    SubsetIsSmaller({e.worker}, Leaving(o, d, loops, left));
    LoadChange(o, e, d, loops);
    StepKeeps(o, e);
    assert Moves(o, e, Step(o, e), d);
  }

  /** Every other step leaves the load as it is. */
  lemma LoadStays(o: Outbox, e: Event, d: DeliveryId, loops: set<WorkerId>)
    requires Inv(o) && Admissible(o, e) && (OfAWorker(e) ==> e.worker in loops)
    requires d in o.deliveries && d in Step(o, e).deliveries
    requires !WritesBack(o, e, d) && !Sends(o, e, d) && !ReadsInVain(o, e, d) && !Interrupts(o, e, d)
    ensures LoadOf(Step(o, e), d, loops) == LoadOf(o, d, loops)
  {
    StepKeeps(o, e);
    assert Moves(o, e, Step(o, e), d);
    if OfAWorker(e) {
      LoadChange(o, e, d, loops);
    } else {
      SameLoad(o, e, d, loops);
    }
  }

  lemma SameLoad(o: Outbox, e: Event, d: DeliveryId, loops: set<WorkerId>)
    requires Admissible(o, e) && !OfAWorker(e) && LeftOf(Step(o, e), d) == LeftOf(o, d)
    ensures LoadOf(Step(o, e), d, loops) == LoadOf(o, d, loops)
  {
    assert Free(Step(o, e), d, loops) == Free(o, d, loops);
    assert forall k :: Leaving(Step(o, e), d, loops, k) == Leaving(o, d, loops, k);
  }

  lemma WriteMakesNoRoom(o: Outbox, e: Event, d: DeliveryId, loops: set<WorkerId>)
    requires Inv(o) && Admissible(o, e) && e.Writes? && e.worker in loops && PutsOff(o, e, d)
    requires o.deliveries[d].status == Pending
    ensures Room(LoadOf(Step(o, e), d, loops)) <= Room(LoadOf(o, d, loops))
  {
    AtLeastOneLeft(o, e, d, loops);
    WriteIsBack(o, e, d, loops);
    match MAX_ATTEMPTS - 1 - TriedBy(o, e, d).row.attempts
    case 1 => BackAtOne(LoadOf(o, d, loops));
    case 2 => BackAtTwo(LoadOf(o, d, loops));
    case _ => BackAtThree(LoadOf(o, d, loops));
  }

  lemma ReadUsesRoom(o: Outbox, e: Event, d: DeliveryId, loops: set<WorkerId>)
    requires Inv(o) && Admissible(o, e) && e.Reads? && e.worker in loops && (Sends(o, e, d) || ReadsInVain(o, e, d))
    requires o.deliveries[d].status == Pending
    ensures Room(LoadOf(Step(o, e), d, loops)) + (if Sends(o, e, d) then 1 else 0) <= Room(LoadOf(o, d, loops))
  {
    AtLeastOneLeft(o, e, d, loops);
    if Sends(o, e, d) {
      SendStarts(o, e, d, loops);
      StartUsesOne(LoadOf(o, d, loops));
    } else {
      VainReadIsOneFewer(o, e, d, loops);
      FewerFree(LoadOf(o, d, loops));
    }
  }

  lemma RoomWithin(o: Outbox, d: DeliveryId, loops: set<WorkerId>)
    ensures |Free(o, d, loops)| <= Room(LoadOf(o, d, loops)) <= MaxTries(|loops|)
  {
    NoMoreThanTheLoops(o, d, loops);
    RoomIsBounded(LoadOf(o, d, loops), |loops|);
  }

  /** While the delivery is pending, a send uses up room and only an interruption
    * makes any, and never more than there was at the start. */
  lemma RoomFalls(o: Outbox, e: Event, d: DeliveryId, loops: set<WorkerId>)
    requires Inv(o) && Admissible(o, e) && (OfAWorker(e) ==> e.worker in loops)
    requires d in o.deliveries && o.deliveries[d].status == Pending
    requires d in Step(o, e).deliveries && !Finishes(o, e, d)
    ensures var was, now := Room(LoadOf(o, d, loops)), Room(LoadOf(Step(o, e), d, loops));
            if Interrupts(o, e, d) then 0 <= was && now <= MaxTries(|loops|)
            else now + (if Sends(o, e, d) then 1 else 0) <= was
  {
    if Interrupts(o, e, d) {
      RoomWithin(o, d, loops);
      RoomWithin(Step(o, e), d, loops);
    } else if Sends(o, e, d) || ReadsInVain(o, e, d) {
      ReadUsesRoom(o, e, d, loops);
    } else if WritesBack(o, e, d) {
      WriteMakesNoRoom(o, e, d, loops);
    } else {
      LoadStays(o, e, d, loops);
    }
  }

  /**
   * However many loops there are, however their steps fall and however long a send
   * takes, a pending delivery is sent at most `MaxTries` of their number, and as
   * often again for every time a loop is stopped in the middle of trying it.
   */
  lemma {:induction false} TriedAtMost(o: Outbox, events: seq<Event>, d: DeliveryId, loops: set<WorkerId>)
    requires Inv(o) && AllAdmissible(o, events) && d in o.deliveries && o.deliveries[d].status == Pending
    requires Holders(o, d) <= loops && AreLoops(events, loops)
    ensures Tries(o, events, d) <= Room(LoadOf(o, d, loops)) + Interruptions(o, events, d) * MaxTries(|loops|)
    ensures Tries(o, events, d) <= (1 + Interruptions(o, events, d)) * MaxTries(|loops|)
    decreases |events|
  {
    var most := MaxTries(|loops|);
    RoomWithin(o, d, loops);
    if events != [] {
      var e, after := events[0], Step(o, events[0]);
      assert e in events && AreLoops(events[1..], loops);
      StepKeeps(o, e);
      assert Moves(o, e, after, d);
      if d !in after.deliveries {
        NeverTried(after, events[1..], d);
      } else if Finishes(o, e, d) {
        TriedOnceMorePerHolder(after, events[1..], d);
        FinishedIsHeldByTheFree(o, e, d, loops);
        SubsetIsSmaller(Holders(after, d), Free(o, d, loops));
      } else {
        HoldersAreLoops(o, e, d, loops);
        RoomFalls(o, e, d, loops);
        TriedAtMost(after, events[1..], d, loops);
        OneMoreTimes(Interruptions(after, events[1..], d), most);
      }
    }
    OneMoreTimes(Interruptions(o, events, d), most);
    NotNegative(Interruptions(o, events, d), most);
  }

  lemma OneMoreTimes(k: nat, m: nat)
    ensures (1 + k) * m == m + k * m
  {
  }

  lemma NotNegative(k: nat, m: nat)
    ensures k * m >= 0
  {
  }
}
