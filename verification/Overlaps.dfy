/**
 * Several delivery loops at once (lib_softtrack/outbound.py): a try is read,
 * sent and written back, the claim asks only for the lease, and a lease can end
 * before its try does. What still holds however the steps of any number of
 * loops fall, and how often a delivery can be sent.
 */
module Overlaps {
  import opened Prelude
  import opened Outbound

  // --- Pending and done ---------------------------------------------------------------------

  ghost predicate FinishedAlong(o: Outbox, events: seq<Event>, d: DeliveryId)
    requires AllAdmissible(o, events)
    decreases |events|
  {
    events != [] && (Finishes(o, events[0], d) || FinishedAlong(Step(o, events[0]), events[1..], d))
  }

  /** A pending row that is still there is still pending if and only if no step on
    * the way wrote back a try that finished it. */
  lemma {:induction false} PendingExactlyWhen(o: Outbox, events: seq<Event>, d: DeliveryId)
    requires Inv(o) && AllAdmissible(o, events)
    requires d in o.deliveries && d in After(o, events).deliveries && o.deliveries[d].status == Pending
    ensures After(o, events).deliveries[d].status == Pending <==> !FinishedAlong(o, events, d)
    decreases |events|
  {
    if events != [] {
      var after := Step(o, events[0]);
      StepKeeps(o, events[0]);
      assert Moves(o, events[0], after, d);
      if d !in after.deliveries {
        GoneForGood(after, events[1..], d);
      } else if Finishes(o, events[0], d) {
        DoneForAll(after, events[1..], d);
      } else {
        PendingExactlyWhen(after, events[1..], d);
      }
    }
  }

  lemma {:induction false} GoneForGood(o: Outbox, events: seq<Event>, d: DeliveryId)
    requires Inv(o) && AllAdmissible(o, events) && d < o.nextId && d !in o.deliveries
    ensures d !in After(o, events).deliveries
    decreases |events|
  {
    if events != [] {
      StepKeeps(o, events[0]);
      assert Moves(o, events[0], Step(o, events[0]), d);
      GoneForGood(Step(o, events[0]), events[1..], d);
    }
  }

  /** A row that is done is never pending again. */
  lemma {:induction false} DoneForAll(o: Outbox, events: seq<Event>, d: DeliveryId)
    requires Inv(o) && AllAdmissible(o, events) && d in o.deliveries && o.deliveries[d].status != Pending
    ensures d in After(o, events).deliveries ==> After(o, events).deliveries[d].status != Pending
    decreases |events|
  {
    if events != [] {
      var after := Step(o, events[0]);
      StepKeeps(o, events[0]);
      assert Moves(o, events[0], after, d);
      if d in after.deliveries { DoneForAll(after, events[1..], d); } else { GoneForGood(after, events[1..], d); }
    }
  }

  /** The steps of everybody else between a loop's selection and its claim. */
  predicate OfOthers(events: seq<Event>, w: WorkerId) {
    forall e | e in events :: OfAWorker(e) ==> e.worker != w
  }

  /** What a loop claims is still pending if and only if no other loop finished it
    * between the selection and the claim, which does not ask. */
  lemma ClaimedIsPendingExactlyWhen(o: Outbox, w: WorkerId, events: seq<Event>, d: DeliveryId)
    requires Inv(o) && d in Due(o) && AllAdmissible(Select(o, w), events) && OfOthers(events, w)
    requires d in Claimed(After(Select(o, w), events), w)
    ensures After(Select(o, w), events).deliveries[d].status == Pending <==> !FinishedAlong(Select(o, w), events, d)
    ensures WorkerOf(After(Select(o, w), events), w) == Worker(o.now, Due(o), {}, None)
  {
    SelectKeeps(o, w);
    PendingExactlyWhen(Select(o, w), events, d);
    KeepsItsSelection(Select(o, w), w, events);
  }

  lemma {:induction false} KeepsItsSelection(o: Outbox, w: WorkerId, events: seq<Event>)
    requires AllAdmissible(o, events) && OfOthers(events, w)
    ensures WorkerOf(After(o, events), w) == WorkerOf(o, w)
    decreases |events|
  {
    if events != [] {
      assert events[0] in events;
      KeepsItsSelection(Step(o, events[0]), w, events[1..]);
    }
  }

  // --- A time for a try that is not to come ----------------------------------------------------

  /** A failed try written back over a row that is done meanwhile, giving it a time
    * for the next. */
  ghost predicate Reschedules(o: Outbox, e: Event, d: DeliveryId) {
    && PutsOff(o, e, d) && o.deliveries[d].status != Pending
    && var row := TriedBy(o, e, d).row; row.nextAt != Some(WorkerOf(o, e.worker).at + BACKOFF[row.attempts])
  }

  /** If it is done, no next try is set. */
  ghost predicate Rests(o: Outbox, d: DeliveryId) {
    d in o.deliveries && o.deliveries[d].status != Pending ==> o.deliveries[d].nextAt.None?
  }

  ghost predicate RestsAlong(o: Outbox, events: seq<Event>, d: DeliveryId)
    requires AllAdmissible(o, events)
    decreases |events|
  {
    Rests(o, d) && (events == [] || RestsAlong(Step(o, events[0]), events[1..], d))
  }

  ghost predicate RescheduledAlong(o: Outbox, events: seq<Event>, d: DeliveryId)
    requires AllAdmissible(o, events)
    decreases |events|
  {
    events != [] && (Reschedules(o, events[0], d) || RescheduledAlong(Step(o, events[0]), events[1..], d))
  }

  lemma RestsUnlessRescheduled(o: Outbox, e: Event, d: DeliveryId)
    requires Inv(o) && Admissible(o, e) && Rests(o, d)
    ensures Rests(Step(o, e), d) <==> !Reschedules(o, e, d)
  {
    StepKeeps(o, e);
    assert Moves(o, e, Step(o, e), d);
  }

  /** In every state of a run a done row has no time for a next try, if and only if no
    * failed try was written back over it once it was done. */
  lemma {:induction false} RestsExactlyWhen(o: Outbox, events: seq<Event>, d: DeliveryId)
    requires Inv(o) && AllAdmissible(o, events) && Rests(o, d)
    ensures RestsAlong(o, events, d) <==> !RescheduledAlong(o, events, d)
    decreases |events|
  {
    if events != [] {
      RestsUnlessRescheduled(o, events[0], d);
      StepKeeps(o, events[0]);
      if !Reschedules(o, events[0], d) { RestsExactlyWhen(Step(o, events[0]), events[1..], d); }
    }
  }

  // --- Whether the tries are counted --------------------------------------------------------------

  /** The step writes back a send. */
  ghost predicate Counts(o: Outbox, e: Event, d: DeliveryId) {
    WritesBack(o, e, d) && TriedBy(o, e, d).canSend
  }

  /** The row has as many tries as the loop read before it sent. */
  ghost predicate Fresh(o: Outbox, e: Event, d: DeliveryId) {
    Counts(o, e, d) ==> o.deliveries[d].attempts == TriedBy(o, e, d).row.attempts
  }

  ghost predicate FreshAlong(o: Outbox, events: seq<Event>, d: DeliveryId)
    requires AllAdmissible(o, events)
    decreases |events|
  {
    events == [] || (Fresh(o, events[0], d) && FreshAlong(Step(o, events[0]), events[1..], d))
  }

  /** How many sends a run writes back. */
  ghost function Written(o: Outbox, events: seq<Event>, d: DeliveryId): nat
    requires AllAdmissible(o, events)
    decreases |events|
  {
    if events == [] then 0
    else (if Counts(o, events[0], d) then 1 else 0) + Written(Step(o, events[0]), events[1..], d)
  }

  ghost predicate NobodyTries(o: Outbox, d: DeliveryId) {
    forall w :: !IsTrying(o, w, d)
  }

  /** Nobody trying the row read more than `most` tries. */
  ghost predicate ReadAtMost(o: Outbox, d: DeliveryId, most: int) {
    forall w | IsTrying(o, w, d) :: WorkerOf(o, w).trying.value.row.attempts <= most
  }

  /** The row counts as many tries as there were. */
  ghost predicate Counted(o: Outbox, d: DeliveryId, tries: int) {
    d in o.deliveries && o.deliveries[d].attempts == tries && ReadAtMost(o, d, tries)
  }

  /** The row counts fewer, and nobody knows better. */
  ghost predicate Behind(o: Outbox, d: DeliveryId, tries: int) {
    d in o.deliveries && o.deliveries[d].attempts < tries && ReadAtMost(o, d, tries - 1)
  }

  lemma StaysBehind(o: Outbox, e: Event, d: DeliveryId, tries: int)
    requires Inv(o) && Admissible(o, e) && Behind(o, d, tries) && d in Step(o, e).deliveries
    ensures Behind(Step(o, e), d, tries + if Counts(o, e, d) then 1 else 0)
  {
    StepKeeps(o, e);
    assert Moves(o, e, Step(o, e), d);
    ReadsOnlyWhatIsThere(o, e, d, tries - 1);
  }

  lemma ReadsOnlyWhatIsThere(o: Outbox, e: Event, d: DeliveryId, most: int)
    requires Admissible(o, e) && d in o.deliveries && ReadAtMost(o, d, most) && o.deliveries[d].attempts <= most
    ensures ReadAtMost(Step(o, e), d, most)
  {
    forall w | IsTrying(Step(o, e), w, d) ensures WorkerOf(Step(o, e), w).trying.value.row.attempts <= most {
      assert IsTrying(o, w, d) || (e.Reads? && e.worker == w);
    }
  }

  lemma StaysCounted(o: Outbox, e: Event, d: DeliveryId, tries: int)
    requires Inv(o) && Admissible(o, e) && Counted(o, d, tries) && d in Step(o, e).deliveries
    ensures var more := tries + if Counts(o, e, d) then 1 else 0;
            if Fresh(o, e, d) then Counted(Step(o, e), d, more) else Behind(Step(o, e), d, more)
  {
    StepKeeps(o, e);
    assert Moves(o, e, Step(o, e), d);
    ReadsOnlyWhatIsThere(o, e, d, tries);
  }

  lemma {:induction false} BehindForGood(o: Outbox, events: seq<Event>, d: DeliveryId, tries: int)
    requires Inv(o) && AllAdmissible(o, events) && Behind(o, d, tries) && d in After(o, events).deliveries
    ensures After(o, events).deliveries[d].attempts < tries + Written(o, events, d)
    decreases |events|
  {
    if events != [] {
      var after := Step(o, events[0]);
      StepKeeps(o, events[0]);
      assert Moves(o, events[0], after, d);
      if d !in after.deliveries { GoneForGood(after, events[1..], d); }
      StaysBehind(o, events[0], d, tries);
      BehindForGood(after, events[1..], d, tries + if Counts(o, events[0], d) then 1 else 0);
    }
  }

  lemma {:induction false} CountedExactlyWhen(o: Outbox, events: seq<Event>, d: DeliveryId, tries: int)
    requires Inv(o) && AllAdmissible(o, events) && Counted(o, d, tries) && d in After(o, events).deliveries
    ensures After(o, events).deliveries[d].attempts <= tries + Written(o, events, d)
    ensures After(o, events).deliveries[d].attempts == tries + Written(o, events, d) <==> FreshAlong(o, events, d)
    decreases |events|
  {
    if events != [] {
      var after, more := Step(o, events[0]), tries + if Counts(o, events[0], d) then 1 else 0;
      StepKeeps(o, events[0]);
      assert Moves(o, events[0], after, d);
      if d !in after.deliveries { GoneForGood(after, events[1..], d); }
      StaysCounted(o, events[0], d, tries);
      if Fresh(o, events[0], d) {
        CountedExactlyWhen(after, events[1..], d, more);
      } else {
        BehindForGood(after, events[1..], d, more);
      }
    }
  }

  /** The row counts every send there was if and only if each, when it was written
    * back, found the tries it had read: no other loop wrote in between. Otherwise it
    * counts fewer. */
  lemma TriesAreCountedExactlyWhen(o: Outbox, events: seq<Event>, d: DeliveryId)
    requires Inv(o) && AllAdmissible(o, events) && NobodyTries(o, d)
    requires d in o.deliveries && d in After(o, events).deliveries
    ensures var was, now := o.deliveries[d].attempts, After(o, events).deliveries[d].attempts;
            && now <= was + Written(o, events, d)
            && (now == was + Written(o, events, d) <==> FreshAlong(o, events, d))
  {
    CountedExactlyWhen(o, events, d, o.deliveries[d].attempts);
  }

  // --- Who can still try ----------------------------------------------------------------------------

  ghost function Holders(o: Outbox, d: DeliveryId): set<WorkerId> {
    set w | w in o.workers && (d in o.workers[w].selected || d in o.workers[w].taken)
  }

  ghost predicate AreLoops(events: seq<Event>, loops: set<WorkerId>) {
    forall e | e in events :: OfAWorker(e) ==> e.worker in loops
  }

  /** A done row gets no new holder, and who tries it lets it go. */
  lemma HoldersFall(o: Outbox, e: Event, d: DeliveryId)
    requires Inv(o) && Admissible(o, e) && d in o.deliveries && o.deliveries[d].status != Pending
    ensures Holders(Step(o, e), d) <= Holders(o, d)
    ensures Sends(o, e, d) ==> e.worker in Holders(o, d) && e.worker !in Holders(Step(o, e), d)
  {
    forall v: WorkerId | v in Holders(Step(o, e), d) ensures v in Holders(o, d) {}
  }

  /** A row that is done is tried at most once more by each loop that holds it then,
    * and by no other. */
  lemma {:induction false} TriedOnceMorePerHolder(o: Outbox, events: seq<Event>, d: DeliveryId)
    requires Inv(o) && AllAdmissible(o, events) && d < o.nextId
    requires d in o.deliveries ==> o.deliveries[d].status != Pending
    ensures Tries(o, events, d) <= |Holders(o, d)|
    decreases |events|
  {
    if events != [] {
      var e, after := events[0], Step(o, events[0]);
      StepKeeps(o, e);
      assert Moves(o, e, after, d);
      TriedOnceMorePerHolder(after, events[1..], d);
      if d in o.deliveries {
        HoldersFall(o, e, d);
        if Sends(o, e, d) {
          SubsetIsSmaller(Holders(after, d), Holders(o, d) - {e.worker});
        } else {
          SubsetIsSmaller(Holders(after, d), Holders(o, d));
        }
      } else {
        NeverTried(after, events[1..], d);
      }
    }
  }

  lemma {:induction false} NeverTried(o: Outbox, events: seq<Event>, d: DeliveryId)
    requires Inv(o) && AllAdmissible(o, events) && d < o.nextId && d !in o.deliveries
    ensures Tries(o, events, d) == 0
    decreases |events|
  {
    if events != [] {
      StepKeeps(o, events[0]);
      assert Moves(o, events[0], Step(o, events[0]), d);
      NeverTried(Step(o, events[0]), events[1..], d);
    }
  }

  lemma HoldersAreLoops(o: Outbox, e: Event, d: DeliveryId, loops: set<WorkerId>)
    requires Admissible(o, e) && Holders(o, d) <= loops && (OfAWorker(e) ==> e.worker in loops)
    ensures Holders(Step(o, e), d) <= loops
  {
    forall v: WorkerId | v in Holders(Step(o, e), d) ensures v in loops {
      assert v in Holders(o, d) || (OfAWorker(e) && e.worker == v);
    }
  }

  /** The loops that are not in the middle of trying the row. */
  ghost function Free(o: Outbox, d: DeliveryId, loops: set<WorkerId>): set<WorkerId> {
    set w | w in loops && !IsTrying(o, w, d)
  }

  /** Whoever finishes a row does not hold it, nor does whoever is trying it. */
  lemma FinishedIsHeldByTheFree(o: Outbox, e: Event, d: DeliveryId, loops: set<WorkerId>)
    requires Inv(o) && Admissible(o, e) && Holders(o, d) <= loops && Finishes(o, e, d)
    ensures Holders(Step(o, e), d) <= Free(o, d, loops)
  {
    forall v: WorkerId | v in Holders(Step(o, e), d) ensures v in Free(o, d, loops) {
      assert v in Holders(o, d);
      assert WorkerKept(o, o.workers[v]);
    }
  }

  // --- How often, when every try is counted --------------------------------------------------------------

  lemma FreeChange(o: Outbox, e: Event, d: DeliveryId, loops: set<WorkerId>)
    requires Admissible(o, e) && (OfAWorker(e) ==> e.worker in loops) && d in o.deliveries
    ensures var was, now := Free(o, d, loops), Free(Step(o, e), d, loops);
            if WritesBack(o, e, d) || Interrupts(o, e, d) then e.worker !in was && now == was + {e.worker}
            else if Sends(o, e, d) then e.worker in was && now == was - {e.worker}
            else now <= was
  {
    var was, now := Free(o, d, loops), Free(Step(o, e), d, loops);
    forall v: WorkerId | v in loops && !(OfAWorker(e) && v == e.worker) ensures v in now <==> v in was {}
  }

  /** Tries left that nobody has under way, and one for each other loop. */
  ghost function Spare(o: Outbox, d: DeliveryId, loops: set<WorkerId>): int {
    LeftOf(o, d) - 1 + |Free(o, d, loops)|
  }

  lemma SpareFalls(o: Outbox, e: Event, d: DeliveryId, loops: set<WorkerId>)
    requires Inv(o) && Admissible(o, e) && (OfAWorker(e) ==> e.worker in loops) && Fresh(o, e, d)
    requires d in o.deliveries && d in Step(o, e).deliveries
    requires o.deliveries[d].status == Pending && Step(o, e).deliveries[d].status == Pending
    ensures Spare(Step(o, e), d, loops) + (if Sends(o, e, d) then 1 else 0)
            <= Spare(o, d, loops) + (if Interrupts(o, e, d) then 1 else 0)
  {
    StepKeeps(o, e);
    assert Moves(o, e, Step(o, e), d);
    FreeChange(o, e, d, loops);
    if !WritesBack(o, e, d) && !Interrupts(o, e, d) && !Sends(o, e, d) {
      SubsetIsSmaller(Free(Step(o, e), d, loops), Free(o, d, loops));
    }
  }

  lemma AtLeastOneLeft(o: Outbox, e: Event, d: DeliveryId, loops: set<WorkerId>)
    requires Inv(o) && d in o.deliveries && o.deliveries[d].status == Pending
    ensures LeftOf(o, d) >= 1
    ensures Sends(o, e, d) && Admissible(o, e) && e.worker in loops ==> |Free(o, d, loops)| >= 1
  {
    if Sends(o, e, d) && Admissible(o, e) && e.worker in loops {
      SubsetIsSmaller({e.worker}, Free(o, d, loops));
    }
  }

  /** While every send is written back over the tries it read, a pending delivery is
    * sent at most as often as it has tries left and once more by each loop but one:
    * four and N - 1 times by N loops. A loop stopped in the middle may send again. */
  lemma {:induction false} TriedAtMostIfFresh(o: Outbox, events: seq<Event>, d: DeliveryId, loops: set<WorkerId>)
    requires Inv(o) && AllAdmissible(o, events) && d in o.deliveries && o.deliveries[d].status == Pending
    requires Holders(o, d) <= loops && AreLoops(events, loops) && FreshAlong(o, events, d)
    ensures Tries(o, events, d) <= LeftOf(o, d) + |loops| - 1 + Interruptions(o, events, d)
    ensures Tries(o, events, d) <= Spare(o, d, loops) + Interruptions(o, events, d)
    decreases |events|
  {
    SubsetIsSmaller(Free(o, d, loops), loops);
    AtLeastOneLeft(o, Wait(0), d, loops);
    if events != [] {
      var e, after := events[0], Step(o, events[0]);
      assert e in events && AreLoops(events[1..], loops);
      StepKeeps(o, e);
      assert Moves(o, e, after, d);
      AtLeastOneLeft(o, e, d, loops);
      if d !in after.deliveries {
        NeverTried(after, events[1..], d);
      } else if Finishes(o, e, d) {
        TriedOnceMorePerHolder(after, events[1..], d);
        FinishedIsHeldByTheFree(o, e, d, loops);
        SubsetIsSmaller(Holders(after, d), Free(o, d, loops));
      } else {
        HoldersAreLoops(o, e, d, loops);
        SpareFalls(o, e, d, loops);
        TriedAtMostIfFresh(after, events[1..], d, loops);
      }
    }
  }
}
