/**
 * Webhook deliveries as the services run them (lib_softtrack/outbound.py):
 * queueing, one loop's tick row by row, and pruning the log.
 */
module WebhookService {
  import opened Prelude
  import opened Outbound

  // --- Pruning -------------------------------------------------------------------------------

  /** `ORDER BY id DESC LIMIT 50`. */
  function Newest(o: Outbox, hook: HookId): set<DeliveryId> {
    set d | d in o.deliveries && o.deliveries[d].hook == hook && |Newer(o, d)| < KEEP_DELIVERIES
  }

  ghost function LogOf(o: Outbox, hook: HookId): set<DeliveryId> {
    set d | d in o.deliveries && o.deliveries[d].hook == hook
  }

  ghost function Above(log: set<DeliveryId>, d: DeliveryId): set<DeliveryId> {
    set e | e in log && e > d
  }

  ghost function Top(log: set<DeliveryId>): set<DeliveryId> {
    set d | d in log && |Above(log, d)| < KEEP_DELIVERIES
  }

  lemma {:induction false} Lowest(log: set<DeliveryId>) returns (low: DeliveryId)
    requires log != {}
    ensures low in log && forall d | d in log :: low <= d
    decreases |log|
  {
    var first: DeliveryId := Any(log);
    low := first;
    if log != {first} {
      var next := Lowest(log - {first});
      if next < first { low := next; }
    }
    forall d: DeliveryId | d in log ensures low <= d {
      assert d == first || d in log - {first};
    }
  }

  /** A log of at least fifty has fifty newest. */
  lemma {:induction false} TopIsFifty(log: set<DeliveryId>)
    ensures |log| >= KEEP_DELIVERIES ==> |Top(log)| >= KEEP_DELIVERIES
    decreases |log|
  {
    if |log| >= KEEP_DELIVERIES {
      var low := Lowest(log);
      assert Above(log, low) == log - {low};
      if |log| > KEEP_DELIVERIES {
        TopIsFifty(log - {low});
        forall d | d in log - {low} ensures Above(log - {low}, d) == Above(log, d) {}
        assert Top(log) == Top(log - {low});
      } else {
        forall d | d in log ensures |Above(log, d)| < KEEP_DELIVERIES {
          assert Above(log, d) <= log - {d};
          SubsetIsSmaller(Above(log, d), log - {d});
        }
        assert Top(log) == log;
      }
    }
  }

  /** Below the lowest of the newest fifty is exactly past fifty newer ones. */
  lemma BelowTheTop(log: set<DeliveryId>, low: DeliveryId, d: DeliveryId)
    requires low in Top(log) && (forall e | e in Top(log) :: low <= e) && d in log
    ensures d < low <==> |Above(log, d)| >= KEEP_DELIVERIES
  {
    if |Above(log, d)| < KEEP_DELIVERIES {
      assert d in Top(log);
    } else if d >= low {
      assert Above(log, d) <= Above(log, low);
      SubsetIsSmaller(Above(log, d), Above(log, low));
    }
  }

  /** With fewer than fifty in all, nothing has fifty newer. */
  lemma NothingToPrune(log: set<DeliveryId>)
    requires |Top(log)| < KEEP_DELIVERIES
    ensures forall d | d in log :: |Above(log, d)| < KEEP_DELIVERIES
  {
    TopIsFifty(log);
    forall d | d in log ensures |Above(log, d)| < KEEP_DELIVERIES {
      SubsetIsSmaller(Above(log, d), log);
    }
  }

  /** `min(keep)`. */
  method Min(some: set<DeliveryId>) returns (low: DeliveryId)
    requires some != {}
    ensures low in some && forall d | d in some :: low <= d
  {
    var first: DeliveryId := Pick(some);
    low := first;
    var todo := some - {first};
    while todo != {}
      invariant todo <= some && low in some && forall d: DeliveryId | d in some :: d in todo || low <= d
      decreases todo
    {
      var d: DeliveryId := Pick(todo);
      if d < low { low := d; }
      todo := todo - {d};
    }
  }

  lemma PrunableIsBelow(o: Outbox, hook: HookId)
    ensures Newest(o, hook) == Top(LogOf(o, hook))
    ensures forall d | d in LogOf(o, hook) :: Newer(o, d) == Above(LogOf(o, hook), d)
  {
    var log := LogOf(o, hook);
    forall d: DeliveryId | d in log ensures Newer(o, d) == Above(log, d) {
      assert forall e: DeliveryId :: e in Newer(o, d) <==> e in Above(log, d);
    }
    forall d: DeliveryId ensures d in Newest(o, hook) <==> d in Top(log) {}
  }

  /** `_prune`: finds the oldest of the newest fifty, and deletes what is done below it. */
  method PruneLog(o: Outbox, hook: HookId) returns (after: Outbox)
    ensures after == Prune(o, hook)
  {
    var keep := Newest(o, hook);
    PrunableIsBelow(o, hook);
    ghost var log := LogOf(o, hook);
    if |keep| < KEEP_DELIVERIES {
      NothingToPrune(log);
      assert Prunable(o, hook) == {};
      return o;
    }
    var low := Min(keep);
    var gone := set d | d in o.deliveries && o.deliveries[d].hook == hook && d < low
                        && o.deliveries[d].status != Pending;
    forall d: DeliveryId ensures d in gone <==> d in Prunable(o, hook) {
      if d in log { BelowTheTop(log, low, d); }
    }
    assert gone == Prunable(o, hook);
    after := o.(deliveries := o.deliveries - gone);
  }

  // --- Runs, step by step ---------------------------------------------------------------------

  lemma {:induction false} OneMoreStep(o: Outbox, events: seq<Event>, e: Event)
    requires AllAdmissible(o, events) && Admissible(After(o, events), e)
    ensures AllAdmissible(o, events + [e]) && After(o, events + [e]) == Step(After(o, events), e)
    decreases |events|
  {
    if events == [] {
      assert events + [e] == [e];
      assert [e][1..] == [];
    } else {
      assert (events + [e])[1..] == events[1..] + [e];
      OneMoreStep(Step(o, events[0]), events[1..], e);
    }
  }

  lemma OneMoreQueued(ids: map<HookId, DeliveryId>, some: set<HookId>, now: Time, h: HookId, id: DeliveryId)
    requires forall g, k | g in ids && k in ids && ids[g] == ids[k] :: g == k
    requires h in some && h !in ids && forall g | g in ids :: ids[g] < id
    ensures var more := ids[h := id];
            && (forall g, k | g in more && k in more && more[g] == more[k] :: g == k)
            && Queued(more, some, now) == Queued(ids, some, now)[id := Delivery(h, Pending, 0, Some(now), None, None)]
  {
  }

  /** The listeners not in `todo` have their row. */
  ghost predicate Queueing(start: Outbox, o: Outbox, ids: map<HookId, DeliveryId>, listeners: set<HookId>,
                           todo: set<HookId>)
  {
    && todo <= listeners && ids.Keys == listeners - todo
    && NewIds(start, ids, o.nextId)
    && o == start.(deliveries := start.deliveries + Queued(ids, listeners, start.now), nextId := o.nextId)
  }

  function RowFor(o: Outbox, h: HookId): Outbox {
    o.(deliveries := o.deliveries[o.nextId := Delivery(h, Pending, 0, Some(o.now), None, None)], nextId := o.nextId + 1)
  }

  lemma QueueOne(start: Outbox, o: Outbox, ids: map<HookId, DeliveryId>, listeners: set<HookId>, todo: set<HookId>,
                 h: HookId)
    requires Queueing(start, o, ids, listeners, todo) && h in todo
    ensures Queueing(start, RowFor(o, h), ids[h := o.nextId], listeners, todo - {h})
  {
    var id, row := o.nextId, Delivery(h, Pending, 0, Some(o.now), None, None);
    OneMoreQueued(ids, listeners, start.now, h, id);
    RowAdded(start.deliveries, Queued(ids, listeners, start.now), id, row);
    IdGiven(start, ids, h, id);
    assert ids[h := id].Keys == listeners - (todo - {h});
  }

  lemma RowAdded(rows: map<DeliveryId, Delivery>, queued: map<DeliveryId, Delivery>, id: DeliveryId, row: Delivery)
    ensures rows + queued[id := row] == (rows + queued)[id := row]
  {
  }

  lemma IdGiven(start: Outbox, ids: map<HookId, DeliveryId>, h: HookId, id: DeliveryId)
    requires NewIds(start, ids, id) && h !in ids
    ensures NewIds(start, ids[h := id], id + 1)
  {
  }

  /** How a send was answered: well or not, and how long that took. */
  datatype Answer = Answer(ok: bool, seconds: nat)

  function AnswerTo(answers: map<DeliveryId, Answer>, d: DeliveryId): Answer {
    if d in answers then answers[d] else Answer(false, 0)
  }

  /** The rows a tick has got to. */
  ghost function GotTo(events: seq<Event>): set<DeliveryId> {
    set i | 0 <= i < |events| && events[i].Reads? :: events[i].delivery
  }

  /** How many sends a run starts. */
  ghost function SendCount(o: Outbox, events: seq<Event>): nat
    requires AllAdmissible(o, events)
    decreases |events|
  {
    if events == [] then 0
    else
      var e := events[0];
      (if e.Reads? && Sends(o, e, e.delivery) then 1 else 0) + SendCount(Step(o, e), events[1..])
  }

  lemma {:induction false} OneMoreSend(o: Outbox, events: seq<Event>, e: Event)
    requires AllAdmissible(o, events) && AllAdmissible(o, events + [e]) && Admissible(After(o, events), e)
    ensures SendCount(o, events + [e]) ==
            SendCount(o, events) + (if e.Reads? && Sends(After(o, events), e, e.delivery) then 1 else 0)
    decreases |events|
  {
    if events == [] {
      assert events + [e] == [e];
      assert [e][1..] == [];
    } else {
      assert (events + [e])[1..] == events[1..] + [e];
      OneMoreSend(Step(o, events[0]), events[1..], e);
    }
  }

  lemma OneMoreGotTo(events: seq<Event>, e: Event)
    ensures GotTo(events + [e]) == GotTo(events) + if e.Reads? then {e.delivery} else {}
  {
    var more := events + [e];
    forall d: DeliveryId ensures d in GotTo(more) <==> d in GotTo(events) || (e.Reads? && d == e.delivery) {
      if d in GotTo(events) {
        var i :| 0 <= i < |events| && events[i].Reads? && events[i].delivery == d;
        assert more[i] == events[i];
      }
      if e.Reads? && d == e.delivery { assert more[|events|] == e; }
    }
  }

  /** A tick of this loop alone, with the rows in its hands still to get to. */
  ghost predicate Delivering(start: Outbox, w: WorkerId, o: Outbox, events: seq<Event>, claimed: set<DeliveryId>,
                             sends: int)
  {
    && Alone(o, w) && WorkerOf(o, w).selected == {} && WorkerOf(o, w).taken <= o.deliveries.Keys
    && AllAdmissible(start, events) && o == After(start, events)
    && (forall e | e in events :: (OfAWorker(e) && e.worker == w && !e.Stops?) || e.Wait? || e.Prunes?)
    && WorkerOf(o, w).taken <= claimed && GotTo(events) == claimed - WorkerOf(o, w).taken
    && sends == SendCount(start, events)
  }

  lemma TickStarts(o: Outbox, w: WorkerId)
    requires Alone(o, w) && Admissible(o, Selects(w))
    ensures Delivering(o, w, Claim(Select(o, w), w), [Selects(w), Claims(w)], Claimed(Select(o, w), w), 0)
  {
    AloneSelects(o, w);
    AloneSelects(Select(o, w), w);
    FirstStep(Select(o, w), Claims(w), []);
    FirstStep(o, Selects(w), [Claims(w)] + []);
    assert [Selects(w), Claims(w)] == [Selects(w)] + ([Claims(w)] + []);
    assert [Selects(w), Claims(w)][1..] == [Claims(w)] && [Claims(w)][1..] == [];
    assert SendCount(Select(o, w), [Claims(w)]) == SendCount(Claim(Select(o, w), w), []);
  }

  /** The steps a tick is made of once it has claimed, the row tried being there. */
  ghost predicate OfTheTick(o: Outbox, w: WorkerId, e: Event) {
    match e
    case Reads(v, d) => v == w && WorkerOf(o, w).trying.None? && d in WorkerOf(o, w).taken
    case Writes(v, _) =>
      v == w && WorkerOf(o, w).trying.Some? && WorkerOf(o, w).trying.value.delivery in o.deliveries
    case Wait(_) => true
    case Prunes(_) => true
    case _ => false
  }

  lemma RestStays(o: Outbox, w: WorkerId, e: Event)
    requires Alone(o, w) && OfTheTick(o, w, e) && WorkerOf(o, w).taken <= o.deliveries.Keys
    ensures WorkerOf(Step(o, e), w).selected == WorkerOf(o, w).selected
    ensures WorkerOf(Step(o, e), w).taken == WorkerOf(o, w).taken - if e.Reads? then {e.delivery} else {}
    ensures WorkerOf(Step(o, e), w).taken <= Step(o, e).deliveries.Keys
  {
    StepKeeps(o, e);
    forall k: DeliveryId | k in WorkerOf(Step(o, e), w).taken ensures k in Step(o, e).deliveries {
      assert Moves(o, e, Step(o, e), k);
    }
  }

  lemma StepOn(start: Outbox, w: WorkerId, o: Outbox, events: seq<Event>, claimed: set<DeliveryId>, sends: int,
               e: Event)
    requires Delivering(start, w, o, events, claimed, sends) && OfTheTick(o, w, e)
    ensures Delivering(start, w, Step(o, e), events + [e], claimed,
                       sends + if e.Reads? && Sends(o, e, e.delivery) then 1 else 0)
  {
    OneMoreStep(start, events, e);
    OneMoreSend(start, events, e);
    OneMoreGotTo(events, e);
    AloneKeeps(o, w, e);
    RestStays(o, w, e);
  }

  function Later(o: Outbox, seconds: nat): Outbox {
    o.(now := o.now + seconds)
  }

  /** The outbox once the loop has tried the row, its send taking its time, or has
    * failed it untried. */
  function GoneTo(o: Outbox, w: WorkerId, d: DeliveryId, a: Answer): Outbox
    requires d in o.deliveries
  {
    if CanSend(o, o.deliveries[d])
    then Prune(Write(Later(Read(o, w, d), a.seconds), w, a.ok), o.deliveries[d].hook)
    else Write(Read(o, w, d), w, a.ok)
  }

  ghost function RowEvents(o: Outbox, w: WorkerId, d: DeliveryId, a: Answer): seq<Event>
    requires d in o.deliveries
  {
    if CanSend(o, o.deliveries[d])
    then [Reads(w, d)] + [Wait(a.seconds)] + [Writes(w, a.ok)] + [Prunes(o.deliveries[d].hook)]
    else [Reads(w, d)] + [Writes(w, a.ok)]
  }

  /** Read and, after its time, written back: between two rows. */
  lemma TriedOn(start: Outbox, w: WorkerId, o: Outbox, events: seq<Event>, claimed: set<DeliveryId>, sends: int,
                d: DeliveryId, a: Answer)
    requires Delivering(start, w, o, events, claimed, sends) && d in WorkerOf(o, w).taken
    requires WorkerOf(o, w).trying.None? && CanSend(o, o.deliveries[d])
    ensures Delivering(start, w, GoneTo(o, w, d, a), events + RowEvents(o, w, d, a), claimed, sends + 1)
    ensures WorkerOf(GoneTo(o, w, d, a), w).taken == WorkerOf(o, w).taken - {d}
    ensures WorkerOf(GoneTo(o, w, d, a), w).trying.None?
  {
    var h := o.deliveries[d].hook;
    var read := Read(o, w, d);
    var later := Later(read, a.seconds);
    var written := Write(later, w, a.ok);
    var one := events + [Reads(w, d)];
    var two := one + [Wait(a.seconds)];
    var three := two + [Writes(w, a.ok)];
    StepOn(start, w, o, events, claimed, sends, Reads(w, d));
    StepOn(start, w, read, one, claimed, sends + 1, Wait(a.seconds));
    StepOn(start, w, later, two, claimed, sends + 1, Writes(w, a.ok));
    StepOn(start, w, written, three, claimed, sends + 1, Prunes(h));
    assert events + RowEvents(o, w, d, a) == three + [Prunes(h)];
  }

  lemma FailedOn(start: Outbox, w: WorkerId, o: Outbox, events: seq<Event>, claimed: set<DeliveryId>, sends: int,
                 d: DeliveryId, a: Answer)
    requires Delivering(start, w, o, events, claimed, sends) && d in WorkerOf(o, w).taken
    requires WorkerOf(o, w).trying.None? && !CanSend(o, o.deliveries[d])
    ensures Delivering(start, w, GoneTo(o, w, d, a), events + RowEvents(o, w, d, a), claimed, sends)
    ensures WorkerOf(GoneTo(o, w, d, a), w).taken == WorkerOf(o, w).taken - {d}
    ensures WorkerOf(GoneTo(o, w, d, a), w).trying.None?
  {
    var one := events + [Reads(w, d)];
    StepOn(start, w, o, events, claimed, sends, Reads(w, d));
    StepOn(start, w, Read(o, w, d), one, claimed, sends, Writes(w, a.ok));
    assert events + RowEvents(o, w, d, a) == one + [Writes(w, a.ok)];
  }

  // --- One row ------------------------------------------------------------------------------------

  function Released(o: Outbox, w: WorkerId, d: DeliveryId): Outbox {
    o.(workers := o.workers[w := WorkerOf(o, w).(taken := WorkerOf(o, w).taken - {d})])
  }

  /** The outbox between a try and the pruning, with nothing written in between. */
  function Sent(o: Outbox, d: DeliveryId, ok: bool, at: Time): Outbox
    requires d in o.deliveries && o.deliveries[d].hook in o.hooks
  {
    var row := o.deliveries[d];
    o.(deliveries := o.deliveries[d := Tried(row, ok, at)],
       hooks := o.hooks[row.hook := Judged(o.hooks[row.hook], row, ok)])
  }

  /** `_attempt`: one try, and then the hook's log is pruned. */
  function Attempt(o: Outbox, d: DeliveryId, ok: bool, at: Time): Outbox
    requires d in o.deliveries && o.deliveries[d].hook in o.hooks
  {
    Prune(Sent(o, d, ok, at), o.deliveries[d].hook)
  }

  /** With nothing in between, a try is read and written back as if at once. */
  lemma GoneToAtOnce(o: Outbox, w: WorkerId, d: DeliveryId, a: Answer)
    requires w in o.workers && d in WorkerOf(o, w).taken && d in o.deliveries && WorkerOf(o, w).trying.None?
    ensures var at, rest := WorkerOf(o, w).at, Released(o, w, d);
            GoneTo(o, w, d, a) ==
              if CanSend(o, o.deliveries[d]) then Attempt(Later(rest, a.seconds), d, a.ok, at)
              else rest.(deliveries := o.deliveries[d := Dropped(o.deliveries[d], at)])
  {
    var at, row := WorkerOf(o, w).at, o.deliveries[d];
    SavedUndisturbed(row, Dropped(row, at));
    SavedUndisturbed(row, Tried(row, a.ok, at));
    var rest, read := Released(o, w, d), Read(o, w, d);
    assert Write(read, w, a.ok).workers == rest.workers;
    assert Write(Later(read, a.seconds), w, a.ok).workers == rest.workers;
  }

  class Webhooks {
    var now: Time
    var hooks: map<HookId, Hook>
    var deliveries: map<DeliveryId, Delivery>
    var archived: set<TeamId>
    var nextId: DeliveryId
    var workers: map<WorkerId, Worker>

    constructor ()
      ensures Here() == EMPTY
    {
      now, hooks, deliveries, archived, nextId, workers := 0, map[], map[], {}, 1, map[];
    }

    function Here(): Outbox
      reads this
    {
      Outbox(now, hooks, deliveries, archived, nextId, workers)
    }

    /** `emit`: one row for every listener; answers how many. */
    method EmitEvent(team: TeamId, kind: Kind, only: Option<HookId>)
        returns (count: nat, ghost ids: map<HookId, DeliveryId>)
      modifies this`deliveries, this`nextId
      ensures NewIds(old(Here()), ids, nextId) && ids.Keys == Listeners(old(Here()), team, kind, only)
      ensures Here() == Emit(old(Here()), team, kind, only, ids, nextId)
      ensures count == |Listeners(old(Here()), team, kind, only)|
    {
      var listeners := Listeners(Here(), team, kind, only);
      count := |listeners|;
      var todo := listeners;
      ids := map[];
      while todo != {}
        invariant Queueing(old(Here()), Here(), ids, listeners, todo)
        decreases todo
        modifies this`deliveries, this`nextId
      {
        var h: HookId := Pick(todo);
        QueueOne(old(Here()), Here(), ids, listeners, todo, h);
        ids := ids[h := nextId];
        deliveries := deliveries[nextId := Delivery(h, Pending, 0, Some(now), None, None)];
        nextId := nextId + 1;
        todo := todo - {h};
      }
    }

    /** The start of a tick: what is due, and of that what nobody holds. */
    method ClaimDue(w: WorkerId)
      modifies this`deliveries, this`workers
      ensures Here() == Claim(Select(old(Here()), w), w)
    {
      var due := Due(Here());
      var taken := set d | d in due && Claimable(deliveries[d], now);
      deliveries := map d | d in deliveries ::
        if d in taken then deliveries[d].(claimedUntil := Some(now + CLAIM_FOR)) else deliveries[d];
      workers := workers[w := Worker(now, {}, taken, None)];
      assert taken == Claimed(Select(old(Here()), w), w);
    }

    /** `_attempt`, in a tick that started `at`, given whether the send was answered
      * with a 2xx. */
    method TryOne(d: DeliveryId, ok: bool, at: Time)
      requires d in deliveries && deliveries[d].hook in hooks
      modifies this`deliveries, this`hooks
      ensures Here() == Attempt(old(Here()), d, ok, at)
    {
      var row := deliveries[d];
      var hook := hooks[row.hook];
      row := row.(attempts := row.attempts + 1);
      row := row.(claimedUntil := None);
      if ok {
        row := row.(status := Succeeded, nextAt := None, completedAt := Some(at));
        hook := hook.(failures := 0);
      } else if row.attempts < MAX_ATTEMPTS {
        row := row.(nextAt := Some(at + BACKOFF[row.attempts - 1]));
      } else {
        row := row.(status := Failed, nextAt := None, completedAt := Some(at));
        hook := hook.(failures := hook.failures + 1);
        if hook.failures >= DISABLE_AFTER { hook := hook.(isEnabled := false); }
      }
      deliveries := deliveries[d := row];
      hooks := hooks[row.hook := hook];
      var after := PruneLog(Here(), row.hook);
      deliveries := after.deliveries;
    }

    /** One claimed row: tried, which takes its time, or failed without a try. */
    method GetTo(w: WorkerId, d: DeliveryId, a: Answer) returns (tried: bool)
      requires w in workers && d in workers[w].taken && d in deliveries && workers[w].trying.None?
      modifies this`deliveries, this`hooks, this`workers, this`now
      ensures Here() == GoneTo(old(Here()), w, d, a)
      ensures tried <==> Sends(old(Here()), Reads(w, d), d)
    {
      GoneToAtOnce(Here(), w, d, a);
      var at := workers[w].at;
      workers := workers[w := workers[w].(taken := workers[w].taken - {d})];
      var row := deliveries[d];
      tried := row.hook in hooks && hooks[row.hook].isEnabled && hooks[row.hook].team !in archived;
      if tried {
        now := now + a.seconds;
        TryOne(d, a.ok, at);
      } else {
        deliveries := deliveries[d := row.(status := Failed, nextAt := None, completedAt := Some(at))];
      }
    }

    /** `deliver_due` of one loop alone, with no request coming between: the claim and
      * then each row, while time passes. Answers how many it tried to send. */
    method DeliverDue(w: WorkerId, answers: map<DeliveryId, Answer>) returns (attempted: int, ghost events: seq<Event>)
      requires Alone(Here(), w) && Admissible(Here(), Selects(w))
      modifies this`deliveries, this`hooks, this`workers, this`now
      ensures WorkerOf(Here(), w).taken == {} && WorkerOf(Here(), w).trying.None?
      ensures Delivering(old(Here()), w, Here(), events, Claimed(Select(old(Here()), w), w), attempted)
    {
      ghost var start := Here();
      ghost var claimed := Claimed(Select(start, w), w);
      TickStarts(start, w);
      ClaimDue(w);
      events, attempted := [Selects(w), Claims(w)], 0;
      while WorkerOf(Here(), w).taken != {}
        invariant Delivering(start, w, Here(), events, claimed, attempted) && WorkerOf(Here(), w).trying.None?
        decreases WorkerOf(Here(), w).taken
        modifies this`deliveries, this`hooks, this`workers, this`now
      {
        var d: DeliveryId := Pick(WorkerOf(Here(), w).taken);
        var a := AnswerTo(answers, d);
        ghost var before := Here();
        var tried := GetTo(w, d, a);
        if tried {
          TriedOn(start, w, before, events, claimed, attempted, d, a);
          attempted := attempted + 1;
        } else {
          FailedOn(start, w, before, events, claimed, attempted, d, a);
        }
        events := events + RowEvents(before, w, d, a);
      }
    }

    method UpdateWebhook(h: HookId, newEvents: Option<set<Kind>>, enable: Option<bool>)
      requires h in hooks
      modifies this`hooks
      ensures Here() == Step(old(Here()), UpdateHook(h, newEvents, enable))
    {
      var hook := hooks[h];
      if newEvents.Some? { hook := hook.(events := newEvents.value); }
      if enable.Some? {
        if enable.value && !hook.isEnabled { hook := hook.(failures := 0); }
        hook := hook.(isEnabled := enable.value);
      }
      hooks := hooks[h := hook];
    }
  }
}
