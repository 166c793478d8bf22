/**
 * Webhook deliveries (lib_softtrack/outbound.py): queued in the same
 * transaction as the change they tell of, sent by delivery loops, retried with
 * growing waits, and pruned. A try is read in one step and written back in
 * another, for it sends in between; every other transaction is one step. Time,
 * other requests and other loops may come between the steps of a tick. A tick
 * reads the clock once, when it starts. Times are in seconds.
 */
module Outbound {
  import opened Prelude
  import opened Sql
  import opened Totals

  type HookId = int
  type DeliveryId = int
  type TeamId = int
  type WorkerId = int
  type Kind = int
  type Time = int

  const MAX_ATTEMPTS := 4
  const BACKOFF: seq<int> := [30, 5 * 60, 30 * 60]
  const DISABLE_AFTER := 5
  const KEEP_DELIVERIES := 50
  const CLAIM_FOR := 2 * 60
  const BATCH := 25
  const PING: Kind := 0

  datatype Status = Pending | Succeeded | Failed

  datatype Hook = Hook(team: TeamId, events: set<Kind>, isEnabled: bool, failures: nat)

  datatype Delivery = Delivery(
    hook: HookId,
    status: Status,
    attempts: nat,
    nextAt: Option<Time>,
    claimedUntil: Option<Time>,
    completedAt: Option<Time>)

  /** A row being tried, and its hook, as they were read before the send, and
    * whether there was anybody to send to. */
  datatype Trying = Trying(delivery: DeliveryId, row: Delivery, hook: Hook, canSend: bool)

  /** A loop between two statements: when its tick started, the rows it has
    * selected and not yet claimed, those it has claimed and not yet got to, and
    * the one it has read and not yet written back. */
  datatype Worker = Worker(at: Time, selected: set<DeliveryId>, taken: set<DeliveryId>, trying: Option<Trying>)

  const RESTING := Worker(0, {}, {}, None)

  datatype Outbox = Outbox(
    now: Time,
    hooks: map<HookId, Hook>,
    deliveries: map<DeliveryId, Delivery>,
    archived: set<TeamId>,
    nextId: DeliveryId,
    workers: map<WorkerId, Worker>)

  function WorkerOf(o: Outbox, w: WorkerId): Worker {
    if w in o.workers then o.workers[w] else RESTING
  }

  // --- Queueing ---------------------------------------------------------------------------

  /** The enabled hooks of the team that want the event. */
  function Listeners(o: Outbox, team: TeamId, kind: Kind, only: Option<HookId>): set<HookId> {
    if team in o.archived then {}
    else set h | h in o.hooks && o.hooks[h].team == team && o.hooks[h].isEnabled
                 && (only.Some? ==> h == only.value) && (kind == PING || kind in o.hooks[h].events)
  }

  ghost predicate NewIds(o: Outbox, ids: map<HookId, DeliveryId>, last: DeliveryId) {
    && (forall h | h in ids :: o.nextId <= ids[h] < last)
    && (forall g, h | g in ids && h in ids && ids[g] == ids[h] :: g == h)
    && o.nextId <= last
  }

  /** The rows queued for `some` of the listeners, under the keys they are given. */
  function Queued(ids: map<HookId, DeliveryId>, some: set<HookId>, now: Time): map<DeliveryId, Delivery>
    requires forall g, h | g in ids && h in ids && ids[g] == ids[h] :: g == h
  {
    map h | h in some && h in ids :: ids[h] := Delivery(h, Pending, 0, Some(now), None, None)
  }

  /** `emit`. */
  function Emit(o: Outbox, team: TeamId, kind: Kind, only: Option<HookId>,
                ids: map<HookId, DeliveryId>, last: DeliveryId): Outbox
    requires forall g, h | g in ids && h in ids && ids[g] == ids[h] :: g == h
  {
    o.(deliveries := o.deliveries + Queued(ids, Listeners(o, team, kind, only), o.now), nextId := last)
  }

  // --- Claiming ---------------------------------------------------------------------------

  predicate IsDue(d: Delivery, now: Time) {
    d.status == Pending && Selected(AtMost(d.nextAt, now))
  }

  /** `ORDER BY id LIMIT 25`. */
  function Due(o: Outbox): set<DeliveryId> {
    set d | d in o.deliveries && IsDue(o.deliveries[d], o.now)
            && |set e | e in o.deliveries && IsDue(o.deliveries[e], o.now) && e < d| < BATCH
  }

  /** No due row left for later is older than one selected now, and no row is
    * selected that is done or not due yet. */
  lemma OldestFirst(o: Outbox, d: DeliveryId, e: DeliveryId)
    requires d in Due(o) && e in o.deliveries && e !in Due(o)
    ensures var row := o.deliveries[d]; row.status == Pending && row.nextAt.Some? && row.nextAt.value <= o.now
    ensures var row := o.deliveries[e];
            row.status == Pending && row.nextAt.Some? && row.nextAt.value <= o.now ==> d < e
  {
    var due := set k | k in o.deliveries && IsDue(o.deliveries[k], o.now);
    var before := set k | k in due && k < d;
    var ahead := set k | k in due && k < e;
    assert before == set k | k in o.deliveries && IsDue(o.deliveries[k], o.now) && k < d;
    assert ahead == set k | k in o.deliveries && IsDue(o.deliveries[k], o.now) && k < e;
    if IsDue(o.deliveries[e], o.now) && e < d {
      assert ahead <= before;
      SubsetIsSmaller(ahead, before);
    }
  }

  /** The selection a tick starts with, and the clock it goes by from then on. */
  function Select(o: Outbox, w: WorkerId): Outbox {
    o.(workers := o.workers[w := Worker(o.now, Due(o), {}, None)])
  }

  predicate Claimable(d: Delivery, now: Time) {
    Selected(Or(IsNull(d.claimedUntil), Below(d.claimedUntil, now)))
  }

  function Claimed(o: Outbox, w: WorkerId): set<DeliveryId> {
    set d | d in WorkerOf(o, w).selected && d in o.deliveries && Claimable(o.deliveries[d], WorkerOf(o, w).at)
  }

  /** `_claim`: the rows nobody holds, whatever has become of them since. */
  function Claim(o: Outbox, w: WorkerId): Outbox {
    var claimed, at := Claimed(o, w), WorkerOf(o, w).at;
    o.(deliveries := map d | d in o.deliveries ::
         if d in claimed then o.deliveries[d].(claimedUntil := Some(at + CLAIM_FOR)) else o.deliveries[d],
       workers := o.workers[w := Worker(at, {}, claimed, None)])
  }

  /** A claim takes exactly the selected rows that are there and that nobody holds:
    * never claimed, or claimed until before the tick started. */
  lemma ClaimTakes(o: Outbox, w: WorkerId, d: DeliveryId)
    ensures d in WorkerOf(Claim(o, w), w).taken <==>
            && d in WorkerOf(o, w).selected && d in o.deliveries
            && (o.deliveries[d].claimedUntil.None? || o.deliveries[d].claimedUntil.value < WorkerOf(o, w).at)
    ensures d in o.deliveries ==>
              Claim(o, w).deliveries[d] == o.deliveries[d].(claimedUntil := Claim(o, w).deliveries[d].claimedUntil)
    ensures d in WorkerOf(Claim(o, w), w).taken ==>
              Claim(o, w).deliveries[d].claimedUntil == Some(WorkerOf(o, w).at + CLAIM_FOR)
  {
  }

  // --- Sending ----------------------------------------------------------------------------

  /** A row after one try, in a tick that started `at`. */
  function Tried(d: Delivery, ok: bool, at: Time): Delivery {
    var tried := d.(attempts := d.attempts + 1, claimedUntil := None);
    if ok then tried.(status := Succeeded, nextAt := None, completedAt := Some(at))
    else if tried.attempts < MAX_ATTEMPTS then tried.(nextAt := Some(at + BACKOFF[tried.attempts - 1]))
    else tried.(status := Failed, nextAt := None, completedAt := Some(at))
  }

  /** Its hook after that try: switched off once five in a row have failed every try. */
  function Judged(hook: Hook, d: Delivery, ok: bool): Hook {
    if ok then hook.(failures := 0)
    else if d.attempts + 1 < MAX_ATTEMPTS then hook
    else hook.(failures := hook.failures + 1, isEnabled := hook.isEnabled && hook.failures + 1 < DISABLE_AFTER)
  }

  function Newer(o: Outbox, d: DeliveryId): set<DeliveryId>
    requires d in o.deliveries
  {
    set e | e in o.deliveries && o.deliveries[e].hook == o.deliveries[d].hook && e > d
  }

  /** What pruning a hook's log takes away: everything done, past the newest fifty. */
  function Prunable(o: Outbox, hook: HookId): set<DeliveryId> {
    set d | d in o.deliveries && o.deliveries[d].hook == hook
            && o.deliveries[d].status != Pending && |Newer(o, d)| >= KEEP_DELIVERIES
  }

  function Prune(o: Outbox, hook: HookId): Outbox {
    o.(deliveries := o.deliveries - Prunable(o, hook))
  }

  /** The hook is there, switched on, and its team is not archived. */
  predicate CanSend(o: Outbox, d: Delivery) {
    d.hook in o.hooks && o.hooks[d.hook].isEnabled && o.hooks[d.hook].team !in o.archived
  }

  const NO_HOOK := Hook(0, {}, false, 0)

  function HookOf(o: Outbox, d: Delivery): Hook {
    if d.hook in o.hooks then o.hooks[d.hook] else NO_HOOK
  }

  /** The loop gets to a claimed row, whose status it does not ask, and reads it and
    * its hook. One deleted meanwhile ends the tick with an error. */
  function Read(o: Outbox, w: WorkerId, d: DeliveryId): Outbox {
    var worker := WorkerOf(o, w);
    if d !in worker.taken then o
    else if d !in o.deliveries then o.(workers := o.workers[w := Worker(worker.at, {}, {}, None)])
    else
      var row := o.deliveries[d];
      var trying := Trying(d, row, HookOf(o, row), CanSend(o, row));
      o.(workers := o.workers[w := worker.(taken := worker.taken - {d}, trying := Some(trying))])
  }

  /** Nobody to send to: the row fails without a try. */
  function Dropped(d: Delivery, at: Time): Delivery {
    d.(status := Failed, nextAt := None, completedAt := Some(at))
  }

  /** What the loop makes of the row it read. */
  function Ended(t: Trying, ok: bool, at: Time): Delivery {
    if t.canSend then Tried(t.row, ok, at) else Dropped(t.row, at)
  }

  /** A row written back: the columns that are not as they were read, over whatever
    * the row holds by then. */
  function Saved(current: Delivery, read: Delivery, ended: Delivery): Delivery {
    Delivery(
      current.hook,
      if ended.status != read.status then ended.status else current.status,
      if ended.attempts != read.attempts then ended.attempts else current.attempts,
      if ended.nextAt != read.nextAt then ended.nextAt else current.nextAt,
      if ended.claimedUntil != read.claimedUntil then ended.claimedUntil else current.claimedUntil,
      if ended.completedAt != read.completedAt then ended.completedAt else current.completedAt)
  }

  function SavedHook(current: Hook, read: Hook, judged: Hook): Hook {
    current.(
      failures := if judged.failures != read.failures then judged.failures else current.failures,
      isEnabled := if judged.isEnabled != read.isEnabled then judged.isEnabled else current.isEnabled)
  }

  function HooksSaved(hooks: map<HookId, Hook>, t: Trying, ok: bool): map<HookId, Hook> {
    if t.canSend && t.row.hook in hooks
    then hooks[t.row.hook := SavedHook(hooks[t.row.hook], t.hook, Judged(t.hook, t.row, ok))]
    else hooks
  }

  /** The end of `_attempt`, or of a row nobody is to be sent: row and hook written
    * in one transaction. A row deleted meanwhile ends the tick with an error. */
  function Write(o: Outbox, w: WorkerId, ok: bool): Outbox {
    var worker := WorkerOf(o, w);
    match worker.trying
    case None => o
    case Some(t) =>
      if t.delivery !in o.deliveries then o.(workers := o.workers[w := Worker(worker.at, {}, {}, None)])
      else
        var row := Saved(o.deliveries[t.delivery], t.row, Ended(t, ok, worker.at));
        o.(deliveries := o.deliveries[t.delivery := row],
           hooks := HooksSaved(o.hooks, t, ok),
           workers := o.workers[w := worker.(trying := None)])
  }

  /** Where nobody wrote in between, what is written back is what the loop made of it. */
  lemma SavedUndisturbed(read: Delivery, ended: Delivery)
    requires ended.hook == read.hook
    ensures Saved(read, read, ended) == ended
  {
  }

  // --- Runs --------------------------------------------------------------------------------

  datatype Event =
    | Wait(seconds: nat)
    | CreateHook(hook: HookId, team: TeamId, events: set<Kind>)
    | UpdateHook(hook: HookId, newEvents: Option<set<Kind>>, enable: Option<bool>)
    | DeleteHook(hook: HookId)
    | Archive(team: TeamId, archive: bool)
    | Emits(team: TeamId, kind: Kind, only: Option<HookId>, ids: map<HookId, DeliveryId>, last: DeliveryId)
    | Selects(worker: WorkerId)
    | Claims(worker: WorkerId)
    | Reads(worker: WorkerId, delivery: DeliveryId)
    | Writes(worker: WorkerId, ok: bool)
    | Prunes(hook: HookId)
    | Stops(worker: WorkerId)

  /** `update_webhook`: switching on starts the count afresh. */
  function UpdatedHook(hook: Hook, newEvents: Option<set<Kind>>, enable: Option<bool>): Hook {
    var listening := hook.(events := newEvents.GetOr(hook.events));
    match enable
    case None => listening
    case Some(on) => listening.(isEnabled := on, failures := if on && !hook.isEnabled then 0 else hook.failures)
  }

  /** New rows get keys never used before, and a loop ends a tick before the next and
    * a try before the next. A log may be pruned at any time, which is more often
    * than after each try. */
  ghost predicate Admissible(o: Outbox, e: Event) {
    match e
    case CreateHook(h, _, _) => h !in o.hooks
    case Emits(_, _, _, ids, last) => NewIds(o, ids, last)
    case Selects(w) => WorkerOf(o, w).selected == {} && WorkerOf(o, w).taken == {} && WorkerOf(o, w).trying.None?
    case Claims(w) => WorkerOf(o, w).taken == {} && WorkerOf(o, w).trying.None?
    case Reads(w, _) => WorkerOf(o, w).trying.None?
    case _ => true
  }

  function WithoutHook(deliveries: map<DeliveryId, Delivery>, h: HookId): map<DeliveryId, Delivery> {
    map d | d in deliveries && deliveries[d].hook != h :: deliveries[d]
  }

  ghost function Step(o: Outbox, e: Event): Outbox
    requires Admissible(o, e)
  {
    match e
    case Wait(seconds) => o.(now := o.now + seconds)
    case CreateHook(h, team, events) => o.(hooks := o.hooks[h := Hook(team, events, true, 0)])
    case UpdateHook(h, newEvents, enable) =>
      if h in o.hooks then o.(hooks := o.hooks[h := UpdatedHook(o.hooks[h], newEvents, enable)]) else o
    case DeleteHook(h) => o.(hooks := o.hooks - {h}, deliveries := WithoutHook(o.deliveries, h))
    case Archive(team, archive) => o.(archived := if archive then o.archived + {team} else o.archived - {team})
    case Emits(team, kind, only, ids, last) => Emit(o, team, kind, only, ids, last)
    case Selects(w) => Select(o, w)
    case Claims(w) => Claim(o, w)
    case Reads(w, d) => Read(o, w, d)
    case Writes(w, ok) => Write(o, w, ok)
    case Prunes(h) => Prune(o, h)
    case Stops(w) => o.(workers := o.workers - {w})
  }

  predicate OfAWorker(e: Event) {
    e.Selects? || e.Claims? || e.Reads? || e.Writes? || e.Stops?
  }

  // --- What every step keeps, for any number of loops -----------------------------------------

  /** Pending: fewer than four tries, a time for the next, and not completed. */
  ghost predicate RowKept(d: Delivery) {
    && (d.status == Pending ==> d.attempts < MAX_ATTEMPTS && d.nextAt.Some? && d.completedAt.None?)
    && (d.status != Pending ==> d.completedAt.Some?)
  }

  ghost predicate RowsKept(o: Outbox) {
    forall d | d in o.deliveries :: RowKept(o.deliveries[d]) && d < o.nextId && o.deliveries[d].hook in o.hooks
  }

  ghost predicate HooksKept(o: Outbox) {
    forall h | h in o.hooks && o.hooks[h].isEnabled :: o.hooks[h].failures < DISABLE_AFTER
  }

  /** The row was in order when it was read, and done rows have not become pending since. */
  ghost predicate TryingKept(o: Outbox, t: Trying) {
    && RowKept(t.row) && (t.canSend ==> t.hook.isEnabled) && t.delivery < o.nextId
    && (t.delivery in o.deliveries ==>
          && o.deliveries[t.delivery].hook == t.row.hook
          && (t.row.status != Pending ==> o.deliveries[t.delivery].status != Pending))
  }

  /** A tick started in the past, has claimed or is about to, and holds only keys given out. */
  ghost predicate WorkerKept(o: Outbox, w: Worker) {
    && 0 <= w.at <= o.now && (w.selected == {} || (w.taken == {} && w.trying.None?))
    && (forall d | d in w.selected || d in w.taken :: d < o.nextId)
    && (w.trying.Some? ==> TryingKept(o, w.trying.value) && w.trying.value.delivery !in w.taken)
  }

  ghost predicate WorkersKept(o: Outbox) {
    0 <= o.now && forall w | w in o.workers :: WorkerKept(o, o.workers[w])
  }

  ghost predicate Inv(o: Outbox) {
    RowsKept(o) && HooksKept(o) && WorkersKept(o)
  }

  /** The step writes back a try of this delivery, which is still there. */
  ghost predicate WritesBack(o: Outbox, e: Event, d: DeliveryId) {
    && e.Writes? && WorkerOf(o, e.worker).trying.Some?
    && WorkerOf(o, e.worker).trying.value.delivery == d && d in o.deliveries
  }

  /** What the step writes back. */
  ghost function TriedBy(o: Outbox, e: Event, d: DeliveryId): Trying
    requires WritesBack(o, e, d)
  {
    WorkerOf(o, e.worker).trying.value
  }

  /** The step finishes the row: not sent, sent well, or the last try by what was read. */
  ghost predicate Finishes(o: Outbox, e: Event, d: DeliveryId) {
    && WritesBack(o, e, d)
    && var t := TriedBy(o, e, d); !t.canSend || e.ok || t.row.attempts + 1 >= MAX_ATTEMPTS
  }

  /** Unless its hook is deleted, a row goes only when it is done and fifty of its
    * hook's are newer. */
  ghost predicate MayGo(o: Outbox, e: Event, d: DeliveryId)
    requires d in o.deliveries
  {
    || e == DeleteHook(o.deliveries[d].hook)
    || (e == Prunes(o.deliveries[d].hook) && o.deliveries[d].status != Pending && |Newer(o, d)| >= KEEP_DELIVERIES)
  }

  /** Done stays done, pending ends exactly by a step that finishes it, and only a try
    * written back changes more than the lease. */
  ghost predicate DeliveryMoves(o: Outbox, e: Event, d: DeliveryId, x: Delivery, y: Delivery) {
    && x.hook == y.hook
    && (x.status != Pending ==> y.status != Pending)
    && (x.status == Pending ==> (y.status != Pending <==> Finishes(o, e, d)))
    && (WritesBack(o, e, d) ==>
          y == Saved(x, TriedBy(o, e, d).row, Ended(TriedBy(o, e, d), e.ok, WorkerOf(o, e.worker).at)))
    && (!WritesBack(o, e, d) ==> y == x.(claimedUntil := y.claimedUntil))
  }

  ghost predicate Moves(o: Outbox, e: Event, after: Outbox, d: DeliveryId) {
    && o.nextId <= after.nextId
    && (d in o.deliveries && d in after.deliveries ==>
          DeliveryMoves(o, e, d, o.deliveries[d], after.deliveries[d]))
    && (d in o.deliveries && d !in after.deliveries ==> MayGo(o, e, d))
    && (d !in o.deliveries && d in after.deliveries ==>
          o.nextId <= d && after.deliveries[d].attempts == 0 && after.deliveries[d].status == Pending)
  }

  lemma EmitKeeps(o: Outbox, e: Event)
    requires Inv(o) && e.Emits? && Admissible(o, e)
    ensures Inv(Step(o, e)) && forall d :: Moves(o, e, Step(o, e), d)
  {
  }

  lemma SelectKeeps(o: Outbox, w: WorkerId)
    requires Inv(o)
    ensures Inv(Select(o, w)) && forall d :: Moves(o, Selects(w), Select(o, w), d)
  {
  }

  lemma ClaimKeeps(o: Outbox, w: WorkerId)
    requires Inv(o)
    ensures Inv(Claim(o, w)) && forall d :: Moves(o, Claims(w), Claim(o, w), d)
  {
  }

  lemma ReadKeeps(o: Outbox, w: WorkerId, d: DeliveryId)
    requires Inv(o) && WorkerOf(o, w).trying.None?
    ensures Inv(Read(o, w, d)) && forall k :: Moves(o, Reads(w, d), Read(o, w, d), k)
  {
  }

  lemma PruneKeeps(o: Outbox, h: HookId)
    requires Inv(o)
    ensures Inv(Prune(o, h)) && forall d :: Moves(o, Prunes(h), Prune(o, h), d)
  {
  }

  lemma RequestKeeps(o: Outbox, e: Event)
    requires Inv(o) && Admissible(o, e) && !e.Emits? && !e.Prunes? && (!OfAWorker(e) || e.Stops?)
    ensures Inv(Step(o, e)) && forall d :: Moves(o, e, Step(o, e), d)
  {
  }

  /** A row in order stays in order, and pending only ends by finishing. */
  lemma SavedKept(current: Delivery, t: Trying, ok: bool, at: Time)
    requires RowKept(current) && RowKept(t.row) && (t.row.status != Pending ==> current.status != Pending)
    ensures var y := Saved(current, t.row, Ended(t, ok, at));
            && RowKept(y) && (current.status != Pending ==> y.status != Pending)
            && (current.status == Pending ==>
                  (y.status != Pending <==> !t.canSend || ok || t.row.attempts + 1 >= MAX_ATTEMPTS))
  {
  }

  lemma SavedHookKept(current: Hook, t: Trying, ok: bool)
    requires t.canSend && t.hook.isEnabled && (current.isEnabled ==> current.failures < DISABLE_AFTER)
    ensures var h := SavedHook(current, t.hook, Judged(t.hook, t.row, ok));
            h.isEnabled ==> h.failures < DISABLE_AFTER
  {
  }

  lemma WriteMoves(o: Outbox, e: Event, d: DeliveryId)
    requires Inv(o) && e.Writes?
    ensures Moves(o, e, Write(o, e.worker, e.ok), d)
  {
    if WritesBack(o, e, d) {
      SavedKept(o.deliveries[d], TriedBy(o, e, d), e.ok, WorkerOf(o, e.worker).at);
    }
  }

  lemma WriteKeepsRows(o: Outbox, w: WorkerId, ok: bool)
    requires Inv(o)
    ensures RowsKept(Write(o, w, ok)) && HooksKept(Write(o, w, ok))
  {
    var trying := WorkerOf(o, w).trying;
    if trying.Some? && trying.value.delivery in o.deliveries {
      var t := trying.value;
      SavedKept(o.deliveries[t.delivery], t, ok, WorkerOf(o, w).at);
      if t.canSend && t.row.hook in o.hooks { SavedHookKept(o.hooks[t.row.hook], t, ok); }
    }
  }

  lemma WriteKeepsWorkers(o: Outbox, e: Event)
    requires Inv(o) && e.Writes?
    ensures WorkersKept(Write(o, e.worker, e.ok))
  {
    var after := Write(o, e.worker, e.ok);
    forall v | v in after.workers ensures WorkerKept(after, after.workers[v]) {
      if v in o.workers && o.workers[v].trying.Some? {
        WriteMoves(o, e, o.workers[v].trying.value.delivery);
      }
    }
  }

  /** Every step of any loop or request keeps the outbox in order, and moves every
    * delivery only so. */
  lemma StepKeeps(o: Outbox, e: Event)
    requires Inv(o) && Admissible(o, e)
    ensures Inv(Step(o, e)) && forall d :: Moves(o, e, Step(o, e), d)
  {
    match e
    case Emits(_, _, _, _, _) => EmitKeeps(o, e);
    case Selects(w) => SelectKeeps(o, w);
    case Claims(w) => ClaimKeeps(o, w);
    case Reads(w, d) => ReadKeeps(o, w, d);
    case Writes(w, ok) =>
      WriteKeepsRows(o, w, ok);
      WriteKeepsWorkers(o, e);
      forall d ensures Moves(o, e, Step(o, e), d) { WriteMoves(o, e, d); }
    case Prunes(h) => PruneKeeps(o, h);
    case _ => RequestKeeps(o, e);
  }

  ghost predicate AllAdmissible(o: Outbox, events: seq<Event>)
    decreases |events|
  {
    events == [] || (Admissible(o, events[0]) && AllAdmissible(Step(o, events[0]), events[1..]))
  }

  ghost function After(o: Outbox, events: seq<Event>): Outbox
    requires AllAdmissible(o, events)
    decreases |events|
  {
    if events == [] then o else After(Step(o, events[0]), events[1..])
  }

  lemma FirstStep(o: Outbox, e: Event, rest: seq<Event>)
    requires Admissible(o, e) && AllAdmissible(Step(o, e), rest)
    ensures AllAdmissible(o, [e] + rest) && After(o, [e] + rest) == After(Step(o, e), rest)
  {
    assert ([e] + rest)[1..] == rest;
  }

  const EMPTY := Outbox(0, map[], map[], {}, 1, map[])

  lemma {:induction false} ReachableIsKept(o: Outbox, events: seq<Event>)
    requires Inv(o) && AllAdmissible(o, events)
    ensures Inv(After(o, events)) && o.nextId <= After(o, events).nextId
    decreases |events|
  {
    if events != [] {
      StepKeeps(o, events[0]);
      assert Moves(o, events[0], Step(o, events[0]), 0);
      ReachableIsKept(Step(o, events[0]), events[1..]);
    }
  }

  // --- How long a retry waits --------------------------------------------------------------------

  /** The step starts to send this delivery. */
  ghost predicate Sends(o: Outbox, e: Event, d: DeliveryId) {
    && e.Reads? && e.delivery == d && d in WorkerOf(o, e.worker).taken
    && d in o.deliveries && CanSend(o, o.deliveries[d])
  }

  /** The step writes back a send that failed and is to be tried again. */
  ghost predicate PutsOff(o: Outbox, e: Event, d: DeliveryId) {
    WritesBack(o, e, d) && TriedBy(o, e, d).canSend && !Finishes(o, e, d)
  }

  /** Measured from its end, a failed try puts the next off by its backoff less the
    * age of the tick. So a retry waits as long as its backoff if and only if no time
    * has passed since the tick started, and is due again at once if and only if the
    * whole backoff has. */
  lemma RetryWaitsExactly(o: Outbox, e: Event, d: DeliveryId)
    requires Inv(o) && PutsOff(o, e, d) && o.deliveries[d] == TriedBy(o, e, d).row && o.deliveries[d].status == Pending
    ensures var backoff, age := BACKOFF[o.deliveries[d].attempts], o.now - WorkerOf(o, e.worker).at;
            && d in Step(o, e).deliveries
            && var next := Step(o, e).deliveries[d].nextAt;
            && next.Some? && next.value - o.now == backoff - age && age >= 0
            && (next.value - o.now >= backoff <==> o.now == WorkerOf(o, e.worker).at)
            && (IsDue(Step(o, e).deliveries[d], o.now) <==> age >= backoff)
  {
    var t, at := TriedBy(o, e, d), WorkerOf(o, e.worker).at;
    SavedUndisturbed(t.row, Ended(t, e.ok, at));
  }

  /** An outbox where this loop may start a tick that takes and can send the row. */
  ghost predicate Ready(o: Outbox, w: WorkerId, d: DeliveryId) {
    && Inv(o) && Admissible(o, Selects(w))
    && d in Due(o) && CanSend(o, o.deliveries[d]) && Claimable(o.deliveries[d], o.now)
  }

  /** A tick that takes the row and fails to send it after this many seconds. */
  function SlowTick(w: WorkerId, d: DeliveryId, seconds: nat): seq<Event> {
    [Selects(w), Claims(w), Wait(seconds), Reads(w, d), Writes(w, false)]
  }

  /** What the steps of a slow tick come to. */
  lemma LateTry(o: Outbox, w: WorkerId, d: DeliveryId, seconds: nat)
    requires Ready(o, w, d) && o.deliveries[d].attempts == 0
    ensures var claimed := Claim(Select(o, w), w);
            var after := Write(Read(claimed.(now := claimed.now + seconds), w, d), w, false);
            && after.now == o.now + seconds
            && d in after.deliveries && after.deliveries[d].nextAt == Some(o.now + BACKOFF[0])
  {
    var claimed := Claim(Select(o, w), w);
    assert d in Claimed(Select(o, w), w);
    var row := claimed.deliveries[d];
    SavedUndisturbed(row, Tried(row, false, o.now));
  }

  /** A try of the loop, from the read to the write. */
  lemma TryRuns(o: Outbox, w: WorkerId, d: DeliveryId, ok: bool)
    requires WorkerOf(o, w).trying.None?
    ensures AllAdmissible(o, [Reads(w, d), Writes(w, ok)])
    ensures After(o, [Reads(w, d), Writes(w, ok)]) == Write(Read(o, w, d), w, ok)
  {
    FirstStep(Read(o, w, d), Writes(w, ok), []);
    FirstStep(o, Reads(w, d), [Writes(w, ok)] + []);
    assert [Reads(w, d), Writes(w, ok)] == [Reads(w, d)] + ([Writes(w, ok)] + []);
  }

  /** The start of a tick, and what runs from then on. */
  lemma TickRuns(o: Outbox, w: WorkerId, seconds: nat, rest: seq<Event>)
    requires Admissible(o, Selects(w))
    requires AllAdmissible(Claim(Select(o, w), w).(now := o.now + seconds), rest)
    ensures var events := [Selects(w), Claims(w), Wait(seconds)] + rest;
            && AllAdmissible(o, events)
            && After(o, events) == After(Claim(Select(o, w), w).(now := o.now + seconds), rest)
  {
    FirstStep(Claim(Select(o, w), w), Wait(seconds), rest);
    FirstStep(Select(o, w), Claims(w), [Wait(seconds)] + rest);
    FirstStep(o, Selects(w), [Claims(w)] + ([Wait(seconds)] + rest));
    assert [Selects(w), Claims(w), Wait(seconds)] + rest == [Selects(w)] + ([Claims(w)] + ([Wait(seconds)] + rest));
  }

  lemma SlowTickRuns(o: Outbox, w: WorkerId, d: DeliveryId, seconds: nat)
    requires Ready(o, w, d) && o.deliveries[d].attempts == 0
    ensures AllAdmissible(o, SlowTick(w, d, seconds))
    ensures var after := After(o, SlowTick(w, d, seconds));
            && after.now == o.now + seconds
            && d in after.deliveries && after.deliveries[d].nextAt == Some(o.now + BACKOFF[0])
  {
    LateTry(o, w, d, seconds);
    TryRuns(Claim(Select(o, w), w).(now := o.now + seconds), w, d, false);
    TickRuns(o, w, seconds, [Reads(w, d), Writes(w, false)]);
    assert SlowTick(w, d, seconds) == [Selects(w), Claims(w), Wait(seconds)] + [Reads(w, d), Writes(w, false)];
  }

  // --- One loop alone ---------------------------------------------------------------------------------

  /** Only this loop's own steps, whatever else is asked in between. */
  predicate ByOne(e: Event, w: WorkerId) {
    OfAWorker(e) ==> e.worker == w
  }

  predicate AllByOne(events: seq<Event>, w: WorkerId) {
    forall e | e in events :: ByOne(e, w)
  }

  /** Alone, four tries are all, and done means none is to come. */
  ghost predicate OrderlyRow(d: Delivery) {
    d.attempts <= MAX_ATTEMPTS && (d.status != Pending ==> d.nextAt.None?)
  }

  ghost predicate InHand(o: Outbox, w: WorkerId, d: DeliveryId) {
    d in WorkerOf(o, w).selected || d in WorkerOf(o, w).taken
  }

  /** The row being tried is pending, and as it was read. */
  ghost predicate Undisturbed(o: Outbox, t: Trying) {
    t.row.status == Pending && (t.delivery in o.deliveries ==> o.deliveries[t.delivery] == t.row)
  }

  /** No other loop has anything in hand, and what this one has is pending. */
  ghost predicate Alone(o: Outbox, w: WorkerId) {
    && Inv(o)
    && (forall d | d in o.deliveries :: OrderlyRow(o.deliveries[d]))
    && (forall v | v in o.workers && v != w ::
          o.workers[v].selected == {} && o.workers[v].taken == {} && o.workers[v].trying.None?)
    && (forall d | d in o.deliveries && InHand(o, w, d) :: o.deliveries[d].status == Pending)
    && (WorkerOf(o, w).trying.Some? ==>
          && Undisturbed(o, WorkerOf(o, w).trying.value)
          && !InHand(o, w, WorkerOf(o, w).trying.value.delivery))
  }

  ghost predicate DoneStays(o: Outbox, after: Outbox, d: DeliveryId) {
    d in o.deliveries && d in after.deliveries && o.deliveries[d].status != Pending ==>
      after.deliveries[d] == o.deliveries[d]
  }

  lemma AloneReads(o: Outbox, w: WorkerId, d: DeliveryId)
    requires Alone(o, w) && WorkerOf(o, w).trying.None?
    ensures Alone(Read(o, w, d), w) && forall k :: DoneStays(o, Read(o, w, d), k)
  {
    ReadKeeps(o, w, d);
  }

  lemma AloneWrites(o: Outbox, w: WorkerId, ok: bool)
    requires Alone(o, w)
    ensures Alone(Write(o, w, ok), w) && forall k :: DoneStays(o, Write(o, w, ok), k)
  {
    StepKeeps(o, Writes(w, ok));
    if WorkerOf(o, w).trying.Some? {
      var t := WorkerOf(o, w).trying.value;
      SavedUndisturbed(t.row, Ended(t, ok, WorkerOf(o, w).at));
    }
  }

  lemma AloneSelects(o: Outbox, w: WorkerId)
    requires Alone(o, w) && WorkerOf(o, w).trying.None?
    ensures Alone(Select(o, w), w) && Alone(Claim(o, w), w)
    ensures forall k :: DoneStays(o, Select(o, w), k) && DoneStays(o, Claim(o, w), k)
  {
    SelectKeeps(o, w);
    ClaimKeeps(o, w);
  }

  lemma AlonePrunes(o: Outbox, w: WorkerId, h: HookId)
    requires Alone(o, w)
    ensures Alone(Prune(o, h), w) && forall k :: DoneStays(o, Prune(o, h), k)
  {
    PruneKeeps(o, h);
  }

  lemma AloneAsked(o: Outbox, w: WorkerId, e: Event)
    requires Alone(o, w) && Admissible(o, e) && ByOne(e, w) && !e.Prunes? && (!OfAWorker(e) || e.Stops?)
    ensures Alone(Step(o, e), w) && forall k :: DoneStays(o, Step(o, e), k)
  {
    StepKeeps(o, e);
  }

  /** With one loop, every step keeps that, and a row that is done stays as it is. */
  lemma AloneKeeps(o: Outbox, w: WorkerId, e: Event)
    requires Alone(o, w) && Admissible(o, e) && ByOne(e, w)
    ensures Alone(Step(o, e), w) && forall d :: DoneStays(o, Step(o, e), d)
  {
    match e
    case Selects(_) => AloneSelects(o, w);
    case Claims(_) => AloneSelects(o, w);
    case Reads(_, d) => AloneReads(o, w, d);
    case Writes(_, ok) => AloneWrites(o, w, ok);
    case Prunes(h) => AlonePrunes(o, w, h);
    case _ => AloneAsked(o, w, e);
  }

  lemma {:induction false} ReachableAlone(o: Outbox, w: WorkerId, events: seq<Event>)
    requires Alone(o, w) && AllAdmissible(o, events) && AllByOne(events, w)
    ensures Alone(After(o, events), w)
    decreases |events|
  {
    if events != [] {
      AloneKeeps(o, w, events[0]);
      ReachableAlone(Step(o, events[0]), w, events[1..]);
    }
  }

  /** Succeeded and failed are final: while the row is there it says the same, and
    * once gone its key is never used again. */
  lemma {:induction false} DoneIsFinal(o: Outbox, w: WorkerId, events: seq<Event>, d: DeliveryId)
    requires Alone(o, w) && AllAdmissible(o, events) && AllByOne(events, w) && d < o.nextId
    requires d in o.deliveries ==> o.deliveries[d].status != Pending
    ensures d in After(o, events).deliveries ==>
              d in o.deliveries && After(o, events).deliveries[d] == o.deliveries[d]
    decreases |events|
  {
    if events != [] {
      var after := Step(o, events[0]);
      AloneKeeps(o, w, events[0]);
      StepKeeps(o, events[0]);
      assert Moves(o, events[0], after, d) && DoneStays(o, after, d);
      DoneIsFinal(after, w, events[1..], d);
    }
  }

  /** How often a run starts to send a delivery. */
  ghost function Tries(o: Outbox, events: seq<Event>, d: DeliveryId): nat
    requires AllAdmissible(o, events)
    decreases |events|
  {
    if events == [] then 0
    else (if Sends(o, events[0], d) then 1 else 0) + Tries(Step(o, events[0]), events[1..], d)
  }

  ghost predicate IsTrying(o: Outbox, w: WorkerId, d: DeliveryId) {
    WorkerOf(o, w).trying.Some? && WorkerOf(o, w).trying.value.delivery == d
  }

  /** A loop stops in the middle of trying the delivery, and what it did is not written. */
  ghost predicate Interrupts(o: Outbox, e: Event, d: DeliveryId) {
    e.Stops? && IsTrying(o, e.worker, d)
  }

  ghost function Interruptions(o: Outbox, events: seq<Event>, d: DeliveryId): nat
    requires AllAdmissible(o, events)
    decreases |events|
  {
    if events == [] then 0
    else (if Interrupts(o, events[0], d) then 1 else 0) + Interruptions(Step(o, events[0]), events[1..], d)
  }

  /** The tries a delivery has left. */
  function Left(d: Delivery): nat {
    if d.status == Pending && d.attempts < MAX_ATTEMPTS then MAX_ATTEMPTS - d.attempts else 0
  }

  function LeftOf(o: Outbox, d: DeliveryId): nat {
    if d in o.deliveries then Left(o.deliveries[d]) else 0
  }

  /** Those left that are not under way. */
  ghost function Unstarted(o: Outbox, w: WorkerId, d: DeliveryId): int {
    LeftOf(o, d) - if d in o.deliveries && IsTrying(o, w, d) then 1 else 0
  }

  /** A try started uses one up, and only an interruption gives one back. */
  lemma TryUsesOne(o: Outbox, w: WorkerId, e: Event, d: DeliveryId)
    requires Alone(o, w) && Admissible(o, e) && ByOne(e, w) && d < o.nextId
    ensures Unstarted(Step(o, e), w, d) + (if Sends(o, e, d) then 1 else 0)
            <= Unstarted(o, w, d) + (if Interrupts(o, e, d) then 1 else 0)
    ensures Unstarted(o, w, d) >= 0
  {
    StepKeeps(o, e);
    AloneKeeps(o, w, e);
    assert Moves(o, e, Step(o, e), d);
    if WritesBack(o, e, d) {
      var t := TriedBy(o, e, d);
      SavedUndisturbed(t.row, Ended(t, e.ok, WorkerOf(o, w).at));
    }
  }

  /** However often it fails and whatever else happens, one loop starts to send a
    * delivery at most as often as it has tries left, four times from the start, and
    * once more for every time it is stopped in the middle of one. */
  lemma {:induction false} TriedAtMostFour(o: Outbox, w: WorkerId, events: seq<Event>, d: DeliveryId)
    requires Alone(o, w) && AllAdmissible(o, events) && AllByOne(events, w) && d < o.nextId
    ensures Tries(o, events, d) <= Unstarted(o, w, d) + Interruptions(o, events, d)
    ensures Unstarted(o, w, d) <= LeftOf(o, d) <= MAX_ATTEMPTS
    decreases |events|
  {
    if events == [] {
      TryUsesOne(o, w, Wait(0), d);
    } else {
      TryUsesOne(o, w, events[0], d);
      AloneKeeps(o, w, events[0]);
      StepKeeps(o, events[0]);
      assert Moves(o, events[0], Step(o, events[0]), d);
      TriedAtMostFour(Step(o, events[0]), w, events[1..], d);
    }
  }

  ghost function AllLeft(o: Outbox): map<DeliveryId, int> {
    map d | d in o.deliveries :: Left(o.deliveries[d])
  }

  lemma {:induction false} SumFalls(keys: set<DeliveryId>, m: map<DeliveryId, int>, less: map<DeliveryId, int>,
                                    k: DeliveryId)
    requires keys <= m.Keys
    requires forall d | d in keys :: 0 <= At(less, d) <= m[d]
    requires k in keys ==> At(less, k) < m[k]
    ensures Sum(keys * less.Keys, less) + (if k in keys then 1 else 0) <= Sum(keys, m)
    decreases |keys|
  {
    if keys != {} {
      var d: DeliveryId := Any(keys);
      SumFalls(keys - {d}, m, less, k);
      SumRemove(keys, m, d);
      if d in less {
        SumRemove(keys * less.Keys, less, d);
        assert keys * less.Keys - {d} == (keys - {d}) * less.Keys;
      } else {
        assert keys * less.Keys == (keys - {d}) * less.Keys;
      }
    }
  }

  /** The tries left in the whole outbox strictly fall with every send written back. */
  lemma EverySendBringsTheEndNearer(o: Outbox, w: WorkerId, e: Event, d: DeliveryId)
    requires Alone(o, w) && ByOne(e, w) && WritesBack(o, e, d) && TriedBy(o, e, d).canSend
    ensures Total(AllLeft(Step(o, e))) < Total(AllLeft(o))
  {
    var m, less := AllLeft(o), AllLeft(Step(o, e));
    StepKeeps(o, e);
    forall k: DeliveryId ensures k in less ==> k in m && (k != d ==> less[k] == m[k]) {
      assert Moves(o, e, Step(o, e), k);
    }
    var t := TriedBy(o, e, d);
    SavedUndisturbed(t.row, Ended(t, e.ok, WorkerOf(o, w).at));
    SumFalls(m.Keys, m, less, d);
    assert m.Keys * less.Keys == less.Keys;
  }

  // --- Runs that go so ------------------------------------------------------------------------------------

  /** A first hook, and a ping queued for it. */
  const OPENING: seq<Event> := [CreateHook(1, 1, {}), Emits(1, PING, None, map[1 := 1], 2)]

  /** The outbox with nothing but one pending row of one hook, due now. */
  ghost predicate JustOpened(o: Outbox) {
    && o.now == 0 && o.hooks == map[1 := Hook(1, {}, true, 0)] && o.archived == {}
    && o.workers == map[] && o.nextId == 2
    && o.deliveries == map[1 := Delivery(1, Pending, 0, Some(0), None, None)]
  }

  lemma Opens()
    ensures AllAdmissible(EMPTY, OPENING) && JustOpened(After(EMPTY, OPENING))
  {
    var hooked := Step(EMPTY, OPENING[0]);
    FirstStep(hooked, OPENING[1], []);
    FirstStep(EMPTY, OPENING[0], [OPENING[1]] + []);
    assert OPENING == [OPENING[0]] + ([OPENING[1]] + []);
    assert 1 in Listeners(hooked, 1, PING, None);
    assert Step(hooked, OPENING[1]).deliveries.Keys == {1};
  }

  lemma JustOpenedIsReady(o: Outbox, w: WorkerId)
    requires JustOpened(o)
    ensures Ready(o, w, 1) && o.deliveries[1].attempts == 0 && Newer(o, 1) == {}
  {
    assert (set e | e in o.deliveries && IsDue(o.deliveries[e], o.now) && e < 1) == {};
  }

  /** A try a hundred seconds into its tick: the thirty seconds its retry was to wait
    * ended seventy seconds before it failed. */
  lemma RetriedTooSoon(w: WorkerId)
    ensures AllAdmissible(EMPTY, OPENING)
    ensures var o := After(EMPTY, OPENING);
            && AllAdmissible(o, SlowTick(w, 1, 100))
            && var after := After(o, SlowTick(w, 1, 100));
            && 1 in after.deliveries && after.deliveries[1].nextAt == Some(after.now - 70)
  {
    Opens();
    JustOpenedIsReady(After(EMPTY, OPENING), w);
    SlowTickRuns(After(EMPTY, OPENING), w, 1, 100);
  }
}
