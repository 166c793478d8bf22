/**
 * Notification digests (lib_softtrack/digest.py): any number of workers
 * select, claim and send at once, and nobody is told the same thing twice.
 * Every statement of a worker is one step, and steps of different workers
 * and of other requests come in any order. Times are in minutes.
 */
module Digest {
  import opened Prelude
  import opened Sql

  type UserId = int
  type NoteId = int
  type WorkerId = int
  type Time = int

  datatype Note = Note(user: UserId, createdAt: Time, readAt: Option<Time>, emailedAt: Option<Time>, byEmail: bool)

  datatype Mail = Mail(user: UserId, notes: set<NoteId>)

  /** One call of `mailer.send`, and whether it went through. */
  datatype Sending = Sending(mail: Mail, delivered: bool)

  /** A worker between two statements: when its tick began, the batches it
    * selected and has not got to, and the one it has claimed and not yet sent. */
  datatype Worker = Worker(at: Time, todo: map<UserId, set<NoteId>>, mine: Option<Mail>)

  const IDLE := Worker(0, map[], None)

  datatype World = World(
    now: Time,
    notes: map<NoteId, Note>,
    active: set<UserId>,
    nextId: NoteId,
    workers: map<WorkerId, Worker>,
    sendings: seq<Sending>)

  // --- The statements of a worker -------------------------------------------------------------

  /** The `WHERE` of the selection: not mailed, not read, settled and wanted by email. */
  predicate Waiting(w: World, n: NoteId, delay: int)
    requires n in w.notes
  {
    var note := w.notes[n];
    Selected(And(IsNull(note.emailedAt),
             And(IsNull(note.readAt),
             And(Is(note.createdAt <= w.now - delay),
             And(Is(note.byEmail), Is(note.user in w.active))))))
  }

  function WaitingUsers(w: World, delay: int): set<UserId> {
    set n | n in w.notes && Waiting(w, n, delay) :: w.notes[n].user
  }

  function WaitingFor(w: World, user: UserId, delay: int): set<NoteId> {
    set n | n in w.notes && Waiting(w, n, delay) && w.notes[n].user == user
  }

  /** `by_user`. */
  function Batches(w: World, delay: int): map<UserId, set<NoteId>> {
    map user | user in WaitingUsers(w, delay) :: WaitingFor(w, user, delay)
  }

  /** A batch holds exactly its person's notifications that are not mailed and not
    * read, old enough, wanted by email, and theirs to get. */
  lemma BatchesAreWhatWaits(w: World, delay: int, user: UserId, n: NoteId)
    ensures (user in Batches(w, delay) && n in Batches(w, delay)[user]) <==>
            && n in w.notes
            && var note := w.notes[n];
               && note.user == user && user in w.active && note.byEmail
               && note.emailedAt.None? && note.readAt.None? && note.createdAt + delay <= w.now
  {
    if n in w.notes && Waiting(w, n, delay) {
      assert w.notes[n].user in WaitingUsers(w, delay);
    }
  }

  function WorkerOf(w: World, id: WorkerId): Worker {
    if id in w.workers then w.workers[id] else IDLE
  }

  function Select(w: World, id: WorkerId, delay: int): World {
    w.(workers := w.workers[id := Worker(w.now, Batches(w, delay), None)])
  }

  /** `_claim`'s guard, in the `WHERE` of the update that stamps. */
  function Unclaimed(w: World, some: set<NoteId>): set<NoteId> {
    set n | n in some && n in w.notes && Selected(IsNull(w.notes[n].emailedAt))
  }

  function Stamped(notes: map<NoteId, Note>, some: set<NoteId>, now: Time): map<NoteId, Note> {
    map n | n in notes :: if n in some then notes[n].(emailedAt := Some(now)) else notes[n]
  }

  /** One person's batch claimed: the worker goes on with what it got. */
  function Claim(w: World, id: WorkerId, user: UserId): World {
    var worker := WorkerOf(w, id);
    if user !in worker.todo || worker.mine.Some? then w
    else
      var claimed := Unclaimed(w, worker.todo[user]);
      var mine := if claimed == {} then None else Some(Mail(user, claimed));
      w.(notes := Stamped(w.notes, claimed, worker.at),
         workers := w.workers[id := Worker(worker.at, worker.todo - {user}, mine)])
  }

  /** The mail goes out, or fails; either way the rows stay claimed. */
  function Send(w: World, id: WorkerId, delivered: bool): World {
    var worker := WorkerOf(w, id);
    match worker.mine
    case None => w
    case Some(mail) =>
      w.(workers := w.workers[id := worker.(mine := None)], sendings := w.sendings + [Sending(mail, delivered)])
  }

  // --- Runs -------------------------------------------------------------------------------------

  datatype Event =
    | Wait(minutes: nat)
    | Raises(note: NoteId, user: UserId, byEmail: bool)
    | Reads(note: NoteId)
    | Deletes(note: NoteId)
    | SetsActive(user: UserId, active: bool)
    | Selects(worker: WorkerId, delay: int)
    | Claims(worker: WorkerId, user: UserId)
    | Sends(worker: WorkerId, delivered: bool)
    | Stops(worker: WorkerId)

  /** Notifications get keys never used before. */
  predicate Admissible(w: World, e: Event) {
    e.Raises? ==> e.note >= w.nextId
  }

  function Step(w: World, e: Event): World {
    match e
    case Wait(minutes) => w.(now := w.now + minutes)
    case Raises(n, user, byEmail) => w.(notes := w.notes[n := Note(user, w.now, None, None, byEmail)], nextId := n + 1)
    case Reads(n) => if n in w.notes then w.(notes := w.notes[n := w.notes[n].(readAt := Some(w.now))]) else w
    case Deletes(n) => w.(notes := w.notes - {n})
    case SetsActive(user, active) => w.(active := if active then w.active + {user} else w.active - {user})
    case Selects(id, delay) => if WorkerOf(w, id).mine.Some? then w else Select(w, id, delay)
    case Claims(id, user) => Claim(w, id, user)
    case Sends(id, delivered) => Send(w, id, delivered)
    case Stops(id) => w.(workers := w.workers - {id})
  }

  /** Nobody can claim it any more: it was stamped, or is gone for good. */
  ghost predicate Spent(w: World, n: NoteId) {
    n < w.nextId && (n in w.notes ==> w.notes[n].emailedAt.Some?)
  }

  ghost predicate Theirs(w: World, n: NoteId, user: UserId) {
    n < w.nextId && (n in w.notes ==> w.notes[n].user == user && w.notes[n].byEmail)
  }

  ghost predicate MailKept(w: World, m: Mail) {
    m.notes != {} && forall n | n in m.notes :: Spent(w, n) && Theirs(w, n, m.user)
  }

  ghost predicate WorkerKept(w: World, worker: Worker) {
    && (forall user | user in worker.todo :: forall n | n in worker.todo[user] :: Theirs(w, n, user))
    && (worker.mine.Some? ==> MailKept(w, worker.mine.value))
  }

  /** Different mails, tried or about to be, tell of different things. */
  ghost predicate Apart(w: World) {
    && (forall i, j | 0 <= i < j < |w.sendings| :: w.sendings[i].mail.notes !! w.sendings[j].mail.notes)
    && (forall i, id | 0 <= i < |w.sendings| && id in w.workers && w.workers[id].mine.Some? ::
          w.sendings[i].mail.notes !! w.workers[id].mine.value.notes)
    && (forall a, b | a in w.workers && b in w.workers && a != b
                      && w.workers[a].mine.Some? && w.workers[b].mine.Some? ::
          w.workers[a].mine.value.notes !! w.workers[b].mine.value.notes)
  }

  ghost predicate Inv(w: World) {
    && (forall n | n in w.notes :: n < w.nextId)
    && (forall i | 0 <= i < |w.sendings| :: MailKept(w, w.sendings[i].mail))
    && (forall id | id in w.workers :: WorkerKept(w, w.workers[id]))
    && Apart(w)
  }

  /** Once spent, a notification stays spent, and it stays its person's. */
  ghost predicate Ages(w: World, after: World) {
    && w.nextId <= after.nextId
    && (forall n | n in after.notes :: n < after.nextId)
    && (forall n | n in after.notes && n < w.nextId ::
          n in w.notes && after.notes[n].user == w.notes[n].user && after.notes[n].byEmail == w.notes[n].byEmail
          && (w.notes[n].emailedAt.Some? ==> after.notes[n].emailedAt.Some?))
  }

  lemma MailAges(w: World, after: World, m: Mail)
    requires Ages(w, after) && MailKept(w, m)
    ensures MailKept(after, m)
  {
  }

  lemma WorkerAges(w: World, after: World, worker: Worker)
    requires Ages(w, after) && WorkerKept(w, worker)
    ensures WorkerKept(after, worker)
  {
  }

  lemma AgesKeep(w: World, after: World)
    requires Inv(w) && Ages(w, after) && after.sendings == w.sendings
    requires forall id | id in after.workers :: id in w.workers && after.workers[id] == w.workers[id]
    ensures Inv(after)
  {
  }

  lemma SelectKeeps(w: World, id: WorkerId, delay: int)
    requires Inv(w) && WorkerOf(w, id).mine.None?
    ensures Inv(Select(w, id, delay))
  {
  }

  /** What a claim gets, nobody has been told and nobody else has claimed. */
  lemma ClaimedIsNew(w: World, id: WorkerId, user: UserId, n: NoteId)
    requires Inv(w) && user in WorkerOf(w, id).todo && n in Unclaimed(w, WorkerOf(w, id).todo[user])
    ensures forall i | 0 <= i < |w.sendings| :: n !in w.sendings[i].mail.notes
    ensures forall other | other in w.workers && w.workers[other].mine.Some? :: n !in w.workers[other].mine.value.notes
  {
    assert !Spent(w, n);
    forall i | 0 <= i < |w.sendings| ensures n !in w.sendings[i].mail.notes { assert MailKept(w, w.sendings[i].mail); }
    forall other | other in w.workers && w.workers[other].mine.Some? ensures n !in w.workers[other].mine.value.notes {
      assert WorkerKept(w, w.workers[other]);
    }
  }

  lemma ClaimKeeps(w: World, id: WorkerId, user: UserId)
    requires Inv(w)
    ensures Inv(Claim(w, id, user))
  {
    var worker := WorkerOf(w, id);
    if user in worker.todo && worker.mine.None? {
      var claimed, after := Unclaimed(w, worker.todo[user]), Claim(w, id, user);
      assert WorkerKept(w, worker);
      assert Ages(w, after);
      forall n | n in claimed
        ensures forall i | 0 <= i < |w.sendings| :: n !in w.sendings[i].mail.notes
        ensures forall other | other in w.workers && w.workers[other].mine.Some? ::
                n !in w.workers[other].mine.value.notes
      {
        ClaimedIsNew(w, id, user, n);
      }
      forall i | 0 <= i < |w.sendings|
        ensures MailKept(after, w.sendings[i].mail) { MailAges(w, after, w.sendings[i].mail); }
      ClaimerKept(w, id, user);
      forall other | other in after.workers ensures WorkerKept(after, after.workers[other]) {
        if other != id { WorkerAges(w, after, w.workers[other]); }
      }
    }
  }

  lemma ClaimerKept(w: World, id: WorkerId, user: UserId)
    requires Inv(w) && user in WorkerOf(w, id).todo && WorkerOf(w, id).mine.None?
    ensures WorkerKept(Claim(w, id, user), WorkerOf(Claim(w, id, user), id))
  {
  }

  lemma SendKeeps(w: World, id: WorkerId, delivered: bool)
    requires Inv(w)
    ensures Inv(Send(w, id, delivered))
  {
  }

  lemma StepKeeps(w: World, e: Event)
    requires Inv(w) && Admissible(w, e)
    ensures Inv(Step(w, e)) && w.sendings <= Step(w, e).sendings
  {
    match e
    case Selects(id, delay) => if WorkerOf(w, id).mine.None? { SelectKeeps(w, id, delay); }
    case Claims(id, user) => ClaimKeeps(w, id, user);
    case Sends(id, delivered) => SendKeeps(w, id, delivered);
    case _ => AgesKeep(w, Step(w, e));
  }

  function After(w: World, events: seq<Event>): World
    decreases |events|
  {
    if events == [] then w else After(Step(w, events[0]), events[1..])
  }

  ghost predicate AllAdmissible(w: World, events: seq<Event>)
    decreases |events|
  {
    events == [] || (Admissible(w, events[0]) && AllAdmissible(Step(w, events[0]), events[1..]))
  }

  const EMPTY := World(0, map[], {}, 0, map[], [])

  lemma {:induction false} ReachableIsKept(w: World, events: seq<Event>)
    requires Inv(w) && AllAdmissible(w, events)
    ensures Inv(After(w, events))
    decreases |events|
  {
    if events != [] {
      StepKeeps(w, events[0]);
      ReachableIsKept(Step(w, events[0]), events[1..]);
    }
  }

  /** However many workers there are and however their statements fall between
    * one another, no notification is sent twice, whether the first time went
    * through or not, and every mail tells its reader only of their own, wanted
    * by email. */
  lemma NobodyIsToldTwice(events: seq<Event>, i: nat, j: nat)
    requires AllAdmissible(EMPTY, events)
    requires i < |After(EMPTY, events).sendings| && j < |After(EMPTY, events).sendings|
    ensures var w := After(EMPTY, events);
            && (i != j ==> w.sendings[i].mail.notes !! w.sendings[j].mail.notes)
            && w.sendings[i].mail.notes != {}
            && forall n | n in w.sendings[i].mail.notes && n in w.notes ::
                 && w.notes[n].user == w.sendings[i].mail.user
                 && w.notes[n].byEmail && w.notes[n].emailedAt.Some?
  {
    ReachableIsKept(EMPTY, events);
    var w := After(EMPTY, events);
    assert MailKept(w, w.sendings[i].mail);
    forall n | n in w.sendings[i].mail.notes ensures Spent(w, n) && Theirs(w, n, w.sendings[i].mail.user) {}
  }

  lemma {:induction false} SendingsOnlyGrow(w: World, events: seq<Event>)
    requires Inv(w) && AllAdmissible(w, events)
    ensures w.sendings <= After(w, events).sendings && Inv(After(w, events))
    decreases |events|
  {
    if events != [] {
      StepKeeps(w, events[0]);
      SendingsOnlyGrow(Step(w, events[0]), events[1..]);
    }
  }

  ghost predicate Delivered(w: World, n: NoteId) {
    exists i :: 0 <= i < |w.sendings| && w.sendings[i].delivered && n in w.sendings[i].mail.notes
  }

  /** A mail that failed is lost for good: whatever happens afterwards, nothing it
    * told of is ever delivered. */
  lemma LostForGood(w: World, events: seq<Event>, i: nat, n: NoteId)
    requires Inv(w) && AllAdmissible(w, events)
    requires i < |w.sendings| && !w.sendings[i].delivered && n in w.sendings[i].mail.notes
    ensures !Delivered(After(w, events), n)
  {
    SendingsOnlyGrow(w, events);
    var after := After(w, events);
    assert after.sendings[i] == w.sendings[i];
    forall j | 0 <= j < |after.sendings| && j != i ensures n !in after.sendings[j].mail.notes {
      assert if i < j then after.sendings[i].mail.notes !! after.sendings[j].mail.notes
             else after.sendings[j].mail.notes !! after.sendings[i].mail.notes;
    }
  }

  // --- One worker's tick -----------------------------------------------------------------------------

  lemma {:induction false} OneMoreStep(w: World, events: seq<Event>, e: Event)
    requires AllAdmissible(w, events) && Admissible(After(w, events), e)
    ensures AllAdmissible(w, events + [e]) && After(w, events + [e]) == Step(After(w, events), e)
    decreases |events|
  {
    if events == [] {
      assert events + [e] == [e];
      assert [e][1..] == [];
    } else {
      assert (events + [e])[1..] == events[1..] + [e];
      OneMoreStep(Step(w, events[0]), events[1..], e);
    }
  }

  /** The worker has made these steps of its tick, and has `todo` still to get to. */
  ghost predicate Ticking(start: World, w: World, id: WorkerId, events: seq<Event>) {
    && Inv(w) && AllAdmissible(start, events) && w == After(start, events)
    && WorkerOf(w, id).mine.None? && WorkerOf(w, id).at == start.now
    && (forall i | 0 <= i < |events| :: events[i].Selects? || events[i].Claims? || events[i].Sends?)
  }

  lemma FirstSelects(start: World, id: WorkerId, delay: int)
    requires Inv(start) && WorkerOf(start, id).mine.None?
    ensures Ticking(start, Select(start, id, delay), id, [Selects(id, delay)])
  {
  }

  /** One person of a tick: the claim, and the send of what it got. */
  function Served(w: World, id: WorkerId, user: UserId, delivered: bool): World {
    Send(Claim(w, id, user), id, delivered)
  }

  lemma ThenClaimsAndSends(start: World, w: World, id: WorkerId, events: seq<Event>, user: UserId, delivered: bool)
    requires Ticking(start, w, id, events) && user in WorkerOf(w, id).todo
    ensures Ticking(start, Served(w, id, user, delivered), id, events + [Claims(id, user)] + [Sends(id, delivered)])
    ensures WorkerOf(Served(w, id, user, delivered), id).todo == WorkerOf(w, id).todo - {user}
  {
    OneMoreStep(start, events, Claims(id, user));
    OneMoreStep(start, events + [Claims(id, user)], Sends(id, delivered));
    ClaimKeeps(w, id, user);
    SendKeeps(Claim(w, id, user), id, delivered);
  }

  /** A mail to its reader since the start tells of it, and went through exactly
    * if mail to them does not fail. */
  ghost predicate Told(start: World, w: World, failing: set<UserId>, n: NoteId, reader: UserId) {
    exists i :: |start.sendings| <= i < |w.sendings| && TellsOf(w.sendings[i], failing, n, reader)
  }

  ghost predicate TellsOf(sending: Sending, failing: set<UserId>, n: NoteId, reader: UserId) {
    n in sending.mail.notes && sending.mail.user == reader && (sending.delivered <==> reader !in failing)
  }

  /** What waited at the start still waits in a batch to come, or has been told. */
  ghost predicate OnItsWay(start: World, w: World, todo: map<UserId, set<NoteId>>, failing: set<UserId>,
                           n: NoteId, reader: UserId) {
    if reader in todo
    then n in todo[reader] && n in w.notes && w.notes[n].user == reader && w.notes[n].emailedAt.None?
    else Told(start, w, failing, n, reader)
  }

  /** The batches are of different people, so one being claimed leaves the others. */
  ghost predicate ByPerson(w: World, todo: map<UserId, set<NoteId>>) {
    forall user, n | user in todo && n in todo[user] && n in w.notes :: w.notes[n].user == user
  }

  lemma MailedOrWaiting(start: World, w: World, id: WorkerId, user: UserId, failing: set<UserId>, delivered: bool,
                        n: NoteId, reader: UserId)
    requires delivered <==> user !in failing
    requires user in WorkerOf(w, id).todo && WorkerOf(w, id).mine.None? && |start.sendings| <= |w.sendings|
    requires ByPerson(w, WorkerOf(w, id).todo)
    requires OnItsWay(start, w, WorkerOf(w, id).todo, failing, n, reader)
    ensures OnItsWay(start, Served(w, id, user, delivered), WorkerOf(w, id).todo - {user}, failing, n, reader)
  {
    var after := Served(w, id, user, delivered);
    if reader == user {
      assert n in Unclaimed(w, WorkerOf(w, id).todo[user]);
      assert TellsOf(after.sendings[|w.sendings|], failing, n, reader);
    } else if reader !in WorkerOf(w, id).todo {
      var i :| |start.sendings| <= i < |w.sendings| && TellsOf(w.sendings[i], failing, n, reader);
      assert after.sendings[i] == w.sendings[i];
    }
  }

  lemma PeopleStay(w: World, id: WorkerId, user: UserId, delivered: bool)
    requires ByPerson(w, WorkerOf(w, id).todo)
    ensures ByPerson(Served(w, id, user, delivered), WorkerOf(w, id).todo - {user})
  {
  }

  ghost predicate Progress(start: World, w: World, id: WorkerId, delay: int, failing: set<UserId>) {
    && |start.sendings| <= |w.sendings| && ByPerson(w, WorkerOf(w, id).todo)
    && forall n | n in start.notes && Waiting(start, n, delay) ::
         OnItsWay(start, w, WorkerOf(w, id).todo, failing, n, start.notes[n].user)
  }

  lemma AllOnTheirWay(start: World, id: WorkerId, delay: int, failing: set<UserId>)
    ensures Progress(start, Select(start, id, delay), id, delay, failing)
  {
    forall n: NoteId | n in start.notes && Waiting(start, n, delay)
      ensures OnItsWay(start, Select(start, id, delay), Batches(start, delay), failing, n, start.notes[n].user)
    {
      BatchesAreWhatWaits(start, delay, start.notes[n].user, n);
    }
  }

  lemma StillOnTheirWay(start: World, w: World, id: WorkerId, delay: int, failing: set<UserId>, user: UserId,
                        delivered: bool)
    requires delivered <==> user !in failing
    requires Progress(start, w, id, delay, failing) && user in WorkerOf(w, id).todo && WorkerOf(w, id).mine.None?
    ensures Progress(start, Served(w, id, user, delivered), id, delay, failing)
  {
    var after := Served(w, id, user, delivered);
    PeopleStay(w, id, user, delivered);
    assert WorkerOf(after, id).todo == WorkerOf(w, id).todo - {user};
    forall n: NoteId | n in start.notes && Waiting(start, n, delay)
      ensures OnItsWay(start, after, WorkerOf(w, id).todo - {user}, failing, n, start.notes[n].user)
    {
      MailedOrWaiting(start, w, id, user, failing, delivered, n, start.notes[n].user);
    }
    assert |after.sendings| >= |w.sendings|;
  }

  /** How many of these went through. */
  function Successes(sendings: seq<Sending>): nat {
    if sendings == [] then 0
    else Successes(sendings[..|sendings| - 1]) + (if sendings[|sendings| - 1].delivered then 1 else 0)
  }

  lemma OneMoreSending(before: seq<Sending>, sendings: seq<Sending>, more: Sending)
    requires before <= sendings
    ensures Successes((sendings + [more])[|before|..])
            == Successes(sendings[|before|..]) + (if more.delivered then 1 else 0)
  {
    var longer := (sendings + [more])[|before|..];
    assert longer[..|longer| - 1] == sendings[|before|..];
  }

  lemma {:induction false} SuccessesAddUp(start: seq<Sending>, before: seq<Sending>, after: seq<Sending>)
    requires start <= before <= after
    ensures Successes(after[|start|..]) == Successes(before[|start|..]) + Successes(after[|before|..])
    decreases |after|
  {
    if |after| == |before| {
      assert after == before;
    } else {
      var shorter := after[..|after| - 1];
      SuccessesAddUp(start, before, shorter);
      assert after == shorter + [after[|after| - 1]];
      OneMoreSending(start, shorter, after[|after| - 1]);
      OneMoreSending(before, shorter, after[|after| - 1]);
    }
  }

  /** A tick between two people, `sent` of its mails gone through so far. */
  ghost predicate Midway(start: World, w: World, id: WorkerId, delay: int, failing: set<UserId>, sent: int) {
    exists events ::
      && Ticking(start, w, id, events) && id in w.workers && Progress(start, w, id, delay, failing)
      && start.sendings <= w.sendings && sent == Successes(w.sendings[|start.sendings|..])
  }

  lemma OneServed(start: World, w: World, after: World, id: WorkerId, delay: int, failing: set<UserId>, sent: int,
                  user: UserId, delivered: bool)
    requires Midway(start, w, id, delay, failing, sent) && user in WorkerOf(w, id).todo
    requires after == Served(w, id, user, delivered) && (delivered <==> user !in failing)
    ensures WorkerOf(after, id).todo.Keys < WorkerOf(w, id).todo.Keys
    ensures Midway(start, after, id, delay, failing, sent + Successes(after.sendings[|w.sendings|..]))
  {
    var events :| Ticking(start, w, id, events);
    ThenClaimsAndSends(start, w, id, events, user, delivered);
    assert user !in WorkerOf(after, id).todo.Keys;
    StillOnTheirWay(start, w, id, delay, failing, user, delivered);
    SuccessesAddUp(start.sendings, w.sendings, after.sendings);
    assert Ticking(start, after, id, events + [Claims(id, user)] + [Sends(id, delivered)]);
  }

  lemma TickBegins(start: World, id: WorkerId, delay: int, failing: set<UserId>)
    requires Inv(start) && WorkerOf(start, id).mine.None?
    ensures Midway(start, Select(start, id, delay), id, delay, failing, 0)
  {
    FirstSelects(start, id, delay);
    AllOnTheirWay(start, id, delay, failing);
    assert Ticking(start, Select(start, id, delay), id, [Selects(id, delay)]);
  }

  /** Everything that waited at the start has been mailed since. */
  ghost predicate AllTold(start: World, w: World, delay: int, failing: set<UserId>) {
    forall n | n in start.notes && Waiting(start, n, delay) :: Told(start, w, failing, n, start.notes[n].user)
  }

  lemma TickEnds(start: World, w: World, id: WorkerId, delay: int, failing: set<UserId>, sent: int)
    requires Midway(start, w, id, delay, failing, sent) && WorkerOf(w, id).todo == map[]
    ensures AllTold(start, w, delay, failing)
  {
    forall n: NoteId | n in start.notes && Waiting(start, n, delay)
      ensures Told(start, w, failing, n, start.notes[n].user)
    {
      assert OnItsWay(start, w, WorkerOf(w, id).todo, failing, n, start.notes[n].user);
    }
  }

  class Mailroom {
    var now: Time
    var notes: map<NoteId, Note>
    var active: set<UserId>
    var nextId: NoteId
    var workers: map<WorkerId, Worker>
    var sendings: seq<Sending>

    constructor ()
      ensures Here() == EMPTY && Inv(Here())
    {
      now, notes, active, nextId, workers, sendings := 0, map[], {}, 0, map[], [];
    }

    function Here(): World
      reads this
    {
      World(now, notes, active, nextId, workers, sendings)
    }

    /** `_claim`: stamps the rows still unclaimed, and says which those were. */
    method ClaimRows(ids: set<NoteId>, at: Time) returns (claimed: set<NoteId>)
      modifies this`notes
      ensures claimed == Unclaimed(old(Here()), ids)
      ensures notes == Stamped(old(notes), claimed, at)
    {
      claimed := set n | n in ids && n in notes && notes[n].emailedAt.None?;
      forall n: NoteId ensures n in claimed <==> n in Unclaimed(old(Here()), ids) {}
      notes := map n | n in notes :: if n in claimed then notes[n].(emailedAt := Some(at)) else notes[n];
    }

    /** One person of a tick: claim what can be had, and mail it if that is
      * anything; `delivered` is the relay's answer. */
    method MailOne(id: WorkerId, user: UserId, delivered: bool) returns (sent: int)
      requires id in workers && workers[id].mine.None? && user in workers[id].todo
      modifies this`notes, this`workers, this`sendings
      ensures Here() == Served(old(Here()), id, user, delivered)
      ensures old(sendings) <= sendings && sent == Successes(sendings[|old(sendings)|..])
    {
      sent := 0;
      var worker := workers[id];
      var claimed := ClaimRows(worker.todo[user], worker.at);
      workers := workers[id := worker.(todo := worker.todo - {user})];
      if claimed != {} {
        ghost var mine := Worker(worker.at, worker.todo - {user}, Some(Mail(user, claimed)));
        assert workers == old(workers)[id := mine][id := mine.(mine := None)];
        sendings := sendings + [Sending(Mail(user, claimed), delivered)];
        if delivered { sent := 1; }
        OneMoreSending(old(sendings), old(sendings), Sending(Mail(user, claimed), delivered));
      }
    }

    /** The loop over `by_user`, from a tick of which `before` mails went through;
      * `failing` are the people mail to whom fails. */
    method ServeAll(id: WorkerId, delay: int, failing: set<UserId>, before: int, ghost start: World)
        returns (sent: int)
      requires Midway(start, Here(), id, delay, failing, before)
      modifies this`notes, this`workers, this`sendings
      ensures Midway(start, Here(), id, delay, failing, sent) && WorkerOf(Here(), id).todo == map[]
    {
      sent := before;
      while WorkerOf(Here(), id).todo != map[]
        invariant Midway(start, Here(), id, delay, failing, sent)
        decreases WorkerOf(Here(), id).todo.Keys
        modifies this`notes, this`workers, this`sendings
      {
        var user: UserId := Pick(WorkerOf(Here(), id).todo.Keys);
        var delivered := user !in failing;
        ghost var was := Here();
        var one := MailOne(id, user, delivered);
        OneServed(start, was, Here(), id, delay, failing, sent, user, delivered);
        sent := sent + one;
      }
    }

    /** `send_pending_digests`, with nothing coming between: its statements are
      * steps like any worker's, everything that waited is mailed, nothing is left
      * claimed and unsent, and the answer counts the mails that went through. */
    method SendPendingDigests(id: WorkerId, delay: int, failing: set<UserId>) returns (sent: int)
      requires Inv(Here()) && WorkerOf(Here(), id).mine.None?
      modifies this`notes, this`workers, this`sendings
      ensures Midway(old(Here()), Here(), id, delay, failing, sent)
      ensures WorkerOf(Here(), id).todo == map[] && AllTold(old(Here()), Here(), delay, failing)
    {
      ghost var start := Here();
      TickBegins(start, id, delay, failing);
      workers := workers[id := Worker(now, Batches(Here(), delay), None)];
      sent := ServeAll(id, delay, failing, 0, start);
      TickEnds(start, Here(), id, delay, failing, sent);
    }
  }
}
