/**
 * Where an account is signed in (lib_identity/sessions.py), and everything
 * that ends a session: the account's token version moving on (identity.py,
 * admin.py, password_reset.py), revoking, signing out, and time.
 *
 * Tokens are signed, so only those handed out can be presented; `minted`,
 * `halves` and `sent` are the ones handed out so far. Times are in minutes.
 */
module Sessions {
  import opened Prelude
  import opened Sql

  type UserId = int
  type SessionId = int
  type Secret = int
  type Time = int

  const IDLE_LIMIT := 30 * 24 * 60
  const KEEP_ENDED := 90 * 24 * 60
  const LAST_USED_RESOLUTION := 1
  const PENDING_MINUTES := 5

  datatype Account = Account(isActive: bool, isActivated: bool, version: nat, totp: bool)

  /** An `AuthSession` row. */
  datatype Row = Row(user: UserId, version: nat, expiresAt: Time, lastUsed: Time, endedAt: Option<Time>)

  /** A bearer token; without a session if it was signed before there were any. */
  datatype Token = Token(user: UserId, version: nat, sid: Option<SessionId>, expiresAt: Time)

  /** The half of a sign-in that has passed the password, not yet the code. */
  datatype Half = Half(user: UserId, version: nat, expiresAt: Time)

  /** A `PasswordReset` row, found by its secret. */
  datatype Link = Link(user: UserId, version: nat, expiresAt: Time)

  datatype World = World(
    now: Time,
    accounts: map<UserId, Account>,
    rows: map<SessionId, Row>,
    links: map<Secret, Link>,
    minted: set<Token>,
    halves: set<Half>,
    sent: set<Secret>)

  // --- What is live ---------------------------------------------------------------------

  /** `_is_live`. */
  predicate IsLive(row: Row, account: Account, now: Time) {
    && row.endedAt.None?
    && row.version == account.version
    && row.expiresAt > now
    && now - row.lastUsed < IDLE_LIMIT
  }

  /** `_live`, the same for a query joined to the account. */
  function LiveClause(row: Row, account: Account, now: Time): Truth {
    And(IsNull(row.endedAt),
        And(Is(row.version == account.version),
            And(Is(row.expiresAt > now), Is(row.lastUsed > now - IDLE_LIMIT))))
  }

  /** A session's row, and its account. */
  predicate LiveRow(w: World, sid: SessionId) {
    && sid in w.rows && w.rows[sid].user in w.accounts
    && IsLive(w.rows[sid], w.accounts[w.rows[sid].user], w.now)
  }

  /** `list_sessions`. */
  function ListSessions(w: World, user: UserId): set<SessionId> {
    set sid | sid in w.rows && w.rows[sid].user == user && user in w.accounts
              && Selected(LiveClause(w.rows[sid], w.accounts[user], w.now))
  }

  /** The list shows exactly the sessions that a request would be let in with. */
  lemma ListShowsTheLive(w: World, user: UserId, sid: SessionId)
    ensures sid in ListSessions(w, user) <==> LiveRow(w, sid) && w.rows[sid].user == user
  {
  }

  /** `get_current_user`: the token is let in. */
  predicate Accepts(w: World, t: Token) {
    && w.now <= t.expiresAt
    && t.user in w.accounts && w.accounts[t.user].isActive && w.accounts[t.user].version == t.version
    && (t.sid.Some? ==> LiveRow(w, t.sid.value) && w.rows[t.sid.value].user == t.user)
  }

  /** The pending token is still good for a code. */
  predicate AcceptsHalf(w: World, h: Half) {
    && w.now <= h.expiresAt && h.user in w.accounts
    && w.accounts[h.user].isActive && w.accounts[h.user].totp && w.accounts[h.user].version == h.version
  }

  /** The link would reset a password. */
  predicate AcceptsLink(w: World, s: Secret) {
    && s in w.links && w.links[s].user in w.accounts
    && w.accounts[w.links[s].user].isActive && w.links[s].expiresAt > w.now
    && w.links[s].version == w.accounts[w.links[s].user].version
  }

  // --- What the services write ------------------------------------------------------------

  /** Rows nobody has used for ninety days are swept. */
  function Swept(w: World, user: UserId): map<SessionId, Row> {
    map sid | sid in w.rows && !(w.rows[sid].user == user && w.rows[sid].lastUsed < w.now - KEEP_ENDED) :: w.rows[sid]
  }

  /** `start`: a new row and a token that carries it. */
  function Start(w: World, user: UserId, sid: SessionId, life: nat): World
    requires user in w.accounts
  {
    var version := w.accounts[user].version;
    w.(rows := Swept(w, user)[sid := Row(user, version, w.now + life, w.now, None)],
       minted := w.minted + {Token(user, version, Some(sid), w.now + life)})
  }

  /** `_current_row`. */
  predicate HasCurrentRow(w: World, t: Token) {
    t.sid.Some? && t.sid.value in w.rows && w.rows[t.sid.value].user == t.user
  }

  /** `reissue`: the row of the request is kept and moved on, or a new one started. */
  function Reissue(w: World, t: Token, sid: SessionId, life: nat): World
    requires t.user in w.accounts
  {
    if !HasCurrentRow(w, t) then Start(w, t.user, sid, life)
    else
      var version := w.accounts[t.user].version;
      w.(rows := w.rows[t.sid.value :=
        w.rows[t.sid.value].(version := version, lastUsed := w.now, expiresAt := w.now + life)],
         minted := w.minted + {Token(t.user, version, t.sid, w.now + life)})
  }

  function Bumped(w: World, user: UserId): World
    requires user in w.accounts
  {
    w.(accounts := w.accounts[user := w.accounts[user].(version := w.accounts[user].version + 1)])
  }

  /** `authenticate` notes that the session was used, at most once a minute. */
  function Used(w: World, t: Token): World {
    if Accepts(w, t) && t.sid.Some? && t.sid.value in w.rows
       && w.now - w.rows[t.sid.value].lastUsed >= LAST_USED_RESOLUTION
    then w.(rows := w.rows[t.sid.value := w.rows[t.sid.value].(lastUsed := w.now)])
    else w
  }

  function Ended(w: World, sid: SessionId): World
    requires sid in w.rows
  {
    w.(rows := w.rows[sid := w.rows[sid].(endedAt := Some(w.now))])
  }

  /** `issue_link`: the account's others, and any that ran out, are deleted. */
  function IssueLink(w: World, user: UserId, secret: Secret, life: nat): World
    requires user in w.accounts
  {
    var kept := map s | s in w.links && !(w.links[s].user == user || w.links[s].expiresAt < w.now) :: w.links[s];
    w.(links := kept[secret := Link(user, w.accounts[user].version, w.now + life)], sent := w.sent + {secret})
  }

  /** `reset_password` by a link: spent whether or not it worked. */
  function ResetByLink(w: World, secret: Secret): World {
    if secret !in w.links then w
    else if !AcceptsLink(w, secret) then w.(links := w.links - {secret})
    else
      var user := w.links[secret].user;
      var account := w.accounts[user];
      w.(links := w.links - {secret},
         accounts := w.accounts[user := account.(isActivated := true, version := account.version + 1)])
  }

  // --- Runs ---------------------------------------------------------------------------------

  /** What a signed-in request asks for; every one but `Use` moves the version on. */
  datatype Change = Use | SignOutEverywhere | ChangePassword | ConfirmTotp | DisableTotp

  datatype Event =
    | Wait(minutes: nat)
    | CreateAccount(user: UserId, activated: bool, secret: Secret, life: nat)
    | SignIn(user: UserId, passwordRight: bool, sid: SessionId, life: nat)
    | EnterCode(half: Half, codeRight: bool, sid: SessionId, life: nat)
    | Request(token: Token, change: Change, allowed: bool, sid: SessionId, life: nat)
    | Revoke(token: Token, other: SessionId)
    | SignOut(token: Token)
    | AskForLink(user: UserId, secret: Secret, life: nat)
    | ResetWithLink(secret: Secret)
    | SetActive(user: UserId, active: bool)
    | EndSessions(user: UserId)
    | AdminReset(user: UserId)
    | AdminClearTotp(user: UserId)

  /** Tokens presented were handed out; new keys were never used before. */
  ghost predicate Admissible(w: World, e: Event) {
    match e
    case CreateAccount(user, _, secret, _) => user !in w.accounts && secret !in w.sent
    case SignIn(_, _, sid, _) => NewSession(w, sid)
    case EnterCode(half, _, sid, _) => half in w.halves && NewSession(w, sid)
    case Request(token, _, _, sid, _) => token in w.minted && NewSession(w, sid)
    case Revoke(token, _) => token in w.minted
    case SignOut(token) => token in w.minted
    case AskForLink(_, secret, _) => secret !in w.sent
    case _ => true
  }

  ghost predicate NewSession(w: World, sid: SessionId) {
    sid !in w.rows && forall t | t in w.minted :: t.sid != Some(sid)
  }

  /** The account after a change a signed-in request makes. */
  function Changed(account: Account, change: Change): Account {
    match change
    case Use => account
    case ConfirmTotp => account.(totp := true, version := account.version + 1)
    case DisableTotp => account.(totp := false, version := account.version + 1)
    case _ => account.(version := account.version + 1)
  }

  /** The request's token is let in, and then it does what it is allowed to. */
  function Requested(w: World, t: Token, change: Change, allowed: bool, sid: SessionId, life: nat): World {
    if !Accepts(w, t) then w
    else
      var used := Used(w, t);
      if change == Use || !allowed || (change == DisableTotp && !w.accounts[t.user].totp) then used
      else Reissue(used.(accounts := used.accounts[t.user := Changed(used.accounts[t.user], change)]), t, sid, life)
  }

  /** An account without a chosen password has none that is right. */
  function SignedIn(w: World, user: UserId, passwordRight: bool, sid: SessionId, life: nat): World {
    if user !in w.accounts || !passwordRight || !w.accounts[user].isActivated || !w.accounts[user].isActive then w
    else if w.accounts[user].totp then
      w.(halves := w.halves + {Half(user, w.accounts[user].version, w.now + PENDING_MINUTES)})
    else Start(w, user, sid, life)
  }

  /** `update_user`: deactivating moves the version on, if it was active. */
  function ActiveSet(w: World, user: UserId, active: bool): World {
    if user !in w.accounts then w
    else
      var account := w.accounts[user];
      w.(accounts := w.accounts[user := account.(
        isActive := active,
        version := if !active && account.isActive then account.version + 1 else account.version)])
  }

  function Step(w: World, e: Event): World {
    match e
    case Wait(minutes) => w.(now := w.now + minutes)
    case CreateAccount(user, activated, secret, life) =>
      var created := w.(accounts := w.accounts[user := Account(true, activated, 0, false)]);
      if activated then created else IssueLink(created, user, secret, life)
    case SignIn(user, passwordRight, sid, life) => SignedIn(w, user, passwordRight, sid, life)
    case EnterCode(half, codeRight, sid, life) =>
      if AcceptsHalf(w, half) && codeRight then Start(w, half.user, sid, life) else w
    case Request(token, change, allowed, sid, life) => Requested(w, token, change, allowed, sid, life)
    case Revoke(token, other) =>
      if Accepts(w, token) && LiveRow(w, other) && w.rows[other].user == token.user
      then Ended(Used(w, token), other) else w
    case SignOut(token) =>
      if Accepts(w, token) && HasCurrentRow(w, token) && w.rows[token.sid.value].endedAt.None?
      then Ended(Used(w, token), token.sid.value) else w
    case AskForLink(user, secret, life) =>
      if user in w.accounts && w.accounts[user].isActive then IssueLink(w, user, secret, life) else w
    case ResetWithLink(secret) => ResetByLink(w, secret)
    case SetActive(user, active) => ActiveSet(w, user, active)
    case EndSessions(user) => if user in w.accounts && w.accounts[user].isActivated then Bumped(w, user) else w
    case AdminReset(user) => if user in w.accounts && w.accounts[user].isActivated then Bumped(w, user) else w
    case AdminClearTotp(user) =>
      if user in w.accounts then
        var w' := Bumped(w, user);
        w'.(accounts := w'.accounts[user := w'.accounts[user].(totp := false)])
      else w
  }

  // --- What every step keeps ------------------------------------------------------------------

  /** The version something was handed out at is not ahead of its account, and if
    * it is still the account's, the account is active and its owner's. */
  ghost predicate Current(w: World, user: UserId, version: nat) {
    && user in w.accounts && version <= w.accounts[user].version
    && (version == w.accounts[user].version ==> w.accounts[user].isActive)
  }

  ghost predicate TokenKept(w: World, t: Token) {
    && Current(w, t.user, t.version) && w.accounts[t.user].isActivated
    && (t.sid.Some? && t.sid.value in w.rows ==>
          w.rows[t.sid.value].user == t.user && t.version <= w.rows[t.sid.value].version)
  }

  ghost predicate RowKept(w: World, row: Row) {
    row.user in w.accounts && row.version <= w.accounts[row.user].version
  }

  ghost predicate HalfKept(w: World, h: Half) {
    && Current(w, h.user, h.version) && w.accounts[h.user].isActivated
    && (h.version == w.accounts[h.user].version ==> w.accounts[h.user].totp)
  }

  /** One link at most per account, and every link there is was sent. */
  ghost predicate LinkKept(w: World, s: Secret) {
    && s in w.links && s in w.sent && Current(w, w.links[s].user, w.links[s].version)
    && forall other | other in w.links && w.links[other].user == w.links[s].user :: other == s
  }

  ghost predicate Inv(w: World) {
    && (forall t | t in w.minted :: TokenKept(w, t))
    && (forall sid | sid in w.rows :: RowKept(w, w.rows[sid]))
    && (forall h | h in w.halves :: HalfKept(w, h))
    && (forall s | s in w.links :: LinkKept(w, s))
  }

  // What a step may do to each row of each table.

  ghost predicate AccountMoves(x: Account, y: Account) {
    && x.version <= y.version
    && (x.isActivated ==> y.isActivated)
    && (x.version == y.version ==> x.totp == y.totp && (x.isActive ==> y.isActive))
  }

  /** Nothing, unless it ends, is used while live, or is moved to a new version. */
  ghost predicate RowMoves(w: World, sid: SessionId, x: Row, y: Row) {
    && x.user == y.user
    && (|| y == x
        || (y.endedAt.Some? && y.version == x.version)
        || (LiveRow(w, sid) && y == x.(lastUsed := y.lastUsed))
        || (x.user in w.accounts && y.version > w.accounts[x.user].version && y.version >= x.version))
  }

  ghost predicate AccountsMove(w: World, after: World) {
    forall user | user in w.accounts :: user in after.accounts && AccountMoves(w.accounts[user], after.accounts[user])
  }

  ghost predicate RowsMove(w: World, after: World) {
    && (forall sid | sid in after.rows && sid in w.rows :: RowMoves(w, sid, w.rows[sid], after.rows[sid]))
    && (forall sid | sid in after.rows && sid !in w.rows :: NewSession(w, sid))
    && (forall sid | sid in after.rows :: RowKept(after, after.rows[sid]))
  }

  ghost predicate Fresh(w: World, user: UserId, version: nat) {
    && user in w.accounts && version == w.accounts[user].version
    && w.accounts[user].isActive && w.accounts[user].isActivated
  }

  ghost predicate TokensMove(w: World, after: World) {
    forall t | t in after.minted && t !in w.minted ::
      && Fresh(after, t.user, t.version)
      && (t.sid.Some? && t.sid.value in after.rows ==>
            after.rows[t.sid.value].user == t.user && after.rows[t.sid.value].version == t.version)
  }

  ghost predicate HalvesMove(w: World, after: World) {
    forall h | h in after.halves && h !in w.halves :: Fresh(after, h.user, h.version) && after.accounts[h.user].totp
  }

  ghost predicate LinksMove(w: World, after: World) {
    && w.sent <= after.sent
    && forall s | s in after.links ::
         || (s in w.links && after.links[s] == w.links[s])
         || (&& s !in w.sent && s in after.sent && Current(after, after.links[s].user, after.links[s].version)
             && forall other | other in after.links && after.links[other].user == after.links[s].user :: other == s)
  }

  ghost predicate Moves(w: World, after: World) {
    && w.now <= after.now && w.minted <= after.minted && w.halves <= after.halves
    && AccountsMove(w, after) && RowsMove(w, after)
    && TokensMove(w, after) && HalvesMove(w, after) && LinksMove(w, after)
  }

  lemma TokenStays(w: World, after: World, t: Token)
    requires Inv(w) && Moves(w, after) && t in w.minted
    ensures TokenKept(after, t)
  {
    assert TokenKept(w, t);
    assert AccountMoves(w.accounts[t.user], after.accounts[t.user]);
    if t.sid.Some? && t.sid.value in after.rows {
      var sid: SessionId := t.sid.value;
      assert sid in w.rows;
      assert RowMoves(w, sid, w.rows[sid], after.rows[sid]);
    }
  }

  lemma MovesKeepInv(w: World, after: World)
    requires Inv(w) && Moves(w, after)
    ensures Inv(after)
  {
    forall t | t in after.minted ensures TokenKept(after, t) {
      if t in w.minted {
        TokenStays(w, after, t);
      }
    }
    forall h | h in after.halves ensures HalfKept(after, h) {
      if h in w.halves { assert HalfKept(w, h); }
    }
    forall s | s in after.links ensures LinkKept(after, s) {
      if s in w.links && after.links[s] == w.links[s] { assert LinkKept(w, s); }
    }
  }

  // Each service, on a world it may be called in.

  lemma StartMoves(w: World, user: UserId, sid: SessionId, life: nat)
    requires Inv(w) && user in w.accounts && w.accounts[user].isActive && w.accounts[user].isActivated
             && NewSession(w, sid)
    ensures Moves(w, Start(w, user, sid, life))
  {
  }

  /** Using a session changes only when it was last used. */
  lemma UsedMoves(w: World, t: Token)
    requires Inv(w)
    ensures Moves(w, Used(w, t))
  {
  }

  lemma EndedMoves(w: World, t: Token, sid: SessionId)
    requires Inv(w) && sid in w.rows
    ensures sid in Used(w, t).rows && Moves(w, Ended(Used(w, t), sid))
  {
  }

  lemma IssueMoves(w: World, user: UserId, secret: Secret, life: nat)
    requires Inv(w) && secret !in w.sent && user in w.accounts && w.accounts[user].isActive
    ensures Moves(w, IssueLink(w, user, secret, life))
  {
  }

  lemma ResetMoves(w: World, secret: Secret)
    requires Inv(w)
    ensures Moves(w, ResetByLink(w, secret))
  {
  }

  lemma CreateMoves(w: World, user: UserId, activated: bool, secret: Secret, life: nat)
    requires Inv(w) && user !in w.accounts && secret !in w.sent
    ensures Moves(w, Step(w, CreateAccount(user, activated, secret, life)))
  {
  }

  lemma ChangeMovesRows(w: World, t: Token, change: Change, sid: SessionId, life: nat)
    requires Inv(w) && t in w.minted && NewSession(w, sid) && Accepts(w, t) && change != Use
    ensures RowsMove(w, Requested(w, t, change, true, sid, life))
            && TokensMove(w, Requested(w, t, change, true, sid, life))
  {
    assert TokenKept(w, t);
  }

  /** A signed-in request that moves the version on and takes its session along. */
  lemma ChangeMoves(w: World, t: Token, change: Change, sid: SessionId, life: nat)
    requires Inv(w) && t in w.minted && NewSession(w, sid) && Accepts(w, t) && change != Use
    ensures Moves(w, Requested(w, t, change, true, sid, life))
  {
    ChangeMovesRows(w, t, change, sid, life);
  }

  lemma AdminMoves(w: World, e: Event)
    requires Inv(w) && (e.Wait? || e.SetActive? || e.EndSessions? || e.AdminReset? || e.AdminClearTotp?)
    ensures Moves(w, Step(w, e))
  {
  }

  lemma StepMoves(w: World, e: Event)
    requires Inv(w) && Admissible(w, e)
    ensures Moves(w, Step(w, e))
  {
    match e
    case CreateAccount(user, activated, secret, life) => CreateMoves(w, user, activated, secret, life);
    case SignIn(user, passwordRight, sid, life) =>
      if user in w.accounts && w.accounts[user].isActivated && w.accounts[user].isActive {
        StartMoves(w, user, sid, life);
      }
    case EnterCode(half, codeRight, sid, life) =>
      assert HalfKept(w, half);
      if AcceptsHalf(w, half) { StartMoves(w, half.user, sid, life); }
    case Request(token, change, allowed, sid, life) =>
      UsedMoves(w, token);
      if Accepts(w, token) && change != Use && allowed { ChangeMoves(w, token, change, sid, life); }
    case Revoke(token, other) => if other in w.rows { EndedMoves(w, token, other); }
    case SignOut(token) => if HasCurrentRow(w, token) { EndedMoves(w, token, token.sid.value); }
    case AskForLink(user, secret, life) =>
      if user in w.accounts && w.accounts[user].isActive { IssueMoves(w, user, secret, life); }
    case ResetWithLink(secret) => ResetMoves(w, secret);
    case _ => AdminMoves(w, e);
  }

  // --- Refused once, refused for ever ------------------------------------------------------------

  /** A step that moves no version back and no ended row lets in nothing it refused. */
  lemma RefusedStaysRefused(w: World, after: World, t: Token)
    requires Inv(w) && Moves(w, after) && t in w.minted && Accepts(after, t)
    ensures Accepts(w, t)
  {
  }

  lemma HalfStaysRefused(w: World, after: World, h: Half)
    requires Inv(w) && Moves(w, after) && h in w.halves && AcceptsHalf(after, h)
    ensures AcceptsHalf(w, h)
  {
  }

  lemma LinkStaysRefused(w: World, after: World, s: Secret)
    requires Inv(w) && Moves(w, after) && s in w.sent && AcceptsLink(after, s)
    ensures AcceptsLink(w, s)
  {
  }

  const EMPTY := World(0, map[], map[], map[], {}, {}, {})

  lemma EmptyKept()
    ensures Inv(EMPTY)
  {
  }

  function After(w: World, events: seq<Event>): World
    decreases |events|
  {
    if events == [] then w else After(Step(w, events[0]), events[1..])
  }

  ghost predicate AllAdmissible(w: World, events: seq<Event>)
    decreases |events|
  {
    events == [] || (Admissible(w, events[0]) && AllAdmissible(Step(w, events[0]), events[1..]))
  }

  /** A session token refused once is refused for ever. */
  lemma {:induction false} RefusedForever(w: World, events: seq<Event>, t: Token)
    requires Inv(w) && AllAdmissible(w, events) && t in w.minted && !Accepts(w, t)
    ensures !Accepts(After(w, events), t)
    decreases |events|
  {
    if events != [] {
      var after := Step(w, events[0]);
      StepMoves(w, events[0]);
      MovesKeepInv(w, after);
      if Accepts(after, t) { RefusedStaysRefused(w, after, t); }
      RefusedForever(after, events[1..], t);
    }
  }

  /** So is a pending second factor. */
  lemma {:induction false} HalfRefusedForever(w: World, events: seq<Event>, h: Half)
    requires Inv(w) && AllAdmissible(w, events) && h in w.halves && !AcceptsHalf(w, h)
    ensures !AcceptsHalf(After(w, events), h)
    decreases |events|
  {
    if events != [] {
      var after := Step(w, events[0]);
      StepMoves(w, events[0]);
      MovesKeepInv(w, after);
      if AcceptsHalf(after, h) { HalfStaysRefused(w, after, h); }
      HalfRefusedForever(after, events[1..], h);
    }
  }

  /** And a reset link. */
  lemma {:induction false} LinkRefusedForever(w: World, events: seq<Event>, s: Secret)
    requires Inv(w) && AllAdmissible(w, events) && s in w.sent && !AcceptsLink(w, s)
    ensures !AcceptsLink(After(w, events), s)
    decreases |events|
  {
    if events != [] {
      var after := Step(w, events[0]);
      StepMoves(w, events[0]);
      MovesKeepInv(w, after);
      if AcceptsLink(after, s) { LinkStaysRefused(w, after, s); }
      LinkRefusedForever(after, events[1..], s);
    }
  }

  /** Presenting a link spends it, whether or not it worked. */
  lemma LinkIsSpent(w: World, s: Secret)
    ensures !AcceptsLink(Step(w, ResetWithLink(s)), s)
  {
  }

  /** How often a link resets a password over a run. */
  ghost function Resets(w: World, events: seq<Event>, s: Secret): nat
    decreases |events|
  {
    if events == [] then 0
    else
      var once := if events[0] == ResetWithLink(s) && AcceptsLink(w, s) then 1 else 0;
      once + Resets(Step(w, events[0]), events[1..], s)
  }

  /** A reset link works at most once, and only if it works now. */
  lemma {:induction false} LinkWorksAtMostOnce(w: World, events: seq<Event>, s: Secret)
    requires Inv(w) && AllAdmissible(w, events) && s in w.sent
    ensures Resets(w, events, s) <= if AcceptsLink(w, s) then 1 else 0
    decreases |events|
  {
    if events != [] {
      var after := Step(w, events[0]);
      StepMoves(w, events[0]);
      MovesKeepInv(w, after);
      LinkIsSpent(w, s);
      if AcceptsLink(after, s) { LinkStaysRefused(w, after, s); }
      LinkWorksAtMostOnce(after, events[1..], s);
    }
  }

  // --- When the version moves on --------------------------------------------------------------------

  ghost predicate VersionMoves(w: World, after: World, user: UserId) {
    user in w.accounts && user in after.accounts && w.accounts[user].version < after.accounts[user].version
  }

  /** Everything handed out before to the account is dead: tokens, pending second
    * factors and reset links. */
  lemma VersionEndsAll(w: World, after: World, user: UserId, t: Token, h: Half, s: Secret)
    requires Inv(w) && Moves(w, after) && VersionMoves(w, after, user)
    ensures t in w.minted && t.user == user ==> !Accepts(after, t)
    ensures h in w.halves && h.user == user ==> !AcceptsHalf(after, h)
    ensures s in w.links && w.links[s].user == user ==> !AcceptsLink(after, s)
  {
    if t in w.minted { assert TokenKept(w, t); }
    if h in w.halves { assert HalfKept(w, h); }
    if s in w.links { assert LinkKept(w, s); }
  }

  /** Of the account's sessions, only the one that made the request is still
    * live: its row moved on, or a new one if it had none. */
  lemma OnlyTheReissuedSurvives(w: World, e: Event, user: UserId, sid: SessionId)
    requires Inv(w) && Admissible(w, e) && VersionMoves(w, Step(w, e), user)
    requires sid in Step(w, e).rows && Step(w, e).rows[sid].user == user && LiveRow(Step(w, e), sid)
    ensures e.Request? && e.token.user == user
    ensures sid == if HasCurrentRow(w, e.token) then e.token.sid.value else e.sid
  {
    assert sid in w.rows ==> RowKept(w, w.rows[sid]);
  }

  /** Ending an account's sessions ends every one, although the version of an
    * account nobody has activated stays: it has none. */
  lemma EndSessionsEndsAll(w: World, user: UserId, t: Token)
    requires Inv(w) && t in w.minted && t.user == user
    ensures !Accepts(Step(w, EndSessions(user)), t)
  {
    assert TokenKept(w, t);
  }

  /** Deactivating ends every session for good: reactivating brings none back. */
  lemma {:induction false} DeactivatedForGood(w: World, user: UserId, events: seq<Event>, t: Token)
    requires Inv(w) && t in w.minted && t.user == user && user in w.accounts
    requires AllAdmissible(Step(w, SetActive(user, false)), events)
    ensures !Accepts(After(Step(w, SetActive(user, false)), events), t)
  {
    var after := Step(w, SetActive(user, false));
    StepMoves(w, SetActive(user, false));
    MovesKeepInv(w, after);
    RefusedForever(after, events, t);
  }

  /** Revoking a session refuses its tokens and no others. */
  lemma RevokeEndsOne(w: World, caller: Token, other: SessionId, t: Token)
    requires Inv(w) && caller in w.minted && t in w.minted
    requires Accepts(w, caller) && LiveRow(w, other) && w.rows[other].user == caller.user
    ensures Accepts(Step(w, Revoke(caller, other)), t) <==> Accepts(w, t) && t.sid != Some(other)
  {
    assert TokenKept(w, t) && TokenKept(w, caller);
  }

  // --- What is handed out works, and nothing else changes ---------------------------------------------

  /** A session started is let in, and the sweep that goes with it refuses no token
    * that was accepted, of that account or any other. */
  lemma StartedIsAccepted(w: World, user: UserId, sid: SessionId, life: nat, t: Token)
    requires Inv(w) && user in w.accounts && w.accounts[user].isActive && NewSession(w, sid) && life > 0
    ensures Accepts(Start(w, user, sid, life), Token(user, w.accounts[user].version, Some(sid), w.now + life))
    ensures t in w.minted ==> (Accepts(Start(w, user, sid, life), t) <==> Accepts(w, t))
  {
  }

  /** A link issued works, is the account's only one, and leaves everybody else's
    * as it was. */
  lemma IssuedLinkIsTheOnly(w: World, user: UserId, secret: Secret, life: nat, other: Secret)
    requires user in w.accounts && w.accounts[user].isActive && life > 0
    ensures AcceptsLink(IssueLink(w, user, secret, life), secret)
    ensures other != secret ==>
              (AcceptsLink(IssueLink(w, user, secret, life), other)
               <==> AcceptsLink(w, other) && w.links[other].user != user)
  {
  }

  /** The token a version change hands back: on the request's own session, or a new one. */
  function HandedBack(w: World, t: Token, sid: SessionId, life: nat): Token
    requires t.user in w.accounts
  {
    Token(t.user, w.accounts[t.user].version + 1, if HasCurrentRow(w, t) then t.sid else Some(sid), w.now + life)
  }

  /** After a change of password or of second factor the caller goes on with the
    * token handed back, every other token of the account is refused, and nobody
    * else notices. */
  lemma ReissuedIsTheOnly(w: World, t: Token, change: Change, sid: SessionId, life: nat, other: Token)
    requires Inv(w) && t in w.minted && Accepts(w, t) && NewSession(w, sid) && life > 0
    requires change != Use && (change == DisableTotp ==> w.accounts[t.user].totp)
    ensures Accepts(Requested(w, t, change, true, sid, life), HandedBack(w, t, sid, life))
    ensures HandedBack(w, t, sid, life) in Requested(w, t, change, true, sid, life).minted
    ensures other in w.minted ==>
              (Accepts(Requested(w, t, change, true, sid, life), other) <==> Accepts(w, other) && other.user != t.user)
  {
    HandedBackIsAccepted(w, t, change, sid, life);
    if other in w.minted { OthersAfterReissue(w, t, change, sid, life, other); }
  }

  lemma HandedBackIsAccepted(w: World, t: Token, change: Change, sid: SessionId, life: nat)
    requires Accepts(w, t) && life > 0
    requires change != Use && (change == DisableTotp ==> w.accounts[t.user].totp)
    ensures Accepts(Requested(w, t, change, true, sid, life), HandedBack(w, t, sid, life))
    ensures HandedBack(w, t, sid, life) in Requested(w, t, change, true, sid, life).minted
  {
  }

  lemma OthersAfterReissue(w: World, t: Token, change: Change, sid: SessionId, life: nat, other: Token)
    requires Inv(w) && t in w.minted && Accepts(w, t) && NewSession(w, sid) && other in w.minted
    requires change != Use && (change == DisableTotp ==> w.accounts[t.user].totp)
    ensures Accepts(Requested(w, t, change, true, sid, life), other) <==> Accepts(w, other) && other.user != t.user
  {
    assert TokenKept(w, other) && TokenKept(w, t);
  }

  // --- As the services run ---------------------------------------------------------------------------

  datatype Error = SessionNotFound | ResetLinkInvalid

  /** The tables; what was handed out is kept only to speak about it. */
  class Service {
    var now: Time
    var accounts: map<UserId, Account>
    var rows: map<SessionId, Row>
    var links: map<Secret, Link>
    ghost var minted: set<Token>
    ghost var halves: set<Half>
    ghost var sent: set<Secret>

    constructor ()
      ensures Here() == EMPTY && Inv(Here())
    {
      now, accounts, rows, links := 0, map[], map[], map[];
      minted, halves, sent := {}, {}, {};
      new;
      EmptyKept();
    }

    ghost function Here(): World
      reads this
    {
      World(now, accounts, rows, links, minted, halves, sent)
    }

    method StartSession(user: UserId, sid: SessionId, life: nat) returns (t: Token)
      requires user in accounts && sid !in rows
      modifies this`rows, this`minted
      ensures Here() == Start(old(Here()), user, sid, life)
      ensures t == Token(user, accounts[user].version, Some(sid), now + life) && t in minted
    {
      rows := map s | s in rows && !(rows[s].user == user && rows[s].lastUsed < now - KEEP_ENDED) :: rows[s];
      rows := rows[sid := Row(user, accounts[user].version, now + life, now, None)];
      t := Token(user, accounts[user].version, Some(sid), now + life);
      minted := minted + {t};
    }

    method ReissueToken(was: Token, sid: SessionId, life: nat) returns (t: Token)
      requires was.user in accounts && sid !in rows
      modifies this`rows, this`minted
      ensures Here() == Reissue(old(Here()), was, sid, life)
      ensures t in minted && t.user == was.user && t.version == accounts[t.user].version && t.expiresAt == now + life
    {
      if was.sid.None? || was.sid.value !in rows || rows[was.sid.value].user != was.user {
        t := StartSession(was.user, sid, life);
        return;
      }
      var row := rows[was.sid.value];
      row := row.(version := accounts[was.user].version);
      row := row.(lastUsed := now);
      row := row.(expiresAt := now + life);
      rows := rows[was.sid.value := row];
      t := Token(was.user, accounts[was.user].version, was.sid, now + life);
      minted := minted + {t};
    }

    /** `get_current_user` and `authenticate`: whether the token is let in, noting
      * that its session was used. */
    method Authenticate(t: Token) returns (ok: bool)
      modifies this`rows
      ensures ok <==> Accepts(old(Here()), t)
      ensures Here() == Used(old(Here()), t)
    {
      if now > t.expiresAt || t.user !in accounts || !accounts[t.user].isActive { return false; }
      if accounts[t.user].version != t.version { return false; }
      if t.sid.None? { return true; }
      var sid := t.sid.value;
      if sid !in rows || rows[sid].user != t.user || !IsLive(rows[sid], accounts[t.user], now) { return false; }
      if now - rows[sid].lastUsed >= LAST_USED_RESOLUTION {
        rows := rows[sid := rows[sid].(lastUsed := now)];
      }
      ok := true;
    }

    method RevokeSession(user: UserId, sid: SessionId) returns (outcome: Outcome<Error>)
      requires user in accounts
      modifies this`rows
      ensures if LiveRow(old(Here()), sid) && old(rows)[sid].user == user
              then outcome == Ok && Here() == Ended(old(Here()), sid)
              else outcome == Err(SessionNotFound) && Here() == old(Here())
    {
      if sid !in rows || rows[sid].user != user || !IsLive(rows[sid], accounts[user], now) {
        return Err(SessionNotFound);
      }
      rows := rows[sid := rows[sid].(endedAt := Some(now))];
      outcome := Ok;
    }

    /** `end_current`: the row of the request ends, if it has not yet. */
    method EndCurrent(t: Token)
      modifies this`rows
      ensures if HasCurrentRow(old(Here()), t) && old(rows)[t.sid.value].endedAt.None?
              then Here() == Ended(old(Here()), t.sid.value)
              else Here() == old(Here())
    {
      if t.sid.Some? && t.sid.value in rows && rows[t.sid.value].user == t.user && rows[t.sid.value].endedAt.None? {
        rows := rows[t.sid.value := rows[t.sid.value].(endedAt := Some(now))];
      }
    }

    method ResetPassword(secret: Secret) returns (outcome: Outcome<Error>)
      modifies this`links, this`accounts
      ensures Here() == ResetByLink(old(Here()), secret)
      ensures outcome == Ok <==> AcceptsLink(old(Here()), secret)
    {
      if secret !in links { return Err(ResetLinkInvalid); }
      var link := links[secret];
      var usable := link.user in accounts && accounts[link.user].isActive && link.expiresAt > now
                    && link.version == accounts[link.user].version;
      links := links - {secret};
      if !usable { return Err(ResetLinkInvalid); }
      var account := accounts[link.user];
      account := account.(isActivated := true);
      account := account.(version := account.version + 1);
      accounts := accounts[link.user := account];
      outcome := Ok;
    }

  }
}
