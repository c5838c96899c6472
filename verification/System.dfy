/**
 The grant and revocation protocol as a labelled transition system.

 Data-plane requests capture one snapshot and then run as sequences of atomic
 runtime actions; a control-plane mutation compiles, revokes, syncs the TOTP
 ledger and swaps in separate steps. Every interleaving of those steps is a run.

 Identifiers from randomID are assumed fresh. The tunables, password checks and
 signatures appear as free choices of the event. A request may be abandoned at any point.
 */
module System {
  import opened Basics
  import opened Documents
  import opened Snapshots
  import opened RuntimeState
  import opened Access
  import Totp

  // ------------------------------------------------------------- history

  datatype Grant = Grant(clientId: string, userId: string, username: string, scope: string, mfa: bool)

  /** What a stored row says about its authorization request. */
  datatype Link =
    | PendingLink(protocol: Protocol, clientId: string, redirectUri: string, scope: string, challenge: string, nonce: string)
    | CodeLink(grant: Grant, redirectUri: string, challenge: string, nonce: string)
    | RefreshLink(grant: Grant)

  datatype Handle = PendingHandle(id: string) | CodeHandle(id: string) | RefreshHandle(id: string)

  /** The authorization request a handle belongs to, and every row that led to it, itself last. */
  datatype Birth = Birth(lineage: nat, chain: seq<Link>)

  /** The claims of an access token that the checks on its use read. */
  datatype AccessToken = AccessToken(generation: int, grant: Grant)

  datatype TotpEvent =
    | Accepted(user: string, step: int, submitted: int)
    | Cleared(user: string)
    | ClearedAll

  // ------------------------------------------------------------ requests

  datatype Request =
    | Captured(snap: Snapshot)
    | Authorizing(snap: Snapshot, session: Option<LoginSession>)
    | Stored(snap: Snapshot, pid: string)
    | Identified(snap: Snapshot, pid: string, user: User)
    | Challenged(snap: Snapshot, pid: string, user: User, secret: Bytes)
    | Verified(snap: Snapshot, pid: string, user: User, step: int, submitted: int)
    | Authenticated(snap: Snapshot, pid: string, user: User, mfa: bool)
    | Finishing(snap: Snapshot, pid: string, userId: string, username: string, mfa: bool)
    | Completing(snap: Snapshot, pid: string, userId: string, username: string, mfa: bool)
    | HoldsPending(snap: Snapshot, pid: string, pend: Pending, userId: string, username: string, mfa: bool)
    | TookPending(snap: Snapshot, pend: Pending, userId: string, username: string, mfa: bool, birth: Birth)
    | Federating(snap: Snapshot, pid: string, userId: string, mfa: bool)
    | Answering(snap: Snapshot, pid: string, denied: bool)
    | Issuing(snap: Snapshot, grant: Grant, spent: string, birth: Birth)
    | Minting(snap: Snapshot, grant: Grant, spent: string, birth: Birth)
    | Burning(snap: Snapshot, spent: string)

  datatype Query = Query(clientId: string, redirectUri: string, scope: string, state: string, nonce: string, challenge: string)

  // --------------------------------------------------------------- state

  /** Where the one mutation holding App.mu has got to. */
  datatype Phase =
    | Idle
    | Candidate(next: Snapshot, reset: bool)
    | Revoked(next: Snapshot, reset: bool)
    | Syncing(next: Snapshot, todo: set<string>)

  datatype Sys = Sys(
    now: int,
    rt: Rt,
    phase: Phase,
    reqs: map<nat, Request>,
    // history variables
    snaps: seq<Snapshot>,
    used: set<string>,
    born: map<Handle, Birth>,
    lineages: nat,
    answers: seq<nat>,
    totpLog: seq<TotpEvent>,
    recordedBy: map<string, int>,
    minted: set<AccessToken>)

  /** The active snapshot: the last one swapped in. */
  function Active(s: Sys): Snapshot
    requires s.snaps != []
  {
    s.snaps[|s.snaps| - 1]
  }

  function Start(boot: Snapshot, now: int): Sys {
    Sys(now, EMPTY, Idle, map[], [boot], {}, map[], 0, [], [], map[], {})
  }

  // -------------------------------------------------------------- events

  /** Time, arrivals, and operator calls that do not wait for App.mu or hold it only briefly. */
  datatype EnvEvent =
    | Tick(dt: nat)
    | Capture(r: nat)
    | Abandon(r: nat)
    | ExpireEverySession
    | ExpireOneSession(sid: string)
    | ListSessions
    | EnrollTotp(user: string, secret: Bytes)
    | ClearTotp(user: string)

  /** The steps of an apply or a reset. */
  datatype MutEvent =
    | Begin(cand: Snapshot, reset: bool)
    | Invalidate
    | ResetRuntime
    | StartSync
    | SyncOne(user: string)
    | Swap

  /** authorize, sso and passive. */
  datatype EntryEvent =
    | AuthorizeReadSession(sid: string)
    | AuthorizePutCode(query: Query, newId: string)
    | AuthorizePutPending(query: Query, newId: string)
    | SamlPutPending(issuer: string, acs: string, requestId: string, relay: string, newId: string)
    | WsFedPutPending(realm: string, reply: string, context: string, newId: string)
    | FederationReadSession(sid: string)

  /** postLogin and postConsent. */
  datatype LoginEvent =
    | LoginReadPending(pid: string, username: string, passwordOk: bool)
    | LoginReadOverlay
    | LoginVerify(hotp: (Bytes, int) -> string, code: string)
    | LoginRecord
    | LoginWithoutMfa
    | LoginPutSession(newId: string)
    | ConsentReadSession(pid: string, sid: string)

  /** CompleteLoginSnapshot, finishPending, finish and the denials. */
  datatype FinishEvent =
    | CompleteAdmit
    | CompleteReadPending
    | CompleteTakePending
    | CompletePutCode(newId: string)
    | FederationReadPending
    | FederationAdmit
    | DenyReadPending(pid: string)
    | AnswerTakePending

  /** tokenCode, tokenRefresh and writeTokens. */
  datatype TokenEvent =
    | RedeemCode(code: string, clientId: string, redirect: string, digest: string)
    | ReadRefresh(token: string, clientId: string, requested: string)
    | CheckGrant(forced: bool)
    | BurnRefresh
    | StoreRefresh(newId: string)

  datatype Event =
    | Env(env: EnvEvent)
    | Mutate(mut: MutEvent)
    | Entry(r: nat, entry: EntryEvent)
    | Login(r: nat, login: LoginEvent)
    | Finish(r: nat, finish: FinishEvent)
    | Token(r: nat, token: TokenEvent)

  // ------------------------------------------------------------- helpers

  /** What one step of a request leaves behind: the runtime, where the request is now, and the history it adds. */
  datatype Outcome = Outcome(
    rt: Rt,
    next: Option<Request>,
    born: Option<(Handle, Birth)>,
    session: Option<string>,
    answer: Option<nat>,
    accepted: Option<TotpEvent>)

  function Then(rt: Rt, q: Request): Outcome { Outcome(rt, Some(q), None, None, None, None) }
  function Ends(rt: Rt): Outcome { Outcome(rt, None, None, None, None, None) }

  /** The state after request `r` took a step with the given outcome. */
  function After(s: Sys, r: nat, o: Outcome): Sys {
    s.(rt := o.rt,
       reqs := if o.next.Some? then s.reqs[r := o.next.value] else s.reqs - {r},
       used := s.used + (if o.born.Some? then {o.born.value.0.id} else {}) + (if o.session.Some? then {o.session.value} else {}),
       born := if o.born.Some? then s.born[o.born.value.0 := o.born.value.1] else s.born,
       lineages := if o.born.Some? && o.born.value.1.lineage == s.lineages then s.lineages + 1 else s.lineages,
       answers := if o.answer.Some? then s.answers + [o.answer.value] else s.answers,
       totpLog := if o.accepted.Some? then s.totpLog + [o.accepted.value] else s.totpLog,
       recordedBy := if o.accepted.Some? && r in s.reqs && o.accepted.value.Accepted?
                     then s.recordedBy[o.accepted.value.user := s.reqs[r].snap.generation] else s.recordedBy,
       minted := if o.born.Some? && r in s.reqs && s.reqs[r].Minting?
                 then s.minted + {AccessToken(s.reqs[r].snap.generation, s.reqs[r].grant)} else s.minted)
  }

  /** The pending row a request in flight has named. */
  predicate Names(q: Request, id: string) {
    match q
    case Stored(_, pid) => pid == id
    case Identified(_, pid, _) => pid == id
    case Challenged(_, pid, _, _) => pid == id
    case Verified(_, pid, _, _, _) => pid == id
    case Authenticated(_, pid, _, _) => pid == id
    case Finishing(_, pid, _, _, _) => pid == id
    case Completing(_, pid, _, _, _) => pid == id
    case HoldsPending(_, pid, _, _, _, _) => pid == id
    case Federating(_, pid, _, _) => pid == id
    case Answering(_, pid, _) => pid == id
    case _ => false
  }

  predicate Unnamed(reqs: map<nat, Request>, id: string) { forall r :: r in reqs ==> !Names(reqs[r], id) }

  /** A fresh random identifier: never used, and not guessed by a request in flight. */
  predicate Fresh(s: Sys, id: string) { id != "" && id !in s.used && Unnamed(s.reqs, id) }

  function LinkOfPending(p: Pending): Link { PendingLink(p.protocol, p.clientId, p.redirectUri, p.scope, p.challenge, p.nonce) }
  function GrantOfCode(c: AuthCode): Grant { Grant(c.clientId, c.userId, c.username, c.scope, c.mfa) }
  function GrantOfRefresh(t: Refresh): Grant { Grant(t.clientId, t.userId, t.username, t.scope, t.mfa) }
  function LinkOfCode(c: AuthCode): Link { CodeLink(GrantOfCode(c), c.redirectUri, c.challenge, c.nonce) }

  function Root(s: Sys, link: Link): Birth { Birth(s.lineages, [link]) }
  function Extend(b: Birth, link: Link): Birth { Birth(b.lineage, b.chain + [link]) }

  function OidcPending(snap: Snapshot, q: Query): Pending {
    NO_PENDING.(generation := snap.generation, protocol := Oidc, clientId := q.clientId, redirectUri := q.redirectUri,
                scope := q.scope, state := q.state, nonce := q.nonce, challenge := q.challenge, challengeMethod := "S256")
  }

  /** The checks authorize makes before it touches a table. */
  predicate QueryOk(snap: Snapshot, q: Query) {
    && OidcEnabled(snap) && q.clientId in snap.clients.byClientId
    && q.redirectUri in snap.clients.byClientId[q.clientId].redirectUris
    && ScopesAllowed(snap.clients.byClientId[q.clientId], q.scope)
    && !MfaMode(snap).ForceFail?
  }

  predicate SessionServes(snap: Snapshot, sess: LoginSession) {
    SessionUsable(sess.mfa, MfaMode(snap)) && UserUsable(snap, sess.userId)
  }

  /** The users whose overlay and ledger entries syncTOTPOverlay clears. */
  function StaleSeeds(prev: Snapshot, next: Snapshot): set<string> {
    set id | id in prev.users.byId && SeedOf(prev, id) != SeedOf(next, id)
  }

  /** A user's TOTP source: its reference and seed bytes, None for no such user. */
  function SeedOf(snap: Snapshot, id: string): Option<(string, Bytes)> {
    if id in snap.users.byId then Some((snap.users.byId[id].totpSecretRef, SecretOr(snap.users.seeds, id))) else None
  }

  // --------------------------------------------------------- environment

  predicate EnvEnabled(s: Sys, e: EnvEvent)
    requires s.snaps != []
  {
    match e
    case Capture(r) => r !in s.reqs
    case EnrollTotp(user, _) => s.phase.Idle? && user in Active(s).users.byId
    case ClearTotp(user) => s.phase.Idle? && user in Active(s).users.byId
    case _ => true
  }

  function EnvDo(s: Sys, e: EnvEvent): Sys
    requires s.snaps != []
  {
    match e
    case Tick(dt) => s.(now := s.now + dt)
    case Capture(r) => s.(reqs := s.reqs[r := Captured(Active(s))])
    case Abandon(r) => s.(reqs := s.reqs - {r})
    case ExpireEverySession => s.(rt := ExpireAll(s.rt))
    case ExpireOneSession(sid) => s.(rt := ExpireSession(s.rt, sid).0)
    case ListSessions => s.(rt := DropExpiredSessions(s.rt, s.now))
    case EnrollTotp(user, secret) => s.(rt := SetOverlay(s.rt, user, secret), totpLog := s.totpLog + [Cleared(user)])
    case ClearTotp(user) => s.(rt := ClearOverlay(s.rt, user), totpLog := s.totpLog + [Cleared(user)])
  }

  // -------------------------------------------------------------- mutator

  predicate MutEnabled(s: Sys, e: MutEvent)
    requires s.snaps != []
  {
    match e
    case Begin(cand, _) => s.phase.Idle? && cand.generation == |s.snaps| + 1
    case Invalidate => s.phase.Candidate?
    case ResetRuntime => s.phase.Revoked? && s.phase.reset
    case StartSync => s.phase.Revoked? && !s.phase.reset
    case SyncOne(user) => s.phase.Syncing? && user in s.phase.todo
    case Swap => s.phase.Syncing? && s.phase.todo == {}
  }

  function MutDo(s: Sys, e: MutEvent): Sys
    requires s.snaps != [] && MutEnabled(s, e)
  {
    match e
    case Begin(cand, reset) => s.(phase := Candidate(cand, reset))
    case Invalidate =>
      var revoke := s.phase.reset || SecurityChanged(Active(s), s.phase.next);
      s.(rt := if revoke then InvalidateBefore(s.rt, s.phase.next.generation) else s.rt,
         phase := Revoked(s.phase.next, s.phase.reset))
    case ResetRuntime =>
      s.(rt := ResetAll(s.rt), totpLog := s.totpLog + [ClearedAll], phase := Syncing(s.phase.next, {}))
    case StartSync =>
      var always := MfaMode(s.phase.next).Always? && !MfaMode(Active(s)).Always?;
      s.(rt := if always then ExpireIncompleteMfa(s.rt) else s.rt,
         phase := Syncing(s.phase.next, StaleSeeds(Active(s), s.phase.next)))
    case SyncOne(user) =>
      s.(rt := ClearOverlay(s.rt, user), totpLog := s.totpLog + [Cleared(user)],
         phase := Syncing(s.phase.next, s.phase.todo - {user}))
    case Swap => s.(snaps := s.snaps + [s.phase.next], phase := Idle)
  }

  // ------------------------------------- authorize and federation entry

  predicate EntryEnabled(s: Sys, q: Request, e: EntryEvent) {
    match e
    case AuthorizeReadSession(_) => q.Captured?
    case AuthorizePutCode(query, newId) =>
      && q.Authorizing? && Fresh(s, newId) && QueryOk(q.snap, query)
      && q.session.Some? && SessionServes(q.snap, q.session.value)
      && q.snap.clients.byClientId[query.clientId].preConsent
    case AuthorizePutPending(query, newId) => q.Authorizing? && Fresh(s, newId) && QueryOk(q.snap, query)
    case SamlPutPending(issuer, acs, _, _, newId) =>
      && q.Captured? && Fresh(s, newId) && SamlEnabled(q.snap)
      && issuer in q.snap.clients.bySamlEntity && acs in ReplyUrls(q.snap.clients.bySamlEntity[issuer])
    case WsFedPutPending(realm, reply, _, newId) =>
      && q.Captured? && Fresh(s, newId) && WsFedEnabled(q.snap)
      && RealmClient(q.snap, realm).Some? && reply in ReplyUrls(RealmClient(q.snap, realm).value)
    case FederationReadSession(_) => q.Stored?
  }

  function CodeFor(snap: Snapshot, q: Query, sess: LoginSession, now: int, newId: string): AuthCode {
    AuthCode(snap.generation, newId, q.clientId, q.redirectUri, sess.userId, sess.username, q.scope, q.nonce,
             q.challenge, now + CODE_TTL, sess.mfa)
  }

  /** Submit a pending row; on success the request continues at `next`, otherwise it ends. */
  function Submit(s: Sys, p: Pending, newId: string, next: Option<Request>): Outcome {
    var (rt, row) := PutPending(s.rt, p, s.now, newId);
    if row.id == "" then Ends(rt)
    else Outcome(rt, next, Some((PendingHandle(newId), Root(s, LinkOfPending(row)))), None, None, None)
  }

  /** Store a code; its birth is recorded if the runtime took it. The request ends either way. */
  function StoreCode(s: Sys, code: AuthCode, birth: Birth): Outcome {
    var (rt, ok) := PutCode(s.rt, code, s.now);
    Outcome(rt, None, if ok then Some((CodeHandle(code.code), birth)) else None, None, None, None)
  }

  /** Continue with the session if it serves the snapshot, otherwise end. */
  function Resume(s: Sys, snap: Snapshot, pid: string, sid: string): Outcome {
    var (rt, sess) := GetSession(s.rt, sid, s.now);
    if sess.Some? && SessionServes(snap, sess.value)
    then Then(rt, Finishing(snap, pid, sess.value.userId, sess.value.username, sess.value.mfa))
    else Ends(rt)
  }

  function ReadSessionFor(s: Sys, snap: Snapshot, sid: string): Outcome {
    var (rt, sess) := GetSession(s.rt, sid, s.now);
    Then(rt, Authorizing(snap, sess))
  }

  function AuthorizeCode(s: Sys, snap: Snapshot, query: Query, sess: LoginSession, newId: string): Outcome {
    var code := CodeFor(snap, query, sess, s.now, newId);
    StoreCode(s, code, Root(s, LinkOfCode(code)))
  }

  function EntryOut(s: Sys, q: Request, e: EntryEvent): Outcome
    requires EntryEnabled(s, q, e)
  {
    match e
    case AuthorizeReadSession(sid) => ReadSessionFor(s, q.snap, sid)
    case AuthorizePutCode(query, newId) => AuthorizeCode(s, q.snap, query, q.session.value, newId)
    case AuthorizePutPending(query, newId) => Submit(s, OidcPending(q.snap, query), newId, None)
    case SamlPutPending(issuer, acs, requestId, relay, newId) =>
      Submit(s, SamlPending(q.snap, issuer, acs, requestId, relay), newId, Some(Stored(q.snap, newId)))
    case WsFedPutPending(realm, reply, context, newId) =>
      Submit(s, WsFedPending(q.snap, realm, reply, context), newId, Some(Stored(q.snap, newId)))
    case FederationReadSession(sid) => Resume(s, q.snap, q.pid, sid)
  }

  // ---------------------------------------------------- login and consent

  predicate LoginEnabled(s: Sys, q: Request, e: LoginEvent) {
    match e
    case LoginReadPending(_, _, _) => q.Captured?
    case LoginReadOverlay => q.Identified? && MfaMode(q.snap).Always?
    case LoginVerify(_, _) => q.Challenged?
    case LoginRecord => q.Verified?
    case LoginWithoutMfa => q.Identified? && !MfaMode(q.snap).Always? && !MfaMode(q.snap).ForceFail?
    case LoginPutSession(newId) => q.Authenticated? && Fresh(s, newId)
    case ConsentReadSession(_, _) => q.Captured?
  }

  function SessionFor(snap: Snapshot, user: User, mfa: bool, now: int): LoginSession {
    var ttl := if snap.canonical.spec.auth.sessionTtl > 0 then snap.canonical.spec.auth.sessionTtl else 3600 * SECOND;
    LoginSession(snap.generation, "", user.id, user.username, now + ttl, mfa)
  }

  function Identify(s: Sys, snap: Snapshot, pid: string, username: string, passwordOk: bool): Outcome {
    var (rt, pend) := GetPending(s.rt, pid, s.now);
    var user := FindUser(snap, username);
    if pend.Some? && PendingUsable(snap, pend.value) && user.Some? && passwordOk
    then Then(rt, Identified(snap, pid, user.value))
    else Ends(rt)
  }

  /** totpSecret: the overlay wins over the compiled seed. */
  function ReadSecret(s: Sys, q: Request): Outcome
    requires q.Identified?
  {
    var secret := if q.user.id in s.rt.overlay then Some(s.rt.overlay[q.user.id]) else Lookup(q.snap.users.seeds, q.user.id);
    if secret.Some? then Then(s.rt, Challenged(q.snap, q.pid, q.user, secret.value)) else Ends(s.rt)
  }

  /** Verification runs outside the runtime's lock. */
  function VerifyCode(s: Sys, q: Request, hotp: (Bytes, int) -> string, code: string): Outcome
    requires q.Challenged?
  {
    var step := Totp.Verify(hotp, q.secret, code, s.now);
    if step.Some? then Then(s.rt, Verified(q.snap, q.pid, q.user, step.value, s.now)) else Ends(s.rt)
  }

  function Record(s: Sys, q: Request): Outcome
    requires q.Verified?
  {
    var (rt, ok) := RecordStep(s.rt, q.user.id, q.step, q.snap.generation);
    if ok
    then Then(rt, Authenticated(q.snap, q.pid, q.user, true)).(accepted := Some(Accepted(q.user.id, q.step, q.submitted)))
    else Ends(rt)
  }

  function OpenSession(s: Sys, q: Request, newId: string): Outcome
    requires q.Authenticated?
  {
    var (rt, row) := PutSession(s.rt, SessionFor(q.snap, q.user, q.mfa, s.now), s.now, newId);
    if row.id == "" then Ends(rt)
    else Then(rt, Finishing(q.snap, q.pid, q.user.id, q.user.username, q.mfa)).(session := Some(newId))
  }

  function LoginOut(s: Sys, q: Request, e: LoginEvent): Outcome
    requires LoginEnabled(s, q, e)
  {
    match e
    case LoginReadPending(pid, username, passwordOk) => Identify(s, q.snap, pid, username, passwordOk)
    case LoginReadOverlay => ReadSecret(s, q)
    case LoginVerify(hotp, code) => VerifyCode(s, q, hotp, code)
    case LoginRecord => Record(s, q)
    case LoginWithoutMfa => Then(s.rt, Authenticated(q.snap, q.pid, q.user, false))
    case LoginPutSession(newId) => OpenSession(s, q, newId)
    case ConsentReadSession(pid, sid) => Resume(s, q.snap, pid, sid)
  }

  // --------------------------------------------- finishing a pending request

  predicate FinishEnabled(s: Sys, q: Request, e: FinishEvent) {
    match e
    case CompleteAdmit => q.Finishing?
    case CompleteReadPending => q.Completing?
    case CompleteTakePending => q.HoldsPending?
    case CompletePutCode(newId) => q.TookPending? && Fresh(s, newId)
    case FederationReadPending => q.Finishing?
    case FederationAdmit => q.Federating?
    case DenyReadPending(_) => q.Captured?
    case AnswerTakePending => q.Answering?
  }

  predicate MayFinish(s: Sys, snap: Snapshot, userId: string, mfa: bool) {
    UserUsable(snap, userId) && SessionUsable(mfa, MfaMode(snap)) && GenerationUsable(s.rt, snap.generation)
  }

  function CompletedCode(q: Request, now: int, newId: string): AuthCode
    requires q.TookPending?
  {
    AuthCode(q.snap.generation, newId, q.pend.clientId, q.pend.redirectUri, q.userId, q.username, q.pend.scope,
             q.pend.nonce, q.pend.challenge, now + CODE_TTL, q.mfa)
  }

  function BirthOf(s: Sys, h: Handle): Birth { if h in s.born then s.born[h] else Birth(0, []) }

  /** CompleteLoginSnapshot, up to the generation check. */
  function Admit(s: Sys, q: Request): Outcome
    requires q.Finishing?
  {
    if MayFinish(s, q.snap, q.userId, q.mfa) then Then(s.rt, Completing(q.snap, q.pid, q.userId, q.username, q.mfa))
    else Ends(s.rt)
  }

  function ReadForCode(s: Sys, q: Request): Outcome
    requires q.Completing?
  {
    var (rt, pend) := GetPending(s.rt, q.pid, s.now);
    if pend.Some? && PendingUsable(q.snap, pend.value) && IsOidc(pend.value)
    then Then(rt, HoldsPending(q.snap, q.pid, pend.value, q.userId, q.username, q.mfa))
    else Ends(rt)
  }

  function TakeForCode(s: Sys, q: Request): Outcome
    requires q.HoldsPending?
  {
    var (rt, taken) := TakePending(s.rt, q.pid, s.now);
    if taken.Some?
    then Then(rt, TookPending(q.snap, q.pend, q.userId, q.username, q.mfa, BirthOf(s, PendingHandle(q.pid))))
    else Ends(rt)
  }

  function CompleteCode(s: Sys, q: Request, newId: string): Outcome
    requires q.TookPending?
  {
    var code := CompletedCode(q, s.now, newId);
    StoreCode(s, code, Extend(q.birth, LinkOfCode(code)))
  }

  /** finishPending and finish of the SAML and WS-Fed providers. */
  function ReadForAssertion(s: Sys, q: Request): Outcome
    requires q.Finishing?
  {
    var (rt, pend) := GetPending(s.rt, q.pid, s.now);
    if pend.Some? && PendingUsable(q.snap, pend.value) && (pend.value.protocol.Saml? || pend.value.protocol.WsFed?)
    then Then(rt, Federating(q.snap, q.pid, q.userId, q.mfa))
    else Ends(rt)
  }

  function AdmitAssertion(s: Sys, q: Request): Outcome
    requires q.Federating?
  {
    if MayFinish(s, q.snap, q.userId, q.mfa) then Then(s.rt, Answering(q.snap, q.pid, false)) else Ends(s.rt)
  }

  function ReadForDenial(s: Sys, snap: Snapshot, pid: string): Outcome {
    var (rt, pend) := GetPending(s.rt, pid, s.now);
    if pend.Some? && PendingUsable(snap, pend.value) then Then(rt, Answering(snap, pid, true)) else Ends(rt)
  }

  /** One response, an assertion or a denial, goes back to the browser. */
  function Answer(s: Sys, pid: string): Outcome {
    var (rt, taken) := TakePending(s.rt, pid, s.now);
    Ends(rt).(answer := if taken.Some? then Some(BirthOf(s, PendingHandle(pid)).lineage) else None)
  }

  function FinishOut(s: Sys, q: Request, e: FinishEvent): Outcome
    requires FinishEnabled(s, q, e)
  {
    match e
    case CompleteAdmit => Admit(s, q)
    case CompleteReadPending => ReadForCode(s, q)
    case CompleteTakePending => TakeForCode(s, q)
    case CompletePutCode(newId) => CompleteCode(s, q, newId)
    case FederationReadPending => ReadForAssertion(s, q)
    case FederationAdmit => AdmitAssertion(s, q)
    case DenyReadPending(pid) => ReadForDenial(s, q.snap, pid)
    case AnswerTakePending => Answer(s, q.pid)
  }

  // ------------------------------------------------------- token endpoint

  predicate TokenEnabled(s: Sys, q: Request, e: TokenEvent) {
    match e
    case RedeemCode(_, clientId, _, _) => q.Captured? && clientId in q.snap.clients.byClientId
    case ReadRefresh(_, clientId, _) => q.Captured? && clientId in q.snap.clients.byClientId
    case CheckGrant(_) => q.Issuing?
    case BurnRefresh => q.Burning?
    case StoreRefresh(newId) => q.Minting? && Fresh(s, newId)
  }

  /** The `revoked` flag of writeTokens. */
  predicate GrantRevoked(snap: Snapshot, g: Grant) {
    || g.clientId !in snap.clients.byClientId || !UserUsable(snap, g.userId)
    || !ScopesAllowed(snap.clients.byClientId[g.clientId], g.scope)
  }

  function RefreshFor(snap: Snapshot, g: Grant, now: int, newId: string): Refresh {
    Refresh(snap.generation, newId, g.clientId, g.userId, g.username, g.scope, now + REFRESH_TTL, g.mfa)
  }

  /** tokenCode: the code is consumed before it is checked. */
  function Redeem(s: Sys, snap: Snapshot, code: string, clientId: string, redirect: string, digest: string): Outcome
    requires clientId in snap.clients.byClientId
  {
    var (rt, taken) := TakeCode(s.rt, code);
    if taken.Some? && !CodeExpired(taken.value, s.now) && taken.value.redirectUri == redirect
       && taken.value.clientId == clientId && redirect in snap.clients.byClientId[clientId].redirectUris
       && taken.value.challenge == digest
    then Then(rt, Issuing(snap, GrantOfCode(taken.value), "", BirthOf(s, CodeHandle(code))))
    else Ends(rt)
  }

  /** tokenRefresh: the handle is only read. */
  function ReadGrant(s: Sys, snap: Snapshot, token: string, clientId: string, requested: string): Outcome {
    var row := GetRefresh(s.rt, token);
    if row.Some? && !RefreshExpired(row.value, s.now) && row.value.clientId == clientId
       && (requested == "" || ScopeSubset(requested, row.value.scope))
    then
      var g := GrantOfRefresh(row.value);
      Then(s.rt, Issuing(snap, if requested == "" then g else g.(scope := requested), token, BirthOf(s, RefreshHandle(token))))
    else Ends(s.rt)
  }

  /** The checks of writeTokens. */
  function CheckedGrant(s: Sys, q: Request, forced: bool): Outcome
    requires q.Issuing?
  {
    var revoked := GrantRevoked(q.snap, q.grant);
    if revoked || !SessionUsable(q.grant.mfa, MfaMode(q.snap)) || forced || !GenerationUsable(s.rt, q.snap.generation) then
      if revoked && q.spent != "" && GenerationUsable(s.rt, q.snap.generation) then Then(s.rt, Burning(q.snap, q.spent))
      else Ends(s.rt)
    else Then(s.rt, Minting(q.snap, q.grant, q.spent, q.birth))
  }

  /** The end of writeTokens: rotate the spent handle, or store the first one. */
  function StoreGrant(s: Sys, q: Request, newId: string): Outcome
    requires q.Minting?
  {
    var row := RefreshFor(q.snap, q.grant, s.now, newId);
    var (rt, ok) := if q.spent != "" then RotateRefresh(s.rt, q.spent, row, s.now) else PutRefresh(s.rt, row, s.now);
    Outcome(rt, None, if ok then Some((RefreshHandle(newId), Extend(q.birth, RefreshLink(q.grant)))) else None, None, None, None)
  }

  function TokenOut(s: Sys, q: Request, e: TokenEvent): Outcome
    requires TokenEnabled(s, q, e)
  {
    match e
    case RedeemCode(code, clientId, redirect, digest) => Redeem(s, q.snap, code, clientId, redirect, digest)
    case ReadRefresh(token, clientId, requested) => ReadGrant(s, q.snap, token, clientId, requested)
    case CheckGrant(forced) => CheckedGrant(s, q, forced)
    case BurnRefresh => Ends(TakeRefresh(s.rt, q.spent).0)
    case StoreRefresh(newId) => StoreGrant(s, q, newId)
  }

  // ------------------------------------------------------------------ runs

  /** A request's event needs the request; a candidate is what the compiler returned. */
  ghost predicate Enabled(s: Sys, e: Event) {
    && s.snaps != []
    && match e
       case Env(x) => EnvEnabled(s, x)
       case Mutate(x) => MutEnabled(s, x) && (x.Begin? ==> WellCompiled(x.cand))
       case Entry(r, x) => r in s.reqs && EntryEnabled(s, s.reqs[r], x)
       case Login(r, x) => r in s.reqs && LoginEnabled(s, s.reqs[r], x)
       case Finish(r, x) => r in s.reqs && FinishEnabled(s, s.reqs[r], x)
       case Token(r, x) => r in s.reqs && TokenEnabled(s, s.reqs[r], x)
  }

  ghost function Do(s: Sys, e: Event): Sys
    requires Enabled(s, e)
  {
    match e
    case Env(x) => EnvDo(s, x)
    case Mutate(x) => MutDo(s, x)
    case Entry(r, x) => After(s, r, EntryOut(s, s.reqs[r], x))
    case Login(r, x) => After(s, r, LoginOut(s, s.reqs[r], x))
    case Finish(r, x) => After(s, r, FinishOut(s, s.reqs[r], x))
    case Token(r, x) => After(s, r, TokenOut(s, s.reqs[r], x))
  }

  /** Every event of the sequence is enabled when its turn comes. */
  ghost predicate IsRun(s: Sys, es: seq<Event>)
    decreases |es|
  {
    es == [] || (Enabled(s, es[0]) && IsRun(Do(s, es[0]), es[1..]))
  }

  ghost function Final(s: Sys, es: seq<Event>): Sys
    requires IsRun(s, es)
    decreases |es|
  {
    if es == [] then s else Final(Do(s, es[0]), es[1..])
  }
}
