/**
 What a request can take out of the tables, and in particular what one whose
 snapshot has fallen below the admission generation can still do.
 */
module StaleRequests {
  import opened Basics
  import opened Documents
  import opened Snapshots
  import opened RuntimeState
  import opened Access
  import opened System
  import opened Revocation
  import opened Handlers
  import opened Protocol
  import Theorems

  // --------------------------------------------- a pending row is vetted first

  /** The request has checked the pending row it is about to take. */
  predicate Takes(q: Request) { q.HoldsPending? || q.Federating? || q.Answering? }

  /** The row a request is about to take, if still there, is usable under the request's own snapshot. */
  predicate VettedBy(pending: map<string, Pending>, used: set<string>, q: Request) {
    Takes(q) ==> q.pid in used && (q.pid in pending ==> PendingUsable(q.snap, pending[q.pid]))
  }

  predicate KeysUsed(pending: map<string, Pending>, used: set<string>) { forall id :: id in pending ==> id in used }

  /** The request passed the generation check on its way to taking its row. */
  predicate Admitted(q: Request) { q.Completing? || q.HoldsPending? || (q.Answering? && !q.denied) }

  /** Once an admitted request is left behind, the purge that did so has removed its row for good. */
  predicate PurgedFor(rt: Rt, q: Request) {
    Admitted(q) && Stale(rt, q.snap.generation) ==> q.pid !in rt.pending
  }

  ghost predicate Vetted(s: Sys) {
    && KeysUsed(s.rt.pending, s.used)
    && forall r :: r in s.reqs ==> VettedBy(s.rt.pending, s.used, s.reqs[r]) && PurgedFor(s.rt, s.reqs[r])
  }

  /** Rows are never rewritten: each is an old row, or stands under an identifier not used or named before. */
  predicate Grows(s: Sys, after: map<string, Pending>) {
    forall id :: id in after ==>
      (id !in s.used && Unnamed(s.reqs, id)) || (id in s.rt.pending && after[id] == s.rt.pending[id])
  }

  predicate Part(part: map<string, Pending>, whole: map<string, Pending>) {
    forall id :: id in part ==> id in whole && part[id] == whole[id]
  }

  lemma PartGrows(s: Sys, rt: Rt)
    requires KeysUsed(s.rt.pending, s.used) && Part(rt.pending, s.rt.pending)
    ensures Grows(s, rt.pending) && KeysUsed(rt.pending, s.used)
  {
  }

  lemma GrowthKeepsVetted(s: Sys, rt: Rt, used: set<string>, r: nat)
    requires Vetted(s) && r in s.reqs && Grows(s, rt.pending) && s.used <= used
    requires rt.minGen == s.rt.minGen || rt.pending == map[]
    ensures VettedBy(rt.pending, used, s.reqs[r]) && PurgedFor(rt, s.reqs[r])
  {
    var q := s.reqs[r];
    if Admitted(q) && q.pid in rt.pending {
      assert Names(q, q.pid);
    }
  }

  /** What an outcome must satisfy to keep the vetting of every request. */
  predicate OutcomeVets(s: Sys, o: Outcome) {
    && Grows(s, o.rt.pending)
    && KeysUsed(o.rt.pending, s.used + if o.born.Some? then {o.born.value.0.id} else {})
    && (o.next.Some? ==> VettedBy(o.rt.pending, s.used, o.next.value) && PurgedFor(o.rt, o.next.value))
  }

  lemma OutcomeKeepsVetted(s: Sys, r: nat, o: Outcome)
    requires Vetted(s) && OutcomeVets(s, o) && o.rt.minGen == s.rt.minGen
    ensures Vetted(After(s, r, o))
  {
    var t := After(s, r, o);
    forall x | x in t.reqs ensures VettedBy(t.rt.pending, t.used, t.reqs[x]) && PurgedFor(t.rt, t.reqs[x]) {
      if x != r {
        GrowthKeepsVetted(s, t.rt, t.used, x);
      }
    }
  }

  /** A step that stores no pending row and does not start to take one. */
  lemma PlainVets(s: Sys, o: Outcome)
    requires KeysUsed(s.rt.pending, s.used) && Part(o.rt.pending, s.rt.pending)
    requires o.next.Some? ==> !Takes(o.next.value) && PurgedFor(o.rt, o.next.value)
    ensures OutcomeVets(s, o)
  {
    PartGrows(s, o.rt);
  }

  lemma SubmitVets(s: Sys, p: Pending, newId: string, next: Option<Request>)
    requires KeysUsed(s.rt.pending, s.used) && Fresh(s, newId) && p.id == "" && (next.Some? ==> next.value.Stored?)
    ensures OutcomeVets(s, Submit(s, p, newId, next))
  {
    PutPendingPart(s.rt, p, s.now, newId);
  }

  lemma PutPendingPart(rt: Rt, p: Pending, now: int, newId: string)
    requires p.id == "" && newId != ""
    ensures
      var (rt', row) := PutPending(rt, p, now, newId);
      if row.id == "" then Part(rt'.pending, rt.pending) else row.id == newId && Part(rt'.pending - {newId}, rt.pending)
  {
    CleanupShrinks(rt, now);
  }

  lemma StoresLeavePart(rt: Rt, now: int)
    ensures Part(Cleanup(rt, now).pending, rt.pending)
  {
    CleanupShrinks(rt, now);
  }

  lemma CodeLeavesPart(rt: Rt, c: AuthCode, now: int)
    ensures Part(PutCode(rt, c, now).0.pending, rt.pending)
  {
    StoresLeavePart(rt, now);
  }

  lemma RefreshLeavesPart(rt: Rt, t: Refresh, now: int)
    ensures Part(PutRefresh(rt, t, now).0.pending, rt.pending)
  {
    StoresLeavePart(rt, now);
  }

  lemma SessionLeavesPart(rt: Rt, x: LoginSession, now: int, newId: string)
    ensures Part(PutSession(rt, x, now, newId).0.pending, rt.pending)
  {
    StoresLeavePart(rt, now);
  }

  lemma ReadLeavesPart(rt: Rt, id: string, now: int)
    ensures Part(GetPending(rt, id, now).0.pending, rt.pending)
    ensures GetPending(rt, id, now).1.Some? ==>
              id in rt.pending && GetPending(rt, id, now).0 == rt && GetPending(rt, id, now).1.value == rt.pending[id]
  {
  }

  lemma TakeLeavesPart(rt: Rt, id: string, now: int)
    ensures Part(TakePending(rt, id, now).0.pending, rt.pending)
  {
  }

  // --------------------------------------------------------------- by event

  lemma EntryVets(s: Sys, q: Request, e: EntryEvent)
    requires KeysUsed(s.rt.pending, s.used) && EntryEnabled(s, q, e)
    ensures OutcomeVets(s, EntryOut(s, q, e))
  {
    match e
    case AuthorizeReadSession(sid) => PlainVets(s, ReadSessionFor(s, q.snap, sid));
    case AuthorizePutCode(query, newId) =>
      CodeLeavesPart(s.rt, CodeFor(q.snap, query, q.session.value, s.now, newId), s.now);
      PlainVets(s, AuthorizeCode(s, q.snap, query, q.session.value, newId));
    case AuthorizePutPending(query, newId) => SubmitVets(s, OidcPending(q.snap, query), newId, None);
    case SamlPutPending(issuer, acs, requestId, relay, newId) =>
      SubmitVets(s, SamlPending(q.snap, issuer, acs, requestId, relay), newId, Some(Stored(q.snap, newId)));
    case WsFedPutPending(realm, reply, context, newId) =>
      SubmitVets(s, WsFedPending(q.snap, realm, reply, context), newId, Some(Stored(q.snap, newId)));
    case FederationReadSession(sid) => PlainVets(s, Resume(s, q.snap, q.pid, sid));
  }

  lemma LoginVets(s: Sys, q: Request, e: LoginEvent)
    requires KeysUsed(s.rt.pending, s.used) && LoginEnabled(s, q, e)
    ensures OutcomeVets(s, LoginOut(s, q, e))
  {
    match e
    case LoginReadPending(pid, username, passwordOk) =>
      ReadLeavesPart(s.rt, pid, s.now);
      PlainVets(s, Identify(s, q.snap, pid, username, passwordOk));
    case LoginPutSession(newId) =>
      SessionLeavesPart(s.rt, SessionFor(q.snap, q.user, q.mfa, s.now), s.now, newId);
      PlainVets(s, OpenSession(s, q, newId));
    case ConsentReadSession(pid, sid) => PlainVets(s, Resume(s, q.snap, pid, sid));
    case _ =>
      MfaKeepsPending(s, q, e);
      PlainVets(s, LoginOut(s, q, e));
  }

  /** The MFA steps of a login do not touch the pending table. */
  lemma MfaKeepsPending(s: Sys, q: Request, e: LoginEvent)
    requires LoginEnabled(s, q, e) && (e.LoginReadOverlay? || e.LoginVerify? || e.LoginRecord? || e.LoginWithoutMfa?)
    ensures LoginOut(s, q, e).rt.pending == s.rt.pending 
    ensures LoginOut(s, q, e).next.Some? ==> !Takes(LoginOut(s, q, e).next.value) && !Admitted(LoginOut(s, q, e).next.value)
  {
  }

  /** A read that succeeds vets the row it found. */
  lemma ReadVets(s: Sys, snap: Snapshot, pid: string, o: Outcome)
    requires KeysUsed(s.rt.pending, s.used) && o.rt == GetPending(s.rt, pid, s.now).0
    requires o.next.Some? && Takes(o.next.value) ==>
               && o.next.value.pid == pid && o.next.value.snap == snap
               && GetPending(s.rt, pid, s.now).1.Some? && PendingUsable(snap, GetPending(s.rt, pid, s.now).1.value)
    requires o.next.Some? ==> PurgedFor(o.rt, o.next.value)
    ensures OutcomeVets(s, o)
  {
    ReadLeavesPart(s.rt, pid, s.now);
    PartGrows(s, o.rt);
  }

  lemma FinishVets(s: Sys, q: Request, e: FinishEvent)
    requires KeysUsed(s.rt.pending, s.used) && VettedBy(s.rt.pending, s.used, q) && PurgedFor(s.rt, q) && FinishEnabled(s, q, e)
    ensures OutcomeVets(s, FinishOut(s, q, e))
  {
    match e
    case CompleteAdmit => PlainVets(s, Admit(s, q));
    case CompleteReadPending =>
      ReadLeavesPart(s.rt, q.pid, s.now);
      ReadVets(s, q.snap, q.pid, ReadForCode(s, q));
    case CompleteTakePending =>
      TakeLeavesPart(s.rt, q.pid, s.now);
      PlainVets(s, TakeForCode(s, q));
    case CompletePutCode(newId) =>
      CodeLeavesPart(s.rt, CompletedCode(q, s.now, newId), s.now);
      PlainVets(s, CompleteCode(s, q, newId));
    case FederationReadPending => ReadVets(s, q.snap, q.pid, ReadForAssertion(s, q));
    case FederationAdmit => AdmitVets(s, q);
    case DenyReadPending(pid) => ReadVets(s, q.snap, pid, ReadForDenial(s, q.snap, pid));
    case AnswerTakePending =>
      TakeLeavesPart(s.rt, q.pid, s.now);
      PlainVets(s, Answer(s, q.pid));
  }

  lemma AdmitVets(s: Sys, q: Request)
    requires KeysUsed(s.rt.pending, s.used) && q.Federating? && VettedBy(s.rt.pending, s.used, q)
    ensures OutcomeVets(s, AdmitAssertion(s, q))
  {
    PartGrows(s, s.rt);
  }

  lemma TokenVets(s: Sys, q: Request, e: TokenEvent)
    requires KeysUsed(s.rt.pending, s.used) && TokenEnabled(s, q, e)
    ensures OutcomeVets(s, TokenOut(s, q, e))
  {
    match e
    case RedeemCode(code, clientId, redirect, digest) => PlainVets(s, Redeem(s, q.snap, code, clientId, redirect, digest));
    case ReadRefresh(token, clientId, requested) => PlainVets(s, ReadGrant(s, q.snap, token, clientId, requested));
    case CheckGrant(forced) => PlainVets(s, CheckedGrant(s, q, forced));
    case BurnRefresh => PlainVets(s, TokenOut(s, q, e));
    case StoreRefresh(newId) =>
      GrantKeepsPending(s, q, newId);
      PlainVets(s, StoreGrant(s, q, newId));
  }

  lemma GrantKeepsPending(s: Sys, q: Request, newId: string)
    requires q.Minting?
    ensures Part(StoreGrant(s, q, newId).rt.pending, s.rt.pending) && StoreGrant(s, q, newId).next.None?
  {
    RefreshLeavesPart(s.rt, RefreshFor(q.snap, q.grant, s.now, newId), s.now);
  }

  lemma QuietVets(s: Sys, t: Sys)
    requires Vetted(s) && Part(t.rt.pending, s.rt.pending) && t.used == s.used
    requires t.rt.minGen == s.rt.minGen || t.rt.pending == map[]
    requires forall r :: r in t.reqs ==> (r in s.reqs && t.reqs[r] == s.reqs[r]) || t.reqs[r].Captured?
    ensures Vetted(t)
  {
    PartGrows(s, t.rt);
    forall r | r in t.reqs ensures VettedBy(t.rt.pending, t.used, t.reqs[r]) && PurgedFor(t.rt, t.reqs[r]) {
      if r in s.reqs && t.reqs[r] == s.reqs[r] {
        GrowthKeepsVetted(s, t.rt, t.used, r);
      }
    }
  }

  lemma EnvKeepsVetted(s: Sys, e: EnvEvent)
    requires Vetted(s) && s.snaps != []
    ensures Vetted(EnvDo(s, e))
  {
    QuietVets(s, EnvDo(s, e));
  }

  lemma MutKeepsVetted(s: Sys, e: MutEvent)
    requires Vetted(s) && s.snaps != [] && MutEnabled(s, e)
    ensures Vetted(MutDo(s, e))
  {
    QuietVets(s, MutDo(s, e));
  }

  lemma StepKeepsVetted(s: Sys, e: Event)
    requires Vetted(s) && Enabled(s, e)
    ensures Vetted(Do(s, e))
  {
    match e
    case Env(x) => EnvKeepsVetted(s, x);
    case Mutate(x) => MutKeepsVetted(s, x);
    case Entry(r, x) =>
      EntryVets(s, s.reqs[r], x);
      Theorems.EntryKeepsAdmission(s, s.reqs[r], x);
      OutcomeKeepsVetted(s, r, EntryOut(s, s.reqs[r], x));
    case Login(r, x) =>
      LoginVets(s, s.reqs[r], x);
      Theorems.LoginKeepsAdmission(s, s.reqs[r], x);
      OutcomeKeepsVetted(s, r, LoginOut(s, s.reqs[r], x));
    case Finish(r, x) =>
      FinishVets(s, s.reqs[r], x);
      Theorems.FinishKeepsAdmission(s, s.reqs[r], x);
      OutcomeKeepsVetted(s, r, FinishOut(s, s.reqs[r], x));
    case Token(r, x) =>
      TokenVets(s, s.reqs[r], x);
      Theorems.TokenKeepsAdmission(s, s.reqs[r], x);
      OutcomeKeepsVetted(s, r, TokenOut(s, s.reqs[r], x));
  }

  lemma {:induction false} RunKeepsVetted(s: Sys, es: seq<Event>)
    requires Vetted(s) && IsRun(s, es)
    ensures Vetted(Final(s, es))
    decreases |es|
  {
    if es != [] {
      StepKeepsVetted(s, es[0]);
      RunKeepsVetted(Do(s, es[0]), es[1..]);
    }
  }

  lemma ReachableVetted(s: Sys)
    requires Reachable(s)
    ensures Vetted(s)
  {
    var boot, now, es :| Leads(boot, now, es, s);
    RunKeepsVetted(Start(boot, now), es);
  }

  // ---------------------------------------- why a pending row can disappear

  predicate ByRequest(e: Event) { !e.Env? && !e.Mutate? }

  /** The step takes a pending row: to complete a login, or to answer. */
  predicate TakesRow(q: Request, e: Event, id: string) {
    && e.Finish? && ((e.finish.CompleteTakePending? && q.HoldsPending?) || (e.finish.AnswerTakePending? && q.Answering?))
    && q.pid == id
  }

  /** Everything the step drops from the pending table had expired. */
  predicate DropsExpired(a: map<string, Pending>, b: map<string, Pending>, now: int) {
    forall id :: id in a && id !in b ==> PendingExpired(a[id], now)
  }

  lemma SweepDropsExpired(rt: Rt, now: int)
    ensures DropsExpired(rt.pending, Cleanup(rt, now).pending, now)
  {
  }

  lemma PutPendingDrops(rt: Rt, p: Pending, now: int, newId: string)
    ensures DropsExpired(rt.pending, PutPending(rt, p, now, newId).0.pending, now)
  {
    SweepDropsExpired(rt, now);
  }

  lemma ReadDropsExpired(rt: Rt, id: string, now: int)
    ensures DropsExpired(rt.pending, GetPending(rt, id, now).0.pending, now)
  {
  }

  lemma TakeDropsOne(rt: Rt, id: string, now: int)
    ensures forall x :: x in rt.pending && x !in TakePending(rt, id, now).0.pending ==> x == id
  {
  }

  lemma EntryDropsExpired(s: Sys, q: Request, e: EntryEvent)
    requires EntryEnabled(s, q, e)
    ensures DropsExpired(s.rt.pending, EntryOut(s, q, e).rt.pending, s.now)
  {
    match e
    case AuthorizePutCode(_, _) => SweepDropsExpired(s.rt, s.now);
    case AuthorizePutPending(query, newId) => PutPendingDrops(s.rt, OidcPending(q.snap, query), s.now, newId);
    case SamlPutPending(issuer, acs, requestId, relay, newId) =>
      PutPendingDrops(s.rt, SamlPending(q.snap, issuer, acs, requestId, relay), s.now, newId);
    case WsFedPutPending(realm, reply, context, newId) => PutPendingDrops(s.rt, WsFedPending(q.snap, realm, reply, context), s.now, newId);
    case _ =>
  }

  lemma LoginDropsExpired(s: Sys, q: Request, e: LoginEvent)
    requires LoginEnabled(s, q, e)
    ensures DropsExpired(s.rt.pending, LoginOut(s, q, e).rt.pending, s.now)
  {
    match e
    case LoginReadPending(pid, _, _) => ReadDropsExpired(s.rt, pid, s.now);
    case LoginPutSession(_) => SweepDropsExpired(s.rt, s.now);
    case _ =>
  }

  lemma TokenDropsExpired(s: Sys, q: Request, e: TokenEvent)
    requires TokenEnabled(s, q, e)
    ensures DropsExpired(s.rt.pending, TokenOut(s, q, e).rt.pending, s.now)
  {
    match e
    case StoreRefresh(_) => SweepDropsExpired(s.rt, s.now);
    case _ =>
  }

  lemma FinishDrops(s: Sys, q: Request, e: FinishEvent, r: nat, id: string)
    requires FinishEnabled(s, q, e) && id in s.rt.pending && id !in FinishOut(s, q, e).rt.pending
    ensures PendingExpired(s.rt.pending[id], s.now) || TakesRow(q, Finish(r, e), id)
  {
    match e
    case CompleteReadPending => ReadDropsExpired(s.rt, q.pid, s.now);
    case FederationReadPending => ReadDropsExpired(s.rt, q.pid, s.now);
    case DenyReadPending(pid) => ReadDropsExpired(s.rt, pid, s.now);
    case CompletePutCode(_) => SweepDropsExpired(s.rt, s.now);
    case CompleteTakePending => TakeDropsOne(s.rt, q.pid, s.now);
    case AnswerTakePending => TakeDropsOne(s.rt, q.pid, s.now);
    case _ =>
  }

  lemma RequestDrops(s: Sys, e: Event, id: string)
    requires Enabled(s, e) && ByRequest(e) && id in s.rt.pending && id !in Do(s, e).rt.pending
    ensures PendingExpired(s.rt.pending[id], s.now) || TakesRow(s.reqs[e.r], e, id)
  {
    match e
    case Entry(r, x) => EntryDropsExpired(s, s.reqs[r], x);
    case Login(r, x) => LoginDropsExpired(s, s.reqs[r], x);
    case Finish(r, x) => FinishDrops(s, s.reqs[r], x, r, id);
    case Token(r, x) => TokenDropsExpired(s, s.reqs[r], x);
  }

  /** No request takes a pending row that is not usable under its own snapshot. */
  lemma TakenRowsWereVetted(s: Sys, e: Event, id: string)
    requires Reachable(s) && Enabled(s, e) && ByRequest(e) && id in s.rt.pending && id !in Do(s, e).rt.pending
    ensures PendingExpired(s.rt.pending[id], s.now) ||
              (TakesRow(s.reqs[e.r], e, id) && PendingUsable(s.reqs[e.r].snap, s.rt.pending[id]))
  {
    ReachableVetted(s);
    RequestDrops(s, e, id);
    assert VettedBy(s.rt.pending, s.used, s.reqs[e.r]);
  }

  /** An admitted request's snapshot answers every question as the active one does. */
  lemma AdmittedAlike(s: Sys, r: nat)
    requires Core(s) && r in s.reqs && GenerationUsable(s.rt, s.reqs[r].snap.generation)
    ensures Alike(s.reqs[r].snap, Active(s))
  {
    RequestFacts(s, r);
  }

  lemma ReachableAlike(s: Sys, r: nat)
    requires Reachable(s) && r in s.reqs && s.snaps != [] && GenerationUsable(s.rt, s.reqs[r].snap.generation)
    ensures Alike(s.reqs[r].snap, Active(s))
  {
    ReachableCore(s);
    AdmittedAlike(s, r);
  }

  /**
   A pending row that is not usable under the active snapshot, that is, a WS-Fed
   row whose realm is a bare client id, is never taken by a request whose snapshot
   is still admitted: such a request can only drop it after it expired.
   */
  lemma AdmittedRequestsSpareUnusableRows(s: Sys, e: Event, id: string)
    requires Reachable(s) && Enabled(s, e) && ByRequest(e) && GenerationUsable(s.rt, s.reqs[e.r].snap.generation)
    requires id in s.rt.pending && !PendingUsable(Active(s), s.rt.pending[id])
    ensures id in Do(s, e).rt.pending || PendingExpired(s.rt.pending[id], s.now)
  {
    if id !in Do(s, e).rt.pending {
      TakenRowsWereVetted(s, e, id);
      ReachableAlike(s, e.r);
      AlikePending(s.reqs[e.r].snap, Active(s), s.rt.pending[id]);
    }
  }

  /**
   Denial is open to every request, admitted or not: read and answer, with nothing
   in between, take a live row if and only if it is usable under the request's own snapshot.
   */
  lemma DenialTakesIff(s: Sys, r: nat, id: string)
    requires s.snaps != [] && r in s.reqs && s.reqs[r].Captured?
    requires id in s.rt.pending && !PendingExpired(s.rt.pending[id], s.now)
    ensures
      var row, read := s.rt.pending[id], After(s, r, ReadForDenial(s, s.reqs[r].snap, id));
      && read.rt == s.rt
      && (PendingUsable(s.reqs[r].snap, row) <==> r in read.reqs)
      && (r in read.reqs ==>
            && FinishEnabled(read, read.reqs[r], AnswerTakePending)
            && After(read, r, Answer(read, id)).rt == s.rt.(pending := s.rt.pending - {id})
            && |After(read, r, Answer(read, id)).answers| == |s.answers| + 1)
  {
  }

  // ------------------------------------------------- requests left behind

  /** Nothing is added or rewritten, refresh handles stay, and only expired sessions go. */
  predicate Harmless(a: Rt, b: Rt, now: int) {
    && Shrinks(a, b) && b.refresh == a.refresh
    && forall k :: k in a.sessions && k !in b.sessions ==> SessionExpired(a.sessions[k], now)
  }

  predicate KeepsCodes(a: Rt, b: Rt) { b.codes == a.codes }

  lemma SameIsHarmless(rt: Rt, now: int)
    ensures Harmless(rt, rt, now)
  {
  }

  /** No store accepts a row of a generation left behind; nothing is even swept. */
  lemma StaleStoresNothing(rt: Rt, generation: int, now: int)
    requires Stale(rt, generation)
    ensures forall p: Pending, id :: p.generation == generation ==> PutPending(rt, p, now, id).0 == rt
    ensures forall c: AuthCode :: c.generation == generation ==> PutCode(rt, c, now).0 == rt
    ensures forall t: Refresh :: t.generation == generation ==> PutRefresh(rt, t, now).0 == rt
    ensures forall t: Refresh, spent :: t.generation == generation ==> RotateRefresh(rt, spent, t, now).0 == rt
    ensures forall x: LoginSession, id :: x.generation == generation ==> PutSession(rt, x, now, id).0 == rt
    ensures forall user, step :: RecordStep(rt, user, step, generation).0 == rt
  {
  }

  lemma ReadSessionHarmless(rt: Rt, sid: string, now: int)
    ensures Harmless(rt, GetSession(rt, sid, now).0, now) && KeepsCodes(rt, GetSession(rt, sid, now).0)
  {
    ReadSessionShrinks(rt, sid, now);
  }

  lemma PendingHarmless(rt: Rt, id: string, now: int)
    ensures Harmless(rt, GetPending(rt, id, now).0, now) && KeepsCodes(rt, GetPending(rt, id, now).0)
    ensures Harmless(rt, TakePending(rt, id, now).0, now) && KeepsCodes(rt, TakePending(rt, id, now).0)
  {
    ReadPendingShrinks(rt, id, now);
    TakePendingShrinks(rt, id, now);
  }

  lemma StaleEntry(s: Sys, q: Request, e: EntryEvent)
    requires EntryEnabled(s, q, e) && Stale(s.rt, q.snap.generation)
    ensures Harmless(s.rt, EntryOut(s, q, e).rt, s.now) && KeepsCodes(s.rt, EntryOut(s, q, e).rt)
  {
    match e
    case AuthorizeReadSession(sid) => ReadSessionHarmless(s.rt, sid, s.now);
    case FederationReadSession(sid) => ReadSessionHarmless(s.rt, sid, s.now);
    case AuthorizePutCode(query, newId) =>
      StaleCode(s, CodeFor(q.snap, query, q.session.value, s.now, newId), Root(s, LinkOfCode(CodeFor(q.snap, query, q.session.value, s.now, newId))));
    case AuthorizePutPending(query, newId) => StaleSubmit(s, OidcPending(q.snap, query), newId, None);
    case SamlPutPending(issuer, acs, requestId, relay, newId) =>
      StaleSubmit(s, SamlPending(q.snap, issuer, acs, requestId, relay), newId, Some(Stored(q.snap, newId)));
    case WsFedPutPending(realm, reply, context, newId) =>
      StaleSubmit(s, WsFedPending(q.snap, realm, reply, context), newId, Some(Stored(q.snap, newId)));
  }

  lemma StaleSubmit(s: Sys, p: Pending, newId: string, next: Option<Request>)
    requires Stale(s.rt, p.generation)
    ensures Submit(s, p, newId, next).rt == s.rt && Harmless(s.rt, s.rt, s.now)
  {
    StaleStoresNothing(s.rt, p.generation, s.now);
    SameIsHarmless(s.rt, s.now);
  }

  lemma StaleCode(s: Sys, c: AuthCode, birth: Birth)
    requires Stale(s.rt, c.generation)
    ensures StoreCode(s, c, birth).rt == s.rt && Harmless(s.rt, s.rt, s.now)
  {
    StaleStoresNothing(s.rt, c.generation, s.now);
    SameIsHarmless(s.rt, s.now);
  }

  lemma StaleLogin(s: Sys, q: Request, e: LoginEvent)
    requires LoginEnabled(s, q, e) && Stale(s.rt, q.snap.generation)
    ensures Harmless(s.rt, LoginOut(s, q, e).rt, s.now) && KeepsCodes(s.rt, LoginOut(s, q, e).rt)
  {
    match e
    case LoginReadPending(pid, _, _) => PendingHarmless(s.rt, pid, s.now);
    case ConsentReadSession(_, sid) => ReadSessionHarmless(s.rt, sid, s.now);
    case LoginPutSession(_) =>
      StaleStoresNothing(s.rt, q.snap.generation, s.now);
      SameIsHarmless(s.rt, s.now);
    case LoginRecord =>
      StaleStoresNothing(s.rt, q.snap.generation, s.now);
      SameIsHarmless(s.rt, s.now);
    case _ => SameIsHarmless(s.rt, s.now);
  }

  lemma StaleFinish(s: Sys, q: Request, e: FinishEvent)
    requires FinishEnabled(s, q, e) && Stale(s.rt, q.snap.generation)
    ensures Harmless(s.rt, FinishOut(s, q, e).rt, s.now) && KeepsCodes(s.rt, FinishOut(s, q, e).rt)
  {
    match e
    case CompleteReadPending => PendingHarmless(s.rt, q.pid, s.now);
    case CompleteTakePending => PendingHarmless(s.rt, q.pid, s.now);
    case FederationReadPending => PendingHarmless(s.rt, q.pid, s.now);
    case AnswerTakePending => PendingHarmless(s.rt, q.pid, s.now);
    case DenyReadPending(pid) => PendingHarmless(s.rt, pid, s.now);
    case CompletePutCode(newId) =>
      StaleCode(s, CompletedCode(q, s.now, newId), Extend(q.birth, LinkOfCode(CompletedCode(q, s.now, newId))));
    case _ => SameIsHarmless(s.rt, s.now);
  }

  lemma TakeCodeHarmless(rt: Rt, code: string, now: int)
    ensures Harmless(rt, TakeCode(rt, code).0, now) && TakeCode(rt, code).0.codes == rt.codes - {code}
  {
    TakeCodeShrinks(rt, code);
  }

  lemma StaleToken(s: Sys, q: Request, e: TokenEvent)
    requires TokenEnabled(s, q, e) && Stale(s.rt, q.snap.generation) && !q.Burning?
    ensures Harmless(s.rt, TokenOut(s, q, e).rt, s.now)
    ensures KeepsCodes(s.rt, TokenOut(s, q, e).rt) || (e.RedeemCode? && TokenOut(s, q, e).rt.codes == s.rt.codes - {e.code})
  {
    match e
    case RedeemCode(code, _, _, _) => TakeCodeHarmless(s.rt, code, s.now);
    case ReadRefresh(_, _, _) => SameIsHarmless(s.rt, s.now);
    case CheckGrant(_) => SameIsHarmless(s.rt, s.now);
    case StoreRefresh(newId) =>
      StaleStoresNothing(s.rt, q.snap.generation, s.now);
      SameIsHarmless(s.rt, s.now);
  }

  predicate RedeemsCode(e: Event, code: string) { e.Token? && e.token.RedeemCode? && e.token.code == code }

  lemma StaleStep(s: Sys, e: Event)
    requires Enabled(s, e) && ByRequest(e) && Stale(s.rt, s.reqs[e.r].snap.generation) && !s.reqs[e.r].Burning?
    ensures Harmless(s.rt, Do(s, e).rt, s.now)
    ensures forall k :: k in s.rt.codes && k !in Do(s, e).rt.codes ==> RedeemsCode(e, k)
  {
    match e
    case Entry(r, x) => StaleEntry(s, s.reqs[r], x);
    case Login(r, x) => StaleLogin(s, s.reqs[r], x);
    case Finish(r, x) => StaleFinish(s, s.reqs[r], x);
    case Token(r, x) => StaleToken(s, s.reqs[r], x);
  }

  /** The step answers a denial of the row. */
  predicate DeniesRow(q: Request, e: Event, id: string) {
    e.Finish? && e.finish.AnswerTakePending? && q.Answering? && q.denied && q.pid == id
  }

  lemma DenialRemoves(s: Sys, e: Event, id: string)
    requires Enabled(s, e) && ByRequest(e) && DeniesRow(s.reqs[e.r], e, id)
    ensures id !in Do(s, e).rt.pending
  {
    AnswerEmpties(s.rt, id, s.now);
  }

  lemma AnswerEmpties(rt: Rt, id: string, now: int)
    ensures id !in TakePending(rt, id, now).0.pending
  {
  }

  lemma RedeemingRemoves(s: Sys, e: Event, code: string)
    requires Enabled(s, e) && RedeemsCode(e, code)
    ensures code !in Do(s, e).rt.codes
  {
    TakeCodeHarmless(s.rt, code, s.now);
  }

  /** Left behind, a request takes a row that is still there only to deny it. */
  lemma StaleTakesToDeny(s: Sys, e: Event, id: string)
    requires Reachable(s) && Enabled(s, e) && ByRequest(e) && Stale(s.rt, s.reqs[e.r].snap.generation)
    requires id in s.rt.pending && TakesRow(s.reqs[e.r], e, id)
    ensures DeniesRow(s.reqs[e.r], e, id) && PendingUsable(s.reqs[e.r].snap, s.rt.pending[id])
  {
    ReachableVetted(s);
    assert VettedBy(s.rt.pending, s.used, s.reqs[e.r]) && PurgedFor(s.rt, s.reqs[e.r]);
  }

  lemma StalePendingLoss(s: Sys, e: Event, id: string)
    requires Reachable(s) && Enabled(s, e) && ByRequest(e) && Stale(s.rt, s.reqs[e.r].snap.generation)
    requires id in s.rt.pending && !PendingExpired(s.rt.pending[id], s.now)
    ensures id !in Do(s, e).rt.pending <==> DeniesRow(s.reqs[e.r], e, id)
    ensures id !in Do(s, e).rt.pending ==> PendingUsable(s.reqs[e.r].snap, s.rt.pending[id])
  {
    if DeniesRow(s.reqs[e.r], e, id) {
      DenialRemoves(s, e, id);
    }
    if id !in Do(s, e).rt.pending {
      RequestDrops(s, e, id);
      StaleTakesToDeny(s, e, id);
    }
  }

  /**
   A request whose snapshot fell below the admission generation adds no row and
   leaves ledger, overlay and refresh handles alone; of the sessions it drops
   expired ones only. It removes a code exactly when it redeems that code, and a
   pending row that has not expired exactly when it denies it, which takes a row
   that its own snapshot finds usable.
   */
  lemma StaleRequestFootprint(s: Sys, e: Event)
    requires Reachable(s) && Enabled(s, e) && ByRequest(e) && Stale(s.rt, s.reqs[e.r].snap.generation)
    ensures Harmless(s.rt, Do(s, e).rt, s.now)
    ensures forall k :: k in s.rt.codes ==> (k !in Do(s, e).rt.codes <==> RedeemsCode(e, k))
    ensures forall k :: k in s.rt.pending && !PendingExpired(s.rt.pending[k], s.now) ==>
              && (k !in Do(s, e).rt.pending <==> DeniesRow(s.reqs[e.r], e, k))
              && (k !in Do(s, e).rt.pending ==> PendingUsable(s.reqs[e.r].snap, s.rt.pending[k]))
  {
    NeverBurning(s, e.r);
    StaleStep(s, e);
    forall k | k in s.rt.codes ensures k !in Do(s, e).rt.codes <==> RedeemsCode(e, k) {
      if RedeemsCode(e, k) {
        RedeemingRemoves(s, e, k);
      }
    }
    forall k | k in s.rt.pending && !PendingExpired(s.rt.pending[k], s.now)
      ensures
        && (k !in Do(s, e).rt.pending <==> DeniesRow(s.reqs[e.r], e, k))
        && (k !in Do(s, e).rt.pending ==> PendingUsable(s.reqs[e.r].snap, s.rt.pending[k]))
    {
      StalePendingLoss(s, e, k);
    }
  }

  /** And the code it names does go, whatever its generation: the code is consumed before anything is checked. */
  lemma RedeemingConsumes(s: Sys, r: nat, code: string, clientId: string, redirect: string, digest: string)
    requires s.snaps != [] && r in s.reqs && s.reqs[r].Captured? && clientId in s.reqs[r].snap.clients.byClientId
    ensures Enabled(s, Token(r, RedeemCode(code, clientId, redirect, digest)))
    ensures Do(s, Token(r, RedeemCode(code, clientId, redirect, digest))).rt == s.rt.(codes := s.rt.codes - {code})
  {
  }
}
