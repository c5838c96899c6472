/** Every request step keeps the revocation invariant `Core`. */
module Handlers {
  import opened Basics
  import opened Documents
  import opened Snapshots
  import opened RuntimeState
  import opened Access
  import opened System
  import opened Revocation

  /** The request's own snapshot, and what it has established so far. */
  lemma RequestFacts(s: Sys, r: nat)
    requires Core(s) && r in s.reqs
    ensures Knows(s.snaps, s.reqs[r].snap) && ProgressOk(s.rt.minGen, s.reqs[r])
    ensures s.rt.minGen <= s.reqs[r].snap.generation ==> Alike(s.reqs[r].snap, Last(s.snaps))
  {
    assert RequestOk(s.snaps, s.rt.minGen)(s.reqs[r]);
  }

  // ----------------------------------------- what each runtime action keeps

  /** The tables are still worth what the window promises, and the admission generation is the same. */
  predicate Worthy(s: Sys, rt: Rt)
    requires s.snaps != []
  {
    rt.minGen == s.rt.minGen && Rows(rt, WorthIn(s))
  }

  lemma ShrunkIsWorthy(s: Sys, rt: Rt)
    requires Core(s) && Shrinks(s.rt, rt)
    ensures Worthy(s, rt)
  {
    ShrinkRows(s.rt, rt, WorthIn(s));
  }

  lemma ReadSessionWorthy(s: Sys, sid: string)
    requires Core(s)
    ensures Worthy(s, GetSession(s.rt, sid, s.now).0)
  {
    ReadSessionShrinks(s.rt, sid, s.now);
    ShrunkIsWorthy(s, GetSession(s.rt, sid, s.now).0);
  }

  lemma ReadPendingWorthy(s: Sys, pid: string)
    requires Core(s)
    ensures Worthy(s, GetPending(s.rt, pid, s.now).0)
  {
    ReadPendingShrinks(s.rt, pid, s.now);
    ShrunkIsWorthy(s, GetPending(s.rt, pid, s.now).0);
  }

  lemma TakePendingWorthy(s: Sys, pid: string)
    requires Core(s)
    ensures Worthy(s, TakePending(s.rt, pid, s.now).0)
  {
    TakePendingShrinks(s.rt, pid, s.now);
    ShrunkIsWorthy(s, TakePending(s.rt, pid, s.now).0);
  }

  lemma TakeCodeWorthy(s: Sys, code: string)
    requires Core(s)
    ensures Worthy(s, TakeCode(s.rt, code).0)
  {
    TakeCodeShrinks(s.rt, code);
    ShrunkIsWorthy(s, TakeCode(s.rt, code).0);
  }

  lemma StampIsFree(snap: Snapshot, p: Pending, id: string, created: int)
    ensures PendingOk(snap, p.(id := id, created := created)) <==> PendingOk(snap, p)
  {
  }

  lemma PutPendingWorthy(s: Sys, snap: Snapshot, p: Pending, newId: string)
    requires Core(s) && Knows(s.snaps, snap) && p == Unstamped(p) && p.generation == snap.generation && newId != ""
    requires PendingOk(snap, p)
    ensures Worthy(s, PutPending(s.rt, p, s.now, newId).0)
  {
    var row := PutPending(s.rt, p, s.now, newId).1;
    if row.id != "" {
      AlikePending(snap, Last(s.snaps), p);
      StampIsFree(Last(s.snaps), p, row.id, row.created);
    }
    PutPendingRows(s.rt, p, s.now, newId, WorthIn(s));
  }

  lemma PutCodeWorthy(s: Sys, snap: Snapshot, c: AuthCode)
    requires Core(s) && Knows(s.snaps, snap) && c.generation == snap.generation
    requires s.rt.minGen <= snap.generation ==> GrantOk(snap, GrantOfCode(c))
    ensures Worthy(s, PutCode(s.rt, c, s.now).0)
  {
    if s.rt.minGen <= snap.generation {
      GrantCarries(s, snap, GrantOfCode(c));
    }
    PutCodeRows(s.rt, c, s.now, WorthIn(s));
  }

  lemma PutRefreshWorthy(s: Sys, snap: Snapshot, t: Refresh)
    requires Core(s) && Knows(s.snaps, snap) && t.generation == snap.generation && GrantOk(snap, GrantOfRefresh(t))
    ensures Worthy(s, PutRefresh(s.rt, t, s.now).0)
  {
    GrantCarries(s, snap, GrantOfRefresh(t));
    PutRefreshRows(s.rt, t, s.now, WorthIn(s));
  }

  lemma RotateWorthy(s: Sys, snap: Snapshot, spent: string, t: Refresh)
    requires Core(s) && Knows(s.snaps, snap) && t.generation == snap.generation && GrantOk(snap, GrantOfRefresh(t))
    ensures Worthy(s, RotateRefresh(s.rt, spent, t, s.now).0)
  {
    GrantCarries(s, snap, GrantOfRefresh(t));
    RotateRows(s.rt, spent, t, s.now, WorthIn(s));
  }

  lemma PutSessionWorthy(s: Sys, snap: Snapshot, x: LoginSession, newId: string)
    requires Core(s) && Knows(s.snaps, snap) && x.generation == snap.generation && newId != "" && SessionServes(snap, x)
    ensures Worthy(s, PutSession(s.rt, x, s.now, newId).0)
  {
    PutSessionRows(s.rt, x, s.now, newId, WorthIn(s));
  }

  /** What a step must leave behind: worthy tables, and progress that is true of the request's snapshot. */
  predicate OutcomeOk(s: Sys, o: Outcome)
    requires s.snaps != []
  {
    Worthy(s, o.rt) && (o.next.Some? ==> Knows(s.snaps, o.next.value.snap) && ProgressOk(s.rt.minGen, o.next.value))
  }

  /** Whatever history the step records. */
  lemma OutcomeKeepsCore(s: Sys, r: nat, o: Outcome)
    requires Core(s) && OutcomeOk(s, o)
    ensures Core(After(s, r, o))
  {
    if o.next.Some? {
      GotoKeeps(s, After(s, r, o), r, o.next.value);
    } else {
      EndKeeps(s, After(s, r, o), r);
    }
  }

  // ------------------------------------------------- authorize, sso, passive

  lemma SubmitOk(s: Sys, snap: Snapshot, p: Pending, newId: string, next: Option<Request>)
    requires Core(s) && Knows(s.snaps, snap) && newId != "" && p == Unstamped(p) && PendingOk(snap, p)
    requires p.generation == snap.generation
    requires next.Some? ==> next.value.snap == snap && ProgressOk(s.rt.minGen, next.value)
    ensures OutcomeOk(s, Submit(s, p, newId, next))
  {
    PutPendingWorthy(s, snap, p, newId);
  }

  lemma OidcPendingIsOk(snap: Snapshot, q: Query)
    requires QueryOk(snap, q)
    ensures PendingOk(snap, OidcPending(snap, q))
  {
  }

  lemma SamlPendingIsOk(snap: Snapshot, issuer: string, acs: string, requestId: string, relay: string)
    requires ClientKeys(snap) && SamlEnabled(snap)
    requires issuer in snap.clients.bySamlEntity && acs in ReplyUrls(snap.clients.bySamlEntity[issuer])
    ensures PendingOk(snap, SamlPending(snap, issuer, acs, requestId, relay))
  {
    SamlPendingUsable(snap, issuer, acs, requestId, relay);
  }

  lemma WsFedPendingIsOk(snap: Snapshot, realm: string, reply: string, context: string)
    requires ClientKeys(snap) && WsFedEnabled(snap)
    requires RealmClient(snap, realm).Some? && reply in ReplyUrls(RealmClient(snap, realm).value)
    ensures PendingOk(snap, WsFedPending(snap, realm, reply, context))
  {
    WsFedPendingUsableIff(snap, realm, reply, context);
  }

  lemma StoreCodeOk(s: Sys, snap: Snapshot, c: AuthCode, birth: Birth)
    requires Core(s) && Knows(s.snaps, snap) && c.generation == snap.generation
    requires s.rt.minGen <= snap.generation ==> GrantOk(snap, GrantOfCode(c))
    ensures OutcomeOk(s, StoreCode(s, c, birth))
  {
    PutCodeWorthy(s, snap, c);
  }

  lemma ReadSessionForOk(s: Sys, snap: Snapshot, sid: string)
    requires Core(s) && Knows(s.snaps, snap)
    ensures OutcomeOk(s, ReadSessionFor(s, snap, sid))
  {
    ReadSessionWorthy(s, sid);
  }

  lemma ResumeOk(s: Sys, snap: Snapshot, pid: string, sid: string)
    requires Core(s) && Knows(s.snaps, snap)
    ensures OutcomeOk(s, Resume(s, snap, pid, sid))
  {
    ReadSessionWorthy(s, sid);
  }

  lemma EntryOk(s: Sys, q: Request, e: EntryEvent)
    requires Core(s) && EntryEnabled(s, q, e)
    requires ClientKeys(q.snap) && Knows(s.snaps, q.snap)
    ensures OutcomeOk(s, EntryOut(s, q, e))
  {
    match e
    case AuthorizeReadSession(sid) => ReadSessionForOk(s, q.snap, sid);
    case AuthorizePutCode(query, newId) =>
      var code := CodeFor(q.snap, query, q.session.value, s.now, newId);
      StoreCodeOk(s, q.snap, code, Root(s, LinkOfCode(code)));
    case AuthorizePutPending(query, newId) =>
      OidcPendingIsOk(q.snap, query);
      SubmitOk(s, q.snap, OidcPending(q.snap, query), newId, None);
    case SamlPutPending(issuer, acs, requestId, relay, newId) =>
      SamlPendingIsOk(q.snap, issuer, acs, requestId, relay);
      SubmitOk(s, q.snap, SamlPending(q.snap, issuer, acs, requestId, relay), newId, Some(Stored(q.snap, newId)));
    case WsFedPutPending(realm, reply, context, newId) =>
      WsFedPendingIsOk(q.snap, realm, reply, context);
      SubmitOk(s, q.snap, WsFedPending(q.snap, realm, reply, context), newId, Some(Stored(q.snap, newId)));
    case FederationReadSession(sid) => ResumeOk(s, q.snap, q.pid, sid);
  }

  // ------------------------------------------------------- login and consent

  lemma IdentifyOk(s: Sys, snap: Snapshot, pid: string, username: string, passwordOk: bool)
    requires Core(s) && Knows(s.snaps, snap)
    requires FindUser(snap, username).Some? ==> UserUsable(snap, FindUser(snap, username).value.id)
    ensures OutcomeOk(s, Identify(s, snap, pid, username, passwordOk))
  {
    ReadPendingWorthy(s, pid);
  }

  /** A step that touches no table needs only true progress. */
  lemma StayOk(s: Sys, o: Outcome)
    requires Core(s) && o.rt == s.rt
    requires o.next.Some? ==> Knows(s.snaps, o.next.value.snap) && ProgressOk(s.rt.minGen, o.next.value)
    ensures OutcomeOk(s, o)
  {
  }

  lemma RecordOk(s: Sys, q: Request)
    requires Core(s) && Knows(s.snaps, q.snap) && ProgressOk(s.rt.minGen, q) && q.Verified?
    ensures OutcomeOk(s, Record(s, q))
  {
  }

  lemma OpenSessionOk(s: Sys, q: Request, newId: string)
    requires Core(s) && Knows(s.snaps, q.snap) && ProgressOk(s.rt.minGen, q) && q.Authenticated? && newId != ""
    ensures OutcomeOk(s, OpenSession(s, q, newId))
  {
    PutSessionWorthy(s, q.snap, SessionFor(q.snap, q.user, q.mfa, s.now), newId);
  }

  lemma LoginOk(s: Sys, q: Request, e: LoginEvent)
    requires Core(s) && LoginEnabled(s, q, e)
    requires Knows(s.snaps, q.snap) && ProgressOk(s.rt.minGen, q)
    requires e.LoginReadPending? && FindUser(q.snap, e.username).Some? ==>
               UserUsable(q.snap, FindUser(q.snap, e.username).value.id)
    ensures OutcomeOk(s, LoginOut(s, q, e))
  {
    match e
    case LoginReadPending(pid, username, passwordOk) => IdentifyOk(s, q.snap, pid, username, passwordOk);
    case LoginReadOverlay => StayOk(s, ReadSecret(s, q));
    case LoginVerify(hotp, code) => StayOk(s, VerifyCode(s, q, hotp, code));
    case LoginRecord => RecordOk(s, q);
    case LoginWithoutMfa => StayOk(s, Then(s.rt, Authenticated(q.snap, q.pid, q.user, false)));
    case LoginPutSession(newId) => OpenSessionOk(s, q, newId);
    case ConsentReadSession(pid, sid) => ResumeOk(s, q.snap, pid, sid);
  }

  // ------------------------------------------------------------- finishing

  /** A usable OIDC pending row read inside the window leads to a good grant. */
  lemma ReadPendingGivesGrant(s: Sys, snap: Snapshot, p: Pending, userId: string, username: string, mfa: bool)
    requires StoreOk(s) && Knows(s.snaps, snap) && UserUsable(snap, userId) && SessionUsable(mfa, MfaMode(snap))
    requires PendingOk(Last(s.snaps), p) && PendingUsable(snap, p) && IsOidc(p)
    ensures s.rt.minGen <= snap.generation ==> GrantOk(snap, Grant(p.clientId, userId, username, p.scope, mfa))
  {
  }

  lemma StoredPendingOk(s: Sys, pid: string)
    requires Core(s) && GetPending(s.rt, pid, s.now).1.Some?
    ensures PendingOk(Last(s.snaps), GetPending(s.rt, pid, s.now).1.value)
  {
    assert WorthIn(s).pending(s.rt.pending[pid]);
  }

  lemma ReadForCodeOk(s: Sys, q: Request)
    requires Core(s) && Knows(s.snaps, q.snap) && ProgressOk(s.rt.minGen, q) && q.Completing?
    ensures OutcomeOk(s, ReadForCode(s, q))
  {
    ReadPendingWorthy(s, q.pid);
    HeldPendingProgress(s, q);
  }

  /** A request that goes on to hold a pending row will produce a good grant. */
  lemma HeldPendingProgress(s: Sys, q: Request)
    requires Core(s) && Knows(s.snaps, q.snap) && ProgressOk(s.rt.minGen, q) && q.Completing?
    ensures ReadForCode(s, q).next.Some? ==> ProgressOk(s.rt.minGen, ReadForCode(s, q).next.value)
  {
    var pend := GetPending(s.rt, q.pid, s.now).1;
    if pend.Some? && PendingUsable(q.snap, pend.value) && IsOidc(pend.value) {
      StoredPendingOk(s, q.pid);
      ReadPendingGivesGrant(s, q.snap, pend.value, q.userId, q.username, q.mfa);
    }
  }

  lemma ReadForAssertionOk(s: Sys, q: Request)
    requires Core(s) && Knows(s.snaps, q.snap) && q.Finishing?
    ensures OutcomeOk(s, ReadForAssertion(s, q))
  {
    ReadPendingWorthy(s, q.pid);
  }

  lemma ReadForDenialOk(s: Sys, snap: Snapshot, pid: string)
    requires Core(s) && Knows(s.snaps, snap)
    ensures OutcomeOk(s, ReadForDenial(s, snap, pid))
  {
    ReadPendingWorthy(s, pid);
  }

  lemma TakeForCodeOk(s: Sys, q: Request)
    requires Core(s) && Knows(s.snaps, q.snap) && ProgressOk(s.rt.minGen, q) && q.HoldsPending?
    ensures OutcomeOk(s, TakeForCode(s, q))
  {
    TakePendingWorthy(s, q.pid);
  }

  lemma AnswerOk(s: Sys, pid: string)
    requires Core(s)
    ensures OutcomeOk(s, Answer(s, pid))
  {
    TakePendingWorthy(s, pid);
  }

  lemma CompleteCodeOk(s: Sys, q: Request, newId: string)
    requires Core(s) && Knows(s.snaps, q.snap) && ProgressOk(s.rt.minGen, q) && q.TookPending?
    ensures OutcomeOk(s, CompleteCode(s, q, newId))
  {
    var code := CompletedCode(q, s.now, newId);
    StoreCodeOk(s, q.snap, code, Extend(q.birth, LinkOfCode(code)));
  }

  lemma FinishOk(s: Sys, q: Request, e: FinishEvent)
    requires Core(s) && FinishEnabled(s, q, e)
    requires Knows(s.snaps, q.snap) && ProgressOk(s.rt.minGen, q)
    ensures OutcomeOk(s, FinishOut(s, q, e))
  {
    match e
    case CompleteAdmit => StayOk(s, Admit(s, q));
    case FederationAdmit => StayOk(s, AdmitAssertion(s, q));
    case CompleteReadPending => ReadForCodeOk(s, q);
    case CompleteTakePending => TakeForCodeOk(s, q);
    case CompletePutCode(newId) => CompleteCodeOk(s, q, newId);
    case FederationReadPending => ReadForAssertionOk(s, q);
    case DenyReadPending(pid) => ReadForDenialOk(s, q.snap, pid);
    case AnswerTakePending => AnswerOk(s, q.pid);
  }

  // -------------------------------------------------------- token endpoint

  /** A stored grant, possibly narrowed, passes under any snapshot that may still act. */
  lemma StoredGrantGood(s: Sys, snap: Snapshot, g: Grant, scope: string)
    requires StoreOk(s) && Knows(s.snaps, snap) && GrantOk(Last(s.snaps), g) && ScopeSubset(scope, g.scope)
    ensures s.rt.minGen <= snap.generation ==> GrantOk(snap, g.(scope := scope))
  {
    if s.rt.minGen <= snap.generation {
      AlikeGrant(snap, Last(s.snaps), g);
      NarrowedScopeAllowed(snap.clients.byClientId[g.clientId], scope, g.scope);
    }
  }

  lemma StoredCodeOk(s: Sys, code: string)
    requires Core(s) && code in s.rt.codes
    ensures GrantOk(Last(s.snaps), GrantOfCode(s.rt.codes[code]))
  {
    assert WorthIn(s).code(s.rt.codes[code]);
  }

  lemma StoredRefreshOk(s: Sys, token: string)
    requires Core(s) && token in s.rt.refresh
    ensures GrantOk(Last(s.snaps), GrantOfRefresh(s.rt.refresh[token]))
  {
    assert WorthIn(s).refresh(s.rt.refresh[token]);
  }

  lemma RedeemOk(s: Sys, snap: Snapshot, code: string, clientId: string, redirect: string, digest: string)
    requires Core(s) && Knows(s.snaps, snap) && clientId in snap.clients.byClientId
    ensures OutcomeOk(s, Redeem(s, snap, code, clientId, redirect, digest))
  {
    TakeCodeWorthy(s, code);
    if code in s.rt.codes {
      StoredCodeOk(s, code);
      StoredGrantGood(s, snap, GrantOfCode(s.rt.codes[code]), s.rt.codes[code].scope);
    }
  }

  lemma ReadGrantOk(s: Sys, snap: Snapshot, token: string, clientId: string, requested: string)
    requires Core(s) && Knows(s.snaps, snap)
    ensures OutcomeOk(s, ReadGrant(s, snap, token, clientId, requested))
  {
    if token in s.rt.refresh {
      StoredRefreshOk(s, token);
      var g := GrantOfRefresh(s.rt.refresh[token]);
      if requested == "" || ScopeSubset(requested, g.scope) {
        StoredGrantGood(s, snap, g, if requested == "" then g.scope else requested);
      }
    }
    StayOk(s, ReadGrant(s, snap, token, clientId, requested));
  }

  /** A grant that may still be used is never found revoked, so the burning branch is dead. */
  lemma CheckedGrantOk(s: Sys, q: Request, forced: bool)
    requires Core(s) && Knows(s.snaps, q.snap) && ProgressOk(s.rt.minGen, q) && q.Issuing?
    ensures OutcomeOk(s, CheckedGrant(s, q, forced))
  {
    StayOk(s, CheckedGrant(s, q, forced));
  }

  lemma StoreGrantOk(s: Sys, q: Request, newId: string)
    requires Core(s) && Knows(s.snaps, q.snap) && ProgressOk(s.rt.minGen, q) && q.Minting?
    ensures OutcomeOk(s, StoreGrant(s, q, newId))
  {
    var row := RefreshFor(q.snap, q.grant, s.now, newId);
    if q.spent != "" {
      RotateWorthy(s, q.snap, q.spent, row);
    } else {
      PutRefreshWorthy(s, q.snap, row);
    }
  }

  lemma TokenOk(s: Sys, q: Request, e: TokenEvent)
    requires Core(s) && TokenEnabled(s, q, e)
    requires Knows(s.snaps, q.snap) && ProgressOk(s.rt.minGen, q)
    ensures OutcomeOk(s, TokenOut(s, q, e))
  {
    match e
    case RedeemCode(code, clientId, redirect, digest) => RedeemOk(s, q.snap, code, clientId, redirect, digest);
    case ReadRefresh(token, clientId, requested) => ReadGrantOk(s, q.snap, token, clientId, requested);
    case CheckGrant(forced) => CheckedGrantOk(s, q, forced);
    case BurnRefresh => assert false;
    case StoreRefresh(newId) => StoreGrantOk(s, q, newId);
  }
}
