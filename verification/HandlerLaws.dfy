/**
 The handlers step by step: exactly when each step goes on, and exactly what it
 stores, said in terms of the request, the tables and the document.
 */
module HandlerLaws {
  import opened Basics
  import opened Documents
  import opened Snapshots
  import opened RuntimeState
  import opened Access
  import opened System
  import Totp
  import RL = RuntimeLaws

  // ---------------------------------------------------------- what is stored

  /** A pending row is stored if and only if it is within its limits, its generation is admitted, and there is room. */
  predicate Accepts(s: Sys, p: Pending) {
    RL.WithinLimits(p) && RL.AdmittedBy(s.rt, p.generation) && RL.Room(RL.LivePendings(s.rt, s.now), "")
  }

  predicate AcceptsCode(s: Sys, generation: int, id: string) {
    RL.AdmittedBy(s.rt, generation) && RL.Room(RL.LiveCodes(s.rt, s.now), id)
  }

  /** The row an accepted authorization request leaves: everything the browser sent, and when. */
  lemma AuthorizationStores(s: Sys, q: Request, query: Query, newId: string)
    requires EntryEnabled(s, q, AuthorizePutPending(query, newId))
    ensures
      var o := EntryOut(s, q, AuthorizePutPending(query, newId));
      (o.born.Some? <==> Accepts(s, OidcPending(q.snap, query))) && (o.born.Some? ==>
        && newId in o.rt.pending
        && o.rt.pending[newId] == Pending(q.snap.generation, newId, Oidc, query.clientId, query.redirectUri, query.scope, query.state,
                                          query.nonce, query.challenge, "S256", "", "", "", "", s.now))
  {
    RL.PendingStoredIff(s.rt, OidcPending(q.snap, query), s.now, newId);
  }

  lemma SamlStores(s: Sys, q: Request, issuer: string, acs: string, requestId: string, relay: string, newId: string)
    requires EntryEnabled(s, q, SamlPutPending(issuer, acs, requestId, relay, newId))
    ensures
      var o := EntryOut(s, q, SamlPutPending(issuer, acs, requestId, relay, newId));
      var cl := q.snap.clients.bySamlEntity[issuer];
      (o.born.Some? <==> Accepts(s, SamlPending(q.snap, issuer, acs, requestId, relay))) && (o.born.Some? ==>
        && newId in o.rt.pending
        && o.rt.pending[newId] == Pending(q.snap.generation, newId, Saml, if cl.clientId == "" then cl.id else cl.clientId, acs, "", "",
                                          "", "", "", acs, requestId, issuer, relay, s.now))
  {
    RL.PendingStoredIff(s.rt, SamlPending(q.snap, issuer, acs, requestId, relay), s.now, newId);
  }

  lemma WsFedStores(s: Sys, q: Request, realm: string, reply: string, context: string, newId: string)
    requires EntryEnabled(s, q, WsFedPutPending(realm, reply, context, newId))
    ensures
      var o := EntryOut(s, q, WsFedPutPending(realm, reply, context, newId));
      var cl := if realm in q.snap.clients.bySamlEntity then q.snap.clients.bySamlEntity[realm] else q.snap.clients.byClientId[realm];
      (o.born.Some? <==> Accepts(s, WsFedPending(q.snap, realm, reply, context))) && (o.born.Some? ==>
        && newId in o.rt.pending
        && o.rt.pending[newId] == Pending(q.snap.generation, newId, WsFed, if cl.clientId == "" then cl.id else cl.clientId, reply, "", "",
                                          "", "", "", reply, "", realm, context, s.now))
  {
    RL.PendingStoredIff(s.rt, WsFedPending(q.snap, realm, reply, context), s.now, newId);
  }

  /** A code without a login page needs a usable session and a client that waived consent; it lives five minutes. */
  lemma SilentCodeStores(s: Sys, q: Request, query: Query, newId: string)
    requires EntryEnabled(s, q, AuthorizePutCode(query, newId))
    ensures q.session.Some? && q.snap.clients.byClientId[query.clientId].preConsent
    ensures UserUsable(q.snap, q.session.value.userId) && SessionUsable(q.session.value.mfa, MfaMode(q.snap))
    ensures
      var o, x := EntryOut(s, q, AuthorizePutCode(query, newId)), q.session.value;
      (o.born.Some? <==> AcceptsCode(s, q.snap.generation, newId)) && (o.born.Some? ==>
        && newId in o.rt.codes
        && o.rt.codes[newId] == AuthCode(q.snap.generation, newId, query.clientId, query.redirectUri, x.userId, x.username, query.scope,
                                         query.nonce, query.challenge, s.now + 300 * 1_000_000_000, x.mfa))
  {
    RL.CodeStoredIff(s.rt, CodeFor(q.snap, query, q.session.value, s.now, newId), s.now);
  }

  /** The code at the end of a login carries the pending row's client, redirect, scope, nonce and challenge, and lives five minutes. */
  lemma LoginCodeStores(s: Sys, q: Request, newId: string)
    requires FinishEnabled(s, q, CompletePutCode(newId))
    ensures
      var o, p := FinishOut(s, q, CompletePutCode(newId)), q.pend;
      (o.born.Some? <==> AcceptsCode(s, q.snap.generation, newId)) && (o.born.Some? ==>
        && newId in o.rt.codes
        && o.rt.codes[newId] == AuthCode(q.snap.generation, newId, p.clientId, p.redirectUri, q.userId, q.username, p.scope,
                                         p.nonce, p.challenge, s.now + 300 * 1_000_000_000, q.mfa))
  {
    RL.CodeStoredIff(s.rt, CompletedCode(q, s.now, newId), s.now);
  }

  /** The session of a login lives as long as configured, an hour by default. */
  lemma LoginSessionStores(s: Sys, q: Request, newId: string)
    requires LoginEnabled(s, q, LoginPutSession(newId))
    ensures
      var o, ttl := LoginOut(s, q, LoginPutSession(newId)), q.snap.canonical.spec.auth.sessionTtl;
      && (o.next.Some? <==> RL.AdmittedBy(s.rt, q.snap.generation) && RL.Room(RL.LiveSessions(s.rt, s.now), ""))
      && (o.next.Some? ==>
            && o.next.value == Finishing(q.snap, q.pid, q.user.id, q.user.username, q.mfa) && newId in o.rt.sessions
            && o.rt.sessions[newId] == LoginSession(q.snap.generation, newId, q.user.id, q.user.username,
                                                    s.now + (if ttl > 0 then ttl else 3600 * 1_000_000_000), q.mfa))
  {
    RL.SessionStoredIff(s.rt, SessionFor(q.snap, q.user, q.mfa, s.now), s.now, newId);
  }

  // ------------------------------------------------------- when steps go on

  predicate LivePending(s: Sys, id: string) {
    id in s.rt.pending && (s.rt.pending[id].created == ZERO_TIME || s.now - s.rt.pending[id].created <= 600 * 1_000_000_000)
  }

  predicate LiveSession(s: Sys, id: string) {
    id in s.rt.sessions && (s.now <= s.rt.sessions[id].expires || s.rt.sessions[id].expires == ZERO_TIME)
  }

  /** A login goes on if and only if its request is alive and usable, the user is known and enabled, and the password is right. */
  lemma LoginGoesOnIff(s: Sys, snap: Snapshot, pid: string, username: string, passwordOk: bool)
    ensures
      var o := Identify(s, snap, pid, username, passwordOk);
      && (o.next.Some? <==>
            LivePending(s, pid) && PendingUsable(snap, s.rt.pending[pid]) && FindUser(snap, username).Some? && passwordOk)
      && (o.next.Some? ==> o.next.value == Identified(snap, pid, FindUser(snap, username).value) && o.rt == s.rt)
  {
    RL.ReadsReturnLiveRows(s.rt, pid, s.now);
  }

  /** The secret asked for is the enrolled one if there is one, and the compiled seed otherwise. */
  lemma SecretChosen(s: Sys, q: Request)
    requires q.Identified?
    ensures
      var o, u := ReadSecret(s, q), q.user.id;
      && o.rt == s.rt
      && (u in s.rt.overlay ==> o.next == Some(Challenged(q.snap, q.pid, q.user, s.rt.overlay[u])))
      && (u !in s.rt.overlay && u in q.snap.users.seeds ==> o.next == Some(Challenged(q.snap, q.pid, q.user, q.snap.users.seeds[u])))
      && (u !in s.rt.overlay && u !in q.snap.users.seeds ==> o.next.None?)
  {
  }

  /** A submitted code is accepted if and only if it is the secret's code of a step next to the current one. */
  lemma CodeVerifiedIff(s: Sys, q: Request, hotp: (Bytes, int) -> string, code: string)
    requires q.Challenged?
    ensures
      var o, now := VerifyCode(s, q, hotp, code), Totp.TimeStep(s.now);
      && o.rt == s.rt
      && (o.next.Some? <==>
            |TrimSpace(code)| == 6 && (hotp(q.secret, now) == TrimSpace(code) || hotp(q.secret, now - 1) == TrimSpace(code)
                                       || hotp(q.secret, now + 1) == TrimSpace(code)))
      && (o.next.Some? ==>
            && o.next.value.Verified? && o.next.value.snap == q.snap && o.next.value.pid == q.pid && o.next.value.user == q.user
            && o.next.value.submitted == s.now && hotp(q.secret, o.next.value.step) == TrimSpace(code)
            && now - 1 <= o.next.value.step <= now + 1)
  {
  }

  /** Thirty seconds to a step. */
  lemma StepIsThirtySeconds(now: int)
    requires now >= 0
    ensures Totp.TimeStep(now) * 30 * 1_000_000_000 <= now < (Totp.TimeStep(now) + 1) * 30 * 1_000_000_000
  {
    var sec := now / RuntimeState.SECOND;
    assert Totp.TimeStep(now) == sec / 30;
  }

  /** A verified code authenticates if and only if its generation is admitted and its step is new. */
  lemma AuthenticatedIff(s: Sys, q: Request)
    requires q.Verified?
    ensures
      var o := LoginOut(s, q, LoginRecord);
      && (o.next.Some? <==> RL.AdmittedBy(s.rt, q.snap.generation) && (q.user.id in s.rt.lastStep ==> q.step > s.rt.lastStep[q.user.id]))
      && (o.next.Some? ==> o.next.value == Authenticated(q.snap, q.pid, q.user, true) && o.rt == s.rt.(lastStep := s.rt.lastStep[q.user.id := q.step]))
  {
    RL.RecordedIff(s.rt, q.user.id, q.step, q.snap.generation);
  }

  /** A session stands in for a login if and only if it is alive, its MFA suffices and its user is enabled. */
  lemma SessionResumesIff(s: Sys, snap: Snapshot, pid: string, sid: string)
    ensures
      var o := Resume(s, snap, pid, sid);
      && (o.next.Some? <==>
            && LiveSession(s, sid) && UserUsable(snap, s.rt.sessions[sid].userId)
            && SessionUsable(s.rt.sessions[sid].mfa, MfaMode(snap)))
      && (o.next.Some? ==>
            var x := s.rt.sessions[sid];
            o.next.value == Finishing(snap, pid, x.userId, x.username, x.mfa))
  {
    RL.ReadsReturnLiveRows(s.rt, sid, s.now);
  }

  /** What MFA a mode asks of a session. */
  lemma SessionUsableIff(mfa: bool, mode: Mfa)
    ensures SessionUsable(mfa, mode) <==> mode != ForceFail && (mode == Always ==> mfa)
  {
  }

  /** A login is completed, or a federated one asserted, if and only if the user, the MFA and the generation pass. */
  lemma CompletionAdmittedIff(s: Sys, q: Request)
    requires q.Finishing?
    ensures
      var o := Admit(s, q);
      && (o.next.Some? <==> UserUsable(q.snap, q.userId) && SessionUsable(q.mfa, MfaMode(q.snap)) && RL.AdmittedBy(s.rt, q.snap.generation))
      && (o.next.Some? ==> o.next.value == Completing(q.snap, q.pid, q.userId, q.username, q.mfa)) && o.rt == s.rt
  {
  }

  lemma AssertionAdmittedIff(s: Sys, q: Request)
    requires q.Federating?
    ensures
      var o := AdmitAssertion(s, q);
      && (o.next.Some? <==> UserUsable(q.snap, q.userId) && SessionUsable(q.mfa, MfaMode(q.snap)) && RL.AdmittedBy(s.rt, q.snap.generation))
      && (o.next.Some? ==> o.next.value == Answering(q.snap, q.pid, false)) && o.rt == s.rt
  {
  }

  /** Completion reads OIDC rows, assertion SAML and WS-Fed rows; each must be alive and usable. */
  lemma CompletionReadsIff(s: Sys, q: Request)
    requires q.Completing?
    ensures
      var o := ReadForCode(s, q);
      && (o.next.Some? <==>
            LivePending(s, q.pid) && PendingUsable(q.snap, s.rt.pending[q.pid])
            && (s.rt.pending[q.pid].protocol == Oidc || s.rt.pending[q.pid].protocol == Unstated))
      && (o.next.Some? ==> o.next.value == HoldsPending(q.snap, q.pid, s.rt.pending[q.pid], q.userId, q.username, q.mfa))
  {
    RL.ReadsReturnLiveRows(s.rt, q.pid, s.now);
  }

  lemma AssertionReadsIff(s: Sys, q: Request)
    requires q.Finishing?
    ensures
      var o := ReadForAssertion(s, q);
      && (o.next.Some? <==>
            LivePending(s, q.pid) && PendingUsable(q.snap, s.rt.pending[q.pid])
            && (s.rt.pending[q.pid].protocol == Saml || s.rt.pending[q.pid].protocol == WsFed))
      && (o.next.Some? ==> o.next.value == Federating(q.snap, q.pid, q.userId, q.mfa))
  {
    RL.ReadsReturnLiveRows(s.rt, q.pid, s.now);
  }

  /** Taking succeeds for whoever comes first. */
  lemma TakeSucceedsIff(s: Sys, q: Request)
    requires q.HoldsPending?
    ensures
      var o := TakeForCode(s, q);
      && (o.next.Some? <==> LivePending(s, q.pid)) && o.rt == s.rt.(pending := s.rt.pending - {q.pid})
      && (o.next.Some? ==> o.next.value.TookPending? && o.next.value.snap == q.snap && o.next.value.pend == q.pend
                           && o.next.value.userId == q.userId && o.next.value.username == q.username && o.next.value.mfa == q.mfa)
  {
    RL.ReadsReturnLiveRows(s.rt, q.pid, s.now);
  }

  /** What is checked before tokens are minted, and when a handle is burnt instead. */
  lemma MintedIff(s: Sys, q: Request, forced: bool)
    requires q.Issuing?
    ensures
      var o, g := CheckedGrant(s, q, forced), q.grant;
      var revoked := !(g.clientId in q.snap.clients.byClientId && UserUsable(q.snap, g.userId)
                       && ScopesAllowed(q.snap.clients.byClientId[g.clientId], g.scope));
      && o.rt == s.rt
      && (o.next == Some(Minting(q.snap, g, q.spent, q.birth)) <==>
            !revoked && SessionUsable(g.mfa, MfaMode(q.snap)) && !forced && RL.AdmittedBy(s.rt, q.snap.generation))
      && (o.next == Some(Burning(q.snap, q.spent)) <==> revoked && q.spent != "" && RL.AdmittedBy(s.rt, q.snap.generation))
  {
  }

  // ----------------------------------------------- the predicates, by search

  /** The user with the id, if the document has one. */
  lemma UserUsableIff(snap: Snapshot, id: string)
    requires WellCompiled(snap) && id != ""
    ensures UserUsable(snap, id) <==>
              exists i :: 0 <= i < |snap.canonical.spec.users| && snap.canonical.spec.users[i].id == id
                          && snap.canonical.spec.users[i].enabled != Some(false)
  {
    var us := snap.canonical.spec.users;
    if id in snap.users.byId {
      var i :| 0 <= i < |us| && BY_USER_ID(us[i]) == id && snap.users.byId[id] == us[i];
      assert us[i].id == id;
    }
    forall i | 0 <= i < |us| && us[i].id == id ensures id in snap.users.byId && snap.users.byId[id] == us[i] {
      assert BY_USER_ID(us[i]) == id;
    }
  }

  /** A login name finds the first enabled user that has it. */
  lemma {:induction false} FindEnabledIff(users: seq<User>, username: string)
    ensures
      var r := FindEnabled(users, username);
      && (r.Some? <==> exists i :: 0 <= i < |users| && users[i].username == username && users[i].enabled != Some(false))
      && (r.Some? ==> exists i :: 0 <= i < |users| && users[i] == r.value && users[i].username == username && users[i].enabled != Some(false)
                                   && forall j :: 0 <= j < i ==> users[j].username != username || users[j].enabled == Some(false))
  {
    if users != [] && !(users[0].username == username && users[0].enabled != Some(false)) {
      FindEnabledIff(users[1..], username);
      assert forall i :: 0 <= i < |users[1..]| ==> users[1..][i] == users[i + 1];
      if FindEnabled(users[1..], username).Some? {
        var i :| 0 <= i < |users[1..]| && users[1..][i] == FindEnabled(users[1..], username).value && users[1..][i].username == username
          && users[1..][i].enabled != Some(false) && forall j :: 0 <= j < i ==> users[1..][j].username != username || users[1..][j].enabled == Some(false);
        assert users[i + 1] == users[1..][i];
        assert forall j :: 1 <= j < i + 1 ==> users[j] == users[1..][j - 1];
      }
    }
  }

  /** The five known scopes, and the client's own list if it has one. */
  lemma ScopesAllowedIff(cl: Client, scope: string)
    ensures ScopesAllowed(cl, scope) <==>
              forall w :: w in Fields(scope) ==>
                w in {"openid", "profile", "email", "groups", "offline_access"} && (cl.scopes == [] || w in cl.scopes)
  {
  }

  /** The client a pending row names: by effective id, then by id. */
  function RowClient(clients: seq<Client>, key: string): Option<Client> {
    var c := FindBy(clients, EffectiveId, key);
    if c.Some? then c else FindBy(clients, BY_ID, key)
  }

  lemma RowClientFound(snap: Snapshot, key: string)
    requires WellCompiled(snap) && key != ""
    ensures
      var found := Lookup(snap.clients.byClientId, key);
      (if found.None? then Lookup(snap.clients.byId, key) else found) == RowClient(snap.canonical.spec.clients, key)
  {
    IndexedLookup(snap.clients.byClientId, snap.canonical.spec.clients, EffectiveId, key);
    IndexedLookup(snap.clients.byId, snap.canonical.spec.clients, BY_ID, key);
  }

  /** Usable, by search over the document: the protocol is on, and the row asks for what its client registered. */
  lemma PendingUsableIff(snap: Snapshot, p: Pending)
    requires WellCompiled(snap) && p.clientId != ""
    ensures
      var c, on := RowClient(snap.canonical.spec.clients, p.clientId), snap.canonical.spec.protocols;
      PendingUsable(snap, p) <==>
        && c.Some?
        && var replies := if c.value.acsUrls == [] then c.value.redirectUris else c.value.acsUrls;
           match p.protocol
           case Unstated => on.oidc != Some(false) && p.redirectUri in c.value.redirectUris && ScopesAllowed(c.value, p.scope)
           case Oidc => on.oidc != Some(false) && p.redirectUri in c.value.redirectUris && ScopesAllowed(c.value, p.scope)
           case Saml => on.saml == Some(true) && c.value.entityId == p.spEntityId && p.acsUrl in replies
           case WsFed => on.wsfed == Some(true) && (c.value.entityId == p.spEntityId || c.value.clientId == p.spEntityId) && p.acsUrl in replies
           case OtherProtocol(_) => false
  {
    RowClientFound(snap, p.clientId);
  }

  /** What an authorization request must bring. */
  lemma QueryOkIff(snap: Snapshot, q: Query)
    requires WellCompiled(snap) && q.clientId != ""
    ensures
      var c := FindBy(snap.canonical.spec.clients, EffectiveId, q.clientId);
      QueryOk(snap, q) <==>
        && snap.canonical.spec.protocols.oidc != Some(false) && snap.canonical.spec.auth.mfaMode != ForceFail
        && c.Some? && q.redirectUri in c.value.redirectUris && ScopesAllowed(c.value, q.scope)
  {
    IndexedLookup(snap.clients.byClientId, snap.canonical.spec.clients, EffectiveId, q.clientId);
  }
}
