/** What each runtime action does, row by row: which rows stay, which go, and what else is untouched. */
module RuntimeLaws {
  import opened Basics
  import opened RuntimeState
  import opened System

  /** `b` is the part of `a` whose rows satisfy `stays`. */
  ghost predicate Filtered<V(!new)>(a: map<string, V>, b: map<string, V>, stays: V -> bool) {
    forall k :: (k in b <==> k in a && stays(a[k])) && (k in b ==> b[k] == a[k])
  }

  /** Everything but the four row tables is the same. */
  predicate SameLedger(a: Rt, b: Rt) { b.minGen == a.minGen && b.overlay == a.overlay && b.lastStep == a.lastStep }

  // ------------------------------------------------------------- lifetimes

  /** Pendings live ten minutes; a session without expiry lives on. Expiry is strict: at the instant itself a row is alive. */
  lemma Lifetimes(p: Pending, c: AuthCode, t: Refresh, x: LoginSession, now: int)
    ensures PendingExpired(p, now) <==> now - p.created > 600 * 1_000_000_000
    ensures CodeExpired(c, now) <==> now > c.expires
    ensures RefreshExpired(t, now) <==> now > t.expires
    ensures SessionExpired(x, now) <==> now > x.expires && x.expires != -62_135_596_800 * 1_000_000_000
  {
  }

  lemma SweepRemovesExactlyExpired(rt: Rt, now: int)
    ensures
      var r := Cleanup(rt, now);
      && SameLedger(rt, r)
      && Filtered(rt.pending, r.pending, (p: Pending) => now - p.created <= 600 * 1_000_000_000)
      && Filtered(rt.codes, r.codes, (c: AuthCode) => now <= c.expires)
      && Filtered(rt.refresh, r.refresh, (t: Refresh) => now <= t.expires)
      && Filtered(rt.sessions, r.sessions, (x: LoginSession) => now <= x.expires || x.expires == ZERO_TIME)
  {
  }

  // ---------------------------------------------------------------- logout

  /** A logout ends the session and every code and refresh handle of its user, and touches nothing else. */
  lemma LogoutRemovesExactly(rt: Rt, id: string)
    ensures
      var (r, ok) := ExpireSession(rt, id);
      && (ok <==> id in rt.sessions)
      && (!ok ==> r == rt)
      && (ok ==>
            var u := rt.sessions[id].userId;
            && r.sessions == rt.sessions - {id} && r.pending == rt.pending && SameLedger(rt, r)
            && Filtered(rt.codes, r.codes, (c: AuthCode) => c.userId != u)
            && Filtered(rt.refresh, r.refresh, (t: Refresh) => t.userId != u))
  {
  }

  lemma LogoutOfAllRemovesExactly(rt: Rt)
    ensures
      var r := ExpireAll(rt);
      r.sessions == map[] && r.codes == map[] && r.refresh == map[] && r.pending == rt.pending && SameLedger(rt, r)
  {
  }

  lemma IncompleteMfaRemovesExactly(rt: Rt)
    ensures
      var r := ExpireIncompleteMfa(rt);
      && r.pending == rt.pending && SameLedger(rt, r)
      && Filtered(rt.sessions, r.sessions, (x: LoginSession) => x.mfa)
      && Filtered(rt.codes, r.codes, (c: AuthCode) => c.mfa)
      && Filtered(rt.refresh, r.refresh, (t: Refresh) => t.mfa)
  {
  }

  lemma ListingDropsExactly(rt: Rt, now: int)
    ensures
      var r := DropExpiredSessions(rt, now);
      && r.pending == rt.pending && r.codes == rt.codes && r.refresh == rt.refresh && SameLedger(rt, r)
      && Filtered(rt.sessions, r.sessions, (x: LoginSession) => now <= x.expires || x.expires == ZERO_TIME)
  {
  }

  /** In the protocol: after a logout nothing stored names the user, and only that user's rows went. */
  lemma LogoutRevokesUser(s: Sys, sid: string)
    requires s.snaps != [] && sid in s.rt.sessions
    ensures
      var u, t := s.rt.sessions[sid].userId, Do(s, Env(ExpireOneSession(sid)));
      && sid !in t.rt.sessions
      && (forall k :: k in t.rt.codes ==> t.rt.codes[k].userId != u)
      && (forall k :: k in t.rt.refresh ==> t.rt.refresh[k].userId != u)
      && (forall k :: k in s.rt.codes && s.rt.codes[k].userId != u ==> k in t.rt.codes)
      && (forall k :: k in s.rt.refresh && s.rt.refresh[k].userId != u ==> k in t.rt.refresh)
      && t.rt.pending == s.rt.pending && t.reqs == s.reqs && t.snaps == s.snaps
  {
    LogoutRemovesExactly(s.rt, sid);
    assert EnvDo(s, ExpireOneSession(sid)).rt == ExpireSession(s.rt, sid).0;
  }

  /** The operator's other calls, as steps of the protocol. */
  lemma OperatorSteps(s: Sys, user: string, secret: Bytes, r: nat, dt: nat)
    requires s.snaps != []
    ensures
      var t := EnvDo(s, ExpireEverySession);
      t.rt.sessions == map[] && t.rt.codes == map[] && t.rt.refresh == map[] && t.rt.pending == s.rt.pending
    ensures
      var t := EnvDo(s, EnrollTotp(user, secret));
      t.rt.overlay == s.rt.overlay[user := secret] && t.rt.lastStep == s.rt.lastStep - {user} && t.totpLog == s.totpLog + [Cleared(user)]
    ensures
      var t := EnvDo(s, ClearTotp(user));
      t.rt.overlay == s.rt.overlay - {user} && t.rt.lastStep == s.rt.lastStep - {user} && t.totpLog == s.totpLog + [Cleared(user)]
    ensures EnvDo(s, Capture(r)) == s.(reqs := s.reqs[r := Captured(s.snaps[|s.snaps| - 1])])
    ensures EnvDo(s, Tick(dt)) == s.(now := s.now + dt)
    ensures EnvDo(s, Abandon(r)) == s.(reqs := s.reqs - {r})
  {
  }

  // ------------------------------------------------------------ revocation

  /** Revoking raises admission and drops every row of the four tables; the TOTP state survives, unless the runtime is reset. */
  lemma RevocationRemovesExactly(rt: Rt, generation: int)
    ensures
      var r := InvalidateBefore(rt, generation);
      && r.minGen == generation && r.pending == map[] && r.codes == map[] && r.refresh == map[] && r.sessions == map[]
      && r.overlay == rt.overlay && r.lastStep == rt.lastStep
    ensures
      var r := ResetAll(rt);
      && r.minGen == rt.minGen && r.pending == map[] && r.codes == map[] && r.refresh == map[] && r.sessions == map[]
      && r.overlay == map[] && r.lastStep == map[]
  {
  }

  // ------------------------------------------------------------------ TOTP

  /** Enrolling and clearing concern one user, whose replay ledger starts afresh. */
  lemma EnrolmentTouchesOneUser(rt: Rt, user: string, secret: Bytes, other: string)
    requires other != user
    ensures
      var r := SetOverlay(rt, user, secret);
      && user in r.overlay && r.overlay[user] == secret && user !in r.lastStep
      && (other in r.overlay <==> other in rt.overlay) && (other in r.overlay ==> r.overlay[other] == rt.overlay[other])
      && (other in r.lastStep <==> other in rt.lastStep) && (other in r.lastStep ==> r.lastStep[other] == rt.lastStep[other])
      && r == rt.(overlay := r.overlay, lastStep := r.lastStep)
    ensures
      var r := ClearOverlay(rt, user);
      && user !in r.overlay && user !in r.lastStep
      && (other in r.overlay <==> other in rt.overlay) && (other in r.overlay ==> r.overlay[other] == rt.overlay[other])
      && (other in r.lastStep <==> other in rt.lastStep) && (other in r.lastStep ==> r.lastStep[other] == rt.lastStep[other])
      && r == rt.(overlay := r.overlay, lastStep := r.lastStep)
  {
  }

  /** A step is recorded if and only if its generation is admitted and it is later than the user's last one. */
  lemma RecordedIff(rt: Rt, user: string, step: int, generation: int)
    ensures
      var (r, ok) := RecordStep(rt, user, step, generation);
      && (ok <==> (generation == 0 || generation >= rt.minGen) && (user in rt.lastStep ==> step > rt.lastStep[user]))
      && r == (if ok then rt.(lastStep := rt.lastStep[user := step]) else rt)
  {
  }

  // ---------------------------------------------------------------- stores

  /** The rows that are alive. */
  function Living<V>(rows: map<string, V>, alive: V -> bool): map<string, V> {
    map k | k in rows && alive(rows[k]) :: rows[k]
  }

  /** The key is taken by a live row, or fewer than 4096 rows are alive. */
  predicate Room<V>(living: map<string, V>, key: string) { key in living || |living| < 4096 }

  predicate AdmittedBy(rt: Rt, generation: int) { generation == 0 || generation >= rt.minGen }

  function LivePendings(rt: Rt, now: int): map<string, Pending> {
    Living(rt.pending, (p: Pending) => now - p.created <= 600 * 1_000_000_000)
  }
  function LiveCodes(rt: Rt, now: int): map<string, AuthCode> { Living(rt.codes, (c: AuthCode) => now <= c.expires) }
  function LiveRefreshes(rt: Rt, now: int): map<string, Refresh> { Living(rt.refresh, (t: Refresh) => now <= t.expires) }
  function LiveSessions(rt: Rt, now: int): map<string, LoginSession> {
    Living(rt.sessions, (x: LoginSession) => now <= x.expires || x.expires == ZERO_TIME)
  }

  /** The runtime with only what is alive. */
  function Swept(rt: Rt, now: int): Rt {
    rt.(pending := LivePendings(rt, now), codes := LiveCodes(rt, now), refresh := LiveRefreshes(rt, now), sessions := LiveSessions(rt, now))
  }

  lemma CleanupOfPendings(rt: Rt, now: int)
    ensures Cleanup(rt, now).pending == LivePendings(rt, now) && Cleanup(rt, now).sessions == LiveSessions(rt, now)
  {
  }

  lemma CleanupOfGrants(rt: Rt, now: int)
    ensures Cleanup(rt, now).codes == LiveCodes(rt, now) && Cleanup(rt, now).refresh == LiveRefreshes(rt, now)
  {
  }

  lemma CleanupIsSwept(rt: Rt, now: int)
    ensures Cleanup(rt, now) == Swept(rt, now)
  {
    CleanupOfPendings(rt, now);
    CleanupOfGrants(rt, now);
  }

  lemma CodeStoredIff(rt: Rt, c: AuthCode, now: int)
    ensures
      var (r, ok) := PutCode(rt, c, now);
      && (ok <==> AdmittedBy(rt, c.generation) && Room(LiveCodes(rt, now), c.code))
      && (ok ==> r == Swept(rt, now).(codes := LiveCodes(rt, now)[c.code := c]))
      && (!ok ==> r == if AdmittedBy(rt, c.generation) then Swept(rt, now) else rt)
  {
    CleanupIsSwept(rt, now);
  }

  lemma RefreshStoredIff(rt: Rt, t: Refresh, now: int)
    ensures
      var (r, ok) := PutRefresh(rt, t, now);
      && (ok <==> AdmittedBy(rt, t.generation) && Room(LiveRefreshes(rt, now), t.token))
      && (ok ==> r == Swept(rt, now).(refresh := LiveRefreshes(rt, now)[t.token := t]))
      && (!ok ==> r == if AdmittedBy(rt, t.generation) then Swept(rt, now) else rt)
  {
    CleanupIsSwept(rt, now);
  }

  /** A handler's session row, submitted without an id. */
  lemma SessionStoredIff(rt: Rt, x: LoginSession, now: int, newId: string)
    requires x.id == "" && newId != ""
    ensures
      var (r, row) := PutSession(rt, x, now, newId);
      && (row.id != "" <==> AdmittedBy(rt, x.generation) && Room(LiveSessions(rt, now), ""))
      && (row.id != "" ==> row == x.(id := newId) && r == Swept(rt, now).(sessions := LiveSessions(rt, now)[newId := row]))
      && (row.id == "" ==> r == if AdmittedBy(rt, x.generation) then Swept(rt, now) else rt)
  {
    CleanupIsSwept(rt, now);
  }

  /** The byte limits of a pending row, field by field. */
  predicate WithinLimits(p: Pending) {
    && |p.nonce| <= 1024 && |p.scope| <= 1024 && |p.requestId| <= 1024
    && |p.id| <= 4096 && |ProtocolTag(p.protocol)| <= 4096 && |p.clientId| <= 4096 && |p.redirectUri| <= 4096 && |p.state| <= 4096
    && |p.challenge| <= 4096 && |p.challengeMethod| <= 4096 && |p.acsUrl| <= 4096 && |p.spEntityId| <= 4096 && |p.relayState| <= 4096
    && |p.id| + |ProtocolTag(p.protocol)| + |p.clientId| + |p.redirectUri| + |p.scope| + |p.state| + |p.nonce| + |p.challenge|
       + |p.challengeMethod| + |p.acsUrl| + |p.requestId| + |p.spEntityId| + |p.relayState| <= 16_384
  }

  lemma TotalStep(fields: seq<string>, n: nat)
    requires n < |fields|
    ensures TotalLength(fields[..n + 1]) == TotalLength(fields[..n]) + |fields[n]|
  {
    assert fields[..n + 1][..n] == fields[..n];
  }

  lemma FieldTotal(p: Pending)
    ensures TotalLength(FieldsOf(p)) ==
              |p.id| + |ProtocolTag(p.protocol)| + |p.clientId| + |p.redirectUri| + |p.scope| + |p.state| + |p.nonce|
              + |p.challenge| + |p.challengeMethod| + |p.acsUrl| + |p.requestId| + |p.spEntityId| + |p.relayState|
  {
    var f := FieldsOf(p);
    TotalStep(f, 0); TotalStep(f, 1); TotalStep(f, 2); TotalStep(f, 3); TotalStep(f, 4); TotalStep(f, 5); TotalStep(f, 6);
    TotalStep(f, 7); TotalStep(f, 8); TotalStep(f, 9); TotalStep(f, 10); TotalStep(f, 11); TotalStep(f, 12);
    assert f[..13] == f && f[..0] == [];
  }

  lemma BoundedIff(p: Pending)
    ensures PendingBounded(p) <==> WithinLimits(p)
  {
    FieldTotal(p);
    var f := FieldsOf(p);
    assert |f| == 13 && f[0] == p.id && f[1] == ProtocolTag(p.protocol) && f[2] == p.clientId && f[3] == p.redirectUri && f[4] == p.scope
        && f[5] == p.state && f[6] == p.nonce && f[7] == p.challenge && f[8] == p.challengeMethod && f[9] == p.acsUrl
        && f[10] == p.requestId && f[11] == p.spEntityId && f[12] == p.relayState;
  }

  /** A handler's pending row, submitted without id and time. */
  lemma PendingStoredIff(rt: Rt, p: Pending, now: int, newId: string)
    requires p == Unstamped(p) && newId != ""
    ensures
      var (r, row) := PutPending(rt, p, now, newId);
      && (row.id != "" <==> WithinLimits(p) && AdmittedBy(rt, p.generation) && Room(LivePendings(rt, now), ""))
      && (row.id != "" ==> row == p.(id := newId, created := now) && r == Swept(rt, now).(pending := LivePendings(rt, now)[newId := row]))
      && (row.id == "" ==> r == if WithinLimits(p) && AdmittedBy(rt, p.generation) then Swept(rt, now) else rt)
  {
    BoundedIff(p);
    CleanupIsSwept(rt, now);
  }

  /** Rotation needs the spent handle alive and the new row admitted; it then exchanges exactly the two. */
  lemma RotatedIff(rt: Rt, spent: string, t: Refresh, now: int)
    ensures
      var (r, ok) := RotateRefresh(rt, spent, t, now);
      && (ok <==> spent in rt.refresh && now <= rt.refresh[spent].expires && AdmittedBy(rt, t.generation))
      && r == (if ok then rt.(refresh := (rt.refresh - {spent})[t.token := t]) else rt)
  {
  }

  /** Reads: a row is returned if and only if it is there and alive; a dead row goes, and taking removes what it returns. */
  lemma ReadsReturnLiveRows(rt: Rt, id: string, now: int)
    ensures
      var (r, p) := GetPending(rt, id, now);
      && (p.Some? <==> id in rt.pending && (rt.pending[id].created == ZERO_TIME || now - rt.pending[id].created <= 600 * 1_000_000_000))
      && (p.Some? ==> p.value == rt.pending[id] && r == rt)
      && (p.None? ==> r == rt.(pending := rt.pending - {id}))
    ensures
      var (r, p) := TakePending(rt, id, now);
      p == GetPending(rt, id, now).1 && r == rt.(pending := rt.pending - {id})
    ensures
      var (r, x) := GetSession(rt, id, now);
      && (x.Some? <==> id in rt.sessions && (now <= rt.sessions[id].expires || rt.sessions[id].expires == ZERO_TIME))
      && (x.Some? ==> x.value == rt.sessions[id] && r == rt)
      && (x.None? ==> r == rt.(sessions := rt.sessions - {id}))
    ensures
      var (r, c) := TakeCode(rt, id);
      && (c.Some? <==> id in rt.codes) && (c.Some? ==> c.value == rt.codes[id]) && r == rt.(codes := rt.codes - {id})
    ensures
      var (r, t) := TakeRefresh(rt, id);
      && (t.Some? <==> id in rt.refresh) && (t.Some? ==> t.value == rt.refresh[id]) && r == rt.(refresh := rt.refresh - {id})
    ensures
      var t := GetRefresh(rt, id);
      (t.Some? <==> id in rt.refresh) && (t.Some? ==> t.value == rt.refresh[id])
  {
    assert id !in rt.pending ==> rt.pending - {id} == rt.pending;
    assert id !in rt.sessions ==> rt.sessions - {id} == rt.sessions;
    assert id !in rt.codes ==> rt.codes - {id} == rt.codes;
    assert id !in rt.refresh ==> rt.refresh - {id} == rt.refresh;
  }
}
