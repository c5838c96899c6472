/**
 The rows and atomic actions of the shared in-memory runtime
 (internal/oidc/runtime.go) as values. Every method of the source's `Runtime`
 runs under one mutex, so each is a function from state to state here; the class
 in Runtime.dfy implements them with the source's loops.

 Times are nanoseconds since the Unix epoch. The tunable flags (paused, forced
 failure, forced consent, injected error) are not part of the state.
 */
module RuntimeState {
  import opened Basics

  const SECOND := 1_000_000_000
  const PENDING_TTL := 600 * SECOND
  const CODE_TTL := 300 * SECOND
  const REFRESH_TTL := 86_400 * SECOND
  const CAPACITY := 4096

  /** Go's zero time.Time, 1 January of year 1. */
  const ZERO_TIME := -62_135_596_800 * SECOND

  /** The protocol tag of a pending row; `Unstated` is the empty string. */
  datatype Protocol = Unstated | Oidc | Saml | WsFed | OtherProtocol(text: string)

  function ProtocolTag(p: Protocol): string {
    match p
    case Unstated => ""
    case Oidc => "oidc"
    case Saml => "saml"
    case WsFed => "wsfed"
    case OtherProtocol(text) => text
  }

  datatype Pending = Pending(
    generation: int, id: string, protocol: Protocol, clientId: string, redirectUri: string,
    scope: string, state: string, nonce: string, challenge: string, challengeMethod: string,
    acsUrl: string, requestId: string, spEntityId: string, relayState: string, created: int)

  datatype AuthCode = AuthCode(
    generation: int, code: string, clientId: string, redirectUri: string, userId: string,
    username: string, scope: string, nonce: string, challenge: string, expires: int, mfa: bool)

  datatype Refresh = Refresh(
    generation: int, token: string, clientId: string, userId: string, username: string,
    scope: string, expires: int, mfa: bool)

  datatype LoginSession = LoginSession(
    generation: int, id: string, userId: string, username: string, expires: int, mfa: bool)

  const NO_PENDING := Pending(0, "", Unstated, "", "", "", "", "", "", "", "", "", "", "", ZERO_TIME)
  const NO_SESSION := LoginSession(0, "", "", "", ZERO_TIME, false)

  datatype Rt = Rt(
    minGen: int,
    pending: map<string, Pending>,
    codes: map<string, AuthCode>,
    refresh: map<string, Refresh>,
    sessions: map<string, LoginSession>,
    overlay: map<string, Bytes>,
    lastStep: map<string, int>)

  const EMPTY := Rt(0, map[], map[], map[], map[], map[], map[])

  // ----------------------------------------------------------- admission

  predicate Stale(rt: Rt, generation: int) { generation != 0 && generation < rt.minGen }

  /** GenerationUsable. */
  predicate GenerationUsable(rt: Rt, generation: int) { generation == 0 || generation >= rt.minGen }

  predicate PendingExpired(p: Pending, now: int) { now > p.created + PENDING_TTL }
  predicate CodeExpired(c: AuthCode, now: int) { now > c.expires }
  predicate RefreshExpired(t: Refresh, now: int) { now > t.expires }
  predicate SessionExpired(s: LoginSession, now: int) { s.expires != ZERO_TIME && now > s.expires }

  /** cleanupLocked. */
  function Cleanup(rt: Rt, now: int): Rt {
    rt.(pending := Keep(rt.pending, p => !PendingExpired(p, now)),
        codes := Keep(rt.codes, c => !CodeExpired(c, now)),
        refresh := Keep(rt.refresh, t => !RefreshExpired(t, now)),
        sessions := Keep(rt.sessions, s => !SessionExpired(s, now)))
  }

  function TotalLength(fields: seq<string>): nat {
    if fields == [] then 0 else TotalLength(fields[..|fields| - 1]) + |fields[|fields| - 1]|
  }

  function FieldsOf(p: Pending): seq<string> {
    [p.id, ProtocolTag(p.protocol), p.clientId, p.redirectUri, p.scope, p.state, p.nonce, p.challenge,
     p.challengeMethod, p.acsUrl, p.requestId, p.spEntityId, p.relayState]
  }

  predicate PendingBounded(p: Pending) {
    && |p.nonce| <= 1024 && |p.scope| <= 1024 && |p.requestId| <= 1024
    && (forall i :: 0 <= i < |FieldsOf(p)| ==> |FieldsOf(p)[i]| <= 4096)
    && TotalLength(FieldsOf(p)) <= 16 * 1024
  }

  /** A stored row as its handler submitted it: without the id and time that PutPending fills in. */
  function Unstamped(p: Pending): Pending { p.(id := "", created := ZERO_TIME) }

  predicate Admits<V>(table: map<string, V>, key: string) { key in table || |table| < CAPACITY }

  // ------------------------------------------------------------- pendings

  /** PutPending; `newId` is what randomID returns. */
  function PutPending(rt: Rt, p: Pending, now: int, newId: string): (Rt, Pending) {
    if !PendingBounded(p) || Stale(rt, p.generation) then (rt, NO_PENDING)
    else
      var swept := Cleanup(rt, now);
      if !Admits(swept.pending, p.id) then (swept, NO_PENDING)
      else
        var row := p.(id := if p.id == "" then newId else p.id,
                      created := if p.created == ZERO_TIME then now else p.created);
        (swept.(pending := swept.pending[row.id := row]), row)
  }

  /** livePendingLocked: an expired row is deleted on sight. */
  function GetPending(rt: Rt, id: string, now: int): (Rt, Option<Pending>) {
    if id !in rt.pending then (rt, None)
    else
      var p := rt.pending[id];
      if p.created != ZERO_TIME && PendingExpired(p, now) then (rt.(pending := rt.pending - {id}), None)
      else (rt, Some(p))
  }

  function TakePending(rt: Rt, id: string, now: int): (Rt, Option<Pending>) {
    var (rt', p) := GetPending(rt, id, now);
    if p.Some? then (rt'.(pending := rt'.pending - {id}), p) else (rt', None)
  }

  // ---------------------------------------------------- codes and refreshes

  function PutCode(rt: Rt, c: AuthCode, now: int): (Rt, bool) {
    if Stale(rt, c.generation) then (rt, false)
    else
      var swept := Cleanup(rt, now);
      if !Admits(swept.codes, c.code) then (swept, false)
      else (swept.(codes := swept.codes[c.code := c]), true)
  }

  function TakeCode(rt: Rt, code: string): (Rt, Option<AuthCode>) {
    if code in rt.codes then (rt.(codes := rt.codes - {code}), Some(rt.codes[code])) else (rt, None)
  }

  function PutRefresh(rt: Rt, t: Refresh, now: int): (Rt, bool) {
    if Stale(rt, t.generation) then (rt, false)
    else
      var swept := Cleanup(rt, now);
      if !Admits(swept.refresh, t.token) then (swept, false)
      else (swept.(refresh := swept.refresh[t.token := t]), true)
  }

  function GetRefresh(rt: Rt, token: string): Option<Refresh> {
    if token in rt.refresh then Some(rt.refresh[token]) else None
  }

  function TakeRefresh(rt: Rt, token: string): (Rt, Option<Refresh>) {
    if token in rt.refresh then (rt.(refresh := rt.refresh - {token}), Some(rt.refresh[token])) else (rt, None)
  }

  function RotateRefresh(rt: Rt, spent: string, next: Refresh, now: int): (Rt, bool) {
    if spent !in rt.refresh || RefreshExpired(rt.refresh[spent], now) || Stale(rt, next.generation) then (rt, false)
    else (rt.(refresh := (rt.refresh - {spent})[next.token := next]), true)
  }

  // ------------------------------------------------------------- sessions

  function PutSession(rt: Rt, s: LoginSession, now: int, newId: string): (Rt, LoginSession) {
    if Stale(rt, s.generation) then (rt, NO_SESSION)
    else
      var swept := Cleanup(rt, now);
      if !Admits(swept.sessions, s.id) then (swept, NO_SESSION)
      else
        var row := s.(id := if s.id == "" then newId else s.id);
        (swept.(sessions := swept.sessions[row.id := row]), row)
  }

  function GetSession(rt: Rt, id: string, now: int): (Rt, Option<LoginSession>) {
    if id !in rt.sessions then (rt, None)
    else if SessionExpired(rt.sessions[id], now) then (rt.(sessions := rt.sessions - {id}), None)
    else (rt, Some(rt.sessions[id]))
  }

  /** The deletions ListSessions makes while it collects. */
  function DropExpiredSessions(rt: Rt, now: int): Rt {
    rt.(sessions := Keep(rt.sessions, s => !SessionExpired(s, now)))
  }

  function ExpireAll(rt: Rt): Rt {
    rt.(sessions := map[], codes := map[], refresh := map[])
  }

  function ExpireSession(rt: Rt, id: string): (Rt, bool) {
    if id !in rt.sessions then (rt, false)
    else
      var user := rt.sessions[id].userId;
      (rt.(sessions := rt.sessions - {id},
           codes := Keep(rt.codes, (c: AuthCode) => c.userId != user),
           refresh := Keep(rt.refresh, (t: Refresh) => t.userId != user)), true)
  }

  function ExpireIncompleteMfa(rt: Rt): Rt {
    rt.(sessions := Keep(rt.sessions, (s: LoginSession) => s.mfa),
        codes := Keep(rt.codes, (c: AuthCode) => c.mfa),
        refresh := Keep(rt.refresh, (t: Refresh) => t.mfa))
  }

  // ----------------------------------------------------------- revocation

  function Purge(rt: Rt): Rt {
    rt.(pending := map[], codes := map[], refresh := map[], sessions := map[])
  }

  function InvalidateBefore(rt: Rt, generation: int): Rt {
    Purge(rt.(minGen := generation))
  }

  /** Runtime.Reset. */
  function ResetAll(rt: Rt): Rt {
    Purge(rt).(overlay := map[], lastStep := map[])
  }

  // ----------------------------------------------------------------- TOTP

  function SetOverlay(rt: Rt, user: string, secret: Bytes): Rt {
    rt.(overlay := rt.overlay[user := secret], lastStep := rt.lastStep - {user})
  }

  function ClearOverlay(rt: Rt, user: string): Rt {
    rt.(overlay := rt.overlay - {user}, lastStep := rt.lastStep - {user})
  }

  /** The locked half of VerifyAndRecordTOTPGeneration, after verification produced `step`. */
  function RecordStep(rt: Rt, user: string, step: int, generation: int): (Rt, bool) {
    if Stale(rt, generation) then (rt, false)
    else if user in rt.lastStep && step <= rt.lastStep[user] then (rt, false)
    else (rt.(lastStep := rt.lastStep[user := step]), true)
  }

  // ---------------------------------------------------- structural invariant

  /** Row key equals row id; "" is no pending or session key; every table is within its bound. */
  predicate TablesOk(rt: Rt) {
    && (forall k :: k in rt.pending ==> k != "" && rt.pending[k].id == k && rt.pending[k].created != ZERO_TIME)
    && (forall k :: k in rt.pending ==> PendingBounded(Unstamped(rt.pending[k])))
    && (forall k :: k in rt.codes ==> rt.codes[k].code == k)
    && (forall k :: k in rt.refresh ==> rt.refresh[k].token == k)
    && (forall k :: k in rt.sessions ==> k != "" && rt.sessions[k].id == k)
    && |rt.pending| <= CAPACITY && |rt.codes| <= CAPACITY && |rt.refresh| <= CAPACITY && |rt.sessions| <= CAPACITY
  }

  /** Every table of `b` is part of the same table of `a`; nothing else differs. */
  predicate Shrinks(a: Rt, b: Rt) {
    && b.minGen == a.minGen && b.overlay == a.overlay && b.lastStep == a.lastStep
    && (forall k :: k in b.pending ==> k in a.pending && b.pending[k] == a.pending[k])
    && (forall k :: k in b.codes ==> k in a.codes && b.codes[k] == a.codes[k])
    && (forall k :: k in b.refresh ==> k in a.refresh && b.refresh[k] == a.refresh[k])
    && (forall k :: k in b.sessions ==> k in a.sessions && b.sessions[k] == a.sessions[k])
  }

  lemma ShrinkKeepsTables(a: Rt, b: Rt)
    requires TablesOk(a) && Shrinks(a, b)
    ensures TablesOk(b)
  {
    SubMapSize(b.pending, a.pending);
    SubMapSize(b.codes, a.codes);
    SubMapSize(b.refresh, a.refresh);
    SubMapSize(b.sessions, a.sessions);
  }

  lemma LedgerIsFree(rt: Rt, overlay: map<string, Bytes>, lastStep: map<string, int>)
    requires TablesOk(rt)
    ensures TablesOk(rt.(overlay := overlay, lastStep := lastStep))
  {
  }

  lemma EmptyTablesOk(rt: Rt)
    requires rt.pending == map[] && rt.codes == map[] && rt.refresh == map[] && rt.sessions == map[]
    ensures TablesOk(rt)
  {
  }

  lemma CleanupShrinks(rt: Rt, now: int)
    ensures Shrinks(rt, Cleanup(rt, now))
  {
  }

  lemma UpdateSize<V>(m: map<string, V>, k: string, v: V)
    requires Admits(m, k) && |m| <= CAPACITY
    ensures |m[k := v]| <= CAPACITY
  {
    assert m[k := v].Keys == m.Keys + {k};
    assert |m[k := v]| == |m[k := v].Keys| && |m| == |m.Keys|;
    if k in m { assert m.Keys + {k} == m.Keys; }
  }

  lemma PutPendingKeepsTables(rt: Rt, p: Pending, now: int, newId: string)
    requires TablesOk(rt) && p == Unstamped(p) && newId != "" && now != ZERO_TIME
    ensures TablesOk(PutPending(rt, p, now, newId).0)
  {
    CleanupShrinks(rt, now);
    ShrinkKeepsTables(rt, Cleanup(rt, now));
    var swept := Cleanup(rt, now);
    if PendingBounded(p) && !Stale(rt, p.generation) && Admits(swept.pending, p.id) {
      AddPendingKeepsTables(swept, p.(id := newId, created := now));
    }
  }

  lemma AddPendingKeepsTables(rt: Rt, row: Pending)
    requires TablesOk(rt) && Admits(rt.pending, "") && row.id != "" && row.created != ZERO_TIME && PendingBounded(Unstamped(row))
    ensures TablesOk(rt.(pending := rt.pending[row.id := row]))
  {
    assert "" !in rt.pending;
    UpdateSize(rt.pending, row.id, row);
  }

  lemma PutCodeKeepsTables(rt: Rt, c: AuthCode, now: int)
    requires TablesOk(rt)
    ensures TablesOk(PutCode(rt, c, now).0)
  {
    CleanupShrinks(rt, now);
    ShrinkKeepsTables(rt, Cleanup(rt, now));
    var swept := Cleanup(rt, now);
    if Admits(swept.codes, c.code) {
      UpdateSize(swept.codes, c.code, c);
    }
  }

  lemma PutRefreshKeepsTables(rt: Rt, t: Refresh, now: int)
    requires TablesOk(rt)
    ensures TablesOk(PutRefresh(rt, t, now).0)
  {
    CleanupShrinks(rt, now);
    ShrinkKeepsTables(rt, Cleanup(rt, now));
    var swept := Cleanup(rt, now);
    if Admits(swept.refresh, t.token) {
      UpdateSize(swept.refresh, t.token, t);
    }
  }

  /** Rotation never grows the table, so it cannot meet the capacity bound. */
  lemma RotateKeepsTables(rt: Rt, spent: string, next: Refresh, now: int)
    requires TablesOk(rt)
    ensures TablesOk(RotateRefresh(rt, spent, next, now).0)
    ensures |RotateRefresh(rt, spent, next, now).0.refresh| <= |rt.refresh|
  {
    if RotateRefresh(rt, spent, next, now).1 {
      ReplaceSize(rt.refresh, spent, next.token, next);
    }
  }

  lemma ReplaceSize<V>(m: map<string, V>, gone: string, k: string, v: V)
    requires gone in m
    ensures |(m - {gone})[k := v]| <= |m|
  {
    var rest := m - {gone};
    assert rest.Keys == m.Keys - {gone} && rest[k := v].Keys == rest.Keys + {k};
    assert |rest[k := v]| == |rest[k := v].Keys| && |m| == |m.Keys|;
  }

  lemma PutSessionKeepsTables(rt: Rt, s: LoginSession, now: int, newId: string)
    requires TablesOk(rt) && s.id == "" && newId != ""
    ensures TablesOk(PutSession(rt, s, now, newId).0)
  {
    CleanupShrinks(rt, now);
    ShrinkKeepsTables(rt, Cleanup(rt, now));
    var swept := Cleanup(rt, now);
    if Admits(swept.sessions, s.id) {
      AddSessionKeepsTables(swept, s.(id := newId));
    }
  }

  lemma AddSessionKeepsTables(rt: Rt, row: LoginSession)
    requires TablesOk(rt) && Admits(rt.sessions, "") && row.id != ""
    ensures TablesOk(rt.(sessions := rt.sessions[row.id := row]))
  {
    assert "" !in rt.sessions;
    UpdateSize(rt.sessions, row.id, row);
  }

  /** The byte budget is checked before the random id is assigned: a stored row can exceed it. */
  lemma BudgetExcludesId(p: Pending, newId: string)
    requires PendingBounded(p) && p.id == ""
    ensures PendingBounded(p.(id := newId)) <==>
              |newId| <= 4096 && TotalLength(FieldsOf(p)) + |newId| <= 16 * 1024
  {
    IdCounts(p, newId);
    var q := p.(id := newId);
    assert forall i :: 1 <= i < 13 ==> FieldsOf(q)[i] == FieldsOf(p)[i];
    assert FieldsOf(q)[0] == newId && |FieldsOf(q)| == 13;
  }

  lemma {:induction false} TotalSplit(a: seq<string>, b: seq<string>)
    ensures TotalLength(a + b) == TotalLength(a) + TotalLength(b)
  {
    if b == [] {
      assert a + b == a;
    } else {
      assert (a + b)[..|a + b| - 1] == a + b[..|b| - 1];
      TotalSplit(a, b[..|b| - 1]);
    }
  }

  lemma IdCounts(p: Pending, newId: string)
    requires p.id == ""
    ensures TotalLength(FieldsOf(p.(id := newId))) == TotalLength(FieldsOf(p)) + |newId|
  {
    var rest := FieldsOf(p)[1..];
    assert FieldsOf(p) == [""] + rest && FieldsOf(p.(id := newId)) == [newId] + rest;
    TotalSplit([""], rest);
    TotalSplit([newId], rest);
    assert TotalLength([""]) == TotalLength([]) + 0 && TotalLength([newId]) == TotalLength([]) + |newId|;
  }

  // ------------------------------------------------- one property per table

  /** Every entry of the map satisfies `ok`. */
  predicate All<K, V>(m: map<K, V>, ok: V -> bool) {
    forall k :: k in m ==> ok(m[k])
  }

  /** A property of the rows of each table, in the order pending, code, refresh, session. */
  datatype RowProperty = RowProperty(
    pending: Pending -> bool, code: AuthCode -> bool, refresh: Refresh -> bool, session: LoginSession -> bool)

  predicate Rows(rt: Rt, ok: RowProperty) {
    All(rt.pending, ok.pending) && All(rt.codes, ok.code) && All(rt.refresh, ok.refresh) && All(rt.sessions, ok.session)
  }

  lemma ShrinkRows(a: Rt, b: Rt, ok: RowProperty)
    requires Rows(a, ok) && Shrinks(a, b)
    ensures Rows(b, ok)
  {
  }

  lemma PutPendingRows(rt: Rt, p: Pending, now: int, newId: string, ok: RowProperty)
    requires Rows(rt, ok) && newId != ""
    requires PutPending(rt, p, now, newId).1.id != "" ==> ok.pending(PutPending(rt, p, now, newId).1)
    ensures Rows(PutPending(rt, p, now, newId).0, ok)
  {
    CleanupShrinks(rt, now);
    ShrinkRows(rt, Cleanup(rt, now), ok);
  }

  lemma PutCodeRows(rt: Rt, c: AuthCode, now: int, ok: RowProperty)
    requires Rows(rt, ok) && (!Stale(rt, c.generation) ==> ok.code(c))
    ensures Rows(PutCode(rt, c, now).0, ok)
  {
    CleanupShrinks(rt, now);
    ShrinkRows(rt, Cleanup(rt, now), ok);
  }

  lemma PutRefreshRows(rt: Rt, t: Refresh, now: int, ok: RowProperty)
    requires Rows(rt, ok) && (!Stale(rt, t.generation) ==> ok.refresh(t))
    ensures Rows(PutRefresh(rt, t, now).0, ok)
  {
    CleanupShrinks(rt, now);
    ShrinkRows(rt, Cleanup(rt, now), ok);
  }

  lemma RotateRows(rt: Rt, spent: string, t: Refresh, now: int, ok: RowProperty)
    requires Rows(rt, ok) && (!Stale(rt, t.generation) ==> ok.refresh(t))
    ensures Rows(RotateRefresh(rt, spent, t, now).0, ok)
  {
  }

  lemma PutSessionRows(rt: Rt, x: LoginSession, now: int, newId: string, ok: RowProperty)
    requires Rows(rt, ok) && newId != ""
    requires PutSession(rt, x, now, newId).1.id != "" ==> ok.session(PutSession(rt, x, now, newId).1)
    ensures Rows(PutSession(rt, x, now, newId).0, ok)
  {
    CleanupShrinks(rt, now);
    ShrinkRows(rt, Cleanup(rt, now), ok);
  }

  lemma ReadPendingShrinks(rt: Rt, id: string, now: int)
    ensures Shrinks(rt, GetPending(rt, id, now).0)
  {
  }

  lemma TakePendingShrinks(rt: Rt, id: string, now: int)
    ensures Shrinks(rt, TakePending(rt, id, now).0)
  {
  }

  lemma ReadSessionShrinks(rt: Rt, id: string, now: int)
    ensures Shrinks(rt, GetSession(rt, id, now).0)
  {
  }

  lemma TakeCodeShrinks(rt: Rt, id: string)
    ensures Shrinks(rt, TakeCode(rt, id).0)
  {
  }

  lemma TakeRefreshShrinks(rt: Rt, id: string)
    ensures Shrinks(rt, TakeRefresh(rt, id).0)
  {
  }

  lemma ExpireSessionShrinks(rt: Rt, id: string)
    ensures Shrinks(rt, ExpireSession(rt, id).0)
  {
  }

  lemma ExpireIncompleteShrinks(rt: Rt)
    ensures Shrinks(rt, ExpireIncompleteMfa(rt))
  {
  }
}
