/**
 The mutable runtime object (internal/oidc/runtime.go). Each method is the body
 the source runs under its mutex; its contract ties the new fields to the action
 of the same name in RuntimeState, which is what the protocol proofs speak about.

 The clock reading and the random identifier are parameters.
 */
module SharedRuntime {
  import opened Basics
  import opened Snapshots
  import RS = RuntimeState
  import Totp

  /** The field loop of PendingBounded: it stops at the first oversized field. */
  method CheckBudget(p: RS.Pending) returns (ok: bool)
    ensures ok <==> RS.PendingBounded(p)
  {
    if |p.nonce| > 1024 || |p.scope| > 1024 || |p.requestId| > 1024 {
      return false;
    }
    var fields, total := RS.FieldsOf(p), 0;
    for i := 0 to |fields|
      invariant forall k :: 0 <= k < i ==> |fields[k]| <= 4096
      invariant total == RS.TotalLength(fields[..i])
    {
      if |fields[i]| > 4096 {
        return false;
      }
      assert fields[..i + 1][..i] == fields[..i];
      total := total + |fields[i]|;
    }
    assert fields[..|fields|] == fields;
    ok := total <= 16 * 1024;
  }

  class Runtime {
    var minGen: int
    var pending: map<string, RS.Pending>
    var codes: map<string, RS.AuthCode>
    var refresh: map<string, RS.Refresh>
    var sessions: map<string, RS.LoginSession>
    var overlay: map<string, Bytes>
    var lastStep: map<string, int>

    ghost function State(): RS.Rt
      reads this
    {
      RS.Rt(minGen, pending, codes, refresh, sessions, overlay, lastStep)
    }

    constructor ()
      ensures State() == RS.EMPTY
    {
      minGen, pending, codes, refresh, sessions := 0, map[], map[], map[], map[];
      overlay, lastStep := map[], map[];
    }

    predicate IsStale(generation: int)
      reads this
    {
      generation != 0 && generation < minGen
    }

    /** cleanupLocked: four deletion loops. */
    method SweepExpired(now: int)
      modifies this
      ensures State() == RS.Cleanup(old(State()), now)
    {
      pending := DeleteUnless(pending, p => !RS.PendingExpired(p, now));
      codes := DeleteUnless(codes, c => !RS.CodeExpired(c, now));
      refresh := DeleteUnless(refresh, t => !RS.RefreshExpired(t, now));
      sessions := DeleteUnless(sessions, s => !RS.SessionExpired(s, now));
    }

    method PutPending(p: RS.Pending, now: int, newId: string) returns (row: RS.Pending)
      modifies this
      ensures (State(), row) == RS.PutPending(old(State()), p, now, newId)
    {
      var bounded := CheckBudget(p);
      if !bounded || IsStale(p.generation) {
        return RS.NO_PENDING;
      }
      SweepExpired(now);
      if p.id !in pending && |pending| >= RS.CAPACITY {
        return RS.NO_PENDING;
      }
      row := p;
      if row.id == "" {
        row := row.(id := newId);
      }
      if row.created == RS.ZERO_TIME {
        row := row.(created := now);
      }
      pending := pending[row.id := row];
    }

    method GetPending(id: string, now: int) returns (p: Option<RS.Pending>)
      modifies this
      ensures (State(), p) == RS.GetPending(old(State()), id, now)
    {
      if id !in pending {
        return None;
      }
      if pending[id].created != RS.ZERO_TIME && RS.PendingExpired(pending[id], now) {
        pending := pending - {id};
        return None;
      }
      p := Some(pending[id]);
    }

    method TakePending(id: string, now: int) returns (p: Option<RS.Pending>)
      modifies this
      ensures (State(), p) == RS.TakePending(old(State()), id, now)
    {
      p := GetPending(id, now);
      if p.Some? {
        pending := pending - {id};
      }
    }

    method PutCode(c: RS.AuthCode, now: int) returns (ok: bool)
      modifies this
      ensures (State(), ok) == RS.PutCode(old(State()), c, now)
    {
      if IsStale(c.generation) {
        return false;
      }
      SweepExpired(now);
      if c.code !in codes && |codes| >= RS.CAPACITY {
        return false;
      }
      codes := codes[c.code := c];
      ok := true;
    }

    method TakeCode(code: string) returns (c: Option<RS.AuthCode>)
      modifies this
      ensures (State(), c) == RS.TakeCode(old(State()), code)
    {
      c := Lookup(codes, code);
      if c.Some? {
        codes := codes - {code};
      }
    }

    method PutRefresh(t: RS.Refresh, now: int) returns (ok: bool)
      modifies this
      ensures (State(), ok) == RS.PutRefresh(old(State()), t, now)
    {
      if IsStale(t.generation) {
        return false;
      }
      SweepExpired(now);
      if t.token !in refresh && |refresh| >= RS.CAPACITY {
        return false;
      }
      refresh := refresh[t.token := t];
      ok := true;
    }

    method GetRefresh(token: string) returns (t: Option<RS.Refresh>)
      ensures t == RS.GetRefresh(State(), token)
    {
      t := Lookup(refresh, token);
    }

    method TakeRefresh(token: string) returns (t: Option<RS.Refresh>)
      modifies this
      ensures (State(), t) == RS.TakeRefresh(old(State()), token)
    {
      t := Lookup(refresh, token);
      if t.Some? {
        refresh := refresh - {token};
      }
    }

    method RotateRefresh(spent: string, next: RS.Refresh, now: int) returns (ok: bool)
      modifies this
      ensures (State(), ok) == RS.RotateRefresh(old(State()), spent, next, now)
    {
      var t := Lookup(refresh, spent);
      if t.None? || RS.RefreshExpired(t.value, now) || IsStale(next.generation) {
        return false;
      }
      refresh := refresh - {spent};
      refresh := refresh[next.token := next];
      ok := true;
    }

    method PutSession(s: RS.LoginSession, now: int, newId: string) returns (row: RS.LoginSession)
      modifies this
      ensures (State(), row) == RS.PutSession(old(State()), s, now, newId)
    {
      if IsStale(s.generation) {
        return RS.NO_SESSION;
      }
      SweepExpired(now);
      if s.id !in sessions && |sessions| >= RS.CAPACITY {
        return RS.NO_SESSION;
      }
      row := if s.id == "" then s.(id := newId) else s;
      sessions := sessions[row.id := row];
    }

    method GetSession(id: string, now: int) returns (s: Option<RS.LoginSession>)
      modifies this
      ensures (State(), s) == RS.GetSession(old(State()), id, now)
    {
      s := Lookup(sessions, id);
      if s.Some? && RS.SessionExpired(s.value, now) {
        sessions := sessions - {id};
        s := None;
      }
    }

    /** The loop deletes what has expired and collects the rest. */
    method ListSessions(now: int) returns (live: seq<RS.LoginSession>, ghost ids: seq<string>)
      modifies this
      ensures State() == RS.DropExpiredSessions(old(State()), now)
      ensures Lists(live, ids, sessions)
    {
      sessions, live, ids := CollectUnless(sessions, s => !RS.SessionExpired(s, now));
    }

    method ExpireAll() returns (n: nat)
      modifies this
      ensures State() == RS.ExpireAll(old(State())) && n == |old(sessions)|
    {
      n := |sessions|;
      sessions, codes, refresh := map[], map[], map[];
    }

    method ExpireSession(id: string) returns (ok: bool)
      modifies this
      ensures (State(), ok) == RS.ExpireSession(old(State()), id)
    {
      if id !in sessions {
        return false;
      }
      var user := sessions[id].userId;
      sessions := sessions - {id};
      codes := DeleteUnless(codes, (c: RS.AuthCode) => c.userId != user);
      refresh := DeleteUnless(refresh, (t: RS.Refresh) => t.userId != user);
      ok := true;
    }

    method ExpireIncompleteMfa()
      modifies this
      ensures State() == RS.ExpireIncompleteMfa(old(State()))
    {
      sessions := DeleteUnless(sessions, (s: RS.LoginSession) => s.mfa);
      codes := DeleteUnless(codes, (c: RS.AuthCode) => c.mfa);
      refresh := DeleteUnless(refresh, (t: RS.Refresh) => t.mfa);
    }

    method PurgeProtocol()
      modifies this
      ensures State() == RS.Purge(old(State()))
    {
      pending, codes, refresh, sessions := map[], map[], map[], map[];
    }

    method InvalidateBefore(generation: int)
      modifies this
      ensures State() == RS.InvalidateBefore(old(State()), generation)
    {
      minGen := generation;
      PurgeProtocol();
    }

    /** Admission is exactly what PutCode and the other stores do not call stale. */
    method GenerationUsable(generation: int) returns (ok: bool)
      ensures ok == RS.GenerationUsable(State(), generation) == !RS.Stale(State(), generation)
    {
      ok := generation == 0 || generation >= minGen;
    }

    method Reset()
      modifies this
      ensures State() == RS.ResetAll(old(State()))
    {
      PurgeProtocol();
      overlay, lastStep := map[], map[];
    }

    method SetOverlay(user: string, secret: Bytes)
      modifies this
      ensures State() == RS.SetOverlay(old(State()), user, secret)
    {
      overlay := overlay[user := secret];
      lastStep := lastStep - {user};
    }

    method ClearOverlay(user: string)
      modifies this
      ensures State() == RS.ClearOverlay(old(State()), user)
    {
      overlay := overlay - {user};
      lastStep := lastStep - {user};
    }

    /** VerifyAndRecordTOTPGeneration without interference between its two halves. */
    method VerifyAndRecord(hotp: (Bytes, int) -> string, user: string, secret: Bytes, code: string, now: int, generation: int)
      returns (ok: bool)
      modifies this
      ensures
        var step := Totp.Verify(hotp, secret, code, now);
        if step.None? then State() == old(State()) && !ok
        else (State(), ok) == RS.RecordStep(old(State()), user, step.value, generation)
    {
      var step := Totp.Verify(hotp, secret, code, now);
      if step.None? || IsStale(generation) {
        return false;
      }
      if user in lastStep && step.value <= lastStep[user] {
        return false;
      }
      lastStep := lastStep[user := step.value];
      ok := true;
    }
  }
}
