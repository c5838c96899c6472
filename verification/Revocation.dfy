/**
 Revocation: which snapshots may still act, and what every stored row is worth.
 The invariant `Core` holds in every reachable state of the protocol.
 */
module Revocation {
  import opened Documents
  import opened Snapshots
  import opened RuntimeState
  import opened Access
  import opened System

  // ---------------------------------------------------------- the invariant

  function Last(snaps: seq<Snapshot>): Snapshot
    requires snaps != []
  {
    snaps[|snaps| - 1]
  }

  /** The two snapshots answer every handler's questions alike. */
  predicate Alike(a: Snapshot, b: Snapshot) {
    && a.clients == b.clients && a.users == b.users
    && a.canonical.spec.auth == b.canonical.spec.auth && a.canonical.spec.protocols == b.canonical.spec.protocols
  }

  /** One security view, hence the same answers. */
  predicate SameSecurity(a: Snapshot, b: Snapshot) { ViewOf(a) == ViewOf(b) && Alike(a, b) }

  /** Every snapshot of the run, and the candidate, came out of the compiler. */
  ghost predicate CompiledOk(s: Sys) {
    && (forall i :: 0 <= i < |s.snaps| ==> WellCompiled(s.snaps[i]))
    && (!s.phase.Idle? ==> WellCompiled(s.phase.next))
  }

  /** Generations count swaps from 1. */
  predicate NumberedOk(snaps: seq<Snapshot>) {
    snaps != [] && forall i :: 0 <= i < |snaps| ==> snaps[i].generation == i + 1
  }

  /** All snapshots that may still act have the security view of the active one. */
  predicate WindowOk(snaps: seq<Snapshot>, minGen: int)
    requires snaps != []
  {
    forall i :: 0 <= i < |snaps| && minGen <= i + 1 ==> SameSecurity(snaps[i], Last(snaps))
  }

  /** The admission generation passes the active one, by exactly one, only inside a mutation that revokes. */
  predicate PhaseOk(phase: Phase, snaps: seq<Snapshot>, minGen: int)
    requires snaps != []
  {
    && (!phase.Idle? ==> phase.next.generation == |snaps| + 1)
    && match phase
       case Idle => minGen <= |snaps|
       case Candidate(_, _) => minGen <= |snaps|
       case Revoked(next, reset) =>
         minGen == |snaps| + 1 || (!reset && minGen <= |snaps| && SameSecurity(next, Last(snaps)))
       case Syncing(next, _) =>
         minGen == |snaps| + 1 || (minGen <= |snaps| && SameSecurity(next, Last(snaps)))
  }

  /** The grant would pass every check of writeTokens but the tunables. */
  predicate GrantOk(snap: Snapshot, g: Grant) {
    !GrantRevoked(snap, g) && SessionUsable(g.mfa, MfaMode(snap))
  }

  /** The pending row is usable, unless its WS-Fed realm was a bare client id. */
  predicate PendingOk(snap: Snapshot, p: Pending) {
    && (PendingUsable(snap, p) <==> !(p.protocol.WsFed? && RealmIsBareId(snap, p.spEntityId)))
    && (IsOidc(p) ==> p.clientId in snap.clients.byClientId)
  }

  predicate Between(lo: int, generation: int, hi: int) { 1 <= generation <= hi && lo <= generation }

  /** What every stored row is worth: admitted by the window, and good under the active snapshot. */
  function Worth(active: Snapshot, lo: int, hi: int): RowProperty {
    RowProperty(
      (p: Pending) => Between(lo, p.generation, hi) && PendingOk(active, p),
      (c: AuthCode) => Between(lo, c.generation, hi) && GrantOk(active, GrantOfCode(c)),
      (t: Refresh) => Between(lo, t.generation, hi) && GrantOk(active, GrantOfRefresh(t)),
      (x: LoginSession) => Between(lo, x.generation, hi) && SessionServes(active, x))
  }

  function WorthIn(s: Sys): RowProperty
    requires s.snaps != []
  {
    Worth(Last(s.snaps), s.rt.minGen, |s.snaps|)
  }

  /** The code a request that holds a pending row is about to store. */
  function Prospect(q: Request): Grant
    requires q.HoldsPending? || q.TookPending?
  {
    Grant(q.pend.clientId, q.userId, q.username, q.pend.scope, q.mfa)
  }

  /** What a request has established about its own snapshot. */
  predicate ProgressOk(minGen: int, q: Request) {
    match q
    case Identified(snap, _, user) => UserUsable(snap, user.id)
    case Challenged(snap, _, user, _) => UserUsable(snap, user.id) && !MfaMode(snap).ForceFail?
    case Verified(snap, _, user, _, _) => UserUsable(snap, user.id) && !MfaMode(snap).ForceFail?
    case Authenticated(snap, _, user, mfa) => UserUsable(snap, user.id) && SessionUsable(mfa, MfaMode(snap))
    case Completing(snap, _, userId, _, mfa) => UserUsable(snap, userId) && SessionUsable(mfa, MfaMode(snap))
    case HoldsPending(snap, _, _, _, _, _) => minGen <= snap.generation ==> GrantOk(snap, Prospect(q))
    case TookPending(snap, _, _, _, _, _) => minGen <= snap.generation ==> GrantOk(snap, Prospect(q))
    case Issuing(snap, grant, _, _) => minGen <= snap.generation ==> GrantOk(snap, grant)
    case Minting(snap, grant, _, _) => GrantOk(snap, grant)
    case Burning(_, _) => false
    case _ => true
  }

  predicate Knows(snaps: seq<Snapshot>, snap: Snapshot) {
    1 <= snap.generation <= |snaps| && snaps[snap.generation - 1] == snap
  }

  function RequestOk(snaps: seq<Snapshot>, minGen: int): Request -> bool {
    (q: Request) => Knows(snaps, q.snap) && ProgressOk(minGen, q)
  }

  predicate StoreOk(s: Sys) {
    NumberedOk(s.snaps) && WindowOk(s.snaps, s.rt.minGen) && PhaseOk(s.phase, s.snaps, s.rt.minGen)
  }

  predicate Core(s: Sys) {
    StoreOk(s) && Rows(s.rt, WorthIn(s)) && All(s.reqs, RequestOk(s.snaps, s.rt.minGen))
  }

  // ----------------------------------------------- answers inside the window

  lemma UnchangedIsSame(prev: Snapshot, next: Snapshot)
    requires WellCompiled(prev) && WellCompiled(next)
    ensures SecurityChanged(prev, next) || SameSecurity(next, prev)
  {
    SecurityChangedIff(prev, next);
    if ViewOf(prev) == ViewOf(next) {
      SameViewSameLookups(prev, next);
    }
  }

  lemma AlikePending(a: Snapshot, b: Snapshot, p: Pending)
    requires Alike(a, b)
    ensures PendingOk(a, p) <==> PendingOk(b, p)
    ensures PendingUsable(a, p) <==> PendingUsable(b, p)
  {
  }

  lemma AlikeGrant(a: Snapshot, b: Snapshot, g: Grant)
    requires Alike(a, b)
    ensures GrantOk(a, g) <==> GrantOk(b, g)
  {
  }

  /** A grant that is good under a request's own snapshot is good under the active one, if the request may still act. */
  lemma GrantCarries(s: Sys, snap: Snapshot, g: Grant)
    requires StoreOk(s) && Knows(s.snaps, snap) && GrantOk(snap, g)
    ensures s.rt.minGen <= snap.generation ==> GrantOk(Last(s.snaps), g)
  {
    if s.rt.minGen <= snap.generation {
      AlikeGrant(snap, Last(s.snaps), g);
    }
  }

  // ------------------------------------------------------ step by step

  predicate SameStore(s: Sys, s': Sys) {
    s'.snaps == s.snaps && s'.phase == s.phase && s'.rt.minGen == s.rt.minGen
  }

  lemma CoreKept(s: Sys, s': Sys)
    requires Core(s) && SameStore(s, s')
    requires Rows(s'.rt, WorthIn(s)) && All(s'.reqs, RequestOk(s.snaps, s.rt.minGen))
    ensures Core(s')
  {
  }

  /** The rows shrink and the request ends. */
  lemma EndKeeps(s: Sys, s': Sys, r: nat)
    requires Core(s) && SameStore(s, s') && s'.reqs == s.reqs - {r}
    requires Rows(s'.rt, WorthIn(s))
    ensures Core(s')
  {
    CoreKept(s, s');
  }

  /** The rows are still worth what they were and the request moves on. */
  lemma GotoKeeps(s: Sys, s': Sys, r: nat, q: Request)
    requires Core(s) && SameStore(s, s') && s'.reqs == s.reqs[r := q]
    requires Rows(s'.rt, WorthIn(s)) && Knows(s.snaps, q.snap) && ProgressOk(s.rt.minGen, q)
    ensures Core(s')
  {
    CoreKept(s, s');
  }

  lemma EnvShrinks(s: Sys, e: EnvEvent)
    requires s.snaps != [] && !e.EnrollTotp? && !e.ClearTotp?
    ensures Shrinks(s.rt, EnvDo(s, e).rt)
  {
    match e
    case ExpireOneSession(sid) => ExpireSessionShrinks(s.rt, sid);
    case _ =>
  }

  lemma EnvKeepsCore(s: Sys, e: EnvEvent)
    requires Core(s) && EnvEnabled(s, e)
    ensures Core(EnvDo(s, e))
    ensures EnvDo(s, e).rt.minGen == s.rt.minGen
  {
    var s' := EnvDo(s, e);
    assert SameStore(s, s');
    assert Rows(s'.rt, WorthIn(s)) by {
      if !e.EnrollTotp? && !e.ClearTotp? {
        EnvShrinks(s, e);
        ShrinkRows(s.rt, s'.rt, WorthIn(s));
      }
    }
    if e.Capture? {
      GotoKeeps(s, s', e.r, Captured(Active(s)));
    } else if e.Abandon? {
      EndKeeps(s, s', e.r);
    } else {
      CoreKept(s, s');
    }
  }

  /** Raising the admission generation only relaxes what requests must have established. */
  lemma RaiseKeeps(snaps: seq<Snapshot>, reqs: map<nat, Request>, lo: int, hi: int)
    requires All(reqs, RequestOk(snaps, lo)) && lo <= hi
    ensures All(reqs, RequestOk(snaps, hi))
  {
    forall r | r in reqs ensures RequestOk(snaps, hi)(reqs[r]) {
      assert RequestOk(snaps, lo)(reqs[r]);
    }
  }

  lemma InvalidateKeepsCore(s: Sys)
    requires Core(s) && s.phase.Candidate?
    requires SecurityChanged(Last(s.snaps), s.phase.next) || SameSecurity(s.phase.next, Last(s.snaps))
    ensures Core(MutDo(s, Invalidate))
    ensures MutDo(s, Invalidate).rt.minGen >= s.rt.minGen
  {
    RaiseKeeps(s.snaps, s.reqs, s.rt.minGen, |s.snaps| + 1);
  }

  /** A swap either follows a revocation, and no row is left, or does not change any answer. */
  lemma SwapKeepsRows(s: Sys)
    requires Core(s) && s.phase.Syncing?
    ensures Rows(s.rt, Worth(s.phase.next, s.rt.minGen, |s.snaps| + 1))
  {
    var next, old_ := s.phase.next, Last(s.snaps);
    var now, then_ := WorthIn(s), Worth(next, s.rt.minGen, |s.snaps| + 1);
    if s.rt.minGen <= |s.snaps| {
      forall k | k in s.rt.pending ensures then_.pending(s.rt.pending[k]) {
        assert now.pending(s.rt.pending[k]);
        AlikePending(next, old_, s.rt.pending[k]);
      }
      forall k | k in s.rt.codes ensures then_.code(s.rt.codes[k]) {
        assert now.code(s.rt.codes[k]);
        AlikeGrant(next, old_, GrantOfCode(s.rt.codes[k]));
      }
      forall k | k in s.rt.refresh ensures then_.refresh(s.rt.refresh[k]) {
        assert now.refresh(s.rt.refresh[k]);
        AlikeGrant(next, old_, GrantOfRefresh(s.rt.refresh[k]));
      }
      forall k | k in s.rt.sessions ensures then_.session(s.rt.sessions[k]) {
        assert now.session(s.rt.sessions[k]);
      }
    } else {
      NoRowsAbove(s.rt, Last(s.snaps), |s.snaps|);
    }
  }

  /** No row is admitted when the admission generation is above every snapshot. */
  lemma NoRowsAbove(rt: Rt, active: Snapshot, hi: int)
    requires Rows(rt, Worth(active, rt.minGen, hi)) && rt.minGen > hi
    ensures rt.pending == map[] && rt.codes == map[] && rt.refresh == map[] && rt.sessions == map[]
  {
  }

  lemma SwapKeepsCore(s: Sys)
    requires Core(s) && s.phase.Syncing? && s.phase.todo == {}
    ensures Core(MutDo(s, Swap))
  {
    var s' := MutDo(s, Swap);
    assert Last(s'.snaps) == s.phase.next;
    SwapKeepsRows(s);
    forall r | r in s.reqs ensures RequestOk(s'.snaps, s.rt.minGen)(s.reqs[r]) {
      assert RequestOk(s.snaps, s.rt.minGen)(s.reqs[r]);
    }
    assert WindowOk(s'.snaps, s'.rt.minGen);
  }

  lemma SyncKeepsCore(s: Sys, rt: Rt, todo: set<string>)
    requires Core(s) && (s.phase.Revoked? || s.phase.Syncing?) && rt.minGen == s.rt.minGen && Rows(rt, WorthIn(s))
    ensures Core(s.(rt := rt, phase := Syncing(s.phase.next, todo)))
  {
  }

  lemma HistoryIsFree(s: Sys, log: seq<TotpEvent>)
    requires Core(s)
    ensures Core(s.(totpLog := log))
  {
  }

  lemma BeginKeepsCore(s: Sys, cand: Snapshot, reset: bool)
    requires Core(s) && s.phase.Idle? && cand.generation == |s.snaps| + 1
    ensures Core(s.(phase := Candidate(cand, reset)))
  {
  }

  lemma MutKeepsCore(s: Sys, e: MutEvent)
    requires Core(s) && MutEnabled(s, e)
    requires e.Invalidate? ==> SecurityChanged(Last(s.snaps), s.phase.next) || SameSecurity(s.phase.next, Last(s.snaps))
    ensures Core(MutDo(s, e))
    ensures MutDo(s, e).rt.minGen >= s.rt.minGen
  {
    match e
    case Begin(cand, reset) => BeginKeepsCore(s, cand, reset);
    case Invalidate => InvalidateKeepsCore(s);
    case Swap => SwapKeepsCore(s);
    case ResetRuntime =>
      SyncKeepsCore(s, ResetAll(s.rt), {});
      HistoryIsFree(s.(rt := ResetAll(s.rt), phase := Syncing(s.phase.next, {})), s.totpLog + [ClearedAll]);
    case StartSync =>
      ExpireIncompleteShrinks(s.rt);
      ShrinkRows(s.rt, ExpireIncompleteMfa(s.rt), WorthIn(s));
      SyncKeepsCore(s, MutDo(s, e).rt, StaleSeeds(Active(s), s.phase.next));
    case SyncOne(user) =>
      SyncKeepsCore(s, ClearOverlay(s.rt, user), s.phase.todo - {user});
      HistoryIsFree(s.(rt := ClearOverlay(s.rt, user), phase := Syncing(s.phase.next, s.phase.todo - {user})),
                    s.totpLog + [Cleared(user)]);
  }

  lemma MutKeepsCompiled(s: Sys, e: MutEvent)
    requires CompiledOk(s) && s.snaps != [] && MutEnabled(s, e) && (e.Begin? ==> WellCompiled(e.cand))
    ensures CompiledOk(MutDo(s, e))
  {
  }
}
