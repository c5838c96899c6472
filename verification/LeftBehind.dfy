/**
 Runs in which a mutation leaves a request behind, and what that request then
 takes from the tables.
 */
module LeftBehind {
  import opened Basics
  import opened Documents
  import opened Snapshots
  import opened RuntimeState
  import opened Access
  import opened System
  import opened Protocol
  import opened StaleRequests
  import opened FirstSteps
  import Mutations
  import Engine
  import RL = RuntimeLaws
  import W = Witnesses

  // ------------------------------------------------------------- the scene

  /** Request 0 arrived before a revoking apply, request 1 after it; nothing is stored. */
  predicate Scene(s: Sys, before: Snapshot, after: Snapshot) {
    && s.snaps == [before, after] && s.phase == Idle && s.now == 0
    && s.reqs == map[0 := Captured(before), 1 := Captured(after)]
    && s.rt == EMPTY.(minGen := 2) && s.used == {}
  }

  lemma EmptyAfterApply(before: Snapshot, after: Snapshot)
    requires SecurityChanged(before, after) && after.generation == 2
    ensures Engine.RuntimeAfterApply(EMPTY, before, after) == EMPTY.(minGen := 2)
  {
    var stale := StaleSeeds(before, after);
    assert EMPTY.overlay - stale == map[] && EMPTY.lastStep - stale == map[];
    var empty := EMPTY.(minGen := 2);
    assert ExpireIncompleteMfa(empty) == empty;
  }

  lemma Arrives(s: Sys, r: nat)
    requires Reachable(s) && s.snaps != [] && r !in s.reqs
    ensures Reachable(s.(reqs := s.reqs[r := Captured(Active(s))]))
  {
    ReachableStep(s, Env(Capture(r)));
  }

  lemma ApplyReaches(s: Sys, next: Snapshot) returns (t: Sys)
    requires Reachable(s) && s.snaps != [] && s.phase.Idle? && next.generation == |s.snaps| + 1 && WellCompiled(next)
    ensures Reachable(t) && Mutations.Ended(s, t, next, Engine.RuntimeAfterApply(s.rt, Active(s), next))
  {
    var es := Mutations.ApplyIsARun(s, next);
    ReachableRun(s, es);
    t := Final(s, es);
  }

  lemma SceneIsReached(before: Snapshot, after: Snapshot) returns (s: Sys)
    requires WellCompiled(before) && WellCompiled(after) && before.generation == 1 && after.generation == 2
    requires SecurityChanged(before, after)
    ensures Reachable(s) && Scene(s, before, after)
  {
    FirstArrives(before);
    s := RevokingApply(before, after);
    s := SecondArrives(before, after, s);
  }

  lemma RevokingApply(before: Snapshot, after: Snapshot) returns (s: Sys)
    requires Reachable(Arrived(before, 0)) && WellCompiled(after) && after.generation == 2 && SecurityChanged(before, after)
    ensures Reachable(s) && s.snaps == [before, after] && s.phase == Idle && s.now == 0
    ensures s.reqs == map[0 := Captured(before)] && s.rt == EMPTY.(minGen := 2) && s.used == {}
  {
    EmptyAfterApply(before, after);
    s := ApplyReaches(Arrived(before, 0), after);
  }

  lemma FirstArrives(boot: Snapshot)
    requires WellCompiled(boot) && boot.generation == 1
    ensures Reachable(Arrived(boot, 0))
  {
    ReachableStart(boot, 0);
    Arrives(Start(boot, 0), 0);
  }

  lemma SecondArrives(before: Snapshot, after: Snapshot, s: Sys) returns (t: Sys)
    requires Reachable(s) && s.snaps == [before, after] && s.phase == Idle && s.now == 0
    requires s.reqs == map[0 := Captured(before)] && s.rt == EMPTY.(minGen := 2) && s.used == {}
    ensures Reachable(t) && Scene(t, before, after)
  {
    Arrives(s, 1);
    t := s.(reqs := s.reqs[1 := Captured(after)]);
  }

  // ---------------------------------------------------------------- denial

  /** Two steps of request 0: it reads the row and answers with a denial. */
  lemma DenialRuns(s: Sys, id: string) returns (t: Sys)
    requires Reachable(s) && s.snaps != [] && 0 in s.reqs && s.reqs[0].Captured?
    requires id in s.rt.pending && !PendingExpired(s.rt.pending[id], s.now) && PendingUsable(s.reqs[0].snap, s.rt.pending[id])
    ensures Reachable(t) && t.rt.pending == s.rt.pending - {id} && |t.answers| == |s.answers| + 1
  {
    DenialTakesIff(s, 0, id);
    var read := After(s, 0, ReadForDenial(s, s.reqs[0].snap, id));
    ReachableStep(s, Finish(0, DenyReadPending(id)));
    assert read.reqs[0] == Answering(s.reqs[0].snap, id, true);
    ReachableStep(read, Finish(0, AnswerTakePending));
    t := After(read, 0, Answer(read, id));
  }

  /** What request 1 stores in the scene. */
  lemma SceneStores(s: Sys, before: Snapshot, after: Snapshot, p: Pending, newId: string, next: Option<Request>)
    requires Scene(s, before, after) && newId != "" && p == Unstamped(p) && p.generation == 2 && PendingBounded(p)
    ensures
      var t := After(s, 1, Submit(s, p, newId, next));
      && t.rt.pending == map[newId := p.(id := newId, created := 0)] && t.rt.minGen == 2
      && t.reqs == (if next.Some? then s.reqs[1 := next.value] else s.reqs - {1})
  {
  }

  lemma RowIsStored(s: Sys, before: Snapshot, after: Snapshot, e: EntryEvent, p: Pending, newId: string, stored: Request)
    returns (t: Sys)
    requires Reachable(s) && Scene(s, before, after) && before.generation == 1 && newId != ""
    requires p == Unstamped(p) && p.generation == 2 && PendingBounded(p)
    requires EntryEnabled(s, s.reqs[1], e) && EntryOut(s, s.reqs[1], e) == Submit(s, p, newId, Some(stored))
    ensures Reachable(t) && 0 in t.reqs && t.reqs[0] == Captured(before) && Stale(t.rt, before.generation)
    ensures t.snaps == [before, after] && t.now == 0
    ensures t.rt.pending == map[newId := p.(id := newId, created := 0)]
  {
    SceneStores(s, before, after, p, newId, Some(stored));
    RequestReaches(s, 1, e);
    t := After(s, 1, Submit(s, p, newId, Some(stored)));
  }

  lemma RequestReaches(s: Sys, r: nat, e: EntryEvent)
    requires Reachable(s) && s.snaps != [] && r in s.reqs && EntryEnabled(s, s.reqs[r], e)
    ensures Reachable(After(s, r, EntryOut(s, s.reqs[r], e)))
  {
    ReachableStep(s, Entry(r, e));
  }

  lemma StampedIsUsable(snap: Snapshot, p: Pending, newId: string)
    requires PendingUsable(snap, p)
    ensures PendingUsable(snap, p.(id := newId, created := 0)) && !PendingExpired(p.(id := newId, created := 0), 0)
  {
  }

  // ------------------------------------------------- a newer row is denied

  const PROVIDER := Client("sp", "", [], true, "", [], false, "urn:sp", ["https://sp/acs"])

  /** The same client before and after a change of vendor. */
  lemma ProviderCompiles() returns (before: Snapshot, after: Snapshot)
    ensures WellCompiled(before) && WellCompiled(after) && before.generation == 1 && after.generation == 2
    ensures SecurityChanged(before, after) && SamlEnabled(before) && SamlEnabled(after) && before.clients == after.clients
    ensures after.clients.bySamlEntity == map["urn:sp" := PROVIDER] && after.clients.byClientId == map["sp" := PROVIDER]
  {
    var x, y := W.Setup("generic", true, false, Never, [PROVIDER], []), W.Setup("okta", true, false, Never, [PROVIDER], []);
    assert "https://sp/acs"[..8] == "https://";
    ClientSetupOk(x, PROVIDER);
    ClientSetupOk(y, PROVIDER);
    before := OneClientCompiles(x, 1, PROVIDER);
    after := OneClientCompiles(y, 2, PROVIDER);
  }

  lemma ProviderRow(snap: Snapshot)
    requires snap.clients.bySamlEntity == map["urn:sp" := PROVIDER] && snap.clients.byClientId == map["sp" := PROVIDER] && SamlEnabled(snap)
    ensures
      var p := SamlPending(snap, "urn:sp", "https://sp/acs", "_1", "");
      PendingBounded(p) && p == Unstamped(p) && PendingUsable(snap, p) && "https://sp/acs" in ReplyUrls(PROVIDER)
  {
    RL.FieldTotal(SamlPending(snap, "urn:sp", "https://sp/acs", "_1", ""));
    assert PROVIDER.acsUrls[0] == "https://sp/acs";
  }

  /**
   A request that arrived before a revoking apply denies a SAML row that was stored
   after it: `s` holds the row and the request left behind, and `t` follows from it.
   */
  lemma NewerRowIsDenied(newId: string) returns (s: Sys, t: Sys)
    requires newId != ""
    ensures Reachable(s) && 0 in s.reqs && s.reqs[0].Captured? && Stale(s.rt, s.reqs[0].snap.generation)
    ensures newId in s.rt.pending && s.rt.pending[newId].generation > s.reqs[0].snap.generation
    ensures Reachable(t) && newId !in t.rt.pending && |t.answers| == |s.answers| + 1
  {
    var before, after;
    s, before, after := ProviderStores(newId);
    t := DenialRuns(s, newId);
  }

  lemma ProviderScene() returns (s: Sys, before: Snapshot, after: Snapshot)
    ensures Reachable(s) && Scene(s, before, after) && before.generation == 1 && after.generation == 2
    ensures SamlEnabled(before) && SamlEnabled(after) && before.clients == after.clients
    ensures after.clients.bySamlEntity == map["urn:sp" := PROVIDER] && after.clients.byClientId == map["sp" := PROVIDER]
  {
    before, after := ProviderCompiles();
    s := SceneIsReached(before, after);
  }

  lemma ProviderStores(newId: string) returns (s: Sys, before: Snapshot, after: Snapshot)
    requires newId != ""
    ensures Reachable(s) && s.snaps == [before, after] && s.now == 0 && before.generation == 1
    ensures 0 in s.reqs && s.reqs[0] == Captured(before) && Stale(s.rt, before.generation)
    ensures newId in s.rt.pending && s.rt.pending[newId].generation == 2
    ensures PendingUsable(before, s.rt.pending[newId]) && !PendingExpired(s.rt.pending[newId], 0)
  {
    s, before, after := ProviderScene();
    s := ProviderFiles(s, before, after, newId);
    ProviderRowBefore(before, after);
    StampedIsUsable(before, SamlPending(after, "urn:sp", "https://sp/acs", "_1", ""), newId);
  }

  lemma ProviderFiles(s: Sys, before: Snapshot, after: Snapshot, newId: string) returns (t: Sys)
    requires Reachable(s) && Scene(s, before, after) && before.generation == 1 && after.generation == 2 && newId != "" && SamlEnabled(after)
    requires after.clients.bySamlEntity == map["urn:sp" := PROVIDER] && after.clients.byClientId == map["sp" := PROVIDER]
    ensures Reachable(t) && 0 in t.reqs && t.reqs[0] == Captured(before) && Stale(t.rt, before.generation)
    ensures t.snaps == [before, after] && t.now == 0
    ensures t.rt.pending == map[newId := SamlPending(after, "urn:sp", "https://sp/acs", "_1", "").(id := newId, created := 0)]
  {
    ProviderRow(after);
    var p := SamlPending(after, "urn:sp", "https://sp/acs", "_1", "");
    t := RowIsStored(s, before, after, SamlPutPending("urn:sp", "https://sp/acs", "_1", "", newId), p, newId, Stored(after, newId));
  }

  lemma ProviderRowBefore(before: Snapshot, after: Snapshot)
    requires before.clients == after.clients && SamlEnabled(before)
    requires after.clients.bySamlEntity == map["urn:sp" := PROVIDER] && after.clients.byClientId == map["sp" := PROVIDER]
    ensures PendingUsable(before, SamlPending(after, "urn:sp", "https://sp/acs", "_1", ""))
  {
    assert PROVIDER.acsUrls[0] == "https://sp/acs";
  }

  // ------------------------------------------------ a bare-id row is denied

  /** The client whose id, later bare, was its entity id before. */
  const NAMED := Client("app", "", ["https://sp"], true, "", [], false, "app", [])

  lemma RenamedCompiles() returns (before: Snapshot, after: Snapshot)
    ensures WellCompiled(before) && WellCompiled(after) && before.generation == 1 && after.generation == 2
    ensures SecurityChanged(before, after) && WsFedEnabled(before) && WsFedEnabled(after)
    ensures before.clients.byClientId == map["app" := NAMED]
    ensures after.clients.bySamlEntity == map[] && after.clients.byClientId == map["app" := BARE]
  {
    var x, y := W.Setup("generic", false, true, Never, [NAMED], []), W.Setup("generic", false, true, Never, [BARE], []);
    assert "https://sp"[..8] == "https://";
    ClientSetupOk(x, NAMED);
    ClientSetupOk(y, BARE);
    before := OneClientCompiles(x, 1, NAMED);
    after := OneClientCompiles(y, 2, BARE);
    assert before.canonical.spec.clients[0].entityId != after.canonical.spec.clients[0].entityId;
  }

  lemma RenamedRow(before: Snapshot, after: Snapshot)
    requires before.clients.byClientId == map["app" := NAMED] && WsFedEnabled(before) && WsFedEnabled(after)
    requires after.clients.bySamlEntity == map[] && after.clients.byClientId == map["app" := BARE]
    ensures RealmIsBareId(after, "app") && RealmClient(after, "app") == Some(BARE) && "https://sp" in ReplyUrls(BARE)
    ensures
      var p := WsFedPending(after, "app", "https://sp", "");
      PendingBounded(p) && p == Unstamped(p) && PendingUsable(before, p)
  {
    BareIsBounded(after);
    assert BARE.redirectUris[0] == "https://sp" && NAMED.redirectUris[0] == "https://sp";
  }

  /** A request left behind denies a row that is bare-id, hence unusable, under the active snapshot. */
  lemma BareRowIsDenied(newId: string) returns (s: Sys, t: Sys)
    requires newId != ""
    ensures Reachable(s) && s.snaps != [] && 0 in s.reqs && s.reqs[0].Captured? && Stale(s.rt, s.reqs[0].snap.generation)
    ensures newId in s.rt.pending && s.rt.pending[newId].protocol.WsFed? && RealmIsBareId(Active(s), s.rt.pending[newId].spEntityId)
    ensures Reachable(t) && newId !in t.rt.pending && |t.answers| == |s.answers| + 1
  {
    var before, after;
    s, before, after := RenamedStores(newId);
    t := DenialRuns(s, newId);
  }

  lemma RenamedScene() returns (s: Sys, before: Snapshot, after: Snapshot)
    ensures Reachable(s) && Scene(s, before, after) && before.generation == 1 && after.generation == 2
    ensures before.clients.byClientId == map["app" := NAMED] && WsFedEnabled(before) && WsFedEnabled(after)
    ensures after.clients.bySamlEntity == map[] && after.clients.byClientId == map["app" := BARE]
  {
    before, after := RenamedCompiles();
    s := SceneIsReached(before, after);
  }

  lemma RenamedStores(newId: string) returns (s: Sys, before: Snapshot, after: Snapshot)
    requires newId != ""
    ensures Reachable(s) && s.snaps == [before, after] && s.now == 0 && before.generation == 1
    ensures 0 in s.reqs && s.reqs[0] == Captured(before) && Stale(s.rt, before.generation)
    ensures newId in s.rt.pending && s.rt.pending[newId].protocol.WsFed? && RealmIsBareId(after, s.rt.pending[newId].spEntityId)
    ensures PendingUsable(before, s.rt.pending[newId]) && !PendingExpired(s.rt.pending[newId], 0)
  {
    s, before, after := RenamedScene();
    RenamedRow(before, after);
    s := RenamedFiles(s, before, after, newId);
    StampedIsUsable(before, WsFedPending(after, "app", "https://sp", ""), newId);
  }

  lemma RenamedFiles(s: Sys, before: Snapshot, after: Snapshot, newId: string) returns (t: Sys)
    requires Reachable(s) && Scene(s, before, after) && before.generation == 1 && after.generation == 2 && newId != "" && WsFedEnabled(after)
    requires RealmClient(after, "app") == Some(BARE) && "https://sp" in ReplyUrls(BARE)
    ensures Reachable(t) && 0 in t.reqs && t.reqs[0] == Captured(before) && Stale(t.rt, before.generation)
    ensures t.snaps == [before, after] && t.now == 0
    ensures t.rt.pending == map[newId := WsFedPending(after, "app", "https://sp", "").(id := newId, created := 0)]
  {
    BareIsBounded(after);
    var p := WsFedPending(after, "app", "https://sp", "");
    t := RowIsStored(s, before, after, WsFedPutPending("app", "https://sp", "", newId), p, newId, Stored(after, newId));
  }
}
