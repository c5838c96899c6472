/**
 The application object (internal/app/app.go and the calls of mutate.go, reset.go
 and mfa.go): store pointers, idempotency cache and runtime, updated in place.
 Each method is proved against the engine's function of the same call.
 */
module Application {
  import opened Basics
  import opened Documents
  import opened Snapshots
  import opened Operations
  import opened Idempotency
  import opened Engine
  import RS = RuntimeState
  import SharedRuntime
  import System

  /** The map from user ids to secret references, filled from the user list. */
  method CollectRefs(users: seq<User>, index: map<string, User>) returns (refs: map<string, string>)
    requires Indexes(index, users, BY_USER_ID) && forall i :: 0 <= i < |users| ==> users[i].id != ""
    ensures refs == map id | id in index :: index[id].totpSecretRef
  {
    refs := map[];
    for i := 0 to |users|
      invariant forall j :: 0 <= j < i ==> users[j].id in refs
      invariant forall id :: id in refs ==> id in index && refs[id] == index[id].totpSecretRef
    {
      assert BY_USER_ID(users[i]) in index && index[BY_USER_ID(users[i])] == users[i];
      refs := refs[users[i].id := users[i].totpSecretRef];
    }
    forall id | id in index ensures id in refs {
      var j :| 0 <= j < |users| && BY_USER_ID(users[j]) == id && index[id] == users[j];
      assert users[j].id in refs;
    }
  }

  /** The comparison syncTOTPOverlay makes for one user of the previous snapshot. */
  predicate SeedMoved(prev: Snapshot, next: Snapshot, before: map<string, string>, after: map<string, string>, id: string)
    requires id in before
  {
    id !in after || after[id] != before[id] || SecretOr(prev.users.seeds, id) != SecretOr(next.users.seeds, id)
  }

  lemma SeedMovedIsStale(prev: Snapshot, next: Snapshot, id: string)
    requires id in prev.users.byId
    ensures
      var before := map u | u in prev.users.byId :: prev.users.byId[u].totpSecretRef;
      var after := map u | u in next.users.byId :: next.users.byId[u].totpSecretRef;
      SeedMoved(prev, next, before, after, id) <==> id in System.StaleSeeds(prev, next)
  {
  }

  /** The user index is the index of the user list. */
  ghost predicate UsersIndexed(s: Snapshot) {
    && Indexes(s.users.byId, s.canonical.spec.users, BY_USER_ID)
    && forall i :: 0 <= i < |s.canonical.spec.users| ==> s.canonical.spec.users[i].id != ""
  }

  /** syncTOTPOverlay: two reference maps, then a loop that clears what moved. */
  method SyncTotpOverlay(rt: SharedRuntime.Runtime, prev: Snapshot, next: Snapshot)
    requires UsersIndexed(prev) && UsersIndexed(next)
    modifies rt
    ensures rt.State() == SyncTotp(old(rt.State()), prev, next)
  {
    if TurnsMfaOn(prev, next) {
      rt.ExpireIncompleteMfa();
    }
    var before := CollectRefs(prev.canonical.spec.users, prev.users.byId);
    var after := CollectRefs(next.canonical.spec.users, next.users.byId);
    forall id | id in before ensures SeedMoved(prev, next, before, after, id) <==> id in System.StaleSeeds(prev, next) {
      SeedMovedIsStale(prev, next, id);
    }
    ClearMoved(rt, prev, next, before, after, System.StaleSeeds(prev, next));
  }

  method ClearMoved(rt: SharedRuntime.Runtime, prev: Snapshot, next: Snapshot, before: map<string, string>, after: map<string, string>,
                    ghost stale: set<string>)
    requires stale <= before.Keys
    requires forall id :: id in before ==> (SeedMoved(prev, next, before, after, id) <==> id in stale)
    modifies rt
    ensures rt.State() == ForgetUsers(old(rt.State()), stale)
  {
    var todo := before.Keys;
    ghost var start := rt.State();
    ForgetNobody(start);
    assert stale - todo == {};
    while todo != {}
      invariant todo <= before.Keys
      invariant rt.State() == ForgetUsers(start, stale - todo)
      decreases |todo|
    {
      var id :| id in todo;
      ghost var done := stale - todo;
      if SeedMoved(prev, next, before, after, id) {
        rt.ClearOverlay(id);
        ForgetOneMore(start, done, id);
        assert done + {id} == stale - (todo - {id});
      } else {
        assert done == stale - (todo - {id});
      }
      todo := todo - {id};
    }
    assert stale - todo == stale;
  }

  lemma ForgetNobody(rt: RS.Rt)
    ensures ForgetUsers(rt, {}) == rt
  {
    assert rt.overlay - {} == rt.overlay && rt.lastStep - {} == rt.lastStep;
  }

  lemma ForgetOneMore(rt: RS.Rt, users: set<string>, id: string)
    ensures RS.ClearOverlay(ForgetUsers(rt, users), id) == ForgetUsers(rt, users + {id})
  {
    assert rt.overlay - users - {id} == rt.overlay - (users + {id});
    assert rt.lastStep - users - {id} == rt.lastStep - (users + {id});
  }

  /** A batch edits a copy of the live document. */
  method Edited(k: Codec, d: Document, ops: seq<Operation>) returns (r: Result<Document>)
    ensures r == ApplyOps(k, d, ops)
  {
    var draft := new Draft(d);
    var done := draft.ApplyAll(k, ops);
    r := if done.Ok? then Ok(draft.doc) else Err(done.error);
  }

  /** securityChanged, with the loop of SecurityEqual. */
  method DetectChange(prev: Snapshot, next: Snapshot) returns (changed: bool)
    ensures changed <==> SecurityChanged(prev, next)
  {
    var same := CompareSecurity(prev, next);
    var b, n := prev.canonical.spec, next.canonical.spec;
    changed := !same || b.profile.vendor != n.profile.vendor || b.issuer != n.issuer
      || b.users != n.users || b.clients != n.clients || b.auth != n.auth || b.protocols != n.protocols
      || b.accessRef != n.accessRef || b.signingRef != n.signingRef;
  }

  /** `strings.TrimSpace(reason) == ""`. */
  method ReasonMissing(reason: string) returns (missing: bool)
    ensures missing <==> Blank(reason)
  {
    BlankIffTrimmedEmpty(reason);
    missing := TrimSpace(reason) == "";
  }

  class App {
    var active: Snapshot
    var previous: Option<Snapshot>
    var bootstrap: Snapshot
    const idemp: IdempCache<Key, Print, Saved>
    const rt: SharedRuntime.Runtime

    ghost function State(): AppState
      reads this, idemp, rt
    {
      AppState(active, previous, bootstrap, idemp.State(), rt.State())
    }

    /** New followed by InstallBootstrapFile with a document that compiled. */
    constructor (boot: Snapshot)
      ensures State() == AppState(boot, None, boot, NewCache(CACHE_CAPACITY), RS.EMPTY)
      ensures fresh(idemp) && fresh(rt)
    {
      active, previous, bootstrap := boot, None, boot;
      idemp := new IdempCache(CACHE_CAPACITY);
      rt := new SharedRuntime.Runtime();
    }

    /** Store.Swap. */
    method Swap(next: Snapshot)
      modifies this
      ensures active == next && previous == Some(old(active)) && bootstrap == old(bootstrap)
    {
      previous := Some(active);
      active := next;
    }

    method Candidate(k: Codec, e: Env, c: Change) returns (r: Result<Snapshot>)
      ensures r == BuildCandidate(k, e, active, c)
    {
      if c.expected.NoRevision? {
        return Err(Validation);
      }
      if c.expected != active.revision {
        return Err(RevisionConflict);
      }
      var doc := Edited(k, active.canonical, c.ops);
      if doc.Err? {
        return Err(doc.error);
      }
      r := Compile(e.world, doc.value, Options(active.generation + 1, active.bootstrapRevision));
      if r.Ok? && !ListenersOk(e, active, r.value) {
        return Err(Validation);
      }
    }

    /** applyLocked. */
    method Apply(k: Codec, e: Env, key: Option<Key>, c: Change, mark: Print) returns (r: Result<ApplyResult>)
      requires UsersIndexed(active)
      modifies this, idemp, rt
      ensures (State(), r) == ApplyLocked(k, e, old(State()), key, c, mark)
      ensures UsersIndexed(active)
    {
      var silent := ReasonMissing(c.reason);
      if silent {
        return Err(Validation);
      }
      var hit := idemp.Lookup(key, mark);
      if hit.Err? {
        return Err(hit.error);
      }
      if hit.value.Some? && hit.value.value.res.Some? {
        return Ok(hit.value.value.res.value);
      }
      var cand := Candidate(k, e, c);
      if cand.Err? {
        return Err(cand.error);
      }
      CandidateIsIndexed(k, e, active, c);
      var prev, next := active, cand.value;
      var plan := PlanFrom(prev, next, c.ops);
      Activate(next);
      var res := ApplyResult(plan, true, next.generation);
      idemp.Store(key, mark, Saved(plan, Some(res)));
      r := Ok(res);
    }

    /** The three separate steps of a mutation: revoke, sync the TOTP ledger, swap. */
    method Activate(next: Snapshot)
      requires UsersIndexed(active) && UsersIndexed(next)
      modifies this, rt
      ensures State() == old(State()).(active := next, previous := Some(old(active)),
                                       rt := RuntimeAfterApply(old(rt.State()), old(active), next))
    {
      var changed := DetectChange(active, next);
      if changed {
        rt.InvalidateBefore(next.generation);
      }
      SyncTotpOverlay(rt, active, next);
      Swap(next);
    }

    /** planLocked: only the cache changes. */
    method PlanChanges(k: Codec, e: Env, key: Option<Key>, c: Change) returns (r: Result<Plan>)
      modifies idemp
      ensures (State(), r) == PlanLocked(k, e, old(State()), key, c)
    {
      var hit := idemp.Lookup(key, PrintOf(c));
      if hit.Err? {
        return Err(hit.error);
      }
      if hit.value.Some? {
        if c.expected != active.revision {
          return Err(RevisionConflict);
        }
        return Ok(hit.value.value.plan);
      }
      var cand := Candidate(k, e, c);
      if cand.Err? {
        return Err(cand.error);
      }
      var plan := PlanFrom(active, cand.value, c.ops);
      idemp.Store(key, PrintOf(c), Saved(plan, None));
      r := Ok(plan);
    }

    /** SetMFA, SwapVendor, SetOverage, RewriteRedirect and ImportApply. */
    method ApplyCommand(k: Codec, e: Env, key: Option<Key>, t: Typed) returns (r: Result<ApplyResult>)
      requires UsersIndexed(active)
      modifies this, idemp, rt
      ensures (State(), r) == ApplyTyped(k, e, old(State()), key, t)
      ensures UsersIndexed(active)
    {
      if !Admissible(t.command) {
        return Err(Validation);
      }
      var hit := idemp.Lookup(key, TypedPrint(t));
      if hit.Err? {
        return Err(hit.error);
      }
      if hit.value.Some? && hit.value.value.res.Some? {
        return Ok(hit.value.value.res.value);
      }
      var op := Derive(k, active, t.command);
      if op.Err? {
        return Err(op.error);
      }
      r := Apply(k, e, key, Change(t.expected, t.key, t.reason, [op.value]), TypedPrint(t));
    }

    /** Reset: replay, load, check, then revoke everything and swap both pointers. */
    method ResetState(e: Env, key: Option<Key>, r: Reset) returns (out: Result<ApplyResult>)
      requires UsersIndexed(active)
      modifies this, idemp, rt
      ensures (State(), out) == ResetLocked(e, old(State()), key, r, LoadBootstrap(e, old(State()), old(active).generation + 1))
      ensures UsersIndexed(active)
    {
      ghost var loaded := LoadBootstrap(e, State(), active.generation + 1);
      var silent := ReasonMissing(r.reason);
      if silent {
        return Err(Validation);
      }
      var hit := idemp.Lookup(key, ResetPrint(r));
      if hit.Err? {
        return Err(hit.error);
      }
      if hit.value.Some? && hit.value.value.res.Some? {
        return Ok(hit.value.value.res.value);
      }
      out := ResetUnrecorded(e, key, r, loaded);
    }

    /** The bootstrap document is only loaded for a reset that names the live revision. */
    method ResetUnrecorded(e: Env, key: Option<Key>, r: Reset, ghost loaded: Result<Snapshot>) returns (out: Result<ApplyResult>)
      requires UsersIndexed(active) && loaded == LoadBootstrap(e, State(), active.generation + 1)
      modifies this, idemp, rt
      ensures (State(), out) == ResetWith(e, old(State()), key, r, loaded)
      ensures UsersIndexed(active)
    {
      if r.expected.NoRevision? {
        return Err(Validation);
      }
      if r.expected != active.revision {
        return Err(RevisionConflict);
      }
      var next := Reload(e, loaded);
      out := ResetLoaded(e, key, r, next);
    }

    method ResetLoaded(e: Env, key: Option<Key>, r: Reset, next: Result<Snapshot>) returns (out: Result<ApplyResult>)
      requires UsersIndexed(active) && (next.Ok? ==> UsersIndexed(next.value))
      requires r.expected.RevisionOf? && r.expected == active.revision
      modifies this, idemp, rt
      ensures (State(), out) == ResetWith(e, old(State()), key, r, next)
      ensures UsersIndexed(active)
    {
      if next.Err? {
        return Err(next.error);
      }
      if !ListenersOk(e, active, next.value) {
        return Err(Validation);
      }
      var plan := PlanFrom(active, next.value, []);
      if r.dryRun {
        return Ok(ApplyResult(plan, false, active.generation + 1));
      }
      out := StartOver(key, r, next.value, plan);
    }

    /** The committing steps of Reset. */
    method StartOver(key: Option<Key>, r: Reset, next: Snapshot, plan: Plan) returns (out: Result<ApplyResult>)
      requires plan == PlanFrom(active, next, [])
      modifies this, idemp, rt
      ensures
        var (done, res) := CommitReset(old(State()), key, ResetPrint(r), next);
        State() == done && out == Ok(res)
    {
      rt.InvalidateBefore(next.generation);
      rt.Reset();
      Swap(next);
      bootstrap := next;
      var res := ApplyResult(plan, true, next.generation);
      idemp.Store(key, ResetPrint(r), Saved(plan, Some(res)));
      out := Ok(res);
    }

    /** loadBootstrap. */
    method Reload(e: Env, ghost loaded: Result<Snapshot>) returns (r: Result<Snapshot>)
      requires loaded == LoadBootstrap(e, State(), active.generation + 1)
      ensures r == loaded && (r.Ok? ==> UsersIndexed(r.value))
    {
      if loaded.Ok? {
        ReloadedIsIndexed(e, State(), active.generation + 1);
      }
      match e.boot
      case NoPath => r := Compile(e.world, bootstrap.canonical, Options(active.generation + 1, bootstrap.revision));
      case Loaded(doc) => r := Compile(e.world, doc, Options(active.generation + 1, NoRevision));
      case _ => r := Err(Validation);
    }
  }

  lemma CompiledIsIndexed(w: World, doc: Document, opt: Options)
    requires Compiled(w, doc, opt).Ok?
    ensures UsersIndexed(Compiled(w, doc, opt).value)
  {
    CompiledIsWellCompiled(w, doc, opt);
  }

  lemma CandidateIsIndexed(k: Codec, e: Env, prev: Snapshot, c: Change)
    requires BuildCandidate(k, e, prev, c).Ok?
    ensures UsersIndexed(BuildCandidate(k, e, prev, c).value)
  {
    CompiledIsIndexed(e.world, ApplyOps(k, prev.canonical, c.ops).value, Options(prev.generation + 1, prev.bootstrapRevision));
  }

  lemma ReloadedIsIndexed(e: Env, a: AppState, generation: int)
    requires LoadBootstrap(e, a, generation).Ok?
    ensures UsersIndexed(LoadBootstrap(e, a, generation).value)
  {
    var source := BootDocument(e, a).value;
    CompiledIsIndexed(e.world, source.0, Options(generation, source.1));
  }
}
