/**
 The desired-state engine (internal/app/mutate.go, reset.go, mfa.go and the typed
 mutations): plan, apply, typed commands and reset over the snapshot store, the
 runtime and the idempotency cache. Every call runs under App.mu, so a call is a
 function from state to state and reply.

 Calls are made after the bootstrap snapshot was installed and after the actor
 was authorized. A fingerprint is modelled by what it digests.
 */
module Engine {
  import opened Basics
  import opened Documents
  import opened Snapshots
  import opened Operations
  import opened Idempotency
  import RS = RuntimeState
  import System

  // ----------------------------------------------------------------- inputs

  datatype Actor = Actor(kind: string, id: string)

  datatype Change = Change(expected: Revision, key: string, reason: string, ops: seq<Operation>)

  /** The typed mutations; each turns itself into one operation. */
  datatype Command =
    | SetMfa(mode: Mfa)
    | SwapVendor(vendor: string, tenantId: Option<string>)
    | SetOverageLimits(graphStub: Option<bool>, oktaFailAt: Option<int>, genericCap: Option<int>)
    | RewriteRedirect(clientId: string, uris: seq<string>)
    | ImportApp(kind: string, document: string)

  datatype Typed = Typed(expected: Revision, key: string, reason: string, command: Command)

  datatype Reset = Reset(expected: Revision, key: string, dryRun: bool, reason: string)

  datatype Call =
    | PlanCall(actor: Actor, change: Change)
    | ApplyCall(actor: Actor, change: Change)
    | TypedCall(actor: Actor, typed: Typed)
    | ResetCall(actor: Actor, reset: Reset)

  /** What a reset finds at the configured bootstrap path. */
  datatype BootFile = NoPath | Missing | Malformed | Loaded(doc: Document)

  /** The files, the boot file, and whether the listeners are already bound. */
  datatype Env = Env(world: World, boot: BootFile, bound: bool)

  datatype Capability = PlanChange | ApplyChange | ResetState | MfaSet | VendorSwap | OverageSet | RedirectRewrite | ImportApply

  /** scopedKey. */
  datatype Key = Key(actor: Actor, capability: Capability, text: string)

  datatype Print =
    | ChangePrint(expected: Revision, reason: string, ops: seq<Operation>)
    | TypedPrint(typed: Typed)
    | ResetPrint(reset: Reset)

  function ScopedKey(actor: Actor, capability: Capability, text: string): Option<Key> {
    if text == "" then None else Some(Key(actor, capability, text))
  }

  function PrintOf(c: Change): Print { ChangePrint(c.expected, c.reason, c.ops) }

  function CapabilityOf(c: Command): Capability {
    match c
    case SetMfa(_) => MfaSet
    case SwapVendor(_, _) => VendorSwap
    case SetOverageLimits(_, _, _) => OverageSet
    case RewriteRedirect(_, _) => RedirectRewrite
    case ImportApp(_, _) => ImportApply
  }

  // ---------------------------------------------------------------- results

  datatype Impact = Impact(clients: bool, users: bool, groups: bool, issuer: bool, vendor: bool, overage: bool)

  /** `specDiffers` stands for the single diff entry. */
  datatype Plan = Plan(previous: Revision, candidate: Revision, drifted: bool, specDiffers: bool, impact: Impact, ops: seq<Operation>)

  datatype ApplyResult = ApplyResult(plan: Plan, applied: bool, generation: int)

  datatype Saved = Saved(plan: Plan, res: Option<ApplyResult>)

  datatype Reply = Planned(plan: Plan) | Done(res: ApplyResult)

  // ------------------------------------------------------------------ state

  datatype AppState = AppState(
    active: Snapshot, previous: Option<Snapshot>, bootstrap: Snapshot,
    cache: Cache<Key, Print, Saved>, rt: RS.Rt)

  const CACHE_CAPACITY := 256

  predicate Drifted(s: Snapshot) { s.revision != s.bootstrapRevision }

  function PlanFrom(prev: Snapshot, next: Snapshot, ops: seq<Operation>): Plan {
    var b, n := prev.canonical.spec, next.canonical.spec;
    Plan(prev.revision, next.revision, Drifted(next), b != n,
         Impact(b.clients != n.clients, b.users != n.users, b.groups != n.groups, b.issuer != n.issuer,
                b.profile.vendor != n.profile.vendor, b.groupOverage != n.groupOverage), ops)
  }

  /** validateLiveListeners. */
  predicate ListenersOk(e: Env, prev: Snapshot, next: Snapshot) {
    var b, n := prev.canonical.spec.listeners, next.canonical.spec.listeners;
    e.bound ==> b.https.address == n.https.address && b.management == n.management
  }

  /** buildCandidate with a required revision. */
  function BuildCandidate(k: Codec, e: Env, prev: Snapshot, c: Change): Result<Snapshot> {
    if c.expected.NoRevision? then Err(Validation)
    else if c.expected != prev.revision then Err(RevisionConflict)
    else
      var doc := ApplyOps(k, prev.canonical, c.ops);
      if doc.Err? then Err(doc.error)
      else
        var next := Compiled(e.world, doc.value, Options(prev.generation + 1, prev.bootstrapRevision));
        if next.Ok? && !ListenersOk(e, prev, next.value) then Err(Validation) else next
  }

  /** Forget the TOTP secrets and steps of the given users. */
  function ForgetUsers(rt: RS.Rt, users: set<string>): RS.Rt {
    rt.(overlay := rt.overlay - users, lastStep := rt.lastStep - users)
  }

  predicate TurnsMfaOn(prev: Snapshot, next: Snapshot) {
    next.canonical.spec.auth.mfaMode.Always? && !prev.canonical.spec.auth.mfaMode.Always?
  }

  /** syncTOTPOverlay. */
  function SyncTotp(rt: RS.Rt, prev: Snapshot, next: Snapshot): RS.Rt {
    ForgetUsers(if TurnsMfaOn(prev, next) then RS.ExpireIncompleteMfa(rt) else rt, System.StaleSeeds(prev, next))
  }

  function RuntimeAfterApply(rt: RS.Rt, prev: Snapshot, next: Snapshot): RS.Rt {
    SyncTotp(if SecurityChanged(prev, next) then RS.InvalidateBefore(rt, next.generation) else rt, prev, next)
  }

  function RuntimeAfterReset(rt: RS.Rt, next: Snapshot): RS.Rt {
    RS.ResetAll(RS.InvalidateBefore(rt, next.generation))
  }

  // ------------------------------------------------------------------ calls

  /** What the cache has for a mutation: a recorded result, nothing, or a conflict. */
  function Replay(a: AppState, key: Option<Key>, mark: Print): (AppState, Result<Option<ApplyResult>>) {
    var (cache, hit) := Look(a.cache, key, mark);
    (a.(cache := cache),
     if hit.Err? then Err(hit.error) else if hit.value.None? then Ok(None) else Ok(hit.value.value.res))
  }

  /** The end of applyLocked: runtime, swap, cache. */
  function Commit(a: AppState, key: Option<Key>, mark: Print, next: Snapshot, ops: seq<Operation>): (AppState, ApplyResult) {
    var plan := PlanFrom(a.active, next, ops);
    var res := ApplyResult(plan, true, next.generation);
    (AppState(next, Some(a.active), a.bootstrap, Put(a.cache, key, mark, Saved(plan, Some(res))),
              RuntimeAfterApply(a.rt, a.active, next)), res)
  }

  /** The answer of a mutation the cache already knows about. */
  function Recorded(hit: Result<Option<ApplyResult>>): Result<ApplyResult>
    requires hit.Ok? ==> hit.value.Some?
  {
    if hit.Err? then Err(hit.error) else Ok(hit.value.value)
  }

  predicate Fresh(hit: Result<Option<ApplyResult>>) { hit.Ok? && hit.value.None? }

  /** applyLocked after its replay check, given the candidate. */
  function ApplyWith(a: AppState, key: Option<Key>, c: Change, mark: Print, next: Result<Snapshot>): (AppState, Result<ApplyResult>) {
    if next.Err? then (a, Err(next.error))
    else
      var (done, res) := Commit(a, key, mark, next.value, c.ops);
      (done, Ok(res))
  }

  function ApplyLocked(k: Codec, e: Env, a: AppState, key: Option<Key>, c: Change, mark: Print): (AppState, Result<ApplyResult>) {
    if Blank(c.reason) then (a, Err(Validation))
    else
      var (seen, hit) := Replay(a, key, mark);
      if Fresh(hit) then ApplyWith(seen, key, c, mark, BuildCandidate(k, e, seen.active, c)) else (seen, Recorded(hit))
  }

  function PlanLocked(k: Codec, e: Env, a: AppState, key: Option<Key>, c: Change): (AppState, Result<Plan>) {
    var (cache, hit) := Look(a.cache, key, PrintOf(c));
    var seen := a.(cache := cache);
    if hit.Err? then (seen, Err(hit.error))
    else if hit.value.Some? then
      (seen, if c.expected != a.active.revision then Err(RevisionConflict) else Ok(hit.value.value.plan))
    else
      var next := BuildCandidate(k, e, a.active, c);
      if next.Err? then (seen, Err(next.error))
      else
        var plan := PlanFrom(a.active, next.value, c.ops);
        (a.(cache := Put(cache, key, PrintOf(c), Saved(plan, None))), Ok(plan))
  }

  /** The checks a typed mutation makes before it takes the lock. */
  predicate Admissible(c: Command) {
    match c
    case SetMfa(mode) => ValidMfa(mode)
    case SwapVendor(vendor, _) => vendor != "" && vendor in VENDORS
    case RewriteRedirect(clientId, _) => clientId != ""
    case _ => true
  }

  function OrElse<T>(o: Option<T>, def: T): T { if o.None? then def else o.value }

  /** The operation a typed mutation stands for, computed from the live snapshot. */
  function Derive(k: Codec, s: Snapshot, c: Command): Result<Operation> {
    var spec := s.canonical.spec;
    match c
    case SetMfa(mode) => Ok(Operation(Update, AuthTarget, "", OfAuth(spec.auth.(mfaMode := mode))))
    case SwapVendor(vendor, tenant) =>
      Ok(Operation(Update, ProfileTarget, "", OfProfile(Profile(vendor, OrElse(tenant, spec.profile.tenantId)))))
    case SetOverageLimits(stub, okta, cap) =>
      var g := spec.groupOverage;
      Ok(Operation(Update, OverageTarget, "",
                   OfOverage(GroupOverage(OrElse(stub, g.entraGraphStub), OrElse(okta, g.oktaFailAt), OrElse(cap, g.genericCap)))))
    case RewriteRedirect(clientId, uris) =>
      var found := Lookup(s.clients.byClientId, clientId);
      var cl := if found.Some? then found else Lookup(s.clients.byId, clientId);
      if cl.None? then Err(NotFound)
      else Ok(Operation(Update, ClientTarget, cl.value.id, OfClient(cl.value.(redirectUris := uris))))
    case ImportApp(kind, document) =>
      var cl := k.importClient(kind, document);
      if cl.None? then Err(Validation) else Ok(Operation(Add, ClientTarget, cl.value.id, OfClient(cl.value)))
  }

  function TypedFresh(k: Codec, e: Env, a: AppState, key: Option<Key>, t: Typed): (AppState, Result<ApplyResult>) {
    var op := Derive(k, a.active, t.command);
    if op.Err? then (a, Err(op.error))
    else ApplyLocked(k, e, a, key, Change(t.expected, t.key, t.reason, [op.value]), TypedPrint(t))
  }

  function ApplyTyped(k: Codec, e: Env, a: AppState, key: Option<Key>, t: Typed): (AppState, Result<ApplyResult>) {
    if !Admissible(t.command) then (a, Err(Validation))
    else
      var (seen, hit) := Replay(a, key, TypedPrint(t));
      if Fresh(hit) then TypedFresh(k, e, seen, key, t) else (seen, Recorded(hit))
  }

  /** The document a reset goes back to, and the bootstrap revision it is compiled with. */
  function BootDocument(e: Env, a: AppState): Result<(Document, Revision)> {
    match e.boot
    case NoPath => Ok((a.bootstrap.canonical, a.bootstrap.revision))
    case Loaded(doc) => Ok((doc, NoRevision))
    case _ => Err(Validation)
  }

  function LoadBootstrap(e: Env, a: AppState, generation: int): Result<Snapshot> {
    var source := BootDocument(e, a);
    if source.Err? then Err(source.error)
    else Compiled(e.world, source.value.0, Options(generation, source.value.1))
  }

  /** The end of Reset: runtime, swap, bootstrap, cache. */
  function CommitReset(a: AppState, key: Option<Key>, mark: Print, next: Snapshot): (AppState, ApplyResult) {
    var plan := PlanFrom(a.active, next, []);
    var res := ApplyResult(plan, true, next.generation);
    (AppState(next, Some(a.active), next, Put(a.cache, key, mark, Saved(plan, Some(res))),
              RuntimeAfterReset(a.rt, next)), res)
  }

  /** Reset after its replay check, given what loading the bootstrap document produced. */
  function ResetWith(e: Env, a: AppState, key: Option<Key>, r: Reset, next: Result<Snapshot>): (AppState, Result<ApplyResult>) {
    if r.expected.NoRevision? then (a, Err(Validation))
    else if r.expected != a.active.revision then (a, Err(RevisionConflict))
    else if next.Err? then (a, Err(next.error))
    else if !ListenersOk(e, a.active, next.value) then (a, Err(Validation))
    else if r.dryRun then (a, Ok(ApplyResult(PlanFrom(a.active, next.value, []), false, a.active.generation + 1)))
    else
      var (done, res) := CommitReset(a, key, ResetPrint(r), next.value);
      (done, Ok(res))
  }

  /** Reset under the lock. `next` is what loadBootstrap returns if it is reached; lookups do not affect it. */
  function ResetLocked(e: Env, a: AppState, key: Option<Key>, r: Reset, next: Result<Snapshot>): (AppState, Result<ApplyResult>) {
    if Blank(r.reason) then (a, Err(Validation))
    else
      var (seen, hit) := Replay(a, key, ResetPrint(r));
      if Fresh(hit) then ResetWith(e, seen, key, r, next) else (seen, Recorded(hit))
  }

  function KeyOf(call: Call): Option<Key> {
    match call
    case PlanCall(actor, c) => ScopedKey(actor, PlanChange, c.key)
    case ApplyCall(actor, c) => ScopedKey(actor, ApplyChange, c.key)
    case TypedCall(actor, t) => ScopedKey(actor, CapabilityOf(t.command), t.key)
    case ResetCall(actor, r) => ScopedKey(actor, ResetState, r.key)
  }

  function MarkOf(call: Call): Print {
    match call
    case PlanCall(_, c) => PrintOf(c)
    case ApplyCall(_, c) => PrintOf(c)
    case TypedCall(_, t) => TypedPrint(t)
    case ResetCall(_, r) => ResetPrint(r)
  }

  function Reported(r: (AppState, Result<ApplyResult>)): (AppState, Result<Reply>) {
    (r.0, if r.1.Err? then Err(r.1.error) else Ok(Done(r.1.value)))
  }

  function Perform(k: Codec, e: Env, a: AppState, call: Call): (AppState, Result<Reply>) {
    var key := KeyOf(call);
    match call
    case PlanCall(_, c) =>
      var (next, plan) := PlanLocked(k, e, a, key, c);
      (next, if plan.Err? then Err(plan.error) else Ok(Planned(plan.value)))
    case ApplyCall(_, c) => Reported(ApplyLocked(k, e, a, key, c, PrintOf(c)))
    case TypedCall(_, t) => Reported(ApplyTyped(k, e, a, key, t))
    case ResetCall(_, r) => Reported(ResetLocked(e, a, key, r, LoadBootstrap(e, a, a.active.generation + 1)))
  }

  /** InstallBootstrapFile at start-up. */
  function Boot(w: World, doc: Document): Result<AppState> {
    var snap := Compiled(w, doc, Options(1, NoRevision));
    if snap.Err? then Err(snap.error)
    else Ok(AppState(snap.value, None, snap.value, NewCache(CACHE_CAPACITY), RS.EMPTY))
  }
}
