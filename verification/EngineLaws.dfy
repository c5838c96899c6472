/** When a call of the engine swaps, what it answers, and what the live document is afterwards, said from the inputs. */
module EngineLaws {
  import opened Basics
  import opened Documents
  import opened Snapshots
  import opened Operations
  import opened Idempotency
  import opened Engine
  import opened DesiredState
  import opened Retries
  import RS = RuntimeState
  import System

  // ------------------------------------------------------------ conditions

  /** No result is recorded under the call's key, and no other request is. */
  predicate Unanswered(a: AppState, key: Option<Key>, mark: Print) {
    key.None? || key.value !in a.cache.m || (a.cache.m[key.value].mark == mark && a.cache.m[key.value].value.res.None?)
  }

  /** The key was used for another request. */
  predicate Misused(a: AppState, key: Option<Key>, mark: Print) {
    key.Some? && key.value in a.cache.m && a.cache.m[key.value].mark != mark
  }

  /** What a running listener cannot change. */
  predicate SameBindings(b: Listeners, n: Listeners) {
    && b.https.address == n.https.address && b.management.address == n.management.address
    && b.management.restPath == n.management.restPath && b.management.mcpPath == n.management.mcpPath
    && b.management.allowLegacy == n.management.allowLegacy
  }

  /** The document compiles with these files and does not move a bound listener. */
  predicate Installable(e: Env, prev: Snapshot, doc: Document, boot: Revision) {
    && Compiled(e.world, doc, Options(prev.generation + 1, boot)).Ok?
    && (e.bound ==> SameBindings(prev.canonical.spec.listeners, Normalize(doc).spec.listeners))
  }

  /** Why a change is refused once it is neither blank nor recorded; None if it goes through. */
  function Refusal(k: Codec, e: Env, prev: Snapshot, expected: Revision, ops: seq<Operation>): Option<Error> {
    var doc := ApplyOps(k, prev.canonical, ops);
    if expected == NoRevision then Some(Validation)
    else if expected != prev.revision then Some(RevisionConflict)
    else if doc.Err? then Some(doc.error)
    else if !Installable(e, prev, doc.value, prev.bootstrapRevision) then Some(Validation)
    else None
  }

  lemma InstallableIff(e: Env, prev: Snapshot, doc: Document, boot: Revision)
    ensures
      var next := Compiled(e.world, doc, Options(prev.generation + 1, boot));
      (Installable(e, prev, doc, boot) <==> next.Ok? && ListenersOk(e, prev, next.value)) && (next.Err? ==> next.error == Validation)
  {
    if Compiled(e.world, doc, Options(prev.generation + 1, boot)).Ok? {
      CompiledFacts(e.world, doc, Options(prev.generation + 1, boot));
    }
  }

  lemma BuiltIff(k: Codec, e: Env, prev: Snapshot, c: Change)
    ensures
      var r, no := BuildCandidate(k, e, prev, c), Refusal(k, e, prev, c.expected, c.ops);
      (r.Err? <==> no.Some?) && (r.Err? ==> r.error == no.value)
  {
    var doc := ApplyOps(k, prev.canonical, c.ops);
    if doc.Ok? {
      InstallableIff(e, prev, doc.value, prev.bootstrapRevision);
    }
  }

  lemma BuiltSnapshot(k: Codec, e: Env, prev: Snapshot, c: Change)
    requires BuildCandidate(k, e, prev, c).Ok? && prev.generation >= 0 && prev.bootstrapRevision.RevisionOf?
    ensures
      var n := BuildCandidate(k, e, prev, c).value;
      && ApplyOps(k, prev.canonical, c.ops).Ok? && n.canonical == Normalize(ApplyOps(k, prev.canonical, c.ops).value)
      && n.revision == RevisionOf(n.canonical) && n.generation == prev.generation + 1 && n.bootstrapRevision == prev.bootstrapRevision
  {
    CompiledFacts(e.world, ApplyOps(k, prev.canonical, c.ops).value, Options(prev.generation + 1, prev.bootstrapRevision));
  }

  // ----------------------------------------------------------------- apply

  lemma ReplayIff(a: AppState, key: Option<Key>, mark: Print)
    ensures
      var hit := Replay(a, key, mark).1;
      && (Fresh(hit) <==> Unanswered(a, key, mark))
      && (hit.Err? <==> Misused(a, key, mark)) && (hit.Err? ==> hit.error == Conflict)
  {
  }

  /** What an apply that installs a candidate answers and leaves. */
  ghost predicate Installed(a: AppState, b: AppState, r: Result<ApplyResult>, next: Snapshot) {
    && b.active == next && b.previous == Some(a.active) && b.bootstrap == a.bootstrap
    && r.Ok? && r.value.applied && r.value.generation == next.generation
    && r.value.plan.previous == a.active.revision && r.value.plan.candidate == next.revision
  }

  /** The whole decision of an apply: the order of its refusals, and when it goes through. */
  lemma ApplyDecides(k: Codec, e: Env, a: AppState, key: Option<Key>, c: Change, mark: Print)
    ensures
      var (b, r) := ApplyLocked(k, e, a, key, c, mark);
      var no := Refusal(k, e, a.active, c.expected, c.ops);
      && (Blank(c.reason) ==> r == Err(Validation) && b == a)
      && (!Blank(c.reason) && Misused(a, key, mark) ==> r == Err(Conflict) && b == a)
      && (!Blank(c.reason) && Unanswered(a, key, mark) && no.Some? ==> r == Err(no.value) && Quiet(a, b))
      && (!Blank(c.reason) && Unanswered(a, key, mark) && no.None? ==> Installed(a, b, r, BuildCandidate(k, e, a.active, c).value))
      && (!Blank(c.reason) && !Misused(a, key, mark) && !Unanswered(a, key, mark) ==> Quiet(a, b) && r.Ok?)
  {
    ReplayIff(a, key, mark);
    ReplayEffect(a, key, mark);
    BuiltIff(k, e, a.active, c);
  }

  /** The call's swap shows in the generation. */
  predicate Swaps(k: Codec, e: Env, a: AppState, call: Call) {
    Perform(k, e, a, call).0.active.generation != a.active.generation
  }

  ghost predicate SaneHere(a: AppState) {
    a.active.generation >= 1 && a.active.bootstrapRevision.RevisionOf? && a.active.revision == RevisionOf(a.active.canonical)
    && a.bootstrap.revision.RevisionOf?
  }

  lemma SaneIsSaneHere(k: Codec, a: AppState)
    requires Sane(k, a)
    ensures SaneHere(a)
  {
  }

  /** An apply swaps if and only if it gives a reason, is not recorded, names the live revision, and its result can be installed. */
  lemma ApplySwapsIff(k: Codec, e: Env, a: AppState, call: Call)
    requires SaneHere(a) && call.ApplyCall?
    ensures
      var c := call.change;
      var doc := ApplyOps(k, a.active.canonical, c.ops);
      Swaps(k, e, a, call) <==>
        && !Blank(c.reason) && Unanswered(a, KeyOf(call), MarkOf(call)) && c.expected == a.active.revision
        && doc.Ok? && Installable(e, a.active, doc.value, a.active.bootstrapRevision)
  {
    var c := call.change;
    ApplyDecides(k, e, a, KeyOf(call), c, PrintOf(c));
    if Refusal(k, e, a.active, c.expected, c.ops).None? {
      BuiltIff(k, e, a.active, c);
      BuiltSnapshot(k, e, a.active, c);
    }
  }

  // ----------------------------------------------------------------- reset

  /** What a reset goes back to: the boot file if there is a path, the bootstrap snapshot otherwise. */
  predicate Reloadable(e: Env, a: AppState) { e.boot.NoPath? || e.boot.Loaded? }

  function ReloadedDocument(e: Env, a: AppState): Document
    requires Reloadable(e, a)
  {
    if e.boot.Loaded? then e.boot.doc else a.bootstrap.canonical
  }

  predicate ResetInstallable(e: Env, a: AppState) {
    Reloadable(e, a) && Installable(e, a.active, ReloadedDocument(e, a), if e.boot.Loaded? then NoRevision else a.bootstrap.revision)
  }

  lemma LoadedFacts(e: Env, a: AppState)
    requires SaneHere(a)
    ensures
      var next := LoadBootstrap(e, a, a.active.generation + 1);
      && (next.Ok? && ListenersOk(e, a.active, next.value) <==> ResetInstallable(e, a))
      && (next.Err? ==> next.error == Validation)
      && (next.Ok? ==>
            && Reloadable(e, a) && next.value.canonical == Normalize(ReloadedDocument(e, a))
            && next.value.revision == RevisionOf(next.value.canonical) && next.value.generation == a.active.generation + 1)
  {
    if Reloadable(e, a) {
      var opt := Options(a.active.generation + 1, if e.boot.Loaded? then NoRevision else a.bootstrap.revision);
      if Compiled(e.world, ReloadedDocument(e, a), opt).Ok? {
        CompiledFacts(e.world, ReloadedDocument(e, a), opt);
      }
    }
  }

  /** The decision of a reset, given what loading produced. */
  lemma ResetDecides(e: Env, a: AppState, key: Option<Key>, r: Reset, next: Result<Snapshot>)
    ensures
      var (b, out) := ResetLocked(e, a, key, r, next);
      var mark := ResetPrint(r);
      var fresh_ := !Blank(r.reason) && Unanswered(a, key, mark);
      var good := next.Ok? && ListenersOk(e, a.active, next.value);
      && (Blank(r.reason) ==> out == Err(Validation) && b == a)
      && (!Blank(r.reason) && Misused(a, key, mark) ==> out == Err(Conflict) && b == a)
      && (fresh_ && r.expected == NoRevision ==> out == Err(Validation) && Quiet(a, b))
      && (fresh_ && r.expected != NoRevision && r.expected != a.active.revision ==> out == Err(RevisionConflict) && Quiet(a, b))
      && (fresh_ && r.expected.RevisionOf? && r.expected == a.active.revision && !good ==> out.Err? && Quiet(a, b))
      && (fresh_ && r.expected.RevisionOf? && r.expected == a.active.revision && good && r.dryRun ==>
            && Quiet(a, b) && b.cache.m == a.cache.m
            && out.Ok? && !out.value.applied && out.value.generation == a.active.generation + 1
            && out.value.plan.previous == a.active.revision && out.value.plan.candidate == next.value.revision)
      && (fresh_ && r.expected.RevisionOf? && r.expected == a.active.revision && good && !r.dryRun ==>
            && b.active == next.value && b.previous == Some(a.active) && b.bootstrap == next.value
            && out.Ok? && out.value.applied && out.value.generation == next.value.generation
            && out.value.plan.previous == a.active.revision && out.value.plan.candidate == next.value.revision)
      && (!Blank(r.reason) && !Misused(a, key, mark) && !Unanswered(a, key, mark) ==> Quiet(a, b) && out.Ok?)
  {
    ReplayIff(a, key, ResetPrint(r));
    ReplayEffect(a, key, ResetPrint(r));
  }

  /** What is known of the candidate of a reset. */
  ghost predicate LoadedAs(e: Env, a: AppState, next: Result<Snapshot>) {
    && (next.Ok? && ListenersOk(e, a.active, next.value) <==> ResetInstallable(e, a))
    && (next.Ok? ==>
          && Reloadable(e, a) && next.value.revision == RevisionOf(Normalize(ReloadedDocument(e, a)))
          && next.value.generation == a.active.generation + 1)
  }

  lemma LoadedFactsHold(e: Env, a: AppState)
    requires SaneHere(a)
    ensures LoadedAs(e, a, LoadBootstrap(e, a, a.active.generation + 1))
  {
    LoadedFacts(e, a);
  }

  ghost predicate ResetGoes(e: Env, a: AppState, key: Option<Key>, r: Reset) {
    && !Blank(r.reason) && Unanswered(a, key, ResetPrint(r)) && r.expected == a.active.revision && ResetInstallable(e, a)
  }

  lemma ResetLockedSwapsIff(e: Env, a: AppState, key: Option<Key>, r: Reset, next: Result<Snapshot>)
    requires SaneHere(a) && LoadedAs(e, a, next)
    ensures ResetLocked(e, a, key, r, next).0.active.generation != a.active.generation <==> ResetGoes(e, a, key, r) && !r.dryRun
  {
    ResetDecides(e, a, key, r, next);
  }

  lemma ResetAlwaysSwapsIff(e: Env, a: AppState, key: Option<Key>, r: Reset)
    requires SaneHere(a)
    ensures forall next :: LoadedAs(e, a, next) ==>
              (Reported(ResetLocked(e, a, key, r, next)).0.active.generation != a.active.generation <==> ResetGoes(e, a, key, r) && !r.dryRun)
  {
    forall next | LoadedAs(e, a, next)
      ensures Reported(ResetLocked(e, a, key, r, next)).0.active.generation != a.active.generation <==> ResetGoes(e, a, key, r) && !r.dryRun
    {
      ResetLockedSwapsIff(e, a, key, r, next);
    }
  }

  /** A reset swaps if and only if it gives a reason, is not recorded, names the live revision, can be installed and is no dry run. */
  lemma ResetSwapsIff(k: Codec, e: Env, a: AppState, call: Call)
    requires SaneHere(a) && call.ResetCall?
    ensures Swaps(k, e, a, call) <==> ResetGoes(e, a, KeyOf(call), call.reset) && !call.reset.dryRun
  {
    LoadedFactsHold(e, a);
    ResetAlwaysSwapsIff(e, a, KeyOf(call), call.reset);
  }

  /** What a dry run that finds everything in order reports. */
  ghost predicate Reports(e: Env, a: AppState, out: Result<ApplyResult>) {
    && Reloadable(e, a) && out.Ok? && !out.value.applied && out.value.generation == a.active.generation + 1
    && out.value.plan.previous == a.active.revision
    && out.value.plan.candidate == RevisionOf(Normalize(ReloadedDocument(e, a)))
  }

  lemma DryRunLocked(e: Env, a: AppState, key: Option<Key>, r: Reset, next: Result<Snapshot>)
    requires SaneHere(a) && LoadedAs(e, a, next) && r.dryRun
    ensures
      var (b, out) := ResetLocked(e, a, key, r, next);
      Quiet(a, b) && b.cache.m == a.cache.m && (ResetGoes(e, a, key, r) ==> Reports(e, a, out))
  {
    ResetDecides(e, a, key, r, next);
    DryRunKeepsCache(e, a, key, r, next);
  }

  lemma DryRunKeepsCache(e: Env, a: AppState, key: Option<Key>, r: Reset, next: Result<Snapshot>)
    requires r.dryRun
    ensures ResetLocked(e, a, key, r, next).0.cache.m == a.cache.m && Quiet(a, ResetLocked(e, a, key, r, next).0)
  {
    ReplayEffect(a, key, ResetPrint(r));
  }

  /**
   A dry run changes neither store nor runtime nor any entry of the cache. Not
   recorded, with the live revision and an installable document, it reports what a
   reset would do: not applied, the next generation, and the two revisions.
   */
  lemma DryRunOnlyReports(k: Codec, e: Env, a: AppState, call: Call)
    requires SaneHere(a) && call.ResetCall? && call.reset.dryRun
    ensures
      var (b, reply) := Perform(k, e, a, call);
      DryRunSound(e, a, b, ResultOf(reply), ResetGoes(e, a, KeyOf(call), call.reset))
  {
    LoadedFactsHold(e, a);
    DryRunAlways(e, a, KeyOf(call), call.reset);
  }

  ghost predicate DryRunSound(e: Env, a: AppState, b: AppState, r: Result<ApplyResult>, goes: bool) {
    Quiet(a, b) && b.cache.m == a.cache.m && (goes ==> Reports(e, a, r))
  }

  lemma DryRunAlways(e: Env, a: AppState, key: Option<Key>, r: Reset)
    requires SaneHere(a) && r.dryRun
    ensures forall next :: LoadedAs(e, a, next) ==>
              DryRunSound(e, a, Reported(ResetLocked(e, a, key, r, next)).0, ResultOf(Reported(ResetLocked(e, a, key, r, next)).1), ResetGoes(e, a, key, r))
  {
    forall next | LoadedAs(e, a, next)
      ensures DryRunSound(e, a, Reported(ResetLocked(e, a, key, r, next)).0, ResultOf(Reported(ResetLocked(e, a, key, r, next)).1), ResetGoes(e, a, key, r))
    {
      DryRunLocked(e, a, key, r, next);
      ReportedResult(ResetLocked(e, a, key, r, next));
    }
  }

  // ------------------------------------------------------- typed mutations

  /** The inputs a typed mutation refuses before it takes the lock. */
  lemma AdmissibleIff(c: Command)
    ensures Admissible(c) <==>
              && (c.SetMfa? ==> c.mode == Never || c.mode == Always || c.mode == ForceFail)
              && (c.SwapVendor? ==> c.vendor in {"generic", "entra", "okta", "ping", "adfs", "google", "keycloak",
                                                 "iam-identity-center", "duo", "siteminder", "shibboleth"})
              && (c.RewriteRedirect? ==> c.clientId != "")
  {
  }

  lemma TypedDecides(k: Codec, e: Env, a: AppState, key: Option<Key>, t: Typed)
    ensures
      var (b, r) := ApplyTyped(k, e, a, key, t);
      var op, mark := Derive(k, a.active, t.command), TypedPrint(t);
      && (!Admissible(t.command) ==> r == Err(Validation) && b == a)
      && (Admissible(t.command) && Misused(a, key, mark) ==> r == Err(Conflict) && b == a)
      && (Admissible(t.command) && Unanswered(a, key, mark) && op.Err? ==> r == Err(op.error) && Quiet(a, b))
      && (Admissible(t.command) && Unanswered(a, key, mark) && op.Ok? ==>
            && (Blank(t.reason) ==> r == Err(Validation) && Quiet(a, b))
            && (!Blank(t.reason) ==>
                  var no := Refusal(k, e, a.active, t.expected, [op.value]);
                  && (no.Some? ==> r == Err(no.value) && Quiet(a, b))
                  && (no.None? ==> Installed(a, b, r, BuildCandidate(k, e, a.active, Change(t.expected, t.key, t.reason, [op.value])).value))))
      && (Admissible(t.command) && !Misused(a, key, mark) && !Unanswered(a, key, mark) ==> Quiet(a, b) && r.Ok?)
  {
    var op, mark := Derive(k, a.active, t.command), TypedPrint(t);
    ReplayIff(a, key, mark);
    ReplayEffect(a, key, mark);
    if op.Ok? {
      var seen := Replay(a, key, mark).0;
      ApplyDecides(k, e, seen, key, Change(t.expected, t.key, t.reason, [op.value]), mark);
    }
  }

  lemma TypedSwapsIff(k: Codec, e: Env, a: AppState, call: Call)
    requires SaneHere(a) && call.TypedCall?
    ensures
      var t := call.typed;
      var op := Derive(k, a.active, t.command);
      Swaps(k, e, a, call) <==>
        && Admissible(t.command) && !Blank(t.reason) && Unanswered(a, KeyOf(call), MarkOf(call)) && op.Ok?
        && Refusal(k, e, a.active, t.expected, [op.value]).None?
  {
    var t := call.typed;
    var op := Derive(k, a.active, t.command);
    TypedDecides(k, e, a, KeyOf(call), t);
    if op.Ok? && Refusal(k, e, a.active, t.expected, [op.value]).None? {
      var c := Change(t.expected, t.key, t.reason, [op.value]);
      BuiltIff(k, e, a.active, c);
      BuiltSnapshot(k, e, a.active, c);
    }
  }

  lemma PlansNeverSwap(k: Codec, e: Env, a: AppState, call: Call)
    requires call.PlanCall?
    ensures !Swaps(k, e, a, call)
  {
    PlanEffect(k, e, a, KeyOf(call), call.change);
  }

  // ------------------------------------------------------------------ keys

  /** Calls share a cache key only if actor, kind of call and key text agree; and a mark only if they are the same request. */
  lemma KeysAndMarks(x: Call, y: Call)
    ensures KeyOf(x).Some? && KeyOf(x) == KeyOf(y) ==>
              && x.actor == y.actor && KeyText(x) == KeyText(y) && KeyText(x) != ""
              && (x.PlanCall? <==> y.PlanCall?) && (x.ApplyCall? <==> y.ApplyCall?) && (x.ResetCall? <==> y.ResetCall?)
              && (x.TypedCall? && y.TypedCall? ==> SameCommand(x.typed.command, y.typed.command))
    ensures KeyOf(x).None? <==> KeyText(x) == ""
    ensures MarkOf(x) == MarkOf(y) ==>
              && (x.TypedCall? ==> y.TypedCall? && x.typed == y.typed) && (x.ResetCall? ==> y.ResetCall? && x.reset == y.reset)
              && (x.PlanCall? || x.ApplyCall? ==>
                    (y.PlanCall? || y.ApplyCall?) && x.change.expected == y.change.expected && x.change.reason == y.change.reason && x.change.ops == y.change.ops)
  {
  }

  function KeyText(call: Call): string {
    match call
    case PlanCall(_, c) => c.key
    case ApplyCall(_, c) => c.key
    case TypedCall(_, t) => t.key
    case ResetCall(_, r) => r.key
  }

  predicate SameCommand(x: Command, y: Command) {
    (x.SetMfa? && y.SetMfa?) || (x.SwapVendor? && y.SwapVendor?) || (x.SetOverageLimits? && y.SetOverageLimits?)
    || (x.RewriteRedirect? && y.RewriteRedirect?) || (x.ImportApp? && y.ImportApp?)
  }

  // ------------------------------------------------------ the live document

  /** The live document after a swap by a batch of one. */
  lemma OneOperationLive(k: Codec, e: Env, a: AppState, call: Call, o: Operation)
    requires SaneHere(a) && Swaps(k, e, a, call) && !call.ResetCall? && BatchOf(k, a, call) == [o]
    ensures ApplyOp(k, a.active.canonical, o).Ok?
    ensures Perform(k, e, a, call).0.active.canonical == Normalize(ApplyOp(k, a.active.canonical, o).value)
  {
    CallEffect(k, e, a, call);
    CandidateDocument(k, e, a.active, Essence(k, a, call), Perform(k, e, a, call).0.active);
    BatchInOrder(k, a.active.canonical, [], o);
    assert [] + [o] == [o];
  }

  /** A client operation that swaps: the live clients are the old ones with that one change, and nothing else moved. */
  lemma ClientOperationLive(k: Codec, e: Env, a: AppState, call: Call, o: Operation, id: string)
    requires SaneHere(a) && Swaps(k, e, a, call) && !call.ResetCall? && BatchOf(k, a, call) == [o] && o.target.ClientTarget?
    requires DistinctBy(a.active.canonical.spec.clients, BY_ID) && Normalize(a.active.canonical) == a.active.canonical
    ensures
      var d, n, v := a.active.canonical, Perform(k, e, a, call).0.active.canonical, AsClient(k, o.value);
      && n == d.(spec := d.spec.(clients := n.spec.clients)) && ListEdited(d.spec.clients, n.spec.clients, o.op, o.id, v, BY_ID)
      && FindBy(n.spec.clients, BY_ID, id) == Expected(d.spec.clients, o.op, o.id, v, BY_ID, id)
  {
    var d := a.active.canonical;
    OneOperationLive(k, e, a, call, o);
    ClientOperation(k, d, o, id);
    ListsAreNormal(d, ApplyOp(k, d, o).value);
  }

  lemma UserOperationLive(k: Codec, e: Env, a: AppState, call: Call, o: Operation, id: string)
    requires SaneHere(a) && Swaps(k, e, a, call) && !call.ResetCall? && BatchOf(k, a, call) == [o] && o.target.UserTarget?
    requires DistinctBy(a.active.canonical.spec.users, BY_USER_ID) && Normalize(a.active.canonical) == a.active.canonical
    ensures
      var d, n, v := a.active.canonical, Perform(k, e, a, call).0.active.canonical, AsText(k.user, o.value);
      && n == d.(spec := d.spec.(users := n.spec.users)) && ListEdited(d.spec.users, n.spec.users, o.op, o.id, v, BY_USER_ID)
      && FindBy(n.spec.users, BY_USER_ID, id) == Expected(d.spec.users, o.op, o.id, v, BY_USER_ID, id)
  {
    var d := a.active.canonical;
    OneOperationLive(k, e, a, call, o);
    UserOperation(k, d, o, id);
    ListsAreNormal(d, ApplyOp(k, d, o).value);
  }

  /** Changing a list leaves a normal document normal. */
  lemma ListsAreNormal(d: Document, n: Document)
    requires Normalize(d) == d
    requires n == d.(spec := d.spec.(clients := n.spec.clients)) || n == d.(spec := d.spec.(users := n.spec.users))
    ensures Normalize(n) == n
  {
    assert NormalizeSpec(d.spec) == d.spec;
  }

  // --------------------------------------------- the commands, one by one

  /** The document with one field of its spec replaced. */
  lemma VendorSwapLive(k: Codec, e: Env, a: AppState, call: Call)
    requires SaneHere(a) && Swaps(k, e, a, call) && call.TypedCall? && call.typed.command.SwapVendor?
    requires Normalize(a.active.canonical) == a.active.canonical
    ensures
      var d, c := a.active.canonical, call.typed.command;
      Perform(k, e, a, call).0.active.canonical ==
        d.(spec := d.spec.(profile := Profile(c.vendor, if c.tenantId.Some? then c.tenantId.value else d.spec.profile.tenantId)))
  {
    TypedSwapsIff(k, e, a, call);
    AdmissibleIff(call.typed.command);
    var d, o := a.active.canonical, Derive(k, a.active, call.typed.command).value;
    OneOperationLive(k, e, a, call, o);
    SingletonOperation(k, d, o);
    ProfileIsNormal(d, o.value.profile);
  }

  lemma ProfileIsNormal(d: Document, p: Profile)
    requires Normalize(d) == d && p.vendor != ""
    ensures Normalize(d.(spec := d.spec.(profile := p))) == d.(spec := d.spec.(profile := p))
  {
    assert NormalizeSpec(d.spec) == d.spec;
  }

  /** Unset limits keep their value; a limit of zero means the default. */
  lemma OverageLive(k: Codec, e: Env, a: AppState, call: Call)
    requires SaneHere(a) && Swaps(k, e, a, call) && call.TypedCall? && call.typed.command.SetOverageLimits?
    requires Normalize(a.active.canonical) == a.active.canonical
    ensures
      var d, c := a.active.canonical, call.typed.command;
      var g := d.spec.groupOverage;
      var okta, cap := if c.oktaFailAt.Some? then c.oktaFailAt.value else g.oktaFailAt, if c.genericCap.Some? then c.genericCap.value else g.genericCap;
      Perform(k, e, a, call).0.active.canonical ==
        d.(spec := d.spec.(groupOverage := GroupOverage(if c.graphStub.Some? then c.graphStub.value else g.entraGraphStub,
                                                        if okta == 0 then 100 else okta, if cap == 0 then 200 else cap)))
  {
    TypedSwapsIff(k, e, a, call);
    var d, o := a.active.canonical, Derive(k, a.active, call.typed.command).value;
    OneOperationLive(k, e, a, call, o);
    SingletonOperation(k, d, o);
    OverageIsNormal(d, o.value.overage);
  }

  lemma OverageIsNormal(d: Document, g: GroupOverage)
    requires Normalize(d) == d
    ensures Normalize(d.(spec := d.spec.(groupOverage := g))) ==
              d.(spec := d.spec.(groupOverage := GroupOverage(g.entraGraphStub, if g.oktaFailAt == 0 then 100 else g.oktaFailAt,
                                                              if g.genericCap == 0 then 200 else g.genericCap)))
  {
    assert NormalizeSpec(d.spec) == d.spec;
  }

  /** The client a redirect rewrite names: by effective id first, then by id. */
  function NamedClient(s: Snapshot, id: string): Option<Client> {
    if id in s.clients.byClientId then Some(s.clients.byClientId[id])
    else if id in s.clients.byId then Some(s.clients.byId[id])
    else None
  }

  /** A redirect rewrite replaces the URIs of the client it names, and changes nothing else. */
  lemma RewriteLive(k: Codec, e: Env, a: AppState, call: Call, id: string)
    requires SaneHere(a) && Swaps(k, e, a, call) && call.TypedCall? && call.typed.command.RewriteRedirect?
    requires DistinctBy(a.active.canonical.spec.clients, BY_ID) && Normalize(a.active.canonical) == a.active.canonical
    ensures
      var d, n, c := a.active.canonical, Perform(k, e, a, call).0.active.canonical, call.typed.command;
      var cl := NamedClient(a.active, c.clientId);
      && cl.Some? && n == d.(spec := d.spec.(clients := n.spec.clients))
      && FindBy(n.spec.clients, BY_ID, id) ==
           if id == cl.value.id then Some(cl.value.(redirectUris := c.uris)) else FindBy(d.spec.clients, BY_ID, id)
  {
    TypedSwapsIff(k, e, a, call);
    RewriteDerived(k, a.active, call.typed.command);
    SwappedClientLive(k, e, a, call, Derive(k, a.active, call.typed.command).value, id);
  }

  lemma RewriteDerived(k: Codec, s: Snapshot, c: Command)
    requires c.RewriteRedirect? && Derive(k, s, c).Ok?
    ensures
      var cl, o := NamedClient(s, c.clientId), Derive(k, s, c).value;
      cl.Some? && o == Operation(Update, ClientTarget, cl.value.id, OfClient(cl.value.(redirectUris := c.uris)))
  {
  }

  /** An operation that replaces a client by one of the same id. */
  lemma SwappedClientLive(k: Codec, e: Env, a: AppState, call: Call, o: Operation, id: string)
    requires SaneHere(a) && Swaps(k, e, a, call) && !call.ResetCall? && BatchOf(k, a, call) == [o]
    requires o.op.Update? && o.target.ClientTarget? && o.value.OfClient?
    requires DistinctBy(a.active.canonical.spec.clients, BY_ID) && Normalize(a.active.canonical) == a.active.canonical
    ensures
      var d, n := a.active.canonical, Perform(k, e, a, call).0.active.canonical;
      && n == d.(spec := d.spec.(clients := n.spec.clients))
      && FindBy(n.spec.clients, BY_ID, id) == if id == o.id then Some(o.value.client) else FindBy(d.spec.clients, BY_ID, id)
  {
    ClientOperationLive(k, e, a, call, o, id);
  }

  /** A rewrite that names no client is refused; so is an import that yields none. */
  lemma DeriveFailsIff(k: Codec, s: Snapshot, c: Command)
    ensures Derive(k, s, c).Err? <==>
              (c.RewriteRedirect? && NamedClient(s, c.clientId).None?) || (c.ImportApp? && k.importClient(c.kind, c.document).None?)
    ensures Derive(k, s, c).Err? ==> Derive(k, s, c).error == if c.RewriteRedirect? then NotFound else Validation
  {
  }

  /** An import appends the client it was given. */
  lemma ImportLive(k: Codec, e: Env, a: AppState, call: Call)
    requires SaneHere(a) && Swaps(k, e, a, call) && call.TypedCall? && call.typed.command.ImportApp?
    requires DistinctBy(a.active.canonical.spec.clients, BY_ID) && Normalize(a.active.canonical) == a.active.canonical
    ensures
      var d, c := a.active.canonical, call.typed.command;
      var cl := k.importClient(c.kind, c.document);
      cl.Some? && Perform(k, e, a, call).0.active.canonical == d.(spec := d.spec.(clients := d.spec.clients + [cl.value]))
  {
    TypedSwapsIff(k, e, a, call);
    DeriveFailsIff(k, a.active, call.typed.command);
    var o := Derive(k, a.active, call.typed.command).value;
    ClientOperationLive(k, e, a, call, o, "");
  }

  // ------------------------------------------------------------- from boot

  /** Whatever calls were made since boot, the live snapshot came out of the compiler and its document is normal. */
  lemma RunningIsCompiled(k: Codec, a: AppState)
    requires Running(k, a)
    ensures WellCompiled(a.active) && SaneHere(a) && Normalize(a.active.canonical) == a.active.canonical
  {
    RunningFacts(k, a);
    SaneIsNormal(k, a);
    var w, doc, calls :| Started(k, w, doc, calls, a);
    CompiledIsWellCompiled(w, doc, Options(1, NoRevision));
    CallsKeepCompiled(k, Boot(w, doc).value, calls);
  }

  lemma SaneIsNormal(k: Codec, a: AppState)
    requires Sane(k, a)
    ensures SaneHere(a) && Normalize(a.active.canonical) == a.active.canonical
  {
    SaneIsSaneHere(k, a);
    var h :| Faithful(k, h, a.active, a.bootstrap);
    NormalizeIdempotent(ApplyOps(k, h.base, h.ops).value);
  }

  lemma {:induction false} CallsKeepCompiled(k: Codec, a: AppState, calls: seq<Made>)
    requires WellCompiled(a.active)
    ensures WellCompiled(RunCalls(k, a, calls).active)
    decreases |calls|
  {
    if calls != [] {
      CallKeepsCompiled(k, calls[0].env, a, calls[0].call);
      CallsKeepCompiled(k, Perform(k, calls[0].env, a, calls[0].call).0, calls[1..]);
    }
  }

  lemma CallKeepsCompiled(k: Codec, e: Env, a: AppState, call: Call)
    requires WellCompiled(a.active)
    ensures WellCompiled(Perform(k, e, a, call).0.active)
  {
    CallEffect(k, e, a, call);
    ReplacedIsCompiled(k, e, a, Perform(k, e, a, call).0, call);
  }

  lemma ResetIsCompiled(k: Codec, e: Env, a: AppState, b: AppState, call: Call)
    requires call.ResetCall? && Replaced(k, e, a, b, call)
    ensures WellCompiled(b.active)
  {
    var source := BootDocument(e, a).value;
    CompiledIsWellCompiled(e.world, source.0, Options(a.active.generation + 1, source.1));
  }

  lemma ChangeIsCompiled(k: Codec, e: Env, a: AppState, b: AppState, call: Call)
    requires !call.ResetCall? && Replaced(k, e, a, b, call)
    ensures WellCompiled(b.active)
  {
    BuiltIsCompiled(k, e, a.active, Essence(k, a, call), b.active);
  }

  lemma BuiltIsCompiled(k: Codec, e: Env, prev: Snapshot, c: Change, next: Snapshot)
    requires BuildCandidate(k, e, prev, c) == Ok(next)
    ensures WellCompiled(next)
  {
    CompiledIsWellCompiled(e.world, ApplyOps(k, prev.canonical, c.ops).value, Options(prev.generation + 1, prev.bootstrapRevision));
  }

  lemma ReplacedIsCompiled(k: Codec, e: Env, a: AppState, b: AppState, call: Call)
    ensures Replaced(k, e, a, b, call) ==> WellCompiled(b.active)
  {
    if Replaced(k, e, a, b, call) {
      if call.ResetCall? {
        ResetIsCompiled(k, e, a, b, call);
      } else {
        ChangeIsCompiled(k, e, a, b, call);
      }
    }
  }

  lemma LiveIdsDistinct(s: Snapshot)
    requires WellCompiled(s)
    ensures DistinctBy(s.canonical.spec.clients, BY_ID) && DistinctBy(s.canonical.spec.users, BY_USER_ID)
  {
    var cs := s.canonical.spec.clients;
    assert forall i :: 0 <= i < |cs| ==> cs[i].id == BY_ID(cs[i]);
    var us := s.canonical.spec.users;
    assert forall i :: 0 <= i < |us| ==> us[i].id == BY_USER_ID(us[i]);
  }

  lemma LiveLookup(s: Snapshot, id: string)
    requires WellCompiled(s) && id != ""
    ensures Lookup(s.users.byId, id) == FindBy(s.canonical.spec.users, BY_USER_ID, id)
    ensures Lookup(s.clients.byId, id) == FindBy(s.canonical.spec.clients, BY_ID, id)
  {
    LiveIdsDistinct(s);
    IndexedLookup(s.users.byId, s.canonical.spec.users, BY_USER_ID, id);
    IndexedLookup(s.clients.byId, s.canonical.spec.clients, BY_ID, id);
  }

  /** From boot: after a user operation swapped, the live lookup under every id is what the operation asked for. */
  lemma UserLookupAfterSwap(k: Codec, e: Env, a: AppState, call: Call, o: Operation, id: string)
    requires Running(k, a) && Swaps(k, e, a, call) && !call.ResetCall? && BatchOf(k, a, call) == [o] && o.target.UserTarget? && id != ""
    ensures Lookup(Perform(k, e, a, call).0.active.users.byId, id) ==
              if id != o.id then Lookup(a.active.users.byId, id) else if o.op.Remove? then None else AsText(k.user, o.value)
  {
    RunningIsCompiled(k, a);
    CallKeepsCompiled(k, e, a, call);
    LiveIdsDistinct(a.active);
    UserOperationLive(k, e, a, call, o, id);
    LiveLookup(a.active, id);
    LiveLookup(Perform(k, e, a, call).0.active, id);
  }

  lemma ClientLookupAfterSwap(k: Codec, e: Env, a: AppState, call: Call, o: Operation, id: string)
    requires Running(k, a) && Swaps(k, e, a, call) && !call.ResetCall? && BatchOf(k, a, call) == [o] && o.target.ClientTarget? && id != ""
    ensures Lookup(Perform(k, e, a, call).0.active.clients.byId, id) ==
              if id != o.id then Lookup(a.active.clients.byId, id) else if o.op.Remove? then None else AsClient(k, o.value)
  {
    RunningIsCompiled(k, a);
    CallKeepsCompiled(k, e, a, call);
    LiveIdsDistinct(a.active);
    ClientOperationLive(k, e, a, call, o, id);
    LiveLookup(a.active, id);
    LiveLookup(Perform(k, e, a, call).0.active, id);
  }

  // ------------------------------------------------------------ the runtime

  /** The user's TOTP source moved: gone, another reference, or another seed. */
  predicate SourceMoved(prev: Snapshot, next: Snapshot, u: string) {
    && u in prev.users.byId
    && (u !in next.users.byId || next.users.byId[u].totpSecretRef != prev.users.byId[u].totpSecretRef
        || SecretOr(next.users.seeds, u) != SecretOr(prev.users.seeds, u))
  }

  ghost predicate RuntimeTouched(rt: RS.Rt, r: RS.Rt, prev: Snapshot, next: Snapshot, revoked: bool, u: string) {
    var on := next.canonical.spec.auth.mfaMode == Always && prev.canonical.spec.auth.mfaMode != Always;
    && r.minGen == (if revoked then next.generation else rt.minGen)
    && (revoked ==> r.pending == map[] && r.codes == map[] && r.refresh == map[] && r.sessions == map[])
    && (!revoked && !on ==> r.pending == rt.pending && r.codes == rt.codes && r.refresh == rt.refresh && r.sessions == rt.sessions)
    && (u in r.overlay <==> u in rt.overlay && !SourceMoved(prev, next, u)) && (u in r.overlay ==> r.overlay[u] == rt.overlay[u])
    && (u in r.lastStep <==> u in rt.lastStep && !SourceMoved(prev, next, u)) && (u in r.lastStep ==> r.lastStep[u] == rt.lastStep[u])
  }

  lemma SyncTouchesRuntime(rt: RS.Rt, prev: Snapshot, next: Snapshot, revoked: bool, u: string)
    requires revoked <==> SecurityChanged(prev, next)
    ensures RuntimeTouched(rt, RuntimeAfterApply(rt, prev, next), prev, next, revoked, u)
  {
    assert u in System.StaleSeeds(prev, next) <==> SourceMoved(prev, next, u);
  }

  /**
   What an apply does to the runtime: it revokes exactly when the security view
   changed, drops what lacks MFA exactly when the mode turns to always, and forgets
   the TOTP state of exactly the users whose source moved.
   */
  lemma ApplyTouchesRuntime(rt: RS.Rt, prev: Snapshot, next: Snapshot, u: string)
    requires WellCompiled(prev)
    ensures RuntimeTouched(rt, RuntimeAfterApply(rt, prev, next), prev, next, ViewOf(prev) != ViewOf(next), u)
  {
    SecurityChangedIff(prev, next);
    SyncTouchesRuntime(rt, prev, next, ViewOf(prev) != ViewOf(next), u);
  }
}
