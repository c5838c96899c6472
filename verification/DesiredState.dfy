/** What the desired-state engine promises over every sequence of calls. */
module DesiredState {
  import opened Basics
  import opened Documents
  import opened Snapshots
  import opened Operations
  import opened Idempotency
  import opened Engine

  // ------------------------------------------------- what one call can do

  /** Only the cache may differ. */
  ghost predicate Quiet(a: AppState, b: AppState) {
    b.active == a.active && b.previous == a.previous && b.bootstrap == a.bootstrap && b.rt == a.rt
  }

  /** The batch was applied to exactly the snapshot it replaced. */
  ghost predicate AppliedTo(k: Codec, e: Env, a: AppState, b: AppState, c: Change) {
    && BuildCandidate(k, e, a.active, c) == Ok(b.active)
    && b.previous == Some(a.active) && b.bootstrap == a.bootstrap
    && b.rt == RuntimeAfterApply(a.rt, a.active, b.active)
  }

  ghost predicate ResetTo(e: Env, a: AppState, b: AppState) {
    && LoadBootstrap(e, a, a.active.generation + 1) == Ok(b.active)
    && b.previous == Some(a.active) && b.bootstrap == b.active
    && b.rt == RuntimeAfterReset(a.rt, b.active)
  }

  lemma ReplayEffect(a: AppState, key: Option<Key>, mark: Print)
    ensures Replay(a, key, mark).0 == a.(cache := Look(a.cache, key, mark).0)
    ensures Quiet(a, Replay(a, key, mark).0) && Replay(a, key, mark).0.cache.m == a.cache.m
  {
  }

  lemma ApplyEffect(k: Codec, e: Env, a: AppState, key: Option<Key>, c: Change, mark: Print)
    ensures
      var (b, r) := ApplyLocked(k, e, a, key, c, mark);
      Quiet(a, b) || (r.Ok? && AppliedTo(k, e, a, b, c))
  {
    ReplayEffect(a, key, mark);
  }

  lemma TypedEffect(k: Codec, e: Env, a: AppState, key: Option<Key>, t: Typed)
    ensures
      var (b, r) := ApplyTyped(k, e, a, key, t);
      var op := Derive(k, a.active, t.command);
      Quiet(a, b) || (r.Ok? && op.Ok? && AppliedTo(k, e, a, b, Change(t.expected, t.key, t.reason, [op.value])))
  {
    ReplayEffect(a, key, TypedPrint(t));
    var seen, op := Replay(a, key, TypedPrint(t)).0, Derive(k, a.active, t.command);
    if op.Ok? {
      ApplyEffect(k, e, seen, key, Change(t.expected, t.key, t.reason, [op.value]), TypedPrint(t));
    }
  }

  lemma ResetEffect(e: Env, a: AppState, key: Option<Key>, r: Reset, next: Result<Snapshot>)
    ensures
      var (b, res) := ResetLocked(e, a, key, r, next);
      || Quiet(a, b)
      || (&& res.Ok? && r.expected == a.active.revision && next == Ok(b.active)
          && b.previous == Some(a.active) && b.bootstrap == b.active && b.rt == RuntimeAfterReset(a.rt, b.active))
  {
    ReplayEffect(a, key, ResetPrint(r));
    ResetWithEffect(e, Replay(a, key, ResetPrint(r)).0, key, r, next);
  }

  /** Where a reset can end: where it started, after the lookup, or after its own work. */
  lemma ResetEnds(e: Env, a: AppState, key: Option<Key>, r: Reset, next: Result<Snapshot>)
    ensures
      var seen, b := a.(cache := Look(a.cache, key, ResetPrint(r)).0), ResetLocked(e, a, key, r, next).0;
      b == a || b == seen || b == ResetWith(e, seen, key, r, next).0
  {
    ReplayEffect(a, key, ResetPrint(r));
  }

  lemma ResetWithEffect(e: Env, a: AppState, key: Option<Key>, r: Reset, next: Result<Snapshot>)
    ensures
      var (b, res) := ResetWith(e, a, key, r, next);
      || Quiet(a, b)
      || (&& res.Ok? && r.expected == a.active.revision && next == Ok(b.active)
          && b.previous == Some(a.active) && b.bootstrap == b.active && b.rt == RuntimeAfterReset(a.rt, b.active))
  {
  }

  lemma PlanEffect(k: Codec, e: Env, a: AppState, key: Option<Key>, c: Change)
    ensures Quiet(a, PlanLocked(k, e, a, key, c).0)
  {
  }

  /** The batch a mutating call stands for. */
  function BatchOf(k: Codec, a: AppState, call: Call): seq<Operation> {
    match call
    case ApplyCall(_, c) => c.ops
    case TypedCall(_, t) => (var op := Derive(k, a.active, t.command); if op.Ok? then [op.value] else [])
    case _ => []
  }

  function ExpectedBy(call: Call): Revision {
    match call
    case PlanCall(_, c) => c.expected
    case ApplyCall(_, c) => c.expected
    case TypedCall(_, t) => t.expected
    case ResetCall(_, r) => r.expected
  }

  /** The change a call asks for, without key and reason. */
  function Essence(k: Codec, a: AppState, call: Call): Change { Change(ExpectedBy(call), "", "", BatchOf(k, a, call)) }

  /** Key and reason do not influence the candidate. */
  lemma EssenceApplied(k: Codec, e: Env, a: AppState, b: AppState, c: Change)
    requires AppliedTo(k, e, a, b, c)
    ensures c.expected == a.active.revision && AppliedTo(k, e, a, b, Change(c.expected, "", "", c.ops))
  {
  }

  /** The call replaced exactly the snapshot whose revision it named. */
  ghost predicate Replaced(k: Codec, e: Env, a: AppState, b: AppState, call: Call) {
    && ExpectedBy(call) == a.active.revision
    && if call.ResetCall? then ResetTo(e, a, b) else AppliedTo(k, e, a, b, Essence(k, a, call))
  }

  lemma ApplyCallEffect(k: Codec, e: Env, a: AppState, call: Call)
    requires call.ApplyCall?
    ensures
      var (b, r) := ApplyLocked(k, e, a, KeyOf(call), call.change, PrintOf(call.change));
      Quiet(a, b) || (r.Ok? && Replaced(k, e, a, b, call))
  {
    var c := call.change;
    ApplyEffect(k, e, a, KeyOf(call), c, PrintOf(c));
    var b := ApplyLocked(k, e, a, KeyOf(call), c, PrintOf(c)).0;
    if !Quiet(a, b) {
      EssenceApplied(k, e, a, b, c);
    }
  }

  lemma TypedCallEffect(k: Codec, e: Env, a: AppState, call: Call)
    requires call.TypedCall?
    ensures
      var (b, r) := ApplyTyped(k, e, a, KeyOf(call), call.typed);
      Quiet(a, b) || (r.Ok? && Replaced(k, e, a, b, call))
  {
    var t := call.typed;
    TypedEffect(k, e, a, KeyOf(call), t);
    var b := ApplyTyped(k, e, a, KeyOf(call), t).0;
    if !Quiet(a, b) {
      EssenceApplied(k, e, a, b, Change(t.expected, t.key, t.reason, [Derive(k, a.active, t.command).value]));
    }
  }

  lemma ResetCallEffect(k: Codec, e: Env, a: AppState, call: Call)
    requires call.ResetCall?
    ensures
      var (b, r) := ResetLocked(e, a, KeyOf(call), call.reset, LoadBootstrap(e, a, a.active.generation + 1));
      Quiet(a, b) || (r.Ok? && Replaced(k, e, a, b, call))
  {
    ResetEffect(e, a, KeyOf(call), call.reset, LoadBootstrap(e, a, a.active.generation + 1));
  }

  /** A call either leaves store and runtime alone, or succeeded and replaced exactly the snapshot whose revision it named. */
  lemma CallEffect(k: Codec, e: Env, a: AppState, call: Call)
    ensures
      var (b, r) := Perform(k, e, a, call);
      Quiet(a, b) || (r.Ok? && Replaced(k, e, a, b, call))
  {
    match call
    case PlanCall(_, c) => PlanEffect(k, e, a, KeyOf(call), c);
    case ApplyCall(_, _) => ApplyCallEffect(k, e, a, call);
    case TypedCall(_, _) => TypedCallEffect(k, e, a, call);
    case ResetCall(_, _) => ResetCallEffect(k, e, a, call);
  }

  /** A failing call, and every plan, changes neither the store nor the runtime. */
  lemma FailureChangesNothing(k: Codec, e: Env, a: AppState, call: Call)
    requires Perform(k, e, a, call).1.Err? || call.PlanCall?
    ensures Quiet(a, Perform(k, e, a, call).0)
  {
    CallEffect(k, e, a, call);
    if call.PlanCall? {
      PlanEffect(k, e, a, KeyOf(call), call.change);
    }
  }

  // -------------------------------------------------------------- history

  /** The document of the last boot or reset, the operations accepted since, and all swaps so far. */
  datatype History = History(base: Document, ops: seq<Operation>, swaps: nat)

  /** A swap shows in the generation. */
  function Logged(k: Codec, e: Env, h: History, a: AppState, call: Call): History {
    if Perform(k, e, a, call).0.active.generation == a.active.generation then h
    else if call.ResetCall? then
      History(if BootDocument(e, a).Ok? then BootDocument(e, a).value.0 else h.base, [], h.swaps + 1)
    else History(h.base, h.ops + BatchOf(k, a, call), h.swaps + 1)
  }

  ghost predicate Faithful(k: Codec, h: History, active: Snapshot, bootstrap: Snapshot) {
    && ApplyOps(k, h.base, h.ops).Ok?
    && active.canonical == Normalize(ApplyOps(k, h.base, h.ops).value)
    && active.revision == RevisionOf(active.canonical)
    && active.generation == 1 + h.swaps
    && bootstrap.canonical == Normalize(h.base)
    && bootstrap.revision == RevisionOf(bootstrap.canonical)
    && active.bootstrapRevision == bootstrap.revision
  }

  lemma CompiledFacts(w: World, doc: Document, opt: Options)
    requires Compiled(w, doc, opt).Ok?
    ensures
      var s := Compiled(w, doc, opt).value;
      && s.canonical == Normalize(doc) && s.revision == RevisionOf(s.canonical)
      && (opt.generation != 0 ==> s.generation == opt.generation)
      && s.bootstrapRevision == if opt.bootstrapRevision.NoRevision? then s.revision else opt.bootstrapRevision
  {
    NormalizeIdempotent(doc);
  }

  lemma BatchKeepsFaithful(k: Codec, e: Env, h: History, active: Snapshot, bootstrap: Snapshot, c: Change, next: Snapshot)
    requires Faithful(k, h, active, bootstrap) && BuildCandidate(k, e, active, c) == Ok(next)
    ensures Faithful(k, History(h.base, h.ops + c.ops, h.swaps + 1), next, bootstrap)
  {
    var raw := ApplyOps(k, h.base, h.ops).value;
    var doc := ApplyOps(k, active.canonical, c.ops).value;
    CompiledFacts(e.world, doc, Options(active.generation + 1, active.bootstrapRevision));
    NormalizeIdempotent(raw);
    OpsIgnoreDefaults(k, active.canonical, raw, c.ops);
    ApplyOpsConcat(k, h.base, h.ops, c.ops);
  }

  lemma ResetKeepsFaithful(k: Codec, e: Env, h: History, a: AppState, next: Snapshot)
    requires Faithful(k, h, a.active, a.bootstrap) && LoadBootstrap(e, a, a.active.generation + 1) == Ok(next)
    ensures Faithful(k, History(BootDocument(e, a).value.0, [], h.swaps + 1), next, next)
  {
    var source := BootDocument(e, a).value;
    CompiledFacts(e.world, source.0, Options(a.active.generation + 1, source.1));
    NormalizeIdempotent(h.base);
  }

  lemma CallKeepsFaithful(k: Codec, e: Env, h: History, a: AppState, call: Call)
    requires Faithful(k, h, a.active, a.bootstrap)
    ensures
      var b := Perform(k, e, a, call).0;
      Faithful(k, Logged(k, e, h, a, call), b.active, b.bootstrap)
  {
    var b := Perform(k, e, a, call).0;
    CallEffect(k, e, a, call);
    if !Quiet(a, b) {
      if call.ResetCall? {
        ResetKeepsFaithful(k, e, h, a, b.active);
      } else {
        BatchKeepsFaithful(k, e, h, a.active, a.bootstrap, Essence(k, a, call), b.active);
      }
    }
  }

  // ----------------------------------------------------------------- runs

  datatype Made = Made(env: Env, call: Call)

  function RunCalls(k: Codec, a: AppState, calls: seq<Made>): AppState
    decreases |calls|
  {
    if calls == [] then a else RunCalls(k, Perform(k, calls[0].env, a, calls[0].call).0, calls[1..])
  }

  function HistoryOf(k: Codec, h: History, a: AppState, calls: seq<Made>): History
    decreases |calls|
  {
    if calls == [] then h
    else HistoryOf(k, Logged(k, calls[0].env, h, a, calls[0].call), Perform(k, calls[0].env, a, calls[0].call).0, calls[1..])
  }

  lemma {:induction false} CallsKeepFaithful(k: Codec, h: History, a: AppState, calls: seq<Made>)
    requires Faithful(k, h, a.active, a.bootstrap)
    ensures
      var b := RunCalls(k, a, calls);
      Faithful(k, HistoryOf(k, h, a, calls), b.active, b.bootstrap)
    decreases |calls|
  {
    if calls != [] {
      CallKeepsFaithful(k, calls[0].env, h, a, calls[0].call);
      CallsKeepFaithful(k, Logged(k, calls[0].env, h, a, calls[0].call), Perform(k, calls[0].env, a, calls[0].call).0, calls[1..]);
    }
  }

  /**
   After any calls, the live document is the normal form of the accepted
   operations applied to the document of the last boot or reset; the generation is
   one more than the number of swaps; and Drifted says whether the live document
   differs from the bootstrap document.
   */
  lemma LiveDocumentIsFold(k: Codec, w: World, doc: Document, calls: seq<Made>)
    requires Boot(w, doc).Ok?
    ensures
      var a := RunCalls(k, Boot(w, doc).value, calls);
      var h := HistoryOf(k, History(doc, [], 0), Boot(w, doc).value, calls);
      && ApplyOps(k, h.base, h.ops).Ok?
      && a.active.canonical == Normalize(ApplyOps(k, h.base, h.ops).value)
      && a.active.generation == 1 + h.swaps
      && a.bootstrap.canonical == Normalize(h.base)
      && (Drifted(a.active) <==> a.active.canonical != a.bootstrap.canonical)
  {
    CompiledFacts(w, doc, Options(1, NoRevision));
    CallsKeepFaithful(k, History(doc, [], 0), Boot(w, doc).value, calls);
  }

  // -------------------------------------------------------- plans and cache

  /** A plan as a function of the two documents; only `drifted` needs more. */
  function PlanOf(prev: Document, next: Document, drifted: bool, ops: seq<Operation>): Plan {
    var b, n := prev.spec, next.spec;
    Plan(RevisionOf(prev), RevisionOf(next), drifted, b != n,
         Impact(b.clients != n.clients, b.users != n.users, b.groups != n.groups, b.issuer != n.issuer,
                b.profile.vendor != n.profile.vendor, b.groupOverage != n.groupOverage), ops)
  }

  /** The recorded plan is the one its own request computes from the document it expects. */
  ghost predicate PlanGood(k: Codec, mark: Print, p: Plan) {
    mark.ChangePrint? ==>
      && mark.expected.RevisionOf? && ApplyOps(k, mark.expected.doc, mark.ops).Ok?
      && p == PlanOf(mark.expected.doc, Normalize(ApplyOps(k, mark.expected.doc, mark.ops).value), p.drifted, mark.ops)
  }

  ghost predicate EntriesGood(k: Codec, m: map<Key, Entry<Print, Saved>>) {
    forall key :: key in m ==> PlanGood(k, m[key].mark, m[key].value.plan)
  }

  lemma LookKeepsEntries(c: Cache<Key, Print, Saved>, key: Option<Key>, mark: Print)
    ensures Look(c, key, mark).0.m == c.m && Look(c, key, mark).0.cap == c.cap
  {
  }

  lemma PutKeepsGood(k: Codec, c: Cache<Key, Print, Saved>, key: Option<Key>, mark: Print, v: Saved)
    requires EntriesGood(k, c.m) && PlanGood(k, mark, v.plan)
    ensures EntriesGood(k, Put(c, key, mark, v).m)
  {
  }

  lemma CandidatePlanGood(k: Codec, e: Env, active: Snapshot, c: Change, next: Snapshot)
    requires BuildCandidate(k, e, active, c) == Ok(next) && active.revision == RevisionOf(active.canonical)
    ensures PlanGood(k, PrintOf(c), PlanFrom(active, next, c.ops))
  {
    CompiledFacts(e.world, ApplyOps(k, active.canonical, c.ops).value, Options(active.generation + 1, active.bootstrapRevision));
  }

  lemma ApplyKeepsGood(k: Codec, e: Env, a: AppState, key: Option<Key>, c: Change, mark: Print)
    requires EntriesGood(k, a.cache.m) && a.active.revision == RevisionOf(a.active.canonical)
    requires mark.ChangePrint? ==> mark == PrintOf(c)
    ensures EntriesGood(k, ApplyLocked(k, e, a, key, c, mark).0.cache.m)
  {
    var seen := Replay(a, key, mark).0;
    ReplayEffect(a, key, mark);
    var next := BuildCandidate(k, e, a.active, c);
    if next.Ok? {
      CandidatePlanGood(k, e, a.active, c, next.value);
      var plan := PlanFrom(a.active, next.value, c.ops);
      PutKeepsGood(k, seen.cache, key, mark, Saved(plan, Some(ApplyResult(plan, true, next.value.generation))));
    }
  }

  lemma TypedKeepsGood(k: Codec, e: Env, a: AppState, key: Option<Key>, t: Typed)
    requires EntriesGood(k, a.cache.m) && a.active.revision == RevisionOf(a.active.canonical)
    ensures EntriesGood(k, ApplyTyped(k, e, a, key, t).0.cache.m)
  {
    ReplayEffect(a, key, TypedPrint(t));
    var seen := Replay(a, key, TypedPrint(t)).0;
    var op := Derive(k, a.active, t.command);
    if op.Ok? {
      ApplyKeepsGood(k, e, seen, key, Change(t.expected, t.key, t.reason, [op.value]), TypedPrint(t));
    }
  }

  lemma PlanKeepsGood(k: Codec, e: Env, a: AppState, key: Option<Key>, c: Change)
    requires EntriesGood(k, a.cache.m) && a.active.revision == RevisionOf(a.active.canonical)
    ensures EntriesGood(k, PlanLocked(k, e, a, key, c).0.cache.m)
  {
    LookKeepsEntries(a.cache, key, PrintOf(c));
    var next := BuildCandidate(k, e, a.active, c);
    if next.Ok? {
      CandidatePlanGood(k, e, a.active, c, next.value);
      PutKeepsGood(k, Look(a.cache, key, PrintOf(c)).0, key, PrintOf(c), Saved(PlanFrom(a.active, next.value, c.ops), None));
    }
  }

  lemma ResetKeepsGood(k: Codec, e: Env, a: AppState, key: Option<Key>, r: Reset, next: Result<Snapshot>, b: AppState)
    requires EntriesGood(k, a.cache.m)
    requires
      var seen := a.(cache := Look(a.cache, key, ResetPrint(r)).0);
      b == a || b == seen || b == ResetWith(e, seen, key, r, next).0
    ensures EntriesGood(k, b.cache.m)
  {
    LookKeepsEntries(a.cache, key, ResetPrint(r));
    ResetWithKeepsGood(k, e, a.(cache := Look(a.cache, key, ResetPrint(r)).0), key, r, next);
  }

  lemma ResetWithKeepsGood(k: Codec, e: Env, a: AppState, key: Option<Key>, r: Reset, next: Result<Snapshot>)
    requires EntriesGood(k, a.cache.m)
    ensures EntriesGood(k, ResetWith(e, a, key, r, next).0.cache.m)
  {
    if next.Ok? {
      var plan := PlanFrom(a.active, next.value, []);
      PutKeepsGood(k, a.cache, key, ResetPrint(r), Saved(plan, Some(ApplyResult(plan, true, next.value.generation))));
    }
  }

  lemma CallKeepsGood(k: Codec, e: Env, a: AppState, call: Call)
    requires EntriesGood(k, a.cache.m) && a.active.revision == RevisionOf(a.active.canonical)
    ensures EntriesGood(k, Perform(k, e, a, call).0.cache.m)
  {
    match call
    case PlanCall(_, c) => PlanKeepsGood(k, e, a, KeyOf(call), c);
    case ApplyCall(_, c) => ApplyKeepsGood(k, e, a, KeyOf(call), c, PrintOf(c));
    case TypedCall(_, t) => TypedKeepsGood(k, e, a, KeyOf(call), t);
    case ResetCall(_, r) =>
      var next := LoadBootstrap(e, a, a.active.generation + 1);
      ResetEnds(e, a, KeyOf(call), r, next);
      ResetKeepsGood(k, e, a, KeyOf(call), r, next, Perform(k, e, a, call).0);
  }

  lemma {:induction false} CallsKeepGood(k: Codec, h: History, a: AppState, calls: seq<Made>)
    requires Faithful(k, h, a.active, a.bootstrap) && EntriesGood(k, a.cache.m)
    ensures EntriesGood(k, RunCalls(k, a, calls).cache.m)
    decreases |calls|
  {
    if calls != [] {
      CallKeepsFaithful(k, calls[0].env, h, a, calls[0].call);
      CallKeepsGood(k, calls[0].env, a, calls[0].call);
      CallsKeepGood(k, Logged(k, calls[0].env, h, a, calls[0].call), Perform(k, calls[0].env, a, calls[0].call).0, calls[1..]);
    }
  }

  /** A plan, cached or not, is the plan of its operations on the live document. */
  lemma ServedPlan(k: Codec, e: Env, a: AppState, key: Option<Key>, c: Change)
    requires EntriesGood(k, a.cache.m) && a.active.revision == RevisionOf(a.active.canonical)
    requires PlanLocked(k, e, a, key, c).1.Ok?
    ensures
      var p := PlanLocked(k, e, a, key, c).1.value;
      && ApplyOps(k, a.active.canonical, c.ops).Ok?
      && p == PlanOf(a.active.canonical, Normalize(ApplyOps(k, a.active.canonical, c.ops).value), p.drifted, c.ops)
  {
    var hit := Look(a.cache, key, PrintOf(c)).1;
    if hit.Ok? && hit.value.Some? {
      assert PlanGood(k, a.cache.m[key.value].mark, a.cache.m[key.value].value.plan);
    } else {
      CandidatePlanGood(k, e, a.active, c, BuildCandidate(k, e, a.active, c).value);
    }
  }

  /**
   After any calls a served plan agrees with recomputation: its previous revision
   is the live one, its candidate revision that of the operations applied to the
   live document, and where a recomputation succeeds the whole plan is equal to it
   up to the drift flag.
   */
  lemma CachedPlanAgrees(k: Codec, w: World, doc: Document, calls: seq<Made>, e: Env, actor: Actor, c: Change)
    requires Boot(w, doc).Ok?
    requires Perform(k, e, RunCalls(k, Boot(w, doc).value, calls), PlanCall(actor, c)).1.Ok?
    ensures
      var a := RunCalls(k, Boot(w, doc).value, calls);
      var p := Perform(k, e, a, PlanCall(actor, c)).1.value.plan;
      var next := BuildCandidate(k, e, a.active, c);
      && p.previous == a.active.revision
      && ApplyOps(k, a.active.canonical, c.ops).Ok?
      && p.candidate == RevisionOf(Normalize(ApplyOps(k, a.active.canonical, c.ops).value))
      && (next.Ok? ==> p == PlanFrom(a.active, next.value, c.ops).(drifted := p.drifted))
  {
    var start, h := Boot(w, doc).value, History(doc, [], 0);
    CompiledFacts(w, doc, Options(1, NoRevision));
    CallsKeepFaithful(k, h, start, calls);
    CallsKeepGood(k, h, start, calls);
    PlanAgrees(k, e, RunCalls(k, start, calls), PlanCall(actor, c), c);
  }

  lemma PlanAgrees(k: Codec, e: Env, a: AppState, call: Call, c: Change)
    requires EntriesGood(k, a.cache.m) && a.active.revision == RevisionOf(a.active.canonical)
    requires call.PlanCall? && call.change == c && Perform(k, e, a, call).1.Ok?
    ensures
      var p := Perform(k, e, a, call).1.value.plan;
      var next := BuildCandidate(k, e, a.active, c);
      && p.previous == a.active.revision
      && ApplyOps(k, a.active.canonical, c.ops).Ok?
      && p.candidate == RevisionOf(Normalize(ApplyOps(k, a.active.canonical, c.ops).value))
      && (next.Ok? ==> p == PlanFrom(a.active, next.value, c.ops).(drifted := p.drifted))
  {
    ServedPlan(k, e, a, KeyOf(call), c);
    if BuildCandidate(k, e, a.active, c).Ok? {
      CandidatePlanGood(k, e, a.active, c, BuildCandidate(k, e, a.active, c).value);
    }
  }

  /** What every state reached by calls satisfies. */
  ghost predicate Sane(k: Codec, a: AppState) {
    && EntriesGood(k, a.cache.m)
    && a.active.revision == RevisionOf(a.active.canonical) && a.active.bootstrapRevision.RevisionOf?
    && exists h :: Faithful(k, h, a.active, a.bootstrap)
  }

  lemma {:induction false} CallsKeepSane(k: Codec, a: AppState, calls: seq<Made>)
    requires Sane(k, a)
    ensures Sane(k, RunCalls(k, a, calls))
  {
    var h :| Faithful(k, h, a.active, a.bootstrap);
    CallsKeepFaithful(k, h, a, calls);
    CallsKeepGood(k, h, a, calls);
  }

  lemma {:induction false} CallKeepsSane(k: Codec, a: AppState, made: Made)
    requires Sane(k, a)
    ensures Sane(k, Perform(k, made.env, a, made.call).0)
  {
    CallsKeepSane(k, a, [made]);
    assert [made][1..] == [];
    assert RunCalls(k, Perform(k, made.env, a, made.call).0, []) == Perform(k, made.env, a, made.call).0;
  }

  lemma BootIsSane(k: Codec, w: World, doc: Document)
    requires Boot(w, doc).Ok?
    ensures Sane(k, Boot(w, doc).value)
  {
    CompiledFacts(w, doc, Options(1, NoRevision));
    var a := Boot(w, doc).value;
    assert Faithful(k, History(doc, [], 0), a.active, a.bootstrap);
  }

  /** A successful plan, cached or fresh, names the live revision. */
  lemma PlanNamesLive(k: Codec, e: Env, a: AppState, call: Call)
    requires call.PlanCall? && Perform(k, e, a, call).1.Ok?
    ensures call.change.expected == a.active.revision
  {
  }

  lemma SameDocumentSameCandidate(k: Codec, e: Env, a: AppState, planned: Call, e': Env, b: AppState, applied: Call)
    requires Sane(k, a) && Sane(k, b) && planned.PlanCall? && applied.ApplyCall? && planned.change == applied.change
    requires Perform(k, e, a, planned).1.Ok? && !Quiet(b, Perform(k, e', b, applied).0)
    ensures Perform(k, e', b, applied).0.active.revision == Perform(k, e, a, planned).1.value.plan.candidate
  {
    var c := planned.change;
    PlanNamesLive(k, e, a, planned);
    PlanAgrees(k, e, a, planned, c);
    CallEffect(k, e', b, applied);
    CandidatePlanGood(k, e', b.active, c.(key := "", reason := ""), Perform(k, e', b, applied).0.active);
  }

  /**
   From boot: once a plan was served, an apply of the same input that swaps
   installs the planned candidate revision, whatever calls came between and
   whatever became of the files.
   */
  lemma PlanThenApply(k: Codec, w: World, doc: Document, before: seq<Made>, planned: Made, between: seq<Made>, applied: Made)
    requires Boot(w, doc).Ok? && planned.call.PlanCall? && applied.call.ApplyCall? && planned.call.change == applied.call.change
    requires
      var a := RunCalls(k, Boot(w, doc).value, before);
      var (a', plan) := Perform(k, planned.env, a, planned.call);
      var b := RunCalls(k, a', between);
      plan.Ok? && !Quiet(b, Perform(k, applied.env, b, applied.call).0)
    ensures
      var a := RunCalls(k, Boot(w, doc).value, before);
      var (a', plan) := Perform(k, planned.env, a, planned.call);
      var b := RunCalls(k, a', between);
      Perform(k, applied.env, b, applied.call).0.active.revision == plan.value.plan.candidate
  {
    var a := RunCalls(k, Boot(w, doc).value, before);
    var a' := Perform(k, planned.env, a, planned.call).0;
    BootIsSane(k, w, doc);
    CallsKeepSane(k, Boot(w, doc).value, before);
    CallKeepsSane(k, a, planned);
    CallsKeepSane(k, a', between);
    SameDocumentSameCandidate(k, planned.env, a, planned.call, applied.env, RunCalls(k, a', between), applied.call);
  }

  // ------------------------------------------------------- typed mutations

  /** A batch of one overwrites one field of the live document. */
  lemma OneEdit(k: Codec, d: Document, op: Operation, edit: Edit)
    requires !op.op.OtherOp? && EditOf(k, d.spec, op) == Ok(edit)
    ensures ApplyOps(k, d, [op]) == Ok(d.(spec := Overwrite(d.spec, edit)))
  {
    assert [op][..0] == [];
    assert ApplyOps(k, d, [op][..0]) == Ok(d);
  }

  lemma MfaEdit(k: Codec, d: Document, auth: Auth)
    ensures ApplyOps(k, d, [Operation(Update, AuthTarget, "", OfAuth(auth))]) == Ok(d.(spec := d.spec.(auth := auth)))
  {
    var op := Operation(Update, AuthTarget, "", OfAuth(auth));
    assert EditOf(k, d.spec, op) == Ok(SetAuth(auth));
    OneEdit(k, d, op, SetAuth(auth));
  }

  lemma CandidateDocument(k: Codec, e: Env, prev: Snapshot, c: Change, next: Snapshot)
    requires BuildCandidate(k, e, prev, c) == Ok(next)
    ensures ApplyOps(k, prev.canonical, c.ops).Ok? && next.canonical == Normalize(ApplyOps(k, prev.canonical, c.ops).value)
  {
    CompiledFacts(e.world, ApplyOps(k, prev.canonical, c.ops).value, Options(prev.generation + 1, prev.bootstrapRevision));
  }

  lemma KeepsDefaults(d: Document, auth: Auth)
    requires Normalize(d) == d && !auth.mfaMode.Unset?
    ensures Normalize(d.(spec := d.spec.(auth := auth))) == d.(spec := d.spec.(auth := auth))
  {
    assert NormalizeSpec(d.spec) == d.spec;
  }

  lemma InadmissibleIsQuiet(k: Codec, e: Env, a: AppState, call: Call)
    requires call.TypedCall? && !Admissible(call.typed.command)
    ensures Perform(k, e, a, call) == (a, Err(Validation))
  {
  }

  /** SetMFA that swaps changes the MFA mode and nothing else in the document. */
  lemma SetMfaChangesOnlyTheMode(k: Codec, e: Env, a: AppState, call: Call)
    requires call.TypedCall? && call.typed.command.SetMfa? && !Quiet(a, Perform(k, e, a, call).0)
    requires Normalize(a.active.canonical) == a.active.canonical
    ensures
      var d, mode := a.active.canonical, call.typed.command.mode;
      ValidMfa(mode) && Perform(k, e, a, call).0.active.canonical == d.(spec := d.spec.(auth := d.spec.auth.(mfaMode := mode)))
  {
    if !Admissible(call.typed.command) {
      InadmissibleIsQuiet(k, e, a, call);
    }
    CallEffect(k, e, a, call);
    MfaDocument(k, e, a.active, Essence(k, a, call), Perform(k, e, a, call).0.active, call.typed.command.mode);
  }

  lemma MfaDocument(k: Codec, e: Env, prev: Snapshot, c: Change, next: Snapshot, mode: Mfa)
    requires BuildCandidate(k, e, prev, c) == Ok(next) && ValidMfa(mode) && Normalize(prev.canonical) == prev.canonical
    requires c.ops == [Operation(Update, AuthTarget, "", OfAuth(prev.canonical.spec.auth.(mfaMode := mode)))]
    ensures
      var d := prev.canonical;
      next.canonical == d.(spec := d.spec.(auth := d.spec.auth.(mfaMode := mode)))
  {
    var auth := prev.canonical.spec.auth.(mfaMode := mode);
    CandidateDocument(k, e, prev, c, next);
    MfaEdit(k, prev.canonical, auth);
    KeepsDefaults(prev.canonical, auth);
  }
}
