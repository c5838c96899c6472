/**
 The drift flag of plans served from the idempotency cache: exactly when it is
 the flag a recomputation would give.
 */
module Drift {
  import opened Basics
  import opened Documents
  import opened Snapshots
  import opened Operations
  import opened Idempotency
  import opened Engine
  import opened DesiredState
  import opened Retries

  /** The plan a request would get if nothing were cached. */
  function Recomputed(k: Codec, e: Env, a: AppState, c: Change): Plan
    requires BuildCandidate(k, e, a.active, c).Ok?
  {
    PlanFrom(a.active, BuildCandidate(k, e, a.active, c).value, c.ops)
  }

  lemma RecomputedDrift(k: Codec, e: Env, a: AppState, c: Change)
    requires Sane(k, a) && BuildCandidate(k, e, a.active, c).Ok?
    ensures
      var p := Recomputed(k, e, a, c);
      p.drifted <==> p.candidate != a.active.bootstrapRevision
  {
    CompiledFacts(e.world, ApplyOps(k, a.active.canonical, c.ops).value, Options(a.active.generation + 1, a.active.bootstrapRevision));
  }

  // ------------------------------------------------- keeping a plan's entry

  /** A keyed plan that the cache did not know is computed and recorded. */
  lemma PlanIsRecorded(k: Codec, a: AppState, planned: Made, key: Key)
    requires key !in a.cache.m && planned.call.PlanCall? && KeyOf(planned.call) == Some(key)
    requires Perform(k, planned.env, a, planned.call).1.Ok?
    ensures
      var (b, reply) := Perform(k, planned.env, a, planned.call);
      && BuildCandidate(k, planned.env, a.active, planned.call.change).Ok?
      && reply.value == Planned(Recomputed(k, planned.env, a, planned.call.change))
      && key in b.cache.m && b.cache.m[key] == Entry(MarkOf(planned.call), Saved(reply.value.plan, None))
  {
  }

  /** With fewer than 256 other keys in use after it, a recorded plan's key is kept. */
  lemma FewOthersKeepPlan(k: Codec, a: AppState, planned: Made, later: seq<Made>, key: Key, others: set<Key>)
    requires Running(k, a) && |others| < CACHE_CAPACITY && Spares(later, key, others)
    requires key !in a.cache.m && planned.call.PlanCall? && KeyOf(planned.call) == Some(key)
    requires Perform(k, planned.env, a, planned.call).1.Ok?
    ensures Kept(k, Perform(k, planned.env, a, planned.call).0, later, key)
  {
    RunningFacts(k, a);
    var plan := PlanIsHeld(k, a, planned, key, others);
    FewOthersKeep(k, Perform(k, planned.env, a, planned.call).0, later, key, Entry(MarkOf(planned.call), Saved(plan, None)), others);
  }

  lemma PlanIsHeld(k: Codec, a: AppState, planned: Made, key: Key, others: set<Key>) returns (plan: Plan)
    requires Sound(a.cache) && |others| < a.cache.cap && key !in others
    requires key !in a.cache.m && planned.call.PlanCall? && KeyOf(planned.call) == Some(key)
    requires Perform(k, planned.env, a, planned.call).1.Ok?
    ensures Holds(Perform(k, planned.env, a, planned.call).0.cache, key, Entry(MarkOf(planned.call), Saved(plan, None)), others)
  {
    plan := Recomputed(k, planned.env, a, planned.call.change);
    var ts :| IsLru(a.cache, ts);
    PutUsesLast(a.cache, ts, key, MarkOf(planned.call), Saved(plan, None), others);
  }

  /** An entry of the same request is what a plan call is served. */
  lemma ServedFromEntry(k: Codec, e: Env, a: AppState, call: Call, key: Key)
    requires call.PlanCall? && KeyOf(call) == Some(key) && key in a.cache.m && a.cache.m[key].mark == MarkOf(call)
    requires Perform(k, e, a, call).1.Ok?
    ensures Perform(k, e, a, call).1.value == Planned(a.cache.m[key].value.plan)
  {
  }

  // ---------------------------------------------------------------- theorem

  lemma FlagDecides(k: Codec, e: Env, b: AppState, again: Call, first: Plan, boot: Revision)
    requires Sane(k, b) && again.PlanCall? && Perform(k, e, b, again).1.Ok? && Perform(k, e, b, again).1.value == Planned(first)
    requires BuildCandidate(k, e, b.active, again.change).Ok? && (first.drifted <==> first.candidate != boot)
    ensures first == Recomputed(k, e, b, again.change) <==>
              (first.candidate == boot <==> first.candidate == b.active.bootstrapRevision)
  {
    PlanAgrees(k, e, b, again, again.change);
    RecomputedDrift(k, e, b, again.change);
  }

  /**
   From boot, after any calls: a keyed plan is computed and recorded, then come any
   calls that leave its key in the cache, then the same plan is served again. What
   is served is what a recomputation would give if and only if the candidate is
   both or neither of the bootstrap revisions at the two moments.
   */
  lemma ServedPlanIffSinceBoot(k: Codec, a: AppState, planned: Made, later: seq<Made>, again: Made, key: Key)
    requires Running(k, a) && planned.call.PlanCall? && KeyOf(planned.call) == Some(key) && key !in a.cache.m
    requires KeyOf(again.call) == Some(key) && MarkOf(again.call) == MarkOf(planned.call) && again.call.PlanCall?
    requires
      var (a', first) := Perform(k, planned.env, a, planned.call);
      var b := RunCalls(k, a', later);
      && first.Ok? && Kept(k, a', later, key)
      && Perform(k, again.env, b, again.call).1.Ok? && BuildCandidate(k, again.env, b.active, again.call.change).Ok?
    ensures
      var (a', first) := Perform(k, planned.env, a, planned.call);
      var b := RunCalls(k, a', later);
      var served, candidate := Perform(k, again.env, b, again.call).1.value.plan, first.value.plan.candidate;
      served == Recomputed(k, again.env, b, again.call.change) <==>
        (candidate == a.active.bootstrapRevision <==> candidate == b.active.bootstrapRevision)
  {
    RunningFacts(k, a);
    var (a', first) := Perform(k, planned.env, a, planned.call);
    PlanIsRecorded(k, a, planned, key);
    KeptEntryStays(k, a', later, key);
    var b := RunCalls(k, a', later);
    ServedFromEntry(k, again.env, b, again.call, key);
    RecomputedDrift(k, planned.env, a, planned.call.change);
    CallKeepsSane(k, a, planned);
    CallsKeepSane(k, a', later);
    FlagDecides(k, again.env, b, again.call, first.value.plan, a.active.bootstrapRevision);
  }

  /** A plan whose key the cache does not hold is the recomputed plan. */
  lemma UncachedPlanIsRecomputed(k: Codec, e: Env, a: AppState, call: Call)
    requires call.PlanCall? && (KeyOf(call).Some? ==> KeyOf(call).value !in a.cache.m) && Perform(k, e, a, call).1.Ok?
    ensures BuildCandidate(k, e, a.active, call.change).Ok?
    ensures Perform(k, e, a, call).1.value == Planned(Recomputed(k, e, a, call.change))
  {
  }
}
