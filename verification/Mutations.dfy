/**
 The engine's calls and the transition system agree: an apply or a reset is the
 run of the mutator's own steps with no request in between.
 */
module Mutations {
  import opened Snapshots
  import opened System
  import RS = RuntimeState
  import Engine

  lemma RunCons(s: Sys, e: Event, es: seq<Event>)
    requires Enabled(s, e) && IsRun(Do(s, e), es)
    ensures IsRun(s, [e] + es) && Final(s, [e] + es) == Final(Do(s, e), es)
  {
    assert ([e] + es)[1..] == es;
  }

  /** Where a finished mutation leaves the system. */
  ghost predicate Ended(s: Sys, t: Sys, next: Snapshot, rt: RS.Rt) {
    t.rt == rt && t.snaps == s.snaps + [next] && t.phase == Idle && t.reqs == s.reqs && t.now == s.now && t.used == s.used
  }

  lemma MutateStep(s: Sys, e: MutEvent, es: seq<Event>)
    requires s.snaps != [] && MutEnabled(s, e) && (e.Begin? ==> WellCompiled(e.cand)) && IsRun(MutDo(s, e), es)
    ensures IsRun(s, [Mutate(e)] + es) && Final(s, [Mutate(e)] + es) == Final(MutDo(s, e), es)
  {
    RunCons(s, Mutate(e), es);
  }

  lemma ForgetStep(rt: RS.Rt, users: set<string>, id: string)
    requires id in users
    ensures Engine.ForgetUsers(RS.ClearOverlay(rt, id), users - {id}) == Engine.ForgetUsers(rt, users)
  {
    assert rt.overlay - {id} - (users - {id}) == rt.overlay - users;
    assert rt.lastStep - {id} - (users - {id}) == rt.lastStep - users;
  }

  /** Syncing user by user, then the swap. */
  lemma {:induction false} SyncAndSwap(s: Sys) returns (es: seq<Event>)
    requires s.snaps != [] && s.phase.Syncing?
    ensures IsRun(s, es) && Ended(s, Final(s, es), s.phase.next, Engine.ForgetUsers(s.rt, s.phase.todo))
    decreases |s.phase.todo|
  {
    if s.phase.todo == {} {
      es := [Mutate(Swap)] + [];
      assert IsRun(MutDo(s, Swap), []);
      MutateStep(s, Swap, []);
      assert s.rt.overlay - {} == s.rt.overlay && s.rt.lastStep - {} == s.rt.lastStep;
    } else {
      var id :| id in s.phase.todo;
      var rest := SyncAndSwap(MutDo(s, SyncOne(id)));
      es := [Mutate(SyncOne(id))] + rest;
      MutateStep(s, SyncOne(id), rest);
      ForgetStep(s.rt, s.phase.todo, id);
    }
  }

  /** The runtime after the revoking step and the start of the sync. */
  lemma RevokeAndSync(s: Sys, next: Snapshot) returns (t: Sys)
    requires s.snaps != [] && s.phase == Candidate(next, false)
    ensures MutEnabled(s, Invalidate) && MutEnabled(MutDo(s, Invalidate), StartSync) && t == MutDo(MutDo(s, Invalidate), StartSync)
    ensures t.phase == Syncing(next, StaleSeeds(Active(s), next)) && t.snaps == s.snaps && t.reqs == s.reqs && t.now == s.now && t.used == s.used
    ensures Engine.ForgetUsers(t.rt, t.phase.todo) == Engine.RuntimeAfterApply(s.rt, Active(s), next)
  {
    t := MutDo(MutDo(s, Invalidate), StartSync);
  }

  /** An apply, with nothing interleaved, is a run of the protocol and leaves the engine's runtime and snapshot. */
  lemma ApplyIsARun(s: Sys, next: Snapshot) returns (es: seq<Event>)
    requires s.snaps != [] && s.phase.Idle? && next.generation == |s.snaps| + 1 && WellCompiled(next)
    ensures IsRun(s, es) && Ended(s, Final(s, es), next, Engine.RuntimeAfterApply(s.rt, Active(s), next))
  {
    var begun := MutDo(s, Begin(next, false));
    var t := RevokeAndSync(begun, next);
    var rest := SyncAndSwap(t);
    MutateStep(MutDo(begun, Invalidate), StartSync, rest);
    MutateStep(begun, Invalidate, [Mutate(StartSync)] + rest);
    es := [Mutate(Begin(next, false))] + ([Mutate(Invalidate)] + ([Mutate(StartSync)] + rest));
    MutateStep(s, Begin(next, false), [Mutate(Invalidate)] + ([Mutate(StartSync)] + rest));
  }

  /** So is a reset. */
  lemma ResetIsARun(s: Sys, next: Snapshot) returns (es: seq<Event>)
    requires s.snaps != [] && s.phase.Idle? && next.generation == |s.snaps| + 1 && WellCompiled(next)
    ensures IsRun(s, es) && Ended(s, Final(s, es), next, Engine.RuntimeAfterReset(s.rt, next))
  {
    var begun := MutDo(s, Begin(next, true));
    var revoked := MutDo(begun, Invalidate);
    var cleared := MutDo(revoked, ResetRuntime);
    var rest := SyncAndSwap(cleared);
    assert cleared.rt.overlay - {} == map[] && cleared.rt.lastStep - {} == map[];
    MutateStep(revoked, ResetRuntime, rest);
    MutateStep(begun, Invalidate, [Mutate(ResetRuntime)] + rest);
    es := [Mutate(Begin(next, true))] + ([Mutate(Invalidate)] + ([Mutate(ResetRuntime)] + rest));
    MutateStep(s, Begin(next, true), [Mutate(Invalidate)] + ([Mutate(ResetRuntime)] + rest));
  }
}
