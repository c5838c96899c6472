/**
 The invariant of the whole protocol, and what it says about every reachable
 state and every step of every interleaving.
 */
module Protocol {
  import opened Basics
  import opened Documents
  import opened Snapshots
  import opened RuntimeState
  import opened Access
  import opened System
  import opened Revocation
  import opened Handlers
  import opened Bounds
  import opened TotpLedger
  import opened Lineage
  import opened Linearity

  ghost predicate Inv(s: Sys) {
    Core(s) && CompiledOk(s) && BoundsOk(s) && LedgerOk(s) && DescentOk(s) && Linear(s)
  }

  // ------------------------------------------------- one step, facet by facet

  lemma CapturedKeys(s: Sys, r: nat)
    requires Core(s) && CompiledOk(s) && r in s.reqs
    ensures ClientKeys(s.reqs[r].snap)
  {
    RequestFacts(s, r);
    CompiledClientKeys(s.reqs[r].snap);
  }

  lemma CapturedUser(s: Sys, r: nat, username: string)
    requires Core(s) && CompiledOk(s) && r in s.reqs
    ensures FindUser(s.reqs[r].snap, username).Some? ==> UserUsable(s.reqs[r].snap, FindUser(s.reqs[r].snap, username).value.id)
  {
    RequestFacts(s, r);
    if FindUser(s.reqs[r].snap, username).Some? {
      FoundUserIsUsable(s.reqs[r].snap, username);
    }
  }

  lemma EntryStep(s: Sys, r: nat, x: EntryEvent)
    requires Core(s) && CompiledOk(s) && r in s.reqs && EntryEnabled(s, s.reqs[r], x)
    ensures Core(After(s, r, EntryOut(s, s.reqs[r], x)))
  {
    CapturedKeys(s, r);
    RequestFacts(s, r);
    EntryOk(s, s.reqs[r], x);
    OutcomeKeepsCore(s, r, EntryOut(s, s.reqs[r], x));
  }

  lemma LoginStep(s: Sys, r: nat, x: LoginEvent)
    requires Core(s) && CompiledOk(s) && r in s.reqs && LoginEnabled(s, s.reqs[r], x)
    ensures Core(After(s, r, LoginOut(s, s.reqs[r], x)))
  {
    RequestFacts(s, r);
    if x.LoginReadPending? {
      CapturedUser(s, r, x.username);
    }
    LoginOk(s, s.reqs[r], x);
    OutcomeKeepsCore(s, r, LoginOut(s, s.reqs[r], x));
  }

  lemma FinishStep(s: Sys, r: nat, x: FinishEvent)
    requires Core(s) && r in s.reqs && FinishEnabled(s, s.reqs[r], x)
    ensures Core(After(s, r, FinishOut(s, s.reqs[r], x)))
  {
    RequestFacts(s, r);
    FinishOk(s, s.reqs[r], x);
    OutcomeKeepsCore(s, r, FinishOut(s, s.reqs[r], x));
  }

  lemma TokenStep(s: Sys, r: nat, x: TokenEvent)
    requires Core(s) && r in s.reqs && TokenEnabled(s, s.reqs[r], x)
    ensures Core(After(s, r, TokenOut(s, s.reqs[r], x)))
  {
    RequestFacts(s, r);
    TokenOk(s, s.reqs[r], x);
    OutcomeKeepsCore(s, r, TokenOut(s, s.reqs[r], x));
  }

  lemma MutateStep(s: Sys, x: MutEvent)
    requires Core(s) && CompiledOk(s) && MutEnabled(s, x)
    ensures Core(MutDo(s, x)) && MutDo(s, x).rt.minGen >= s.rt.minGen
  {
    if x.Invalidate? {
      UnchangedIsSame(Last(s.snaps), s.phase.next);
    }
    MutKeepsCore(s, x);
  }

  lemma StepKeepsCore(s: Sys, e: Event)
    requires Core(s) && CompiledOk(s) && Enabled(s, e)
    ensures Core(Do(s, e))
  {
    match e
    case Env(x) => EnvKeepsCore(s, x);
    case Mutate(x) => MutateStep(s, x);
    case Entry(r, x) => EntryStep(s, r, x);
    case Login(r, x) => LoginStep(s, r, x);
    case Finish(r, x) => FinishStep(s, r, x);
    case Token(r, x) => TokenStep(s, r, x);
  }

  lemma StepKeepsCompiled(s: Sys, e: Event)
    requires CompiledOk(s) && Enabled(s, e)
    ensures CompiledOk(Do(s, e))
  {
    if e.Mutate? {
      MutKeepsCompiled(s, e.mut);
    } else {
      assert Do(s, e).snaps == s.snaps && Do(s, e).phase == s.phase;
    }
  }

  lemma StepKeepsBounds(s: Sys, e: Event)
    requires BoundsOk(s) && Enabled(s, e)
    ensures BoundsOk(Do(s, e))
  {
    match e
    case Env(x) => EnvKeepsBounds(s, x);
    case Mutate(x) => MutKeepsBounds(s, x);
    case Entry(r, x) => EntryKeepsBounds(s, s.reqs[r], x);
    case Login(r, x) => LoginKeepsBounds(s, s.reqs[r], x);
    case Finish(r, x) => FinishKeepsBounds(s, s.reqs[r], x);
    case Token(r, x) => TokenKeepsBounds(s, s.reqs[r], x);
  }

  lemma LoginStepLedger(s: Sys, r: nat, x: LoginEvent)
    requires Core(s) && LedgerOk(s) && r in s.reqs && LoginEnabled(s, s.reqs[r], x)
    ensures LedgerOk(After(s, r, LoginOut(s, s.reqs[r], x)))
  {
    if x.LoginRecord? {
      RequestFacts(s, r);
      AdmittedIsRecordable(s, s.reqs[r]);
      RecordKeepsLedger(s, r, s.reqs[r]);
    } else {
      LoginIsQuiet(s, s.reqs[r], x);
      QuietKeepsLedger(s, r, LoginOut(s, s.reqs[r], x));
    }
  }

  lemma StepKeepsLedger(s: Sys, e: Event)
    requires Core(s) && LedgerOk(s) && Enabled(s, e)
    ensures LedgerOk(Do(s, e))
  {
    match e
    case Env(x) => EnvKeepsLedger(s, x);
    case Mutate(x) => MutKeepsLedger(s, x);
    case Entry(r, x) =>
      EntryIsQuiet(s, s.reqs[r], x);
      QuietKeepsLedger(s, r, EntryOut(s, s.reqs[r], x));
    case Login(r, x) => LoginStepLedger(s, r, x);
    case Finish(r, x) =>
      FinishIsQuiet(s, s.reqs[r], x);
      QuietKeepsLedger(s, r, FinishOut(s, s.reqs[r], x));
    case Token(r, x) =>
      TokenIsQuiet(s, s.reqs[r], x);
      QuietKeepsLedger(s, r, TokenOut(s, s.reqs[r], x));
  }

  lemma RequestCarries(s: Sys, r: nat)
    requires DescentOk(s) && r in s.reqs
    ensures CarriesOk(s.born, s.lineages, s.reqs[r])
  {
    assert Carries(s.born, s.lineages)(s.reqs[r]);
  }

  lemma StepKeepsDescent(s: Sys, e: Event)
    requires DescentOk(s) && BoundsOk(s) && Enabled(s, e)
    ensures DescentOk(Do(s, e))
  {
    match e
    case Env(x) =>
      if !x.EnrollTotp? && !x.ClearTotp? {
        EnvShrinks(s, x);
      }
      EnvKeepsDescent(s, x);
    case Mutate(x) => MutKeepsDescent(s, x);
    case Entry(r, x) =>
      EntryDescends(s, s.reqs[r], x);
      OutcomeKeepsDescent(s, r, EntryOut(s, s.reqs[r], x));
    case Login(r, x) =>
      LoginDescends(s, s.reqs[r], x);
      OutcomeKeepsDescent(s, r, LoginOut(s, s.reqs[r], x));
    case Finish(r, x) =>
      RequestCarries(s, r);
      FinishDescends(s, s.reqs[r], x);
      OutcomeKeepsDescent(s, r, FinishOut(s, s.reqs[r], x));
    case Token(r, x) =>
      RequestCarries(s, r);
      TokenDescends(s, s.reqs[r], x);
      OutcomeKeepsDescent(s, r, TokenOut(s, s.reqs[r], x));
  }

  /** Live handles were born. */
  lemma LiveWereBorn(s: Sys, id: string)
    requires DescentOk(s) && BoundsOk(s)
    ensures id in s.rt.pending ==> PendingHandle(id) in s.born
    ensures id in s.rt.codes ==> CodeHandle(id) in s.born
    ensures id in s.rt.refresh ==> RefreshHandle(id) in s.born && id != ""
  {
    if id in s.rt.pending { assert Descent(s.born).pending(s.rt.pending[id]); }
    if id in s.rt.codes { assert Descent(s.born).code(s.rt.codes[id]); }
    if id in s.rt.refresh {
      assert Descent(s.born).refresh(s.rt.refresh[id]);
      assert RefreshHandle(id) in s.born;
    }
  }

  lemma EnvStepLinear(s: Sys, x: EnvEvent)
    requires Linear(s) && s.snaps != [] && EnvEnabled(s, x)
    ensures Linear(EnvDo(s, x))
  {
    if !x.EnrollTotp? && !x.ClearTotp? {
      EnvShrinks(s, x);
      ShrinkAddsNothing(s.rt, EnvDo(s, x).rt);
    }
    EnvKeepsLinear(s, x);
  }

  lemma EntryStepLinear(s: Sys, r: nat, x: EntryEvent)
    requires Linear(s) && DescentOk(s) && r in s.reqs && EntryEnabled(s, s.reqs[r], x)
    ensures Linear(After(s, r, EntryOut(s, s.reqs[r], x)))
  {
    EntryHands(s, r, s.reqs[r], x);
    HandsKeepsLinear(s, r, EntryOut(s, s.reqs[r], x), None);
  }

  lemma FinishStepLinear(s: Sys, r: nat, x: FinishEvent)
    requires Linear(s) && DescentOk(s) && BoundsOk(s) && r in s.reqs && FinishEnabled(s, s.reqs[r], x)
    ensures Linear(After(s, r, FinishOut(s, s.reqs[r], x)))
  {
    RequestCarries(s, r);
    if x.AnswerTakePending? {
      LiveWereBorn(s, s.reqs[r].pid);
    }
    FinishKeepsLinear(s, r, s.reqs[r], x);
  }

  lemma TokenStepLinear(s: Sys, r: nat, x: TokenEvent)
    requires Linear(s) && DescentOk(s) && BoundsOk(s) && r in s.reqs && TokenEnabled(s, s.reqs[r], x)
    ensures Linear(After(s, r, TokenOut(s, s.reqs[r], x)))
  {
    RequestCarries(s, r);
    LiveWereBorn(s, if x.RedeemCode? then x.code else "");
    TokenKeepsLinear(s, r, s.reqs[r], x);
  }

  lemma StepKeepsLinear(s: Sys, e: Event)
    requires Linear(s) && DescentOk(s) && BoundsOk(s) && Enabled(s, e)
    ensures Linear(Do(s, e))
  {
    match e
    case Env(x) => EnvStepLinear(s, x);
    case Mutate(x) => MutKeepsLinear(s, x);
    case Entry(r, x) => EntryStepLinear(s, r, x);
    case Login(r, x) => LoginKeepsLinear(s, r, s.reqs[r], x);
    case Finish(r, x) => FinishStepLinear(s, r, x);
    case Token(r, x) => TokenStepLinear(s, r, x);
  }

  // -------------------------------------------------------------- every run

  lemma StepKeepsInv(s: Sys, e: Event)
    requires Inv(s) && Enabled(s, e)
    ensures Inv(Do(s, e))
  {
    StepKeepsCore(s, e);
    StepKeepsCompiled(s, e);
    StepKeepsBounds(s, e);
    StepKeepsLedger(s, e);
    StepKeepsDescent(s, e);
    StepKeepsLinear(s, e);
  }

  lemma BootCore(boot: Snapshot, now: int)
    requires boot.generation == 1
    ensures Core(Start(boot, now))
  {
  }

  lemma BootLedger(boot: Snapshot, now: int)
    ensures LedgerOk(Start(boot, now))
  {
  }

  lemma BootLineage(boot: Snapshot, now: int)
    ensures DescentOk(Start(boot, now)) && Linear(Start(boot, now))
  {
  }

  lemma BootSatisfiesInv(boot: Snapshot, now: int)
    requires WellCompiled(boot) && boot.generation == 1 && now > ZERO_TIME
    ensures Inv(Start(boot, now))
  {
    BootCore(boot, now);
    BootLedger(boot, now);
    BootLineage(boot, now);
    EmptyTablesOk(EMPTY);
  }

  /** The invariant holds after every run from every state that satisfies it. */
  lemma {:induction false} RunKeepsInv(s: Sys, es: seq<Event>)
    requires Inv(s) && IsRun(s, es)
    ensures Inv(Final(s, es))
    decreases |es|
  {
    if es != [] {
      StepKeepsInv(s, es[0]);
      RunKeepsInv(Do(s, es[0]), es[1..]);
    }
  }

  /** Reached from a boot by some interleaving. */
  ghost predicate Reachable(s: Sys) {
    exists boot, now, es :: Leads(boot, now, es, s)
  }

  ghost predicate Leads(boot: Snapshot, now: int, es: seq<Event>, s: Sys) {
    && WellCompiled(boot) && boot.generation == 1 && now > ZERO_TIME
    && IsRun(Start(boot, now), es) && s == Final(Start(boot, now), es)
  }

  lemma {:induction false} RunConcat(s: Sys, a: seq<Event>, b: seq<Event>)
    requires IsRun(s, a) && IsRun(Final(s, a), b)
    ensures IsRun(s, a + b) && Final(s, a + b) == Final(Final(s, a), b)
    decreases |a|
  {
    if a == [] {
      assert a + b == b;
    } else {
      assert (a + b)[0] == a[0] && (a + b)[1..] == a[1..] + b;
      RunConcat(Do(s, a[0]), a[1..], b);
    }
  }

  /** Whatever continues a run from a reachable state ends in one. */
  lemma ReachableRun(s: Sys, es: seq<Event>)
    requires Reachable(s) && IsRun(s, es)
    ensures Reachable(Final(s, es))
  {
    var boot, now, before :| Leads(boot, now, before, s);
    RunConcat(Start(boot, now), before, es);
    assert Leads(boot, now, before + es, Final(s, es));
  }

  lemma ReachableStep(s: Sys, e: Event)
    requires Reachable(s) && Enabled(s, e)
    ensures Reachable(Do(s, e))
  {
    OneStep(s, e);
    ReachableRun(s, [e]);
  }

  lemma OneStep(s: Sys, e: Event)
    requires Enabled(s, e)
    ensures IsRun(s, [e]) && Final(s, [e]) == Do(s, e)
  {
    assert [e][1..] == [];
    assert IsRun(Do(s, e), []);
  }

  lemma ReachableStart(boot: Snapshot, now: int)
    requires WellCompiled(boot) && boot.generation == 1 && now > ZERO_TIME
    ensures Reachable(Start(boot, now))
  {
    assert Leads(boot, now, [], Start(boot, now));
  }

  lemma ReachableInv(s: Sys)
    requires Reachable(s)
    ensures Inv(s)
  {
    var boot, now, es :| Leads(boot, now, es, s);
    BootSatisfiesInv(boot, now);
    RunKeepsInv(Start(boot, now), es);
  }

  lemma ReachableCore(s: Sys)
    requires Reachable(s)
    ensures Core(s)
  {
    ReachableInv(s);
  }

  /** No request is ever about to burn a handle. */
  lemma NeverBurning(s: Sys, r: nat)
    requires Reachable(s) && r in s.reqs
    ensures !s.reqs[r].Burning?
  {
    ReachableCore(s);
    RequestFacts(s, r);
  }

  lemma InvParts(s: Sys)
    requires Inv(s)
    ensures Core(s) && CompiledOk(s)
  {
  }

  lemma ReachableLedger(s: Sys)
    requires Reachable(s)
    ensures s.snaps != [] && LedgerOk(s)
  {
    ReachableInv(s);
  }

  lemma ReachableLineage(s: Sys)
    requires Reachable(s)
    ensures DescentOk(s) && BoundsOk(s)
  {
    ReachableInv(s);
  }

  lemma ReachableLinear(s: Sys)
    requires Reachable(s)
    ensures Linear(s)
  {
    ReachableInv(s);
  }
}
