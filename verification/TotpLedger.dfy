/**
 The TOTP replay ledger and overlay over whole runs: they mention only users of
 the active snapshot, every entry was recorded under the seed that is still
 active, and between clears the accepted steps of a user strictly increase.
 */
module TotpLedger {
  import opened Basics
  import opened Documents
  import opened Snapshots
  import opened RuntimeState
  import opened Access
  import opened System
  import opened Revocation
  import Totp

  // ------------------------------------------------------------ the log

  /** The last step accepted for the user since its ledger entry was last cleared. */
  function LastAccepted(log: seq<TotpEvent>, user: string): Option<int> {
    if log == [] then None
    else
      match log[|log| - 1]
      case Accepted(u, step, _) => if u == user then Some(step) else LastAccepted(log[..|log| - 1], user)
      case Cleared(u) => if u == user then None else LastAccepted(log[..|log| - 1], user)
      case ClearedAll => None
  }

  /** Each acceptance is above the last one since the clear, and within one of its submission's time step. */
  predicate LogOk(log: seq<TotpEvent>)
    decreases |log|
  {
    log == [] ||
    (&& LogOk(log[..|log| - 1])
     && (log[|log| - 1].Accepted? ==>
           && InWindow(log[|log| - 1])
           && var before := LastAccepted(log[..|log| - 1], log[|log| - 1].user);
           before.Some? ==> before.value < log[|log| - 1].step))
  }

  predicate InWindow(e: TotpEvent)
    requires e.Accepted?
  {
    Totp.TimeStep(e.submitted) - 1 <= e.step <= Totp.TimeStep(e.submitted) + 1
  }

  predicate ClearsUser(e: TotpEvent, user: string) { e.ClearedAll? || (e.Cleared? && e.user == user) }

  /** An acceptance with no clear after it is at most the last accepted step. */
  lemma {:induction false} AcceptedBounded(log: seq<TotpEvent>, i: nat)
    requires LogOk(log) && i < |log| && log[i].Accepted?
    requires forall k :: i < k < |log| ==> !ClearsUser(log[k], log[i].user)
    ensures LastAccepted(log, log[i].user).Some? && log[i].step <= LastAccepted(log, log[i].user).value
    decreases |log|
  {
    if i < |log| - 1 {
      var init := log[..|log| - 1];
      assert init[i] == log[i] && !ClearsUser(log[|log| - 1], log[i].user);
      AcceptedBounded(init, i);
    }
  }

  /** No step is accepted twice: between clears the accepted steps strictly increase. */
  lemma {:induction false} StepsIncrease(log: seq<TotpEvent>, i: nat, j: nat)
    requires LogOk(log) && i < j < |log|
    requires log[i].Accepted? && log[j].Accepted? && log[i].user == log[j].user
    requires forall k :: i < k < j ==> !ClearsUser(log[k], log[i].user)
    ensures log[i].step < log[j].step
    decreases |log|
  {
    var init := log[..|log| - 1];
    if j == |log| - 1 {
      AcceptedBounded(init, i);
    } else {
      StepsIncrease(init, i, j);
    }
  }

  lemma {:induction false} AcceptedInWindow(log: seq<TotpEvent>, i: nat)
    requires LogOk(log) && i < |log| && log[i].Accepted?
    ensures InWindow(log[i])
    decreases |log|
  {
    if i < |log| - 1 {
      AcceptedInWindow(log[..|log| - 1], i);
    }
  }

  // ------------------------------------------------------- the invariant

  /** The log explains the ledger. */
  ghost predicate Explains(log: seq<TotpEvent>, ledger: map<string, int>) {
    LogOk(log) && forall u :: LastAccepted(log, u) == Lookup(ledger, u)
  }

  predicate OnlyUsersOf(rt: Rt, snap: Snapshot) {
    rt.lastStep.Keys <= snap.users.byId.Keys && rt.overlay.Keys <= snap.users.byId.Keys
  }

  /** Every ledger entry was recorded under a snapshot whose compiled seed for the user is that of the active one. */
  predicate SeedsCurrent(ledger: map<string, int>, by_: map<string, int>, snaps: seq<Snapshot>)
    requires snaps != []
  {
    forall u :: u in ledger ==>
      u in by_ && 1 <= by_[u] <= |snaps| && SeedOf(snaps[by_[u] - 1], u) == SeedOf(Last(snaps), u)
  }

  /** While the ledger is being synced, every entry still to be cleared is on the list. */
  predicate SyncCovers(phase: Phase, rt: Rt, snaps: seq<Snapshot>)
    requires snaps != []
  {
    phase.Syncing? ==>
      forall u :: u in rt.lastStep.Keys + rt.overlay.Keys && u in StaleSeeds(Last(snaps), phase.next) ==> u in phase.todo
  }

  predicate StepInWindow(q: Request) {
    q.Verified? ==> Totp.TimeStep(q.submitted) - 1 <= q.step <= Totp.TimeStep(q.submitted) + 1
  }

  ghost predicate LedgerOk(s: Sys)
    requires s.snaps != []
  {
    && Explains(s.totpLog, s.rt.lastStep)
    && OnlyUsersOf(s.rt, Last(s.snaps))
    && SeedsCurrent(s.rt.lastStep, s.recordedBy, s.snaps)
    && SyncCovers(s.phase, s.rt, s.snaps)
    && All(s.reqs, StepInWindow)
  }

  // --------------------------------------------------------------- steps

  lemma ClearedExplains(log: seq<TotpEvent>, ledger: map<string, int>, user: string)
    requires Explains(log, ledger)
    ensures Explains(log + [Cleared(user)], ledger - {user})
  {
    assert (log + [Cleared(user)])[..|log|] == log;
  }

  lemma ClearedAllExplains(log: seq<TotpEvent>)
    requires LogOk(log)
    ensures Explains(log + [ClearedAll], map[])
  {
    assert (log + [ClearedAll])[..|log|] == log;
  }

  lemma AcceptedExplains(log: seq<TotpEvent>, ledger: map<string, int>, e: TotpEvent)
    requires Explains(log, ledger) && e.Accepted? && InWindow(e)
    requires e.user in ledger ==> ledger[e.user] < e.step
    ensures Explains(log + [e], ledger[e.user := e.step])
  {
    var longer := log + [e];
    assert longer[..|longer| - 1] == log && longer[|longer| - 1] == e;
    assert LastAccepted(log, e.user) == Lookup(ledger, e.user);
    assert LogOk(longer);
    forall u ensures LastAccepted(longer, u) == Lookup(ledger[e.user := e.step], u) {
      assert LastAccepted(log, u) == Lookup(ledger, u);
    }
  }

  /** Inside the window every snapshot gives a user the same seed. */
  lemma SeedsAgree(s: Sys, snap: Snapshot, later: int, user: string)
    requires StoreOk(s) && Knows(s.snaps, snap) && snap.generation <= later <= |s.snaps| && s.rt.minGen <= snap.generation
    ensures SeedOf(s.snaps[later - 1], user) == SeedOf(snap, user)
  {
    assert SameSecurity(s.snaps[snap.generation - 1], Last(s.snaps));
    assert SameSecurity(s.snaps[later - 1], Last(s.snaps));
  }

  /** Once any later snapshot gave the user another seed, or none, an older login records nothing. */
  lemma StaleLoginRecordsNothing(s: Sys, snap: Snapshot, user: string, step: int, later: int)
    requires StoreOk(s) && Knows(s.snaps, snap) && snap.generation <= later <= |s.snaps|
    requires SeedOf(s.snaps[later - 1], user) != SeedOf(snap, user)
    ensures RecordStep(s.rt, user, step, snap.generation) == (s.rt, false)
  {
    if s.rt.minGen <= snap.generation {
      SeedsAgree(s, snap, later, user);
    }
  }

  /** With an unchanged security view no seed is stale. */
  lemma SameSeedsNoneStale(s: Sys)
    requires StoreOk(s)
    ensures s.phase.Syncing? && s.rt.minGen <= |s.snaps| ==> StaleSeeds(Last(s.snaps), s.phase.next) == {}
  {
  }

  /** The ledger's part of the state is the same, whatever else moved. */
  lemma LedgerKept(s: Sys, s': Sys)
    requires s.snaps != [] && LedgerOk(s)
    requires s'.snaps == s.snaps && s'.phase == s.phase && s'.totpLog == s.totpLog && s'.recordedBy == s.recordedBy
    requires s'.rt.lastStep == s.rt.lastStep && s'.rt.overlay == s.rt.overlay && All(s'.reqs, StepInWindow)
    ensures LedgerOk(s')
  {
  }

  /** The outcome leaves ledger, overlay and log alone. */
  predicate Quiet(rt: Rt, o: Outcome) {
    && o.rt.lastStep == rt.lastStep && o.rt.overlay == rt.overlay && o.accepted.None?
    && (o.next.Some? ==> StepInWindow(o.next.value))
  }

  lemma QuietKeepsLedger(s: Sys, r: nat, o: Outcome)
    requires s.snaps != [] && LedgerOk(s) && Quiet(s.rt, o)
    ensures LedgerOk(After(s, r, o))
  {
    LedgerKept(s, After(s, r, o));
  }

  lemma SeedRecorded(ledger: map<string, int>, by_: map<string, int>, snaps: seq<Snapshot>, user: string, step: int, generation: int)
    requires snaps != [] && SeedsCurrent(ledger, by_, snaps) && 1 <= generation <= |snaps|
    requires SeedOf(snaps[generation - 1], user) == SeedOf(Last(snaps), user)
    ensures SeedsCurrent(ledger[user := step], by_[user := generation], snaps)
  {
  }

  lemma UserRecorded(rt: Rt, snap: Snapshot, user: string, step: int)
    requires OnlyUsersOf(rt, snap) && user in snap.users.byId
    ensures OnlyUsersOf(rt.(lastStep := rt.lastStep[user := step]), snap)
  {
    assert rt.lastStep[user := step].Keys == rt.lastStep.Keys + {user};
  }

  /** A recorded step: the user is active, the seed is the active one, the step is new and in its window. */
  lemma RecordedKeepsLedger(s: Sys, q: Request, reqs: map<nat, Request>)
    requires NumberedOk(s.snaps) && LedgerOk(s) && q.Verified? && 1 <= q.snap.generation <= |s.snaps|
    requires q.user.id in Last(s.snaps).users.byId
    requires SeedOf(s.snaps[q.snap.generation - 1], q.user.id) == SeedOf(Last(s.snaps), q.user.id)
    requires q.user.id in s.rt.lastStep ==> s.rt.lastStep[q.user.id] < q.step
    requires StepInWindow(q) && All(reqs, StepInWindow)
    requires s.phase.Syncing? ==> StaleSeeds(Last(s.snaps), s.phase.next) == {}
    ensures LedgerOk(s.(rt := s.rt.(lastStep := s.rt.lastStep[q.user.id := q.step]), reqs := reqs,
                        totpLog := s.totpLog + [Accepted(q.user.id, q.step, q.submitted)],
                        recordedBy := s.recordedBy[q.user.id := q.snap.generation]))
  {
    AcceptedExplains(s.totpLog, s.rt.lastStep, Accepted(q.user.id, q.step, q.submitted));
    UserRecorded(s.rt, Last(s.snaps), q.user.id, q.step);
    SeedRecorded(s.rt.lastStep, s.recordedBy, s.snaps, q.user.id, q.step, q.snap.generation);
  }

  /** What admission proves about a login that is about to record its step. */
  predicate Recordable(s: Sys, q: Request)
    requires s.snaps != [] && q.Verified?
  {
    && 1 <= q.snap.generation <= |s.snaps| && q.user.id in Last(s.snaps).users.byId
    && SeedOf(s.snaps[q.snap.generation - 1], q.user.id) == SeedOf(Last(s.snaps), q.user.id)
    && (s.phase.Syncing? ==> StaleSeeds(Last(s.snaps), s.phase.next) == {})
  }

  lemma AdmittedIsRecordable(s: Sys, q: Request)
    requires Core(s) && Knows(s.snaps, q.snap) && ProgressOk(s.rt.minGen, q) && q.Verified?
    ensures s.rt.minGen <= q.snap.generation ==> Recordable(s, q)
  {
    if s.rt.minGen <= q.snap.generation {
      SeedsAgree(s, q.snap, |s.snaps|, q.user.id);
      SameSeedsNoneStale(s);
    }
  }

  lemma RecordKeepsLedger(s: Sys, r: nat, q: Request)
    requires NumberedOk(s.snaps) && LedgerOk(s) && r in s.reqs && s.reqs[r] == q && q.Verified?
    requires s.rt.minGen <= q.snap.generation ==> Recordable(s, q)
    requires q.snap.generation != 0
    ensures LedgerOk(After(s, r, Record(s, q)))
  {
    if RecordStep(s.rt, q.user.id, q.step, q.snap.generation).1 {
      assert StepInWindow(s.reqs[r]);
      RecordedKeepsLedger(s, q, s.reqs[r := Authenticated(q.snap, q.pid, q.user, true)]);
    } else {
      LedgerKept(s, After(s, r, Record(s, q)));
    }
  }

  lemma ClearKeepsLedger(s: Sys, s': Sys, user: string)
    requires s.snaps != [] && LedgerOk(s)
    requires s'.snaps == s.snaps && s'.reqs == s.reqs && s'.recordedBy == s.recordedBy
    requires s'.totpLog == s.totpLog + [Cleared(user)] && s'.rt.lastStep == s.rt.lastStep - {user}
    requires s'.rt.overlay.Keys <= Last(s.snaps).users.byId.Keys && SyncCovers(s'.phase, s'.rt, s'.snaps)
    ensures LedgerOk(s')
  {
    ClearedExplains(s.totpLog, s.rt.lastStep, user);
  }

  lemma EnvKeepsLedger(s: Sys, e: EnvEvent)
    requires s.snaps != [] && LedgerOk(s) && EnvEnabled(s, e)
    ensures LedgerOk(EnvDo(s, e))
  {
    match e
    case EnrollTotp(user, _) => ClearKeepsLedger(s, EnvDo(s, e), user);
    case ClearTotp(user) => ClearKeepsLedger(s, EnvDo(s, e), user);
    case _ => LedgerKept(s, EnvDo(s, e));
  }

  lemma SwapKeepsLedger(s: Sys)
    requires NumberedOk(s.snaps) && LedgerOk(s) && s.phase.Syncing? && s.phase.todo == {}
    ensures LedgerOk(MutDo(s, Swap))
  {
    var s', next := MutDo(s, Swap), s.phase.next;
    assert Last(s'.snaps) == next;
    forall u | u in s.rt.lastStep.Keys + s.rt.overlay.Keys
      ensures SeedOf(next, u) == SeedOf(Last(s.snaps), u) && u in next.users.byId
    {
      assert u !in StaleSeeds(Last(s.snaps), next);
    }
  }

  lemma SyncOneKeepsLedger(s: Sys, user: string)
    requires NumberedOk(s.snaps) && LedgerOk(s) && s.phase.Syncing? && user in s.phase.todo
    ensures LedgerOk(MutDo(s, SyncOne(user)))
  {
    ClearKeepsLedger(s, MutDo(s, SyncOne(user)), user);
  }

  lemma ResetKeepsLedger(s: Sys)
    requires NumberedOk(s.snaps) && LedgerOk(s) && s.phase.Revoked? && s.phase.reset
    ensures LedgerOk(MutDo(s, ResetRuntime))
  {
    ClearedAllExplains(s.totpLog);
  }

  lemma MutKeepsLedger(s: Sys, e: MutEvent)
    requires NumberedOk(s.snaps) && LedgerOk(s) && MutEnabled(s, e)
    ensures LedgerOk(MutDo(s, e))
  {
    match e
    case ResetRuntime => ResetKeepsLedger(s);
    case SyncOne(user) => SyncOneKeepsLedger(s, user);
    case Swap => SwapKeepsLedger(s);
    case _ =>
  }

  lemma EntryIsQuiet(s: Sys, q: Request, e: EntryEvent)
    requires EntryEnabled(s, q, e)
    ensures Quiet(s.rt, EntryOut(s, q, e))
  {
    match e
    case AuthorizePutCode(query, newId) =>
      var code := CodeFor(q.snap, query, q.session.value, s.now, newId);
      StoreCodeIsQuiet(s, code, Root(s, LinkOfCode(code)));
    case AuthorizePutPending(query, newId) => SubmitIsQuiet(s, OidcPending(q.snap, query), newId, None);
    case SamlPutPending(issuer, acs, requestId, relay, newId) =>
      SubmitIsQuiet(s, SamlPending(q.snap, issuer, acs, requestId, relay), newId, Some(Stored(q.snap, newId)));
    case WsFedPutPending(realm, reply, context, newId) =>
      SubmitIsQuiet(s, WsFedPending(q.snap, realm, reply, context), newId, Some(Stored(q.snap, newId)));
    case _ =>
  }

  lemma SubmitIsQuiet(s: Sys, p: Pending, newId: string, next: Option<Request>)
    requires next.Some? ==> next.value.Stored?
    ensures Quiet(s.rt, Submit(s, p, newId, next))
  {
  }

  lemma StoreCodeIsQuiet(s: Sys, code: AuthCode, birth: Birth)
    ensures Quiet(s.rt, StoreCode(s, code, birth))
  {
  }

  lemma LoginIsQuiet(s: Sys, q: Request, e: LoginEvent)
    requires LoginEnabled(s, q, e) && !e.LoginRecord?
    ensures Quiet(s.rt, LoginOut(s, q, e))
  {
    match e
    case LoginVerify(hotp, code) => VerifyIsQuiet(s, q, hotp, code);
    case LoginPutSession(newId) => OpenSessionIsQuiet(s, q, newId);
    case _ =>
  }

  lemma VerifyIsQuiet(s: Sys, q: Request, hotp: (Bytes, int) -> string, code: string)
    requires q.Challenged?
    ensures Quiet(s.rt, VerifyCode(s, q, hotp, code))
  {
  }

  lemma OpenSessionIsQuiet(s: Sys, q: Request, newId: string)
    requires q.Authenticated?
    ensures Quiet(s.rt, OpenSession(s, q, newId))
  {
  }

  lemma FinishIsQuiet(s: Sys, q: Request, e: FinishEvent)
    requires FinishEnabled(s, q, e)
    ensures Quiet(s.rt, FinishOut(s, q, e))
  {
    match e
    case CompletePutCode(newId) =>
      var code := CompletedCode(q, s.now, newId);
      StoreCodeIsQuiet(s, code, Extend(q.birth, LinkOfCode(code)));
    case CompleteTakePending => TakeIsQuiet(s, q);
    case _ =>
  }

  lemma TakeIsQuiet(s: Sys, q: Request)
    requires q.HoldsPending?
    ensures Quiet(s.rt, TakeForCode(s, q))
  {
  }

  lemma TokenIsQuiet(s: Sys, q: Request, e: TokenEvent)
    requires TokenEnabled(s, q, e)
    ensures Quiet(s.rt, TokenOut(s, q, e))
  {
  }
}
