/** What the invariant means: the main results about reachable states and about single steps. */
module Theorems {
  import opened Basics
  import opened Documents
  import opened Snapshots
  import opened RuntimeState
  import opened Access
  import opened System
  import opened Revocation
  import opened Handlers
  import opened TotpLedger
  import opened Lineage
  import opened Linearity
  import opened Protocol

  // ------------------------------------------------------ the admission window

  /**
   Whatever the interleaving: every snapshot from the admission generation to the
   active one has the active security view; generations count swaps from 1; and
   the admission generation is above the active one, by one, only in mid-mutation.
   */
  lemma AdmissionWindow(s: Sys)
    requires Reachable(s)
    ensures s.snaps != [] && forall i :: 0 <= i < |s.snaps| ==> s.snaps[i].generation == i + 1
    ensures forall i :: 0 <= i < |s.snaps| && s.rt.minGen <= s.snaps[i].generation ==> ViewOf(s.snaps[i]) == ViewOf(Active(s))
    ensures s.rt.minGen <= |s.snaps| + 1
    ensures s.rt.minGen == |s.snaps| + 1 ==> s.phase.Revoked? || s.phase.Syncing?
  {
    ReachableCore(s);
  }

  lemma SubmitKeepsAdmission(s: Sys, p: Pending, newId: string, next: Option<Request>)
    ensures Submit(s, p, newId, next).rt.minGen == s.rt.minGen
  {
  }

  lemma EntryKeepsAdmission(s: Sys, q: Request, x: EntryEvent)
    requires EntryEnabled(s, q, x)
    ensures EntryOut(s, q, x).rt.minGen == s.rt.minGen
  {
    match x
    case AuthorizePutPending(query, newId) => SubmitKeepsAdmission(s, OidcPending(q.snap, query), newId, None);
    case SamlPutPending(issuer, acs, requestId, relay, newId) =>
      SubmitKeepsAdmission(s, SamlPending(q.snap, issuer, acs, requestId, relay), newId, Some(Stored(q.snap, newId)));
    case WsFedPutPending(realm, reply, context, newId) =>
      SubmitKeepsAdmission(s, WsFedPending(q.snap, realm, reply, context), newId, Some(Stored(q.snap, newId)));
    case _ =>
  }

  lemma LoginKeepsAdmission(s: Sys, q: Request, x: LoginEvent)
    requires LoginEnabled(s, q, x)
    ensures LoginOut(s, q, x).rt.minGen == s.rt.minGen
  {
    match x
    case LoginReadPending(pid, _, _) => ReadPendingShrinks(s.rt, pid, s.now);
    case _ =>
  }

  lemma FinishKeepsAdmission(s: Sys, q: Request, x: FinishEvent)
    requires FinishEnabled(s, q, x)
    ensures FinishOut(s, q, x).rt.minGen == s.rt.minGen
  {
    match x
    case DenyReadPending(_) =>
    case AnswerTakePending => TakePendingShrinks(s.rt, q.pid, s.now);
    case CompleteTakePending => TakePendingShrinks(s.rt, q.pid, s.now);
    case _ =>
  }

  lemma TokenKeepsAdmission(s: Sys, q: Request, x: TokenEvent)
    requires TokenEnabled(s, q, x)
    ensures TokenOut(s, q, x).rt.minGen == s.rt.minGen
  {
  }

  lemma EnvKeepsAdmission(s: Sys, x: EnvEvent)
    requires s.snaps != []
    ensures EnvDo(s, x).rt.minGen == s.rt.minGen
  {
  }

  lemma RequestKeepsAdmission(s: Sys, e: Event)
    requires Enabled(s, e) && !e.Mutate?
    ensures Do(s, e).rt.minGen == s.rt.minGen
  {
    match e
    case Env(x) => EnvKeepsAdmission(s, x);
    case Entry(r, x) => EntryKeepsAdmission(s, s.reqs[r], x);
    case Login(r, x) => LoginKeepsAdmission(s, s.reqs[r], x);
    case Finish(r, x) => FinishKeepsAdmission(s, s.reqs[r], x);
    case Token(r, x) => TokenKeepsAdmission(s, s.reqs[r], x);
  }

  lemma MutationKeepsAdmission(s: Sys, x: MutEvent)
    requires StoreOk(s) && MutEnabled(s, x)
    ensures MutDo(s, x).rt.minGen >= s.rt.minGen
  {
  }

  lemma InvStoreOk(s: Sys)
    requires Inv(s)
    ensures StoreOk(s)
  {
    InvParts(s);
  }

  lemma StepKeepsAdmission(s: Sys, e: Event)
    requires StoreOk(s) && Enabled(s, e)
    ensures Do(s, e).rt.minGen >= s.rt.minGen
  {
    if e.Mutate? {
      MutationKeepsAdmission(s, e.mut);
    } else {
      RequestKeepsAdmission(s, e);
    }
  }

  lemma {:induction false} RunKeepsAdmission(s: Sys, es: seq<Event>)
    requires Inv(s) && IsRun(s, es)
    ensures Final(s, es).rt.minGen >= s.rt.minGen
    decreases |es|
  {
    if es != [] {
      InvStoreOk(s);
      StepKeepsAdmission(s, es[0]);
      StepKeepsInv(s, es[0]);
      RunKeepsAdmission(Do(s, es[0]), es[1..]);
    }
  }

  /** The admission generation never decreases, over any continuation of any run. */
  lemma AdmissionNeverLowered(s: Sys, es: seq<Event>)
    requires Reachable(s) && IsRun(s, es)
    ensures Final(s, es).rt.minGen >= s.rt.minGen
  {
    ReachableInv(s);
    RunKeepsAdmission(s, es);
  }

  // --------------------------------------------------------- what rows are worth

  /** At every reachable moment every stored row is admitted, and good under the active snapshot. */
  lemma StoredRowsAreGood(s: Sys)
    requires Reachable(s)
    ensures s.snaps != []
    ensures forall k :: k in s.rt.sessions ==>
              s.rt.minGen <= s.rt.sessions[k].generation && UserUsable(Active(s), s.rt.sessions[k].userId)
    ensures forall k :: k in s.rt.codes ==>
              s.rt.minGen <= s.rt.codes[k].generation && !GrantRevoked(Active(s), GrantOfCode(s.rt.codes[k]))
    ensures forall k :: k in s.rt.refresh ==>
              s.rt.minGen <= s.rt.refresh[k].generation && !GrantRevoked(Active(s), GrantOfRefresh(s.rt.refresh[k]))
  {
    ReachableCore(s);
    var ok := WorthIn(s);
    forall k | k in s.rt.sessions ensures s.rt.minGen <= s.rt.sessions[k].generation && UserUsable(Active(s), s.rt.sessions[k].userId) {
      assert ok.session(s.rt.sessions[k]);
    }
    forall k | k in s.rt.codes ensures s.rt.minGen <= s.rt.codes[k].generation && !GrantRevoked(Active(s), GrantOfCode(s.rt.codes[k])) {
      assert ok.code(s.rt.codes[k]);
    }
    forall k | k in s.rt.refresh ensures s.rt.minGen <= s.rt.refresh[k].generation && !GrantRevoked(Active(s), GrantOfRefresh(s.rt.refresh[k])) {
      assert ok.refresh(s.rt.refresh[k]);
    }
  }

  /** A stored pending row is usable under the active snapshot, exactly unless its WS-Fed realm is a bare client id. */
  lemma StoredPendingsAreUsable(s: Sys, id: string)
    requires Reachable(s) && id in s.rt.pending
    ensures s.snaps != [] && s.rt.minGen <= s.rt.pending[id].generation
    ensures PendingUsable(Active(s), s.rt.pending[id]) <==>
              !(s.rt.pending[id].protocol.WsFed? && RealmIsBareId(Active(s), s.rt.pending[id].spEntityId))
  {
    ReachableCore(s);
    StoredPendingWorth(s, id);
  }

  lemma StoredPendingWorth(s: Sys, id: string)
    requires Core(s) && id in s.rt.pending
    ensures s.rt.minGen <= s.rt.pending[id].generation && PendingOk(Active(s), s.rt.pending[id])
  {
    assert WorthIn(s).pending(s.rt.pending[id]);
  }

  /** No request whose snapshot is usable reaches the revoked branch of writeTokens; nothing is ever burnt. */
  lemma RevokedBranchIsDead(s: Sys, r: nat)
    requires Reachable(s) && r in s.reqs
    ensures !s.reqs[r].Burning?
    ensures s.reqs[r].Issuing? && GenerationUsable(s.rt, s.reqs[r].snap.generation) ==>
              !GrantRevoked(s.reqs[r].snap, s.reqs[r].grant)
  {
    ReachableCore(s);
    RequestFacts(s, r);
  }

  /** Row keys are row ids, "" is no key, and every table holds at most 4096 rows. */
  lemma TablesAreBounded(s: Sys)
    requires Reachable(s)
    ensures TablesOk(s.rt)
  {
    ReachableLineage(s);
  }

  // ---------------------------------------------------------------- lineage

  /** Every place an authorization request occupies: rows, requests that took one, answers sent. */
  function PlacesOf(s: Sys, lineage: nat): set<Place> {
    (set id | id in s.rt.pending && LineageAt(s, AtRow(PendingHandle(id))) == Some(lineage) :: AtRow(PendingHandle(id)))
    + (set id | id in s.rt.codes && LineageAt(s, AtRow(CodeHandle(id))) == Some(lineage) :: AtRow(CodeHandle(id)))
    + (set id | id in s.rt.refresh && LineageAt(s, AtRow(RefreshHandle(id))) == Some(lineage) :: AtRow(RefreshHandle(id)))
    + (set r | r in s.reqs && LineageAt(s, AtRequest(r)) == Some(lineage) :: AtRequest(r))
    + (set i | 0 <= i < |s.answers| && LineageAt(s, AtAnswer(i)) == Some(lineage) :: AtAnswer(i))
  }

  lemma SingletonSize<T>(xs: set<T>)
    requires forall x, y :: x in xs && y in xs ==> x == y
    ensures |xs| <= 1
  {
    if xs != {} {
      var x :| x in xs;
      assert xs == {x};
    }
  }

  /**
   Lineage is linear under any concurrency: pending, code, refresh handle,
   in-flight redemption and returned answer together never exceed one.
   */
  lemma OneLivePlacePerRequest(s: Sys, lineage: nat)
    requires Reachable(s)
    ensures |PlacesOf(s, lineage)| <= 1
  {
    ReachableLinear(s);
    LinearPlaces(s, lineage);
  }

  lemma LinearPlaces(s: Sys, lineage: nat)
    requires Linear(s)
    ensures |PlacesOf(s, lineage)| <= 1
  {
    forall p, p' | p in PlacesOf(s, lineage) && p' in PlacesOf(s, lineage) ensures p == p' {
      assert LineageAt(s, p) == Some(lineage) && LineageAt(s, p') == Some(lineage);
    }
    SingletonSize(PlacesOf(s, lineage));
  }

  /** A pending row yields at most one returned response. */
  lemma AnsweredOnce(s: Sys, i: nat, j: nat)
    requires Reachable(s) && i < j < |s.answers|
    ensures s.answers[i] != s.answers[j]
  {
    ReachableLinear(s);
    assert LineageAt(s, AtAnswer(i)) == Some(s.answers[i]) && LineageAt(s, AtAnswer(j)) == Some(s.answers[j]);
  }

  /**
   A live refresh row is the tip of its chain, and allows no more than any of its
   ancestors: same client, scope never grown, user and MFA fixed since the code.
   */
  lemma RefreshNeverOutgrowsItsOrigin(s: Sys, token: string)
    requires Reachable(s) && token in s.rt.refresh
    ensures RefreshHandle(token) in s.born
    ensures
      var chain, row := s.born[RefreshHandle(token)].chain, s.rt.refresh[token];
      && ChainOk(chain) && Tip(chain) == RefreshLink(GrantOfRefresh(row))
      && forall i :: 0 <= i < |chain| ==>
           && ClientOf(chain[i]) == row.clientId && ScopeSubset(row.scope, ScopeOf(chain[i]))
           && (!chain[i].PendingLink? ==> chain[i].grant.userId == row.userId && chain[i].grant.mfa == row.mfa)
  {
    ReachableLineage(s);
    ReadRefreshBorn(s, token);
    var chain, row := s.born[RefreshHandle(token)].chain, s.rt.refresh[token];
    forall i | 0 <= i < |chain|
      ensures ClientOf(chain[i]) == row.clientId && ScopeSubset(row.scope, ScopeOf(chain[i]))
      ensures !chain[i].PendingLink? ==> chain[i].grant.userId == row.userId && chain[i].grant.mfa == row.mfa
    {
      ChainNarrows(chain, i, |chain| - 1);
    }
  }

  // ------------------------------------------------------------------- TOTP

  /** Ledger and overlay mention only users of the active snapshot, at every interleaving point. */
  lemma LedgerMentionsActiveUsers(s: Sys)
    requires Reachable(s)
    ensures s.snaps != [] && OnlyUsersOf(s.rt, Last(s.snaps)) && SeedsCurrent(s.rt.lastStep, s.recordedBy, s.snaps)
  {
    ReachableLedger(s);
    LedgerFacts(s);
  }

  lemma LedgerFacts(s: Sys)
    requires s.snaps != [] && LedgerOk(s)
    ensures OnlyUsersOf(s.rt, Last(s.snaps)) && SeedsCurrent(s.rt.lastStep, s.recordedBy, s.snaps)
  {
  }

  /** A login that holds a snapshot older than a change of the user's seed can record nothing. */
  lemma OldSeedRecordsNothing(s: Sys, r: nat, later: int)
    requires Reachable(s) && r in s.reqs && s.reqs[r].Verified?
    requires s.reqs[r].snap.generation <= later <= |s.snaps|
    requires later >= 1 && SeedOf(s.snaps[later - 1], s.reqs[r].user.id) != SeedOf(s.reqs[r].snap, s.reqs[r].user.id)
    ensures RecordStep(s.rt, s.reqs[r].user.id, s.reqs[r].step, s.reqs[r].snap.generation) == (s.rt, false)
  {
    ReachableCore(s);
    RequestFacts(s, r);
    StaleLoginRecordsNothing(s, s.reqs[r].snap, s.reqs[r].user.id, s.reqs[r].step, later);
  }

  /** Between clears, accepted steps strictly increase, and each is within one of its submission's step. */
  lemma AcceptedStepsIncrease(s: Sys, i: nat, j: nat)
    requires Reachable(s) && i <= j < |s.totpLog| && s.totpLog[i].Accepted? && s.totpLog[j].Accepted?
    requires s.totpLog[i].user == s.totpLog[j].user
    requires forall k :: i < k < j ==> !ClearsUser(s.totpLog[k], s.totpLog[i].user)
    ensures i < j ==> s.totpLog[i].step < s.totpLog[j].step
    ensures TotpLedger.InWindow(s.totpLog[j])
  {
    ReachableLedger(s);
    if i < j {
      StepsIncrease(s.totpLog, i, j);
    }
    AcceptedInWindow(s.totpLog, j);
  }
}
