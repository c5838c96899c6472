/**
 Access tokens (internal/oidc/provider.go): they are checked against the snapshot
 of the request that presents them, and they die exactly with their generation.
 */
module AccessTokens {
  import opened Basics
  import opened Documents
  import opened Snapshots
  import opened RuntimeState
  import opened Access
  import opened System
  import opened Revocation
  import opened Handlers
  import opened Protocol

  /** accessUsable, for a token whose signature and expiry are in order; `forced` is the force-fail tunable. */
  predicate AccessUsable(rt: Rt, snap: Snapshot, forced: bool, t: AccessToken) {
    && UserUsable(snap, t.grant.userId) && !forced && !MfaMode(snap).ForceFail?
    && t.generation >= 1 && GenerationUsable(rt, t.generation)
    && t.grant.clientId in snap.clients.byClientId && ScopesAllowed(snap.clients.byClientId[t.grant.clientId], t.grant.scope)
  }

  /** Every token was minted under a snapshot of the run that found its grant good. */
  predicate TokenOk(snaps: seq<Snapshot>, t: AccessToken) {
    1 <= t.generation <= |snaps| && GrantOk(snaps[t.generation - 1], t.grant)
  }

  predicate MintedOk(s: Sys) { forall t :: t in s.minted ==> TokenOk(s.snaps, t) }

  lemma MinterIsOk(s: Sys, r: nat)
    requires Core(s) && r in s.reqs && s.reqs[r].Minting?
    ensures TokenOk(s.snaps, AccessToken(s.reqs[r].snap.generation, s.reqs[r].grant))
  {
    RequestFacts(s, r);
  }

  lemma OutcomeKeepsMinted(s: Sys, r: nat, o: Outcome)
    requires MintedOk(s)
    requires r in s.reqs && s.reqs[r].Minting? ==> TokenOk(s.snaps, AccessToken(s.reqs[r].snap.generation, s.reqs[r].grant))
    ensures MintedOk(After(s, r, o))
  {
  }

  lemma MutKeepsMinted(s: Sys, e: MutEvent)
    requires MintedOk(s) && s.snaps != [] && MutEnabled(s, e)
    ensures MintedOk(MutDo(s, e))
  {
    var t := MutDo(s, e);
    assert t.minted == s.minted && s.snaps <= t.snaps;
  }

  lemma EnvKeepsMinted(s: Sys, e: EnvEvent)
    requires MintedOk(s) && s.snaps != []
    ensures MintedOk(EnvDo(s, e))
  {
    assert EnvDo(s, e).minted == s.minted && EnvDo(s, e).snaps == s.snaps;
  }

  lemma RequestKeepsMinted(s: Sys, e: Event)
    requires MintedOk(s) && Enabled(s, e) && !e.Env? && !e.Mutate?
    requires s.reqs[e.r].Minting? ==> TokenOk(s.snaps, AccessToken(s.reqs[e.r].snap.generation, s.reqs[e.r].grant))
    ensures MintedOk(Do(s, e))
  {
    match e
    case Entry(r, x) => OutcomeKeepsMinted(s, r, EntryOut(s, s.reqs[r], x));
    case Login(r, x) => OutcomeKeepsMinted(s, r, LoginOut(s, s.reqs[r], x));
    case Finish(r, x) => OutcomeKeepsMinted(s, r, FinishOut(s, s.reqs[r], x));
    case Token(r, x) => OutcomeKeepsMinted(s, r, TokenOut(s, s.reqs[r], x));
  }

  lemma StepKeepsMinted(s: Sys, e: Event)
    requires MintersOk(s) && MintedOk(s) && Enabled(s, e)
    ensures MintedOk(Do(s, e))
  {
    match e
    case Env(x) => EnvKeepsMinted(s, x);
    case Mutate(x) => MutKeepsMinted(s, x);
    case _ => RequestKeepsMinted(s, e);
  }

  /** Every request about to mint has a good grant. */
  predicate MintersOk(s: Sys) {
    forall r :: r in s.reqs && s.reqs[r].Minting? ==> TokenOk(s.snaps, AccessToken(s.reqs[r].snap.generation, s.reqs[r].grant))
  }

  lemma GoodMinters(s: Sys)
    requires Inv(s)
    ensures MintersOk(s)
  {
    InvParts(s);
    forall r | r in s.reqs && s.reqs[r].Minting? ensures TokenOk(s.snaps, AccessToken(s.reqs[r].snap.generation, s.reqs[r].grant)) {
      MinterIsOk(s, r);
    }
  }

  lemma {:induction false} RunKeepsMinted(s: Sys, es: seq<Event>)
    requires Inv(s) && MintedOk(s) && IsRun(s, es)
    ensures MintedOk(Final(s, es))
    decreases |es|
  {
    if es != [] {
      GoodMinters(s);
      StepKeepsMinted(s, es[0]);
      StepKeepsInv(s, es[0]);
      RunKeepsMinted(Do(s, es[0]), es[1..]);
    }
  }

  lemma ReachableMinted(s: Sys)
    requires Reachable(s)
    ensures MintedOk(s)
  {
    var boot, now, es :| Leads(boot, now, es, s);
    BootSatisfiesInv(boot, now);
    RunKeepsMinted(Start(boot, now), es);
  }

  /** Inside the window the token's grant is as good under the request's snapshot as it was when it was minted. */
  lemma TokenCarries(s: Sys, snap: Snapshot, t: AccessToken)
    requires StoreOk(s) && Knows(s.snaps, snap) && s.rt.minGen <= snap.generation
    requires TokenOk(s.snaps, t) && s.rt.minGen <= t.generation
    ensures GrantOk(snap, t.grant)
  {
    var minter := s.snaps[t.generation - 1];
    AlikeGrant(minter, Last(s.snaps), t.grant);
    AlikeGrant(snap, Last(s.snaps), t.grant);
  }

  lemma GoodGrantIsUsable(rt: Rt, snap: Snapshot, forced: bool, t: AccessToken)
    requires t.generation >= 1
    ensures t.generation < rt.minGen ==> !AccessUsable(rt, snap, forced, t)
    ensures GrantOk(snap, t.grant) && t.generation >= rt.minGen ==> (AccessUsable(rt, snap, forced, t) <==> !forced)
  {
  }

  lemma CoreFacts(s: Sys, r: nat)
    requires Reachable(s) && r in s.reqs
    ensures StoreOk(s) && Knows(s.snaps, s.reqs[r].snap)
  {
    ReachableCore(s);
    RequestFacts(s, r);
  }

  /**
   Whoever presents a token under an admitted snapshot: it is accepted if and only
   if its own generation is still admitted and force-fail is not switched on. The
   user, the client, its scopes and the MFA mode cannot have changed in between.
   */
  lemma TokensDieWithTheirGeneration(s: Sys, r: nat, t: AccessToken, forced: bool)
    requires Reachable(s) && r in s.reqs && GenerationUsable(s.rt, s.reqs[r].snap.generation) && t in s.minted
    ensures AccessUsable(s.rt, s.reqs[r].snap, forced, t) <==> t.generation >= s.rt.minGen && !forced
  {
    ReachableMinted(s);
    CoreFacts(s, r);
    if t.generation >= s.rt.minGen {
      TokenCarries(s, s.reqs[r].snap, t);
    }
    GoodGrantIsUsable(s.rt, s.reqs[r].snap, forced, t);
  }
}
