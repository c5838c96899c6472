/**
 What clients present at the token endpoint, and what they get for it. A run is
 watched from outside: at each redemption the presented values and the row they
 name are noted, and at each new refresh handle the note of its request is kept.
 */
module Presentations {
  import opened Basics
  import opened Snapshots
  import opened RuntimeState
  import opened Access
  import opened System
  import opened Revocation
  import opened Handlers
  import opened Lineage
  import opened Protocol
  import RL = RuntimeLaws

  // ------------------------------------------------------------- watching

  datatype Presentation =
    | CodeUse(snap: Snapshot, client: string, redirect: string, digest: string, at: int, code: Option<AuthCode>, birth: Birth)
    | RefreshUse(snap: Snapshot, client: string, token: string, requested: string, at: int, row: Option<Refresh>, birth: Birth)

  datatype Traced = Traced(sys: Sys, shown: map<nat, Presentation>, redeemed: map<string, Presentation>)

  /** What a token request presents, and the row it names at that moment. */
  function Note(s: Sys, r: nat, e: TokenEvent): Option<Presentation> {
    if r !in s.reqs then None
    else
      match e
      case RedeemCode(code, clientId, redirect, digest) =>
        Some(CodeUse(s.reqs[r].snap, clientId, redirect, digest, s.now, Lookup(s.rt.codes, code), BirthOf(s, CodeHandle(code))))
      case ReadRefresh(token, clientId, requested) =>
        Some(RefreshUse(s.reqs[r].snap, clientId, token, requested, s.now, Lookup(s.rt.refresh, token), BirthOf(s, RefreshHandle(token))))
      case _ => None
  }

  function Noted(t: Traced, e: Event): map<nat, Presentation> {
    if e.Token? && Note(t.sys, e.r, e.token).Some? then t.shown[e.r := Note(t.sys, e.r, e.token).value] else t.shown
  }

  /** The handle a step brought into being. */
  function Kept(t: Traced, e: Event, born: map<Handle, Birth>): map<string, Presentation> {
    if e.Token? && e.token.StoreRefresh? && RefreshHandle(e.token.newId) in born && RefreshHandle(e.token.newId) !in t.sys.born && e.r in t.shown
    then t.redeemed[e.token.newId := t.shown[e.r]]
    else t.redeemed
  }

  ghost function Watch(t: Traced, e: Event): Traced
    requires Enabled(t.sys, e)
  {
    Traced(Do(t.sys, e), Noted(t, e), Kept(t, e, Do(t.sys, e).born))
  }

  ghost function Watched(t: Traced, es: seq<Event>): Traced
    requires IsRun(t.sys, es)
    decreases |es|
  {
    if es == [] then t else Watched(Watch(t, es[0]), es[1..])
  }

  // ------------------------------------------------- what must be presented

  /** The client named in the row, its registered redirect URI, the verifier's digest, in time; or the handle's own client, in time, for no more scope. */
  predicate Good(p: Presentation) {
    match p
    case CodeUse(snap, client, redirect, digest, at, code, _) =>
      && code.Some? && code.value.clientId == client && client in snap.clients.byClientId
      && code.value.redirectUri == redirect && redirect in snap.clients.byClientId[client].redirectUris
      && code.value.challenge == digest && at <= code.value.expires
    case RefreshUse(_, client, _, requested, at, row, _) =>
      && row.Some? && row.value.clientId == client && at <= row.value.expires
      && (requested == "" || forall w :: w in Fields(requested) ==> w in Fields(row.value.scope))
  }

  /** What a good presentation is worth: an empty scope request keeps the scope, another becomes the new scope. */
  function Granted(p: Presentation): Grant
    requires Good(p)
  {
    match p
    case CodeUse(_, _, _, _, _, code, _) =>
      Grant(code.value.clientId, code.value.userId, code.value.username, code.value.scope, code.value.mfa)
    case RefreshUse(_, _, _, requested, _, row, _) =>
      Grant(row.value.clientId, row.value.userId, row.value.username, if requested == "" then row.value.scope else requested, row.value.mfa)
  }

  /** The noted chain ends in the noted row. */
  predicate TipNoted(p: Presentation)
    requires Good(p)
  {
    p.birth.chain != [] && Tip(p.birth.chain) == if p.CodeUse? then LinkOfCode(p.code.value) else RefreshLink(GrantOfRefresh(p.row.value))
  }

  /** The request under way is backed by what it presented. */
  predicate Backed(p: Presentation, q: Request)
    requires q.Issuing? || q.Minting?
  {
    && Good(p) && TipNoted(p) && q.snap == p.snap && q.grant == Granted(p) && q.birth == p.birth
    && q.spent == if p.CodeUse? then "" else p.token
  }

  predicate ReqsBacked(reqs: map<nat, Request>, shown: map<nat, Presentation>) {
    forall r :: r in reqs && (reqs[r].Issuing? || reqs[r].Minting?) ==> r in shown && Backed(shown[r], reqs[r])
  }

  /** The handle's chain is the presented one, extended by what was granted. */
  predicate Issued(p: Presentation, b: Birth) {
    Good(p) && TipNoted(p) && b.chain == p.birth.chain + [RefreshLink(Granted(p))]
  }

  ghost predicate HandlesBacked(born: map<Handle, Birth>, redeemed: map<string, Presentation>) {
    forall id :: RefreshHandle(id) in born ==> id in redeemed && Issued(redeemed[id], born[RefreshHandle(id)])
  }

  /** The token is the one of a redeemed presentation. */
  predicate TokenBacked(redeemed: map<string, Presentation>, t: AccessToken, id: string) {
    id in redeemed && Good(redeemed[id]) && t == AccessToken(redeemed[id].snap.generation, Granted(redeemed[id]))
  }

  ghost predicate TokensBacked(minted: set<AccessToken>, redeemed: map<string, Presentation>) {
    forall t :: t in minted ==> exists id :: TokenBacked(redeemed, t, id)
  }

  ghost predicate TraceOk(t: Traced) {
    && ReqsBacked(t.sys.reqs, t.shown) && HandlesBacked(t.sys.born, t.redeemed) && TokensBacked(t.sys.minted, t.redeemed)
    && t.redeemed.Keys <= t.sys.used
  }

  // -------------------------------------------------- steps that issue nothing

  /** A step that neither starts nor ends a redemption. */
  ghost predicate IssuesNothing(s: Sys, t: Sys) {
    && (forall r :: r in t.reqs && (t.reqs[r].Issuing? || t.reqs[r].Minting?) ==> r in s.reqs && t.reqs[r] == s.reqs[r])
    && (forall id :: RefreshHandle(id) in t.born ==> RefreshHandle(id) in s.born && t.born[RefreshHandle(id)] == s.born[RefreshHandle(id)])
    && t.minted == s.minted && s.used <= t.used
  }

  lemma NothingIssuedKeeps(t: Traced, next: Sys)
    requires TraceOk(t) && IssuesNothing(t.sys, next)
    ensures TraceOk(Traced(next, t.shown, t.redeemed))
  {
  }

  /** What an outcome must satisfy for that. */
  predicate Unissuing(s: Sys, r: nat, o: Outcome) {
    && (o.next.Some? ==> !o.next.value.Issuing? && !o.next.value.Minting?)
    && (o.born.Some? ==> !o.born.value.0.RefreshHandle?) && (r in s.reqs ==> !s.reqs[r].Minting?)
  }

  lemma UnissuingIssuesNothing(s: Sys, r: nat, o: Outcome)
    requires Unissuing(s, r, o)
    ensures IssuesNothing(s, After(s, r, o))
  {
  }

  lemma EntryUnissuing(s: Sys, r: nat, e: EntryEvent)
    requires r in s.reqs && EntryEnabled(s, s.reqs[r], e)
    ensures Unissuing(s, r, EntryOut(s, s.reqs[r], e))
  {
  }

  lemma LoginUnissuing(s: Sys, r: nat, e: LoginEvent)
    requires r in s.reqs && LoginEnabled(s, s.reqs[r], e)
    ensures Unissuing(s, r, LoginOut(s, s.reqs[r], e))
  {
  }

  lemma FinishUnissuing(s: Sys, r: nat, e: FinishEvent)
    requires r in s.reqs && FinishEnabled(s, s.reqs[r], e)
    ensures Unissuing(s, r, FinishOut(s, s.reqs[r], e))
  {
  }

  lemma EnvIssuesNothing(s: Sys, e: EnvEvent)
    requires s.snaps != []
    ensures IssuesNothing(s, EnvDo(s, e))
  {
  }

  lemma MutIssuesNothing(s: Sys, e: MutEvent)
    requires s.snaps != [] && MutEnabled(s, e)
    ensures IssuesNothing(s, MutDo(s, e))
  {
  }

  lemma OthersIssueNothing(s: Sys, e: Event)
    requires Enabled(s, e) && !e.Token?
    ensures IssuesNothing(s, Do(s, e))
  {
    match e
    case Env(x) => EnvIssuesNothing(s, x);
    case Mutate(x) => MutIssuesNothing(s, x);
    case Entry(r, x) =>
      EntryUnissuing(s, r, x);
      UnissuingIssuesNothing(s, r, EntryOut(s, s.reqs[r], x));
    case Login(r, x) =>
      LoginUnissuing(s, r, x);
      UnissuingIssuesNothing(s, r, LoginOut(s, s.reqs[r], x));
    case Finish(r, x) =>
      FinishUnissuing(s, r, x);
      UnissuingIssuesNothing(s, r, FinishOut(s, s.reqs[r], x));
  }

  // ---------------------------------------------------------- token steps

  lemma CodeTip(s: Sys, code: string)
    requires DescentOk(s) && TablesOk(s.rt) && code in s.rt.codes
    ensures BornAs(s.born, CodeHandle(code), LinkOfCode(s.rt.codes[code]))
  {
    assert Descent(s.born).code(s.rt.codes[code]);
  }

  /** A redemption goes on only with a good presentation, for exactly what that is worth. */
  lemma RedeemIsBacked(s: Sys, r: nat, code: string, clientId: string, redirect: string, digest: string)
    requires r in s.reqs && clientId in s.reqs[r].snap.clients.byClientId
    requires code in s.rt.codes ==> BornAs(s.born, CodeHandle(code), LinkOfCode(s.rt.codes[code]))
    ensures
      var o := Redeem(s, s.reqs[r].snap, code, clientId, redirect, digest);
      && o.born.None?
      && (o.next.Some? ==>
            o.next.value.Issuing? && Backed(Note(s, r, RedeemCode(code, clientId, redirect, digest)).value, o.next.value))
  {
  }

  lemma ReadGrantIsBacked(s: Sys, r: nat, token: string, clientId: string, requested: string)
    requires DescentOk(s) && TablesOk(s.rt) && r in s.reqs
    ensures
      var o := ReadGrant(s, s.reqs[r].snap, token, clientId, requested);
      && o.born.None?
      && (o.next.Some? ==> o.next.value.Issuing? && Backed(Note(s, r, ReadRefresh(token, clientId, requested)).value, o.next.value))
  {
    if token in s.rt.refresh {
      ReadRefreshBorn(s, token);
    }
  }

  /** A step of request `r` that is backed by the note in `shown`. */
  lemma BackedStepKeeps(t: Traced, r: nat, o: Outcome, shown: map<nat, Presentation>)
    requires TraceOk(t) && (forall x :: x != r && x in t.shown ==> x in shown && shown[x] == t.shown[x])
    requires o.born.None? && (o.next.Some? && (o.next.value.Issuing? || o.next.value.Minting?) ==> r in shown && Backed(shown[r], o.next.value))
    ensures TraceOk(Traced(After(t.sys, r, o), shown, t.redeemed))
  {
    var next := After(t.sys, r, o);
    assert next.born == t.sys.born && next.minted == t.sys.minted;
  }

  lemma CheckIsBacked(s: Sys, q: Request, p: Presentation, forced: bool)
    requires q.Issuing? && Backed(p, q)
    ensures
      var o := CheckedGrant(s, q, forced);
      o.born.None? && (o.next.Some? && (o.next.value.Issuing? || o.next.value.Minting?) ==> Backed(p, o.next.value))
  {
  }

  /** The handle that ends a redemption carries what was presented for it. */
  lemma StoredHandleIsIssued(s: Sys, q: Request, p: Presentation, newId: string)
    requires q.Minting? && Backed(p, q)
    ensures
      var o := StoreGrant(s, q, newId);
      o.next.None? && (o.born.Some? ==> o.born.value.0 == RefreshHandle(newId) && Issued(p, o.born.value.1))
  {
  }

  lemma StoreKeeps(t: Traced, r: nat, newId: string)
    requires TraceOk(t) && r in t.sys.reqs && t.sys.reqs[r].Minting? && newId !in t.sys.used
    requires forall h :: h in t.sys.born ==> h.id in t.sys.used
    ensures
      var next := After(t.sys, r, StoreGrant(t.sys, t.sys.reqs[r], newId));
      TraceOk(Traced(next, t.shown, Kept(t, Token(r, StoreRefresh(newId)), next.born)))
  {
    var q, p := t.sys.reqs[r], t.shown[r];
    var o := StoreGrant(t.sys, q, newId);
    StoredHandleIsIssued(t.sys, q, p, newId);
    var next := After(t.sys, r, o);
    var redeemed := Kept(t, Token(r, StoreRefresh(newId)), next.born);
    assert RefreshHandle(newId) !in t.sys.born;
    if o.born.Some? {
      StoreKeepsIssued(t, r, newId, o);
    }
  }

  lemma StoreKeepsIssued(t: Traced, r: nat, newId: string, o: Outcome)
    requires TraceOk(t) && r in t.sys.reqs && t.sys.reqs[r].Minting? && newId !in t.sys.used
    requires o.born.Some? && o.next.None? && o.born.value.0 == RefreshHandle(newId) && Issued(t.shown[r], o.born.value.1)
    ensures TraceOk(Traced(After(t.sys, r, o), t.shown, t.redeemed[newId := t.shown[r]]))
  {
    var next, redeemed := After(t.sys, r, o), t.redeemed[newId := t.shown[r]];
    var q := t.sys.reqs[r];
    forall tok | tok in next.minted ensures exists id :: TokenBacked(redeemed, tok, id) {
      if tok in t.sys.minted {
        var id :| TokenBacked(t.redeemed, tok, id);
        assert id != newId;
        assert TokenBacked(redeemed, tok, id);
      } else {
        assert tok == AccessToken(q.snap.generation, q.grant);
        assert TokenBacked(redeemed, tok, newId);
      }
    }
  }

  /** What is to be shown of every token event. */
  ghost predicate StepKeeps(t: Traced, r: nat, e: TokenEvent)
    requires r in t.sys.reqs && TokenEnabled(t.sys, t.sys.reqs[r], e)
  {
    var next := After(t.sys, r, TokenOut(t.sys, t.sys.reqs[r], e));
    TraceOk(Traced(next, Noted(t, Token(r, e)), Kept(t, Token(r, e), next.born)))
  }

  /** A redemption that starts is backed by its own note. */
  lemma NotedStepKeeps(t: Traced, r: nat, e: TokenEvent, o: Outcome, p: Presentation)
    requires TraceOk(t) && Note(t.sys, r, e) == Some(p) && !e.StoreRefresh?
    requires o.born.None? && (o.next.Some? ==> o.next.value.Issuing? && Backed(p, o.next.value))
    ensures TraceOk(Traced(After(t.sys, r, o), Noted(t, Token(r, e)), Kept(t, Token(r, e), After(t.sys, r, o).born)))
  {
    BackedStepKeeps(t, r, o, Noted(t, Token(r, e)));
  }

  lemma RedeemKeeps(t: Traced, r: nat, code: string, clientId: string, redirect: string, digest: string)
    requires TraceOk(t) && DescentOk(t.sys) && TablesOk(t.sys.rt) && r in t.sys.reqs
    requires TokenEnabled(t.sys, t.sys.reqs[r], RedeemCode(code, clientId, redirect, digest))
    ensures StepKeeps(t, r, RedeemCode(code, clientId, redirect, digest))
  {
    var e := RedeemCode(code, clientId, redirect, digest);
    if code in t.sys.rt.codes {
      CodeTip(t.sys, code);
    }
    RedeemIsBacked(t.sys, r, code, clientId, redirect, digest);
    NotedStepKeeps(t, r, e, TokenOut(t.sys, t.sys.reqs[r], e), Note(t.sys, r, e).value);
  }

  lemma ReadKeeps(t: Traced, r: nat, token: string, clientId: string, requested: string)
    requires TraceOk(t) && DescentOk(t.sys) && TablesOk(t.sys.rt) && r in t.sys.reqs
    requires TokenEnabled(t.sys, t.sys.reqs[r], ReadRefresh(token, clientId, requested))
    ensures StepKeeps(t, r, ReadRefresh(token, clientId, requested))
  {
    var e := ReadRefresh(token, clientId, requested);
    ReadGrantIsBacked(t.sys, r, token, clientId, requested);
    NotedStepKeeps(t, r, e, TokenOut(t.sys, t.sys.reqs[r], e), Note(t.sys, r, e).value);
  }

  lemma CheckKeeps(t: Traced, r: nat, forced: bool)
    requires TraceOk(t) && r in t.sys.reqs && t.sys.reqs[r].Issuing?
    ensures StepKeeps(t, r, CheckGrant(forced))
  {
    CheckIsBacked(t.sys, t.sys.reqs[r], t.shown[r], forced);
    BackedStepKeeps(t, r, CheckedGrant(t.sys, t.sys.reqs[r], forced), t.shown);
  }

  lemma BurnKeeps(t: Traced, r: nat)
    requires TraceOk(t) && r in t.sys.reqs && t.sys.reqs[r].Burning?
    ensures StepKeeps(t, r, BurnRefresh)
  {
    BackedStepKeeps(t, r, Ends(TakeRefresh(t.sys.rt, t.sys.reqs[r].spent).0), t.shown);
  }

  lemma TokenStepKeeps(t: Traced, r: nat, e: TokenEvent)
    requires TraceOk(t) && DescentOk(t.sys) && TablesOk(t.sys.rt) && r in t.sys.reqs && TokenEnabled(t.sys, t.sys.reqs[r], e)
    ensures StepKeeps(t, r, e)
  {
    match e
    case RedeemCode(code, clientId, redirect, digest) => RedeemKeeps(t, r, code, clientId, redirect, digest);
    case ReadRefresh(token, clientId, requested) => ReadKeeps(t, r, token, clientId, requested);
    case CheckGrant(forced) => CheckKeeps(t, r, forced);
    case BurnRefresh => BurnKeeps(t, r);
    case StoreRefresh(newId) =>
      BornAreUsed(t.sys);
      StoreKeeps(t, r, newId);
  }

  lemma BornAreUsed(s: Sys)
    requires DescentOk(s)
    ensures forall h :: h in s.born ==> h.id in s.used
  {
  }

  lemma InvTables(s: Sys)
    requires Inv(s)
    ensures DescentOk(s) && TablesOk(s.rt)
  {
  }

  lemma WatchKeeps(t: Traced, e: Event)
    requires TraceOk(t) && DescentOk(t.sys) && TablesOk(t.sys.rt) && Enabled(t.sys, e)
    ensures TraceOk(Watch(t, e))
  {
    if e.Token? {
      TokenStepKeeps(t, e.r, e.token);
    } else {
      OthersIssueNothing(t.sys, e);
      NothingIssuedKeeps(t, Do(t.sys, e));
    }
  }

  lemma {:induction false} WatchedKeeps(t: Traced, es: seq<Event>)
    requires TraceOk(t) && Inv(t.sys) && IsRun(t.sys, es)
    ensures TraceOk(Watched(t, es)) && Watched(t, es).sys == Final(t.sys, es)
    decreases |es|
  {
    if es != [] {
      InvTables(t.sys);
      WatchKeeps(t, es[0]);
      StepKeepsInv(t.sys, es[0]);
      WatchedKeeps(Watch(t, es[0]), es[1..]);
    }
  }

  // -------------------------------------------------------------- theorem

  /** A whole run, watched from boot. */
  ghost function Trace(boot: Snapshot, now: int, es: seq<Event>): Traced
    requires IsRun(Start(boot, now), es)
  {
    Watched(Traced(Start(boot, now), map[], map[]), es)
  }

  /**
   In every run, every refresh handle ever stored and every access token ever
   minted goes back to a good presentation: the code's own client, its registered
   redirect URI, the digest that is the code's challenge, before the code expired;
   or the handle's own client, before it expired, for no more than its scope. The
   new link of the chain is exactly what was presented for.
   */
  lemma EveryIssueWasPresented(boot: Snapshot, now: int, es: seq<Event>)
    requires WellCompiled(boot) && boot.generation == 1 && now > ZERO_TIME && IsRun(Start(boot, now), es)
    ensures
      var t := Trace(boot, now, es);
      && t.sys == Final(Start(boot, now), es)
      && (forall id :: RefreshHandle(id) in t.sys.born ==> id in t.redeemed && Issued(t.redeemed[id], t.sys.born[RefreshHandle(id)]))
      && (forall tok :: tok in t.sys.minted ==> exists id :: TokenBacked(t.redeemed, tok, id))
  {
    BootSatisfiesInv(boot, now);
    WatchedKeeps(Traced(Start(boot, now), map[], map[]), es);
  }

  // -------------------------------------------------------- the other way

  lemma ThreeSteps(s: Sys, a: Event, b: Event, c: Event)
    requires Enabled(s, a) && Enabled(Do(s, a), b) && Enabled(Do(Do(s, a), b), c)
    ensures IsRun(s, [a, b, c]) && Final(s, [a, b, c]) == Do(Do(Do(s, a), b), c)
  {
    OneStep(s, a);
    OneStep(Do(s, a), b);
    OneStep(Do(Do(s, a), b), c);
    RunConcat(s, [a], [b]);
    assert [a] + [b] == [a, b];
    RunConcat(s, [a, b], [c]);
    assert [a, b] + [c] == [a, b, c];
  }

  /** The grant behind a stored code or handle is good under every admitted snapshot. */
  lemma StoredGrantsAreGood(s: Sys, r: nat)
    requires Reachable(s) && r in s.reqs && GenerationUsable(s.rt, s.reqs[r].snap.generation)
    ensures forall k :: k in s.rt.codes ==> GrantOk(s.reqs[r].snap, GrantOfCode(s.rt.codes[k]))
    ensures forall k :: k in s.rt.refresh ==> k != "" && GrantOk(s.reqs[r].snap, GrantOfRefresh(s.rt.refresh[k]))
  {
    ReachableCore(s);
    ReachableLineage(s);
    RequestFacts(s, r);
    forall k | k in s.rt.codes ensures GrantOk(s.reqs[r].snap, GrantOfCode(s.rt.codes[k])) {
      assert WorthIn(s).code(s.rt.codes[k]);
      AlikeGrant(s.reqs[r].snap, Last(s.snaps), GrantOfCode(s.rt.codes[k]));
    }
    forall k | k in s.rt.refresh ensures k != "" && GrantOk(s.reqs[r].snap, GrantOfRefresh(s.rt.refresh[k])) {
      assert WorthIn(s).refresh(s.rt.refresh[k]);
      AlikeGrant(s.reqs[r].snap, Last(s.snaps), GrantOfRefresh(s.rt.refresh[k]));
      ReadRefreshBorn(s, k);
    }
  }

  /** A good presentation of a code starts a redemption for what it is worth, and uses the code up. */
  lemma GoodCodeStarts(s: Sys, r: nat, code: string, clientId: string, redirect: string, digest: string)
    requires r in s.reqs && Note(s, r, RedeemCode(code, clientId, redirect, digest)).Some?
    requires Good(Note(s, r, RedeemCode(code, clientId, redirect, digest)).value)
    ensures
      var q := s.reqs[r];
      && code in s.rt.codes && clientId in q.snap.clients.byClientId
      && Redeem(s, q.snap, code, clientId, redirect, digest) ==
           Then(s.rt.(codes := s.rt.codes - {code}), Issuing(q.snap, GrantOfCode(s.rt.codes[code]), "", BirthOf(s, CodeHandle(code))))
  {
  }

  lemma GoodHandleStarts(s: Sys, r: nat, token: string, clientId: string, requested: string)
    requires r in s.reqs && Note(s, r, ReadRefresh(token, clientId, requested)).Some?
    requires Good(Note(s, r, ReadRefresh(token, clientId, requested)).value)
    ensures
      var q := s.reqs[r];
      && token in s.rt.refresh
      && ReadGrant(s, q.snap, token, clientId, requested) ==
           Then(s.rt, Issuing(q.snap, Granted(Note(s, r, ReadRefresh(token, clientId, requested)).value), token, BirthOf(s, RefreshHandle(token))))
  {
  }

  /** A good grant passes the checks of writeTokens, if nothing is forced to fail. */
  lemma GoodGrantPasses(s: Sys, q: Request)
    requires q.Issuing? && GrantOk(q.snap, q.grant) && GenerationUsable(s.rt, q.snap.generation)
    ensures CheckedGrant(s, q, false) == Then(s.rt, Minting(q.snap, q.grant, q.spent, q.birth))
    ensures CheckedGrant(s, q, true).next.None? && CheckedGrant(s, q, true).rt == s.rt
  {
  }

  function NewRow(snap: Snapshot, g: Grant, now: int, newId: string): Refresh {
    Refresh(snap.generation, newId, g.clientId, g.userId, g.username, g.scope, now + 86_400 * 1_000_000_000, g.mfa)
  }

  /** The end of a redemption: a first handle is stored if there is room, a spent one is exchanged if it is still alive. */
  lemma GrantIsStored(s: Sys, q: Request, newId: string)
    requires q.Minting? && GenerationUsable(s.rt, q.snap.generation)
    ensures
      var o, row := StoreGrant(s, q, newId), NewRow(q.snap, q.grant, s.now, newId);
      && (q.spent == "" && RL.Room(RL.LiveRefreshes(s.rt, s.now), newId) ==>
            o.born.Some? && newId in o.rt.refresh && o.rt.refresh[newId] == row && o.rt.codes == RL.LiveCodes(s.rt, s.now))
      && (q.spent != "" && q.spent in s.rt.refresh && s.now <= s.rt.refresh[q.spent].expires ==>
            o.born.Some? && o.rt == s.rt.(refresh := (s.rt.refresh - {q.spent})[newId := row]))
  {
    var row := RefreshFor(q.snap, q.grant, s.now, newId);
    RL.RefreshStoredIff(s.rt, row, s.now);
    RL.RotatedIff(s.rt, q.spent, row, s.now);
  }

  lemma TokenDo(s: Sys, r: nat, e: TokenEvent)
    requires s.snaps != [] && r in s.reqs && TokenEnabled(s, s.reqs[r], e)
    ensures Enabled(s, Token(r, e)) && Do(s, Token(r, e)) == After(s, r, TokenOut(s, s.reqs[r], e))
  {
  }

  /** The request after a step that only moves it on. */
  lemma MovesOn(s: Sys, r: nat, rt: Rt, q: Request)
    ensures
      var t := After(s, r, Then(rt, q));
      r in t.reqs && t.reqs[r] == q && t.rt == rt && t.snaps == s.snaps && t.now == s.now && t.used == s.used && t.minted == s.minted
  {
  }

  lemma StillFresh(s: Sys, r: nat, rt: Rt, q: Request, newId: string)
    requires Fresh(s, newId) && (q.Issuing? || q.Minting?)
    ensures Fresh(After(s, r, Then(rt, q)), newId)
  {
  }

  /** The check and the minting of a good grant, as two steps of the run. */
  lemma IssuesInTwoSteps(s: Sys, r: nat, newId: string) returns (t: Sys)
    requires s.snaps != [] && r in s.reqs && s.reqs[r].Issuing? && GrantOk(s.reqs[r].snap, s.reqs[r].grant)
    requires GenerationUsable(s.rt, s.reqs[r].snap.generation) && Fresh(s, newId)
    ensures
      var q := s.reqs[r];
      && Enabled(s, Token(r, CheckGrant(false))) && Enabled(Do(s, Token(r, CheckGrant(false))), Token(r, StoreRefresh(newId)))
      && t == Do(Do(s, Token(r, CheckGrant(false))), Token(r, StoreRefresh(newId)))
      && (q.spent == "" && RL.Room(RL.LiveRefreshes(s.rt, s.now), newId) ==>
            newId in t.rt.refresh && t.rt.refresh[newId] == NewRow(q.snap, q.grant, s.now, newId)
            && t.rt.codes == RL.LiveCodes(s.rt, s.now) && AccessToken(q.snap.generation, q.grant) in t.minted)
      && (q.spent != "" && q.spent in s.rt.refresh && s.now <= s.rt.refresh[q.spent].expires ==>
            t.rt == s.rt.(refresh := (s.rt.refresh - {q.spent})[newId := NewRow(q.snap, q.grant, s.now, newId)])
            && AccessToken(q.snap.generation, q.grant) in t.minted)
  {
    var q := s.reqs[r];
    var minting := Minting(q.snap, q.grant, q.spent, q.birth);
    TokenDo(s, r, CheckGrant(false));
    GoodGrantPasses(s, q);
    MovesOn(s, r, s.rt, minting);
    StillFresh(s, r, s.rt, minting, newId);
    var u := After(s, r, Then(s.rt, minting));
    TokenDo(u, r, StoreRefresh(newId));
    GrantIsStored(u, minting, newId);
    t := After(u, r, StoreGrant(u, minting, newId));
  }

  /**
   The other way round, for a code: a good presentation under an admitted snapshot,
   with nothing forced and room in the table, ends in a stored refresh handle and an
   access token with the code's user, client, scope and MFA flag, and the code is gone.
   */
  lemma GoodCodeIsRedeemed(s: Sys, r: nat, code: string, clientId: string, redirect: string, digest: string, newId: string) returns (t: Sys)
    requires Reachable(s) && s.snaps != [] && r in s.reqs && s.reqs[r].Captured? && GenerationUsable(s.rt, s.reqs[r].snap.generation)
    requires Good(Note(s, r, RedeemCode(code, clientId, redirect, digest)).value)
    requires Fresh(s, newId) && RL.Room(RL.LiveRefreshes(s.rt, s.now), newId)
    ensures
      var snap, c := s.reqs[r].snap, s.rt.codes[code];
      var g := Grant(c.clientId, c.userId, c.username, c.scope, c.mfa);
      && IsRun(s, [Token(r, RedeemCode(code, clientId, redirect, digest)), Token(r, CheckGrant(false)), Token(r, StoreRefresh(newId))])
      && t == Final(s, [Token(r, RedeemCode(code, clientId, redirect, digest)), Token(r, CheckGrant(false)), Token(r, StoreRefresh(newId))])
      && newId in t.rt.refresh && t.rt.refresh[newId] == NewRow(snap, g, s.now, newId)
      && code !in t.rt.codes && AccessToken(snap.generation, g) in t.minted
  {
    var e := RedeemCode(code, clientId, redirect, digest);
    StoredGrantsAreGood(s, r);
    GoodCodeStarts(s, r, code, clientId, redirect, digest);
    t := RedeemsInThree(s, r, code, clientId, redirect, digest, newId);
    ThreeSteps(s, Token(r, e), Token(r, CheckGrant(false)), Token(r, StoreRefresh(newId)));
  }

  lemma RedeemsInThree(s: Sys, r: nat, code: string, clientId: string, redirect: string, digest: string, newId: string) returns (t: Sys)
    requires s.snaps != [] && r in s.reqs && s.reqs[r].Captured? && GenerationUsable(s.rt, s.reqs[r].snap.generation)
    requires Good(Note(s, r, RedeemCode(code, clientId, redirect, digest)).value) && code in s.rt.codes
    requires GrantOk(s.reqs[r].snap, GrantOfCode(s.rt.codes[code]))
    requires Fresh(s, newId) && RL.Room(RL.LiveRefreshes(s.rt, s.now), newId)
    ensures
      var snap, g, e := s.reqs[r].snap, GrantOfCode(s.rt.codes[code]), RedeemCode(code, clientId, redirect, digest);
      && Enabled(s, Token(r, e)) && Enabled(Do(s, Token(r, e)), Token(r, CheckGrant(false)))
      && Enabled(Do(Do(s, Token(r, e)), Token(r, CheckGrant(false))), Token(r, StoreRefresh(newId)))
      && t == Do(Do(Do(s, Token(r, e)), Token(r, CheckGrant(false))), Token(r, StoreRefresh(newId)))
      && newId in t.rt.refresh && t.rt.refresh[newId] == NewRow(snap, g, s.now, newId)
      && code !in t.rt.codes && AccessToken(snap.generation, g) in t.minted
  {
    var snap, g, e := s.reqs[r].snap, GrantOfCode(s.rt.codes[code]), RedeemCode(code, clientId, redirect, digest);
    GoodCodeStarts(s, r, code, clientId, redirect, digest);
    TokenDo(s, r, e);
    var rt, issuing := s.rt.(codes := s.rt.codes - {code}), Issuing(snap, g, "", BirthOf(s, CodeHandle(code)));
    MovesOn(s, r, rt, issuing);
    StillFresh(s, r, rt, issuing, newId);
    t := IssuesInTwoSteps(After(s, r, Then(rt, issuing)), r, newId);
  }

  /** Narrowing keeps a grant good. */
  lemma NarrowedGrantIsGood(snap: Snapshot, row: Refresh, requested: string)
    requires GrantOk(snap, GrantOfRefresh(row)) && (requested == "" || ScopeSubset(requested, row.scope))
    ensures GrantOk(snap, Grant(row.clientId, row.userId, row.username, if requested == "" then row.scope else requested, row.mfa))
  {
    if requested != "" {
      NarrowedScopeAllowed(snap.clients.byClientId[row.clientId], requested, row.scope);
    }
  }

  lemma RotatesInThree(s: Sys, r: nat, token: string, clientId: string, requested: string, newId: string) returns (t: Sys)
    requires s.snaps != [] && r in s.reqs && s.reqs[r].Captured? && GenerationUsable(s.rt, s.reqs[r].snap.generation)
    requires clientId in s.reqs[r].snap.clients.byClientId && Good(Note(s, r, ReadRefresh(token, clientId, requested)).value)
    requires token in s.rt.refresh && token != "" && GrantOk(s.reqs[r].snap, Granted(Note(s, r, ReadRefresh(token, clientId, requested)).value))
    requires Fresh(s, newId)
    ensures
      var snap, e := s.reqs[r].snap, ReadRefresh(token, clientId, requested);
      var g := Granted(Note(s, r, e).value);
      && Enabled(s, Token(r, e)) && Enabled(Do(s, Token(r, e)), Token(r, CheckGrant(false)))
      && Enabled(Do(Do(s, Token(r, e)), Token(r, CheckGrant(false))), Token(r, StoreRefresh(newId)))
      && t == Do(Do(Do(s, Token(r, e)), Token(r, CheckGrant(false))), Token(r, StoreRefresh(newId)))
      && t.rt == s.rt.(refresh := (s.rt.refresh - {token})[newId := NewRow(snap, g, s.now, newId)])
      && AccessToken(snap.generation, g) in t.minted
  {
    var snap, e := s.reqs[r].snap, ReadRefresh(token, clientId, requested);
    var issuing := Issuing(snap, Granted(Note(s, r, e).value), token, BirthOf(s, RefreshHandle(token)));
    GoodHandleStarts(s, r, token, clientId, requested);
    TokenDo(s, r, e);
    MovesOn(s, r, s.rt, issuing);
    StillFresh(s, r, s.rt, issuing, newId);
    t := IssuesInTwoSteps(After(s, r, Then(s.rt, issuing)), r, newId);
  }

  lemma HandleGrantIsGood(s: Sys, r: nat, token: string, clientId: string, requested: string)
    requires Reachable(s) && r in s.reqs && GenerationUsable(s.rt, s.reqs[r].snap.generation)
    requires Good(Note(s, r, ReadRefresh(token, clientId, requested)).value)
    ensures token in s.rt.refresh && token != ""
    ensures clientId in s.reqs[r].snap.clients.byClientId
    ensures GrantOk(s.reqs[r].snap, Granted(Note(s, r, ReadRefresh(token, clientId, requested)).value))
  {
    StoredGrantsAreGood(s, r);
    var row := s.rt.refresh[token];
    assert GrantOk(s.reqs[r].snap, GrantOfRefresh(row));
    NarrowedGrantIsGood(s.reqs[r].snap, row, requested);
  }

  /**
   And for a handle: a good presentation under an admitted snapshot, with nothing
   forced, exchanges the handle for one with the same client, user and MFA flag and
   the requested scope, or the old scope if none was requested. It needs no room.
   */
  lemma GoodHandleIsRotated(s: Sys, r: nat, token: string, clientId: string, requested: string, newId: string) returns (t: Sys)
    requires Reachable(s) && s.snaps != [] && r in s.reqs && s.reqs[r].Captured? && GenerationUsable(s.rt, s.reqs[r].snap.generation)
    requires Good(Note(s, r, ReadRefresh(token, clientId, requested)).value) && Fresh(s, newId)
    ensures
      var snap, row := s.reqs[r].snap, s.rt.refresh[token];
      var g := Grant(row.clientId, row.userId, row.username, if requested == "" then row.scope else requested, row.mfa);
      && IsRun(s, [Token(r, ReadRefresh(token, clientId, requested)), Token(r, CheckGrant(false)), Token(r, StoreRefresh(newId))])
      && t == Final(s, [Token(r, ReadRefresh(token, clientId, requested)), Token(r, CheckGrant(false)), Token(r, StoreRefresh(newId))])
      && t.rt == s.rt.(refresh := (s.rt.refresh - {token})[newId := NewRow(snap, g, s.now, newId)])
      && AccessToken(snap.generation, g) in t.minted
  {
    HandleGrantIsGood(s, r, token, clientId, requested);
    t := RotatesInThree(s, r, token, clientId, requested, newId);
    ThreeSteps(s, Token(r, ReadRefresh(token, clientId, requested)), Token(r, CheckGrant(false)), Token(r, StoreRefresh(newId)));
  }
}
