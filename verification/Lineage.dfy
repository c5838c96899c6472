/**
 Lineage: every row descends from one authorization request, a request is alive
 in at most one place, and what a grant allows never grows along its chain.
 */
module Lineage {
  import opened Basics
  import opened Snapshots
  import opened RuntimeState
  import opened Access
  import opened System

  // --------------------------------------------------------------- chains

  /** One row may follow another in the history of an authorization request. */
  predicate Follows(a: Link, b: Link) {
    match (a, b)
    case (PendingLink(protocol, clientId, redirectUri, scope, challenge, nonce), CodeLink(g, redirect, ch, n)) =>
      && (protocol.Oidc? || protocol.Unstated?)
      && g.clientId == clientId && g.scope == scope && redirect == redirectUri && ch == challenge && n == nonce
    case (CodeLink(g, _, _, _), RefreshLink(h)) => h == g
    case (RefreshLink(g), RefreshLink(h)) => h == g.(scope := h.scope) && ScopeSubset(h.scope, g.scope)
    case _ => false
  }

  predicate ChainOk(chain: seq<Link>) {
    && chain != [] && !chain[0].RefreshLink?
    && forall i :: 0 <= i < |chain| - 1 ==> Follows(chain[i], chain[i + 1])
  }

  function Tip(chain: seq<Link>): Link
    requires chain != []
  {
    chain[|chain| - 1]
  }

  function ScopeOf(l: Link): string { if l.PendingLink? then l.scope else l.grant.scope }
  function ClientOf(l: Link): string { if l.PendingLink? then l.clientId else l.grant.clientId }

  /** However many rotations: scopes never grow, the client never changes, user and MFA are fixed from the code on. */
  lemma {:induction false} ChainNarrows(chain: seq<Link>, i: nat, j: nat)
    requires ChainOk(chain) && i <= j < |chain|
    ensures ClientOf(chain[j]) == ClientOf(chain[i])
    ensures ScopeSubset(ScopeOf(chain[j]), ScopeOf(chain[i]))
    ensures !chain[i].PendingLink? ==>
              && !chain[j].PendingLink?
              && chain[j].grant.userId == chain[i].grant.userId && chain[j].grant.mfa == chain[i].grant.mfa
    decreases j - i
  {
    if i < j {
      ChainNarrows(chain, i, j - 1);
      assert Follows(chain[j - 1], chain[j - 1 + 1]);
    }
  }

  lemma ChainGrows(chain: seq<Link>, l: Link)
    requires ChainOk(chain) && Follows(Tip(chain), l)
    ensures ChainOk(chain + [l])
  {
    var longer := chain + [l];
    forall i | 0 <= i < |longer| - 1 ensures Follows(longer[i], longer[i + 1]) {
      if i < |chain| - 1 {
        assert longer[i] == chain[i] && longer[i + 1] == chain[i + 1];
      }
    }
  }

  // --------------------------------------------------------------- births

  /** The handle was born with the given link as its tip. */
  predicate BornAs(born: map<Handle, Birth>, h: Handle, l: Link) {
    h in born && born[h].chain != [] && Tip(born[h].chain) == l
  }

  predicate BirthsOk(born: map<Handle, Birth>, used: set<string>, lineages: nat) {
    forall h :: h in born ==> h.id != "" && h.id in used && born[h].lineage < lineages && ChainOk(born[h].chain)
  }

  /** Every stored row is the tip of its own chain. */
  function Descent(born: map<Handle, Birth>): RowProperty {
    RowProperty(
      (p: Pending) => BornAs(born, PendingHandle(p.id), LinkOfPending(p)),
      (c: AuthCode) => BornAs(born, CodeHandle(c.code), LinkOfCode(c)),
      (t: Refresh) => BornAs(born, RefreshHandle(t.token), RefreshLink(GrantOfRefresh(t))),
      (x: LoginSession) => true)
  }

  /** A grant taken from a code is that code's; one read from a refresh row may be narrowed. */
  predicate GrantFrom(tip: Link, g: Grant, spent: string) {
    if spent == "" then tip.CodeLink? && tip.grant == g
    else tip.RefreshLink? && g == tip.grant.(scope := g.scope) && ScopeSubset(g.scope, tip.grant.scope)
  }

  predicate BirthOk(b: Birth, lineages: nat) { b.lineage < lineages && ChainOk(b.chain) }

  /** What a request carries is the tip of a chain. */
  predicate CarriesOk(born: map<Handle, Birth>, lineages: nat, q: Request) {
    match q
    case HoldsPending(_, pid, pend, _, _, _) => IsOidc(pend) && BornAs(born, PendingHandle(pid), LinkOfPending(pend))
    case TookPending(_, pend, _, _, _, birth) => IsOidc(pend) && BirthOk(birth, lineages) && Tip(birth.chain) == LinkOfPending(pend)
    case Issuing(_, grant, spent, birth) =>
      && BirthOk(birth, lineages) && GrantFrom(Tip(birth.chain), grant, spent)
      && (spent != "" ==> RefreshHandle(spent) in born && born[RefreshHandle(spent)] == birth)
    case Minting(_, grant, spent, birth) =>
      && BirthOk(birth, lineages) && GrantFrom(Tip(birth.chain), grant, spent)
      && (spent != "" ==> RefreshHandle(spent) in born && born[RefreshHandle(spent)] == birth)
    case _ => true
  }

  function Carries(born: map<Handle, Birth>, lineages: nat): Request -> bool {
    (q: Request) => CarriesOk(born, lineages, q)
  }

  predicate DescentOk(s: Sys) {
    && BirthsOk(s.born, s.used, s.lineages)
    && Rows(s.rt, Descent(s.born))
    && All(s.reqs, Carries(s.born, s.lineages))
  }

  // ------------------------------------------------------- births only grow

  predicate Extends(a: map<Handle, Birth>, b: map<Handle, Birth>) {
    forall h :: h in a ==> h in b && b[h] == a[h]
  }

  lemma DescentGrows(rt: Rt, a: map<Handle, Birth>, b: map<Handle, Birth>)
    requires Rows(rt, Descent(a)) && Extends(a, b)
    ensures Rows(rt, Descent(b))
  {
    forall k | k in rt.pending ensures Descent(b).pending(rt.pending[k]) { assert Descent(a).pending(rt.pending[k]); }
    forall k | k in rt.codes ensures Descent(b).code(rt.codes[k]) { assert Descent(a).code(rt.codes[k]); }
    forall k | k in rt.refresh ensures Descent(b).refresh(rt.refresh[k]) { assert Descent(a).refresh(rt.refresh[k]); }
  }

  lemma CarriesGrow(reqs: map<nat, Request>, a: map<Handle, Birth>, b: map<Handle, Birth>, m: nat, n: nat)
    requires All(reqs, Carries(a, m)) && Extends(a, b) && m <= n
    ensures All(reqs, Carries(b, n))
  {
    forall r | r in reqs ensures Carries(b, n)(reqs[r]) { assert Carries(a, m)(reqs[r]); }
  }

  // ---------------------------------------------------------------- steps

  /** What a step must respect: a new handle is fresh, extends a good chain, and describes the new row. */
  predicate OutcomeDescends(s: Sys, o: Outcome) {
    match o.born
    case None =>
      Rows(o.rt, Descent(s.born)) && (o.next.Some? ==> CarriesOk(s.born, s.lineages, o.next.value))
    case Some(pair) =>
      && pair.0 !in s.born && pair.0.id != "" && pair.1.lineage <= s.lineages && ChainOk(pair.1.chain)
      && Rows(o.rt, Descent(s.born[pair.0 := pair.1]))
      && (o.next.Some? ==> o.next.value.Stored?)
  }

  lemma OutcomeKeepsDescent(s: Sys, r: nat, o: Outcome)
    requires DescentOk(s) && OutcomeDescends(s, o)
    ensures DescentOk(After(s, r, o))
  {
    var s' := After(s, r, o);
    assert Extends(s.born, s'.born);
    CarriesGrow(s.reqs, s.born, s'.born, s.lineages, s'.lineages);
  }

  lemma EnvKeepsDescent(s: Sys, e: EnvEvent)
    requires DescentOk(s) && s.snaps != [] && EnvEnabled(s, e)
    requires !e.EnrollTotp? && !e.ClearTotp? ==> Shrinks(s.rt, EnvDo(s, e).rt)
    ensures DescentOk(EnvDo(s, e))
  {
    if !e.EnrollTotp? && !e.ClearTotp? {
      ShrinkRows(s.rt, EnvDo(s, e).rt, Descent(s.born));
    }
  }

  lemma MutKeepsDescent(s: Sys, e: MutEvent)
    requires DescentOk(s) && s.snaps != [] && MutEnabled(s, e)
    ensures DescentOk(MutDo(s, e))
  {
    if e.StartSync? {
      ExpireIncompleteShrinks(s.rt);
      ShrinkRows(s.rt, ExpireIncompleteMfa(s.rt), Descent(s.born));
    }
  }

  lemma ShrunkDescends(s: Sys, o: Outcome)
    requires DescentOk(s) && Shrinks(s.rt, o.rt) && o.born.None?
    requires o.next.Some? ==> CarriesOk(s.born, s.lineages, o.next.value)
    ensures OutcomeDescends(s, o)
  {
    ShrinkRows(s.rt, o.rt, Descent(s.born));
  }

  lemma SubmitDescends(s: Sys, p: Pending, newId: string, next: Option<Request>)
    requires DescentOk(s) && Fresh(s, newId) && p == Unstamped(p) && (next.Some? ==> next.value.Stored?)
    ensures OutcomeDescends(s, Submit(s, p, newId, next))
  {
    var (rt, row) := PutPending(s.rt, p, s.now, newId);
    if row.id == "" {
      FailedPutPendingShrinks(s.rt, p, s.now, newId);
      ShrinkRows(s.rt, rt, Descent(s.born));
    } else {
      var born := s.born[PendingHandle(newId) := Root(s, LinkOfPending(row))];
      DescentGrows(s.rt, s.born, born);
      PutPendingRows(s.rt, p, s.now, newId, Descent(born));
    }
  }

  lemma FailedPutPendingShrinks(rt: Rt, p: Pending, now: int, newId: string)
    requires newId != "" && PutPending(rt, p, now, newId).1.id == ""
    ensures Shrinks(rt, PutPending(rt, p, now, newId).0)
  {
    CleanupShrinks(rt, now);
  }

  lemma StoreCodeDescends(s: Sys, c: AuthCode, birth: Birth)
    requires DescentOk(s) && Fresh(s, c.code)
    requires birth.lineage <= s.lineages && ChainOk(birth.chain) && Tip(birth.chain) == LinkOfCode(c)
    ensures OutcomeDescends(s, StoreCode(s, c, birth))
  {
    var (rt, ok) := PutCode(s.rt, c, s.now);
    if ok {
      var born := s.born[CodeHandle(c.code) := birth];
      DescentGrows(s.rt, s.born, born);
      PutCodeRows(s.rt, c, s.now, Descent(born));
    } else {
      CleanupShrinks(s.rt, s.now);
      ShrinkRows(s.rt, rt, Descent(s.born));
    }
  }

  lemma EntryDescends(s: Sys, q: Request, e: EntryEvent)
    requires DescentOk(s) && EntryEnabled(s, q, e)
    ensures OutcomeDescends(s, EntryOut(s, q, e))
  {
    match e
    case AuthorizeReadSession(sid) =>
      ReadSessionShrinks(s.rt, sid, s.now);
      ShrunkDescends(s, EntryOut(s, q, e));
    case AuthorizePutCode(query, newId) =>
      var code := CodeFor(q.snap, query, q.session.value, s.now, newId);
      StoreCodeDescends(s, code, Root(s, LinkOfCode(code)));
    case AuthorizePutPending(query, newId) => SubmitDescends(s, OidcPending(q.snap, query), newId, None);
    case SamlPutPending(issuer, acs, requestId, relay, newId) =>
      SubmitDescends(s, SamlPending(q.snap, issuer, acs, requestId, relay), newId, Some(Stored(q.snap, newId)));
    case WsFedPutPending(realm, reply, context, newId) =>
      SubmitDescends(s, WsFedPending(q.snap, realm, reply, context), newId, Some(Stored(q.snap, newId)));
    case FederationReadSession(sid) => ResumeDescends(s, q.snap, q.pid, sid);
  }

  lemma ResumeDescends(s: Sys, snap: Snapshot, pid: string, sid: string)
    requires DescentOk(s)
    ensures OutcomeDescends(s, Resume(s, snap, pid, sid))
  {
    ReadSessionShrinks(s.rt, sid, s.now);
    ShrunkDescends(s, Resume(s, snap, pid, sid));
  }

  lemma OpenSessionDescends(s: Sys, q: Request, newId: string)
    requires DescentOk(s) && q.Authenticated? && newId != ""
    ensures OutcomeDescends(s, OpenSession(s, q, newId))
  {
    PutSessionRows(s.rt, SessionFor(q.snap, q.user, q.mfa, s.now), s.now, newId, Descent(s.born));
  }

  lemma LoginDescends(s: Sys, q: Request, e: LoginEvent)
    requires DescentOk(s) && LoginEnabled(s, q, e)
    ensures OutcomeDescends(s, LoginOut(s, q, e))
  {
    match e
    case LoginReadPending(pid, _, _) =>
      ReadPendingShrinks(s.rt, pid, s.now);
      ShrunkDescends(s, LoginOut(s, q, e));
    case LoginPutSession(newId) => OpenSessionDescends(s, q, newId);
    case ConsentReadSession(pid, sid) => ResumeDescends(s, q.snap, pid, sid);
    case _ =>
  }

  /** The row a read returns is born under its own id. */
  lemma ReadPendingBorn(s: Sys, pid: string)
    requires DescentOk(s) && TablesOk(s.rt) && pid in s.rt.pending
    ensures BornAs(s.born, PendingHandle(pid), LinkOfPending(s.rt.pending[pid]))
  {
    assert Descent(s.born).pending(s.rt.pending[pid]);
  }

  lemma ReadForCodeDescends(s: Sys, q: Request)
    requires DescentOk(s) && TablesOk(s.rt) && q.Completing?
    ensures OutcomeDescends(s, ReadForCode(s, q))
  {
    ReadPendingShrinks(s.rt, q.pid, s.now);
    var o := ReadForCode(s, q);
    if o.next.Some? {
      ReadPendingBorn(s, q.pid);
      assert o.next.value.pend == s.rt.pending[q.pid];
    }
    ShrunkDescends(s, o);
  }

  lemma TakeForCodeDescends(s: Sys, q: Request)
    requires DescentOk(s) && q.HoldsPending? && CarriesOk(s.born, s.lineages, q)
    ensures OutcomeDescends(s, TakeForCode(s, q))
  {
    TakePendingShrinks(s.rt, q.pid, s.now);
    ShrunkDescends(s, TakeForCode(s, q));
  }

  lemma CompleteCodeDescends(s: Sys, q: Request, newId: string)
    requires DescentOk(s) && q.TookPending? && CarriesOk(s.born, s.lineages, q) && Fresh(s, newId)
    ensures OutcomeDescends(s, CompleteCode(s, q, newId))
  {
    var code := CompletedCode(q, s.now, newId);
    ChainGrows(q.birth.chain, LinkOfCode(code));
    StoreCodeDescends(s, code, Extend(q.birth, LinkOfCode(code)));
  }

  lemma ReadOnlyDescends(s: Sys, q: Request, e: FinishEvent)
    requires DescentOk(s) && FinishEnabled(s, q, e) && (e.FederationReadPending? || e.DenyReadPending? || e.AnswerTakePending?)
    ensures OutcomeDescends(s, FinishOut(s, q, e))
  {
    var pid := if e.DenyReadPending? then e.pid else q.pid;
    ReadPendingShrinks(s.rt, pid, s.now);
    TakePendingShrinks(s.rt, pid, s.now);
    ShrunkDescends(s, FinishOut(s, q, e));
  }

  lemma FinishDescends(s: Sys, q: Request, e: FinishEvent)
    requires DescentOk(s) && TablesOk(s.rt) && FinishEnabled(s, q, e) && CarriesOk(s.born, s.lineages, q)
    ensures OutcomeDescends(s, FinishOut(s, q, e))
  {
    match e
    case CompleteAdmit =>
    case FederationAdmit =>
    case CompleteReadPending => ReadForCodeDescends(s, q);
    case CompleteTakePending => TakeForCodeDescends(s, q);
    case CompletePutCode(newId) => CompleteCodeDescends(s, q, newId);
    case _ => ReadOnlyDescends(s, q, e);
  }

  lemma RedeemDescends(s: Sys, snap: Snapshot, code: string, clientId: string, redirect: string, digest: string)
    requires DescentOk(s) && TablesOk(s.rt) && clientId in snap.clients.byClientId
    ensures OutcomeDescends(s, Redeem(s, snap, code, clientId, redirect, digest))
  {
    TakeCodeShrinks(s.rt, code);
    if code in s.rt.codes {
      assert Descent(s.born).code(s.rt.codes[code]);
    }
    ShrunkDescends(s, Redeem(s, snap, code, clientId, redirect, digest));
  }

  lemma StayDescends(s: Sys, o: Outcome)
    requires DescentOk(s) && o.rt == s.rt && o.born.None?
    requires o.next.Some? ==> CarriesOk(s.born, s.lineages, o.next.value)
    ensures OutcomeDescends(s, o)
  {
  }

  lemma ReadRefreshBorn(s: Sys, token: string)
    requires DescentOk(s) && TablesOk(s.rt) && token in s.rt.refresh
    ensures token != "" && BornAs(s.born, RefreshHandle(token), RefreshLink(GrantOfRefresh(s.rt.refresh[token])))
    ensures BirthOk(s.born[RefreshHandle(token)], s.lineages)
  {
    assert Descent(s.born).refresh(s.rt.refresh[token]);
    assert RefreshHandle(token) in s.born;
  }

  lemma ReadGrantDescends(s: Sys, snap: Snapshot, token: string, clientId: string, requested: string)
    requires DescentOk(s) && TablesOk(s.rt)
    ensures OutcomeDescends(s, ReadGrant(s, snap, token, clientId, requested))
  {
    if token in s.rt.refresh {
      ReadRefreshBorn(s, token);
    }
    StayDescends(s, ReadGrant(s, snap, token, clientId, requested));
  }

  lemma StoreGrantDescends(s: Sys, q: Request, newId: string)
    requires DescentOk(s) && q.Minting? && CarriesOk(s.born, s.lineages, q) && Fresh(s, newId)
    ensures OutcomeDescends(s, StoreGrant(s, q, newId))
  {
    var row, birth := RefreshFor(q.snap, q.grant, s.now, newId), Extend(q.birth, RefreshLink(q.grant));
    ChainGrows(q.birth.chain, RefreshLink(q.grant));
    var born := s.born[RefreshHandle(newId) := birth];
    if StoreGrant(s, q, newId).born.Some? {
      DescentGrows(s.rt, s.born, born);
      if q.spent != "" {
        RotateRows(s.rt, q.spent, row, s.now, Descent(born));
      } else {
        PutRefreshRows(s.rt, row, s.now, Descent(born));
      }
    } else {
      CleanupShrinks(s.rt, s.now);
      ShrinkRows(s.rt, StoreGrant(s, q, newId).rt, Descent(s.born));
    }
  }

  lemma BurnDescends(s: Sys, spent: string)
    requires DescentOk(s)
    ensures OutcomeDescends(s, Ends(TakeRefresh(s.rt, spent).0))
  {
    TakeRefreshShrinks(s.rt, spent);
    ShrunkDescends(s, Ends(TakeRefresh(s.rt, spent).0));
  }

  lemma CheckedGrantDescends(s: Sys, q: Request, forced: bool)
    requires DescentOk(s) && q.Issuing? && CarriesOk(s.born, s.lineages, q)
    ensures OutcomeDescends(s, CheckedGrant(s, q, forced))
  {
    StayDescends(s, CheckedGrant(s, q, forced));
  }

  lemma TokenDescends(s: Sys, q: Request, e: TokenEvent)
    requires DescentOk(s) && TablesOk(s.rt) && TokenEnabled(s, q, e) && CarriesOk(s.born, s.lineages, q)
    ensures OutcomeDescends(s, TokenOut(s, q, e))
  {
    match e
    case RedeemCode(code, clientId, redirect, digest) => RedeemDescends(s, q.snap, code, clientId, redirect, digest);
    case ReadRefresh(token, clientId, requested) => ReadGrantDescends(s, q.snap, token, clientId, requested);
    case CheckGrant(forced) => CheckedGrantDescends(s, q, forced);
    case BurnRefresh => BurnDescends(s, q.spent);
    case StoreRefresh(newId) => StoreGrantDescends(s, q, newId);
  }
}
