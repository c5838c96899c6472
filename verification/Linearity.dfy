/**
 Linearity: at any moment an authorization request lives in at most one place,
 be it a stored row, a request that took one and has not stored its successor,
 or an answer already sent.
 */
module Linearity {
  import opened Basics
  import opened Snapshots
  import opened RuntimeState
  import opened Access
  import opened System
  import opened Lineage

  datatype Place = AtRow(h: Handle) | AtRequest(r: nat) | AtAnswer(i: nat)

  predicate Live(rt: Rt, h: Handle) {
    match h
    case PendingHandle(id) => id in rt.pending
    case CodeHandle(id) => id in rt.codes
    case RefreshHandle(id) => id in rt.refresh
  }

  /** The authorization request a request has taken out of the tables. */
  function Carried(q: Request): Option<nat> {
    match q
    case TookPending(_, _, _, _, _, birth) => Some(birth.lineage)
    case Issuing(_, _, spent, birth) => if spent == "" then Some(birth.lineage) else None
    case Minting(_, _, spent, birth) => if spent == "" then Some(birth.lineage) else None
    case _ => None
  }

  function LineageAt(s: Sys, p: Place): Option<nat> {
    match p
    case AtRow(h) => if Live(s.rt, h) && h in s.born then Some(s.born[h].lineage) else None
    case AtRequest(r) => if r in s.reqs then Carried(s.reqs[r]) else None
    case AtAnswer(i) => if i < |s.answers| then Some(s.answers[i]) else None
  }

  ghost predicate Linear(s: Sys) {
    && (forall p, p' :: LineageAt(s, p).Some? && LineageAt(s, p) == LineageAt(s, p') ==> p == p')
    && (forall p :: LineageAt(s, p).Some? ==> LineageAt(s, p).value < s.lineages)
  }

  /** The only place whose lineage changed is `to`: it is new, or moved there from a place now empty. */
  lemma Moved(s: Sys, s': Sys, to: Place, from: Option<Place>)
    requires Linear(s) && s.lineages <= s'.lineages
    requires forall p :: p != to ==> LineageAt(s', p).None? || LineageAt(s', p) == LineageAt(s, p)
    requires LineageAt(s', to).Some? ==>
               if from.None? then LineageAt(s', to).value == s.lineages < s'.lineages
               else LineageAt(s, from.value) == LineageAt(s', to) && (from.value == to || LineageAt(s', from.value).None?)
    ensures Linear(s')
  {
  }

  /** All rows of `b` were rows of `a`, except perhaps `extra`. */
  ghost predicate OnlyAdds(a: Rt, b: Rt, extra: Option<Handle>) {
    forall h :: Live(b, h) ==> Live(a, h) || extra == Some(h)
  }

  lemma ShrinkAddsNothing(a: Rt, b: Rt)
    requires Shrinks(a, b)
    ensures OnlyAdds(a, b, None)
  {
  }

  /** Where the lineage of a step's outcome ends up. */
  function Destination(s: Sys, r: nat, o: Outcome): Place {
    if o.born.Some? then AtRow(o.born.value.0)
    else if o.answer.Some? then AtAnswer(|s.answers|)
    else AtRequest(r)
  }

  /** The lineage the step puts there. */
  function Delivered(o: Outcome): Option<nat> {
    if o.born.Some? then Some(o.born.value.1.lineage)
    else if o.answer.Some? then o.answer
    else if o.next.Some? then Carried(o.next.value)
    else None
  }

  /** The step delivers a new lineage, or one whose old place it empties. */
  ghost predicate Hands(s: Sys, r: nat, o: Outcome, from: Option<Place>) {
    && OnlyAdds(s.rt, o.rt, if o.born.Some? then Some(o.born.value.0) else None)
    && (o.born.Some? ==> o.born.value.0 !in s.born && o.answer.None?)
    && (o.born.Some? || o.answer.Some? ==> o.next.Some? ==> Carried(o.next.value).None?)
    && (Delivered(o).Some? ==>
          match from
          case None => o.born.Some? && Delivered(o).value == s.lineages
          case Some(AtRow(h)) => LineageAt(s, AtRow(h)) == Delivered(o) && !Live(o.rt, h)
          case Some(AtRequest(r')) => r' == r && LineageAt(s, AtRequest(r)) == Delivered(o)
          case Some(AtAnswer(_)) => false)
  }

  lemma HandsKeepsLinear(s: Sys, r: nat, o: Outcome, from: Option<Place>)
    requires Linear(s) && Hands(s, r, o, from)
    ensures Linear(After(s, r, o))
  {
    Moved(s, After(s, r, o), Destination(s, r, o), from);
  }

  // ---------------------------------------------------------------- events

  lemma EnvKeepsLinear(s: Sys, e: EnvEvent)
    requires Linear(s) && s.snaps != [] && EnvEnabled(s, e)
    requires OnlyAdds(s.rt, EnvDo(s, e).rt, None)
    ensures Linear(EnvDo(s, e))
  {
    Moved(s, EnvDo(s, e), AtRequest(if e.Capture? || e.Abandon? then e.r else 0), Some(AtRequest(if e.Capture? || e.Abandon? then e.r else 0)));
  }

  lemma MutKeepsLinear(s: Sys, e: MutEvent)
    requires Linear(s) && s.snaps != [] && MutEnabled(s, e)
    ensures Linear(MutDo(s, e))
  {
    Moved(s, MutDo(s, e), AtRequest(0), Some(AtRequest(0)));
  }

  lemma SubmitHands(s: Sys, r: nat, p: Pending, newId: string, next: Option<Request>)
    requires DescentOk(s) && Fresh(s, newId) && p.id == "" && (next.Some? ==> next.value.Stored?)
    ensures Hands(s, r, Submit(s, p, newId, next), None)
  {
    PutPendingAdds(s.rt, p, s.now, newId);
    assert PendingHandle(newId) !in s.born;
  }

  lemma PutPendingAdds(rt: Rt, p: Pending, now: int, newId: string)
    requires p.id == "" && newId != ""
    ensures
      var (rt', row) := PutPending(rt, p, now, newId);
      (row.id == "" || row.id == newId) && OnlyAdds(rt, rt', if row.id == "" then None else Some(PendingHandle(newId)))
  {
    CleanupShrinks(rt, now);
    ShrinkAddsNothing(rt, Cleanup(rt, now));
  }

  /** A step that only shrinks the tables and takes nothing. */
  lemma ShrunkHands(s: Sys, r: nat, o: Outcome)
    requires Shrinks(s.rt, o.rt) && o.born.None? && o.answer.None? && (o.next.Some? ==> Carried(o.next.value).None?)
    ensures Hands(s, r, o, None)
  {
    ShrinkAddsNothing(s.rt, o.rt);
  }

  lemma StoreCodeHands(s: Sys, r: nat, c: AuthCode, birth: Birth, from: Option<Place>)
    requires DescentOk(s) && Fresh(s, c.code)
    requires from.None? ==> birth.lineage == s.lineages
    requires from.Some? ==> from.value == AtRequest(r) && LineageAt(s, AtRequest(r)) == Some(birth.lineage)
    ensures Hands(s, r, StoreCode(s, c, birth), from)
  {
    CleanupShrinks(s.rt, s.now);
    ShrinkAddsNothing(s.rt, Cleanup(s.rt, s.now));
  }

  lemma ResumeHands(s: Sys, r: nat, snap: Snapshot, pid: string, sid: string)
    ensures Hands(s, r, Resume(s, snap, pid, sid), None)
  {
    ReadSessionShrinks(s.rt, sid, s.now);
    ShrunkHands(s, r, Resume(s, snap, pid, sid));
  }

  lemma EntryHands(s: Sys, r: nat, q: Request, e: EntryEvent)
    requires DescentOk(s) && EntryEnabled(s, q, e)
    ensures Hands(s, r, EntryOut(s, q, e), None)
  {
    match e
    case AuthorizeReadSession(sid) =>
      ReadSessionShrinks(s.rt, sid, s.now);
      ShrunkHands(s, r, ReadSessionFor(s, q.snap, sid));
    case AuthorizePutCode(query, newId) =>
      var code := CodeFor(q.snap, query, q.session.value, s.now, newId);
      StoreCodeHands(s, r, code, Root(s, LinkOfCode(code)), None);
    case AuthorizePutPending(query, newId) => SubmitHands(s, r, OidcPending(q.snap, query), newId, None);
    case SamlPutPending(issuer, acs, requestId, relay, newId) =>
      SubmitHands(s, r, SamlPending(q.snap, issuer, acs, requestId, relay), newId, Some(Stored(q.snap, newId)));
    case WsFedPutPending(realm, reply, context, newId) =>
      SubmitHands(s, r, WsFedPending(q.snap, realm, reply, context), newId, Some(Stored(q.snap, newId)));
    case FederationReadSession(sid) => ResumeHands(s, r, q.snap, q.pid, sid);
  }

  /** A step that keeps the tables and what the request carries. */
  lemma StayHands(s: Sys, r: nat, o: Outcome)
    requires o.rt.pending == s.rt.pending && o.rt.codes == s.rt.codes && o.rt.refresh == s.rt.refresh
    requires o.born.None? && o.answer.None?
    requires r in s.reqs && (o.next.Some? ==> Carried(o.next.value).None? || Carried(o.next.value) == Carried(s.reqs[r]))
    ensures Hands(s, r, o, Some(AtRequest(r)))
  {
  }

  lemma OpenSessionHands(s: Sys, r: nat, q: Request, newId: string)
    requires q.Authenticated?
    ensures Hands(s, r, OpenSession(s, q, newId), None)
  {
    CleanupShrinks(s.rt, s.now);
    ShrinkAddsNothing(s.rt, Cleanup(s.rt, s.now));
  }

  lemma IdentifyHands(s: Sys, r: nat, snap: Snapshot, pid: string, username: string, passwordOk: bool)
    ensures Hands(s, r, Identify(s, snap, pid, username, passwordOk), None)
  {
    ReadPendingShrinks(s.rt, pid, s.now);
    ShrunkHands(s, r, Identify(s, snap, pid, username, passwordOk));
  }

  lemma LoginKeepsLinear(s: Sys, r: nat, q: Request, e: LoginEvent)
    requires Linear(s) && r in s.reqs && s.reqs[r] == q && LoginEnabled(s, q, e)
    ensures Linear(After(s, r, LoginOut(s, q, e)))
  {
    match e
    case LoginReadPending(pid, username, passwordOk) =>
      IdentifyHands(s, r, q.snap, pid, username, passwordOk);
      HandsKeepsLinear(s, r, LoginOut(s, q, e), None);
    case LoginPutSession(newId) =>
      OpenSessionHands(s, r, q, newId);
      HandsKeepsLinear(s, r, LoginOut(s, q, e), None);
    case ConsentReadSession(pid, sid) =>
      ResumeHands(s, r, q.snap, pid, sid);
      HandsKeepsLinear(s, r, LoginOut(s, q, e), None);
    case _ =>
      StayHands(s, r, LoginOut(s, q, e));
      HandsKeepsLinear(s, r, LoginOut(s, q, e), Some(AtRequest(r)));
  }

  /** Taking a pending row moves its authorization request out of the table. */
  lemma TakePendingEmpties(s: Sys, pid: string)
    requires TakePending(s.rt, pid, s.now).1.Some?
    ensures pid in s.rt.pending && !Live(TakePending(s.rt, pid, s.now).0, PendingHandle(pid))
    ensures OnlyAdds(s.rt, TakePending(s.rt, pid, s.now).0, None)
  {
    TakePendingShrinks(s.rt, pid, s.now);
    ShrinkAddsNothing(s.rt, TakePending(s.rt, pid, s.now).0);
  }

  lemma TakeForCodeHands(s: Sys, r: nat, q: Request)
    requires q.HoldsPending? && PendingHandle(q.pid) in s.born
    ensures Hands(s, r, TakeForCode(s, q), Some(AtRow(PendingHandle(q.pid))))
  {
    if TakePending(s.rt, q.pid, s.now).1.Some? {
      TakePendingEmpties(s, q.pid);
    } else {
      TakePendingShrinks(s.rt, q.pid, s.now);
      ShrunkHands(s, r, TakeForCode(s, q));
    }
  }

  lemma AnswerHands(s: Sys, r: nat, pid: string)
    requires pid in s.rt.pending ==> PendingHandle(pid) in s.born
    ensures Hands(s, r, Answer(s, pid), Some(AtRow(PendingHandle(pid))))
  {
    if TakePending(s.rt, pid, s.now).1.Some? {
      TakePendingEmpties(s, pid);
    } else {
      TakePendingShrinks(s.rt, pid, s.now);
      ShrunkHands(s, r, Answer(s, pid));
    }
  }

  lemma CompleteCodeHands(s: Sys, r: nat, q: Request, newId: string)
    requires DescentOk(s) && r in s.reqs && s.reqs[r] == q && q.TookPending? && Fresh(s, newId)
    ensures Hands(s, r, CompleteCode(s, q, newId), Some(AtRequest(r)))
  {
    var code := CompletedCode(q, s.now, newId);
    StoreCodeHands(s, r, code, Extend(q.birth, LinkOfCode(code)), Some(AtRequest(r)));
  }

  lemma ReadHands(s: Sys, r: nat, q: Request, e: FinishEvent)
    requires FinishEnabled(s, q, e) && (e.CompleteReadPending? || e.FederationReadPending? || e.DenyReadPending?)
    ensures Hands(s, r, FinishOut(s, q, e), None)
  {
    var pid := if e.DenyReadPending? then e.pid else q.pid;
    ReadPendingShrinks(s.rt, pid, s.now);
    ShrunkHands(s, r, FinishOut(s, q, e));
  }

  /** Where a finishing step takes the lineage it passes on from. */
  function FinishSource(r: nat, q: Request, e: FinishEvent): Option<Place> {
    match e
    case CompleteTakePending => if q.HoldsPending? then Some(AtRow(PendingHandle(q.pid))) else None
    case AnswerTakePending => if q.Answering? then Some(AtRow(PendingHandle(q.pid))) else None
    case CompleteAdmit => Some(AtRequest(r))
    case FederationAdmit => Some(AtRequest(r))
    case CompletePutCode(_) => Some(AtRequest(r))
    case _ => None
  }

  lemma AdmitHands(s: Sys, r: nat, q: Request)
    requires r in s.reqs && q.Finishing?
    ensures Hands(s, r, Admit(s, q), Some(AtRequest(r)))
  {
    StayHands(s, r, Admit(s, q));
  }

  lemma AdmitAssertionHands(s: Sys, r: nat, q: Request)
    requires r in s.reqs && q.Federating?
    ensures Hands(s, r, AdmitAssertion(s, q), Some(AtRequest(r)))
  {
    StayHands(s, r, AdmitAssertion(s, q));
  }

  lemma FinishHands(s: Sys, r: nat, q: Request, e: FinishEvent)
    requires DescentOk(s) && r in s.reqs && s.reqs[r] == q && FinishEnabled(s, q, e)
    requires CarriesOk(s.born, s.lineages, q)
    requires e.AnswerTakePending? && q.pid in s.rt.pending ==> PendingHandle(q.pid) in s.born
    ensures Hands(s, r, FinishOut(s, q, e), FinishSource(r, q, e))
  {
    match e
    case CompleteAdmit => AdmitHands(s, r, q);
    case FederationAdmit => AdmitAssertionHands(s, r, q);
    case CompleteTakePending => TakeForCodeHands(s, r, q);
    case CompletePutCode(newId) => CompleteCodeHands(s, r, q, newId);
    case AnswerTakePending => AnswerHands(s, r, q.pid);
    case _ => ReadHands(s, r, q, e);
  }

  lemma FinishKeepsLinear(s: Sys, r: nat, q: Request, e: FinishEvent)
    requires Linear(s) && DescentOk(s) && r in s.reqs && s.reqs[r] == q && FinishEnabled(s, q, e)
    requires CarriesOk(s.born, s.lineages, q)
    requires e.AnswerTakePending? && q.pid in s.rt.pending ==> PendingHandle(q.pid) in s.born
    ensures Linear(After(s, r, FinishOut(s, q, e)))
  {
    FinishHands(s, r, q, e);
    HandsKeepsLinear(s, r, FinishOut(s, q, e), FinishSource(r, q, e));
  }

  lemma RedeemHands(s: Sys, r: nat, snap: Snapshot, code: string, clientId: string, redirect: string, digest: string)
    requires clientId in snap.clients.byClientId && (code in s.rt.codes ==> CodeHandle(code) in s.born)
    ensures Hands(s, r, Redeem(s, snap, code, clientId, redirect, digest), Some(AtRow(CodeHandle(code))))
  {
    TakeCodeShrinks(s.rt, code);
    ShrinkAddsNothing(s.rt, TakeCode(s.rt, code).0);
  }

  /** Rotation empties the spent handle in the step that fills the new one. */
  lemma RotateHands(s: Sys, r: nat, q: Request, newId: string)
    requires DescentOk(s) && q.Minting? && q.spent != "" && CarriesOk(s.born, s.lineages, q) && Fresh(s, newId)
    ensures Hands(s, r, StoreGrant(s, q, newId), Some(AtRow(RefreshHandle(q.spent))))
  {
    assert q.spent != newId;
  }

  lemma FirstRefreshHands(s: Sys, r: nat, q: Request, newId: string)
    requires DescentOk(s) && r in s.reqs && s.reqs[r] == q && q.Minting? && q.spent == "" && Fresh(s, newId)
    ensures Hands(s, r, StoreGrant(s, q, newId), Some(AtRequest(r)))
  {
    PutRefreshAdds(s.rt, RefreshFor(q.snap, q.grant, s.now, newId), s.now);
    assert RefreshHandle(newId) !in s.born;
  }

  lemma PutRefreshAdds(rt: Rt, t: Refresh, now: int)
    ensures
      var (rt', ok) := PutRefresh(rt, t, now);
      OnlyAdds(rt, rt', if ok then Some(RefreshHandle(t.token)) else None)
  {
    CleanupShrinks(rt, now);
    ShrinkAddsNothing(rt, Cleanup(rt, now));
  }

  lemma BurnHands(s: Sys, r: nat, spent: string)
    ensures Hands(s, r, Ends(TakeRefresh(s.rt, spent).0), None)
  {
    TakeRefreshShrinks(s.rt, spent);
    ShrunkHands(s, r, Ends(TakeRefresh(s.rt, spent).0));
  }

  lemma ReadGrantKeepsLinear(s: Sys, r: nat, q: Request, token: string, clientId: string, requested: string)
    requires Linear(s) && r in s.reqs && s.reqs[r] == q && q.Captured? && "" !in s.rt.refresh
    ensures Linear(After(s, r, ReadGrant(s, q.snap, token, clientId, requested)))
  {
    StayHands(s, r, ReadGrant(s, q.snap, token, clientId, requested));
    HandsKeepsLinear(s, r, ReadGrant(s, q.snap, token, clientId, requested), Some(AtRequest(r)));
  }

  lemma CheckedGrantKeepsLinear(s: Sys, r: nat, q: Request, forced: bool)
    requires Linear(s) && r in s.reqs && s.reqs[r] == q && q.Issuing?
    ensures Linear(After(s, r, CheckedGrant(s, q, forced)))
  {
    StayHands(s, r, CheckedGrant(s, q, forced));
    HandsKeepsLinear(s, r, CheckedGrant(s, q, forced), Some(AtRequest(r)));
  }

  lemma StoreGrantKeepsLinear(s: Sys, r: nat, q: Request, newId: string)
    requires Linear(s) && DescentOk(s) && r in s.reqs && s.reqs[r] == q && q.Minting? && Fresh(s, newId)
    requires CarriesOk(s.born, s.lineages, q)
    ensures Linear(After(s, r, StoreGrant(s, q, newId)))
  {
    if q.spent != "" {
      RotateHands(s, r, q, newId);
      HandsKeepsLinear(s, r, StoreGrant(s, q, newId), Some(AtRow(RefreshHandle(q.spent))));
    } else {
      FirstRefreshHands(s, r, q, newId);
      HandsKeepsLinear(s, r, StoreGrant(s, q, newId), Some(AtRequest(r)));
    }
  }

  lemma TokenKeepsLinear(s: Sys, r: nat, q: Request, e: TokenEvent)
    requires Linear(s) && DescentOk(s) && r in s.reqs && s.reqs[r] == q && TokenEnabled(s, q, e)
    requires CarriesOk(s.born, s.lineages, q)
    requires e.RedeemCode? && e.code in s.rt.codes ==> CodeHandle(e.code) in s.born
    requires e.ReadRefresh? ==> "" !in s.rt.refresh
    ensures Linear(After(s, r, TokenOut(s, q, e)))
  {
    match e
    case RedeemCode(code, clientId, redirect, digest) =>
      RedeemHands(s, r, q.snap, code, clientId, redirect, digest);
      HandsKeepsLinear(s, r, TokenOut(s, q, e), Some(AtRow(CodeHandle(code))));
    case ReadRefresh(token, clientId, requested) => ReadGrantKeepsLinear(s, r, q, token, clientId, requested);
    case CheckGrant(forced) => CheckedGrantKeepsLinear(s, r, q, forced);
    case BurnRefresh =>
      BurnHands(s, r, q.spent);
      HandsKeepsLinear(s, r, TokenOut(s, q, e), None);
    case StoreRefresh(newId) => StoreGrantKeepsLinear(s, r, q, newId);
  }
}
