/**
 Redeeming a refresh handle: the only thing a redemption does to the tables is
 to put exactly one replacement in the place of the handle it spends.
 */
module Redemption {
  import opened Basics
  import opened Snapshots
  import opened RuntimeState
  import opened Access
  import opened System
  import opened Revocation
  import opened Protocol

  /** The table after the spent handle was replaced by the new row. */
  function Replaced(refresh: map<string, Refresh>, spent: string, row: Refresh): map<string, Refresh> {
    (refresh - {spent})[row.token := row]
  }

  /** The request is redeeming a refresh handle. */
  predicate Redeems(q: Request) { (q.Issuing? || q.Minting?) && q.spent != "" }

  /**
   Every step of a redemption leaves the runtime alone, except the one that
   rotates: it needs the handle present and unexpired and the snapshot usable,
   and it replaces the row in the same atomic action.
   */
  lemma RedemptionIsAtomic(s: Sys, q: Request, e: TokenEvent)
    requires TokenEnabled(s, q, e) && (Redeems(q) || e.ReadRefresh?)
    ensures
      var o := TokenOut(s, q, e);
      if o.born.Some? then
        && e.StoreRefresh? && q.Minting? && q.spent in s.rt.refresh
        && !RefreshExpired(s.rt.refresh[q.spent], s.now) && GenerationUsable(s.rt, q.snap.generation)
        && o.rt == s.rt.(refresh := Replaced(s.rt.refresh, q.spent, RefreshFor(q.snap, q.grant, s.now, e.newId)))
      else
        o.rt == s.rt
  {
  }

  // ---------------------------------- why a refresh handle can disappear

  predicate LogsOut(s: Sys, e: Event, row: Refresh) {
    && e.Env?
    && (e.env.ExpireEverySession?
        || (e.env.ExpireOneSession? && e.env.sid in s.rt.sessions && s.rt.sessions[e.env.sid].userId == row.userId))
  }

  predicate Revokes(s: Sys, e: Event)
    requires s.snaps != []
  {
    && e.Mutate? && e.mut.Invalidate? && s.phase.Candidate?
    && (s.phase.reset || SecurityChanged(Active(s), s.phase.next))
  }

  predicate Rotates(s: Sys, e: Event, token: string, after: map<string, Refresh>) {
    && e.Token? && e.token.StoreRefresh? && e.r in s.reqs && s.reqs[e.r].Minting? && s.reqs[e.r].spent == token
    && after == Replaced(s.rt.refresh, token, RefreshFor(s.reqs[e.r].snap, s.reqs[e.r].grant, s.now, e.token.newId))
  }

  /** Sweeps remove only expired rows. */
  lemma SweepKeepsUnexpired(rt: Rt, now: int, token: string)
    requires token in rt.refresh && !RefreshExpired(rt.refresh[token], now)
    ensures token in Cleanup(rt, now).refresh
  {
  }

  lemma EntryKeepsRefresh(s: Sys, q: Request, e: EntryEvent, token: string)
    requires EntryEnabled(s, q, e) && token in s.rt.refresh && !RefreshExpired(s.rt.refresh[token], s.now)
    ensures token in EntryOut(s, q, e).rt.refresh
  {
    match e
    case AuthorizePutCode(query, newId) =>
      var code := CodeFor(q.snap, query, q.session.value, s.now, newId);
      StoreKeepsRefresh(s, code, Root(s, LinkOfCode(code)), token);
    case AuthorizePutPending(query, newId) => SubmitKeepsRefresh(s, OidcPending(q.snap, query), newId, None, token);
    case SamlPutPending(issuer, acs, requestId, relay, newId) =>
      SubmitKeepsRefresh(s, SamlPending(q.snap, issuer, acs, requestId, relay), newId, Some(Stored(q.snap, newId)), token);
    case WsFedPutPending(realm, reply, context, newId) =>
      SubmitKeepsRefresh(s, WsFedPending(q.snap, realm, reply, context), newId, Some(Stored(q.snap, newId)), token);
    case _ =>
  }

  lemma SubmitKeepsRefresh(s: Sys, p: Pending, newId: string, next: Option<Request>, token: string)
    requires token in s.rt.refresh && !RefreshExpired(s.rt.refresh[token], s.now)
    ensures token in Submit(s, p, newId, next).rt.refresh
  {
    SweepKeepsUnexpired(s.rt, s.now, token);
  }

  lemma LoginKeepsRefresh(s: Sys, q: Request, e: LoginEvent, token: string)
    requires LoginEnabled(s, q, e) && token in s.rt.refresh && !RefreshExpired(s.rt.refresh[token], s.now)
    ensures token in LoginOut(s, q, e).rt.refresh
  {
    SweepKeepsUnexpired(s.rt, s.now, token);
  }

  lemma FinishKeepsRefresh(s: Sys, q: Request, e: FinishEvent, token: string)
    requires FinishEnabled(s, q, e) && token in s.rt.refresh && !RefreshExpired(s.rt.refresh[token], s.now)
    ensures token in FinishOut(s, q, e).rt.refresh
  {
    match e
    case CompletePutCode(newId) => StoreKeepsRefresh(s, CompletedCode(q, s.now, newId), Extend(q.birth, LinkOfCode(CompletedCode(q, s.now, newId))), token);
    case CompleteAdmit =>
    case FederationAdmit =>
    case CompleteTakePending => PendingReadsKeepRefresh(s.rt, q.pid, s.now);
    case AnswerTakePending => PendingReadsKeepRefresh(s.rt, q.pid, s.now);
    case DenyReadPending(pid) => PendingReadsKeepRefresh(s.rt, pid, s.now);
    case CompleteReadPending => PendingReadsKeepRefresh(s.rt, q.pid, s.now);
    case FederationReadPending => PendingReadsKeepRefresh(s.rt, q.pid, s.now);
  }

  lemma PendingReadsKeepRefresh(rt: Rt, pid: string, now: int)
    ensures GetPending(rt, pid, now).0.refresh == rt.refresh && TakePending(rt, pid, now).0.refresh == rt.refresh
  {
  }

  lemma StoreKeepsRefresh(s: Sys, code: AuthCode, birth: Birth, token: string)
    requires token in s.rt.refresh && !RefreshExpired(s.rt.refresh[token], s.now)
    ensures token in StoreCode(s, code, birth).rt.refresh
  {
    SweepKeepsUnexpired(s.rt, s.now, token);
  }

  lemma TokenKeepsRefresh(s: Sys, q: Request, e: TokenEvent, token: string)
    requires TokenEnabled(s, q, e) && !q.Burning? && token in s.rt.refresh && !RefreshExpired(s.rt.refresh[token], s.now)
    ensures
      var o := TokenOut(s, q, e);
      token in o.rt.refresh ||
      (q.Minting? && q.spent == token && e.StoreRefresh?
       && o.rt.refresh == Replaced(s.rt.refresh, token, RefreshFor(q.snap, q.grant, s.now, e.newId)))
  {
    match e
    case StoreRefresh(newId) => StoreGrantKeepsRefresh(s, q, newId, token);
    case _ =>
  }

  lemma StoreGrantKeepsRefresh(s: Sys, q: Request, newId: string, token: string)
    requires q.Minting? && token in s.rt.refresh && !RefreshExpired(s.rt.refresh[token], s.now)
    ensures
      var o := StoreGrant(s, q, newId);
      token in o.rt.refresh ||
      (q.spent == token && o.rt.refresh == Replaced(s.rt.refresh, token, RefreshFor(q.snap, q.grant, s.now, newId)))
  {
    SweepKeepsUnexpired(s.rt, s.now, token);
  }

  /** Outside the revoking step itself a mutation finds the refresh table empty or leaves it alone. */
  lemma MutKeepsRefresh(s: Sys, x: MutEvent, token: string)
    requires Core(s) && MutEnabled(s, x) && token in s.rt.refresh
    ensures token in MutDo(s, x).rt.refresh || Revokes(s, Mutate(x))
  {
    LiveRowMeansOpen(s, token);
  }

  /** While a refresh row is live, the active snapshot is admitted. */
  lemma LiveRowMeansOpen(s: Sys, token: string)
    requires Core(s) && token in s.rt.refresh
    ensures s.rt.minGen <= |s.snaps|
  {
    assert WorthIn(s).refresh(s.rt.refresh[token]);
  }

  lemma RequestsKeepRefresh(s: Sys, e: Event, token: string)
    requires Enabled(s, e) && (e.Entry? || e.Login? || e.Finish?)
    requires token in s.rt.refresh && !RefreshExpired(s.rt.refresh[token], s.now)
    ensures token in Do(s, e).rt.refresh
  {
    match e
    case Entry(r, x) => EntryKeepsRefresh(s, s.reqs[r], x, token);
    case Login(r, x) => LoginKeepsRefresh(s, s.reqs[r], x, token);
    case Finish(r, x) => FinishKeepsRefresh(s, s.reqs[r], x, token);
  }

  lemma TokensRotateOrKeep(s: Sys, e: Event, token: string)
    requires Enabled(s, e) && e.Token? && !s.reqs[e.r].Burning?
    requires token in s.rt.refresh && !RefreshExpired(s.rt.refresh[token], s.now)
    ensures token in Do(s, e).rt.refresh || Rotates(s, e, token, Do(s, e).rt.refresh)
  {
    TokenKeepsRefresh(s, s.reqs[e.r], e.token, token);
  }

  lemma EnvKeepsRefresh(s: Sys, x: EnvEvent, token: string)
    requires s.snaps != [] && token in s.rt.refresh
    ensures token in EnvDo(s, x).rt.refresh || LogsOut(s, Env(x), s.rt.refresh[token])
  {
  }

  /** The reasons, given what the invariant says about the acting request or mutation. */
  lemma LossReasons(s: Sys, e: Event, token: string)
    requires Enabled(s, e) && token in s.rt.refresh && token !in Do(s, e).rt.refresh
    requires e.Token? ==> !s.reqs[e.r].Burning?
    requires e.Mutate? ==> token in MutDo(s, e.mut).rt.refresh || Revokes(s, e)
    ensures
      var row := s.rt.refresh[token];
      RefreshExpired(row, s.now) || LogsOut(s, e, row) || Revokes(s, e) || Rotates(s, e, token, Do(s, e).rt.refresh)
  {
    if !RefreshExpired(s.rt.refresh[token], s.now) {
      match e
      case Env(x) => EnvKeepsRefresh(s, x, token);
      case Mutate(_) =>
      case Token(_, _) => TokensRotateOrKeep(s, e, token);
      case _ => RequestsKeepRefresh(s, e, token);
    }
  }

  /**
   In every reachable state, a live and unexpired refresh handle disappears in a
   step only because that step logs its user out, revokes everything after a
   security change or reset, or rotates this very handle.
   */
  lemma RefreshLossHasAReason(s: Sys, e: Event, token: string)
    requires Reachable(s) && Enabled(s, e) && token in s.rt.refresh && token !in Do(s, e).rt.refresh
    ensures
      var row := s.rt.refresh[token];
      RefreshExpired(row, s.now) || LogsOut(s, e, row) || Revokes(s, e) || Rotates(s, e, token, Do(s, e).rt.refresh)
  {
    if e.Token? {
      NeverBurning(s, e.r);
    } else if e.Mutate? {
      MutationKeepsRefresh(s, e.mut, token);
    }
    LossReasons(s, e, token);
  }

  lemma MutationKeepsRefresh(s: Sys, x: MutEvent, token: string)
    requires Reachable(s) && s.snaps != [] && MutEnabled(s, x) && token in s.rt.refresh
    ensures token in MutDo(s, x).rt.refresh || Revokes(s, Mutate(x))
  {
    ReachableCore(s);
    MutKeepsRefresh(s, x, token);
  }
}
