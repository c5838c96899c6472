/** Row keys, table bounds and row budgets hold in every reachable state. */
module Bounds {
  import opened Basics
  import opened Snapshots
  import opened RuntimeState
  import opened Access
  import opened System

  predicate BoundsOk(s: Sys) { TablesOk(s.rt) && s.now > ZERO_TIME }

  lemma EnvKeepsBounds(s: Sys, e: EnvEvent)
    requires BoundsOk(s) && s.snaps != [] && EnvEnabled(s, e)
    ensures BoundsOk(EnvDo(s, e))
  {
    match e
    case ExpireEverySession => ShrinkKeepsTables(s.rt, ExpireAll(s.rt));
    case ExpireOneSession(sid) => ExpireSessionTables(s, sid);
    case ListSessions => ShrinkKeepsTables(s.rt, DropExpiredSessions(s.rt, s.now));
    case EnrollTotp(user, secret) => LedgerIsFree(s.rt, s.rt.overlay[user := secret], s.rt.lastStep - {user});
    case ClearTotp(user) => LedgerIsFree(s.rt, s.rt.overlay - {user}, s.rt.lastStep - {user});
    case _ =>
  }

  lemma ExpireSessionTables(s: Sys, sid: string)
    requires BoundsOk(s)
    ensures TablesOk(ExpireSession(s.rt, sid).0)
  {
    ExpireSessionShrinks(s.rt, sid);
    ShrinkKeepsTables(s.rt, ExpireSession(s.rt, sid).0);
  }

  lemma MutKeepsBounds(s: Sys, e: MutEvent)
    requires BoundsOk(s) && s.snaps != [] && MutEnabled(s, e)
    ensures BoundsOk(MutDo(s, e))
  {
    match e
    case Invalidate => EmptyTablesOk(InvalidateBefore(s.rt, s.phase.next.generation));
    case ResetRuntime => EmptyTablesOk(ResetAll(s.rt));
    case StartSync => ExpireIncompleteTables(s);
    case SyncOne(user) => LedgerIsFree(s.rt, s.rt.overlay - {user}, s.rt.lastStep - {user});
    case _ =>
  }

  lemma ExpireIncompleteTables(s: Sys)
    requires BoundsOk(s)
    ensures TablesOk(ExpireIncompleteMfa(s.rt))
  {
    ExpireIncompleteShrinks(s.rt);
    ShrinkKeepsTables(s.rt, ExpireIncompleteMfa(s.rt));
  }

  lemma ReadSessionTables(s: Sys, sid: string)
    requires BoundsOk(s)
    ensures TablesOk(GetSession(s.rt, sid, s.now).0)
  {
    ReadSessionShrinks(s.rt, sid, s.now);
    ShrinkKeepsTables(s.rt, GetSession(s.rt, sid, s.now).0);
  }

  lemma ReadPendingTables(s: Sys, pid: string)
    requires BoundsOk(s)
    ensures TablesOk(GetPending(s.rt, pid, s.now).0)
  {
    ReadPendingShrinks(s.rt, pid, s.now);
    ShrinkKeepsTables(s.rt, GetPending(s.rt, pid, s.now).0);
  }

  lemma TakePendingTables(s: Sys, pid: string)
    requires BoundsOk(s)
    ensures TablesOk(TakePending(s.rt, pid, s.now).0)
  {
    TakePendingShrinks(s.rt, pid, s.now);
    ShrinkKeepsTables(s.rt, TakePending(s.rt, pid, s.now).0);
  }

  lemma EntryKeepsBounds(s: Sys, q: Request, e: EntryEvent)
    requires BoundsOk(s) && EntryEnabled(s, q, e)
    ensures TablesOk(EntryOut(s, q, e).rt)
  {
    match e
    case AuthorizeReadSession(sid) => ReadSessionTables(s, sid);
    case AuthorizePutCode(query, newId) =>
      PutCodeKeepsTables(s.rt, CodeFor(q.snap, query, q.session.value, s.now, newId), s.now);
    case AuthorizePutPending(query, newId) => PutPendingKeepsTables(s.rt, OidcPending(q.snap, query), s.now, newId);
    case SamlPutPending(issuer, acs, requestId, relay, newId) =>
      PutPendingKeepsTables(s.rt, SamlPending(q.snap, issuer, acs, requestId, relay), s.now, newId);
    case WsFedPutPending(realm, reply, context, newId) =>
      PutPendingKeepsTables(s.rt, WsFedPending(q.snap, realm, reply, context), s.now, newId);
    case FederationReadSession(sid) => ReadSessionTables(s, sid);
  }

  lemma OpenSessionTables(s: Sys, q: Request, newId: string)
    requires BoundsOk(s) && q.Authenticated? && newId != ""
    ensures TablesOk(OpenSession(s, q, newId).rt)
  {
    PutSessionKeepsTables(s.rt, SessionFor(q.snap, q.user, q.mfa, s.now), s.now, newId);
  }

  lemma RecordTables(s: Sys, q: Request)
    requires BoundsOk(s) && q.Verified?
    ensures TablesOk(Record(s, q).rt)
  {
    LedgerIsFree(s.rt, s.rt.overlay, s.rt.lastStep[q.user.id := q.step]);
  }

  lemma LoginKeepsBounds(s: Sys, q: Request, e: LoginEvent)
    requires BoundsOk(s) && LoginEnabled(s, q, e)
    ensures TablesOk(LoginOut(s, q, e).rt)
  {
    match e
    case LoginReadPending(pid, _, _) => ReadPendingTables(s, pid);
    case LoginRecord => RecordTables(s, q);
    case LoginPutSession(newId) => OpenSessionTables(s, q, newId);
    case ConsentReadSession(_, sid) => ReadSessionTables(s, sid);
    case _ => assert LoginOut(s, q, e).rt == s.rt;
  }

  lemma FinishKeepsBounds(s: Sys, q: Request, e: FinishEvent)
    requires BoundsOk(s) && FinishEnabled(s, q, e)
    ensures TablesOk(FinishOut(s, q, e).rt)
  {
    match e
    case CompleteReadPending => ReadPendingTables(s, q.pid);
    case CompleteTakePending => TakePendingTables(s, q.pid);
    case CompletePutCode(newId) => PutCodeKeepsTables(s.rt, CompletedCode(q, s.now, newId), s.now);
    case FederationReadPending => ReadPendingTables(s, q.pid);
    case DenyReadPending(pid) => ReadPendingTables(s, pid);
    case AnswerTakePending => TakePendingTables(s, q.pid);
    case _ => assert FinishOut(s, q, e).rt == s.rt;
  }

  lemma TakeTables(s: Sys, id: string)
    requires BoundsOk(s)
    ensures TablesOk(TakeCode(s.rt, id).0) && TablesOk(TakeRefresh(s.rt, id).0)
  {
    TakeCodeShrinks(s.rt, id);
    ShrinkKeepsTables(s.rt, TakeCode(s.rt, id).0);
    TakeRefreshShrinks(s.rt, id);
    ShrinkKeepsTables(s.rt, TakeRefresh(s.rt, id).0);
  }

  lemma StoreGrantTables(s: Sys, q: Request, newId: string)
    requires BoundsOk(s) && q.Minting?
    ensures TablesOk(StoreGrant(s, q, newId).rt)
  {
    var row := RefreshFor(q.snap, q.grant, s.now, newId);
    RotateKeepsTables(s.rt, q.spent, row, s.now);
    PutRefreshKeepsTables(s.rt, row, s.now);
  }

  lemma TokenKeepsBounds(s: Sys, q: Request, e: TokenEvent)
    requires BoundsOk(s) && TokenEnabled(s, q, e)
    ensures TablesOk(TokenOut(s, q, e).rt)
  {
    match e
    case RedeemCode(code, _, _, _) => TakeTables(s, code);
    case BurnRefresh => TakeTables(s, q.spent);
    case StoreRefresh(newId) => StoreGrantTables(s, q, newId);
    case _ => assert TokenOut(s, q, e).rt == s.rt;
  }
}
