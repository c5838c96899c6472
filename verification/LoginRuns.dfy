/** Runs of a whole login, from the authorization request to the code, and two races at its end. */
module LoginRuns {
  import opened Basics
  import opened Documents
  import opened Snapshots
  import opened RuntimeState
  import opened Access
  import opened System
  import opened Protocol
  import opened FirstSteps
  import opened LeftBehind
  import StaleRequests
  import Totp
  import RL = RuntimeLaws
  import W = Witnesses

  // --------------------------------------------------------------- the cast

  const APP := Client("app", "", ["https://sp"], true, "", [], true, "", [])
  const ALICE := User("u", "alice", "", "f", "", "", [], None)
  const SEEDED := ALICE.(totpSecretRef := "f")

  /** The S256 challenge of the example in appendix B of RFC 7636. */
  const QUERY := Query("app", "https://sp", "", "", "", "E9Melhoa2OwvFrEMTJguCHaoeK1t8URWbuGJSstw-cM")

  /** A snapshot with one client and one user, ready for a login. */
  predicate Open(snap: Snapshot, user: User) {
    && snap.generation >= 1 && snap.clients.byClientId == map["app" := APP] && OidcEnabled(snap) && !MfaMode(snap).ForceFail?
    && FindUser(snap, "alice") == Some(user) && user.id == "u" && user.username == "alice" && UserUsable(snap, "u")
    && snap.canonical.spec.auth.sessionTtl == 0
  }

  /** Nothing is stored, every request has just arrived, request 1 under the active snapshot. */
  predicate Ready(s: Sys, snap: Snapshot) {
    && s.snaps != [] && Active(s) == snap && s.phase == Idle && s.now == 0 && s.used == {}
    && s.rt == EMPTY.(minGen := s.rt.minGen) && s.rt.minGen <= snap.generation
    && 1 in s.reqs && s.reqs[1] == Captured(snap) && 2 !in s.reqs && (forall r :: r in s.reqs ==> s.reqs[r].Captured?)
  }

  /** Where the login is: request 2 stands at `q`, everything else is as it was at the start. */
  predicate At(s: Sys, start: Sys, rt: Rt, used: set<string>, q: Request) {
    && s.snaps == start.snaps && s.phase == Idle && s.now == 0 && s.rt == rt && s.used == used
    && s.reqs == (start.reqs - {1})[2 := q]
  }

  // ---------------------------------------------------- one step of request 2

  /** A step that only moves request 2 on. */
  lemma Moves(s: Sys, start: Sys, rt: Rt, used: set<string>, q: Request, o: Outcome)
    requires At(s, start, rt, used, q) && o.next.Some? && o.born.None?
    ensures At(After(s, 2, o), start, o.rt, used + (if o.session.Some? then {o.session.value} else {}), o.next.value)
  {
  }

  lemma LoginReaches(s: Sys, e: LoginEvent)
    requires Reachable(s) && s.snaps != [] && 2 in s.reqs && LoginEnabled(s, s.reqs[2], e)
    ensures Reachable(After(s, 2, LoginOut(s, s.reqs[2], e)))
  {
    ReachableStep(s, Login(2, e));
  }

  lemma FinishReaches(s: Sys, e: FinishEvent)
    requires Reachable(s) && s.snaps != [] && 2 in s.reqs && FinishEnabled(s, s.reqs[2], e)
    ensures Reachable(After(s, 2, FinishOut(s, s.reqs[2], e)))
  {
    ReachableStep(s, Finish(2, e));
  }

  // -------------------------------------------------- the authorization request

  function Row(snap: Snapshot): Pending { OidcPending(snap, QUERY).(id := "p", created := 0) }

  lemma RowIsUsable(snap: Snapshot, user: User)
    requires Open(snap, user)
    ensures QueryOk(snap, QUERY) && PendingUsable(snap, Row(snap)) && PendingBounded(OidcPending(snap, QUERY))
  {
    assert Fields("") == [];
    assert APP.redirectUris[0] == "https://sp";
    RL.FieldTotal(OidcPending(snap, QUERY));
  }

  function WithRow(rt: Rt, snap: Snapshot): Rt { rt.(pending := map["p" := Row(snap)]) }

  lemma Authorizes(s: Sys, snap: Snapshot, user: User) returns (t: Sys)
    requires Reachable(s) && Ready(s, snap) && Open(snap, user)
    ensures Reachable(t) && t.snaps == s.snaps && t.phase == Idle && t.now == 0 && t.reqs == s.reqs - {1}
    ensures t.rt == WithRow(s.rt, snap) && t.used == {"p"}
  {
    t := Asks(s, snap);
    RowIsUsable(snap, user);
    t := Files(t, s, snap);
  }

  lemma Asks(s: Sys, snap: Snapshot) returns (t: Sys)
    requires Reachable(s) && Ready(s, snap)
    ensures Reachable(t) && t == s.(reqs := s.reqs[1 := Authorizing(snap, None)])
  {
    RequestReaches(s, 1, AuthorizeReadSession("none"));
    t := After(s, 1, ReadSessionFor(s, snap, "none"));
  }

  lemma Files(s: Sys, start: Sys, snap: Snapshot) returns (t: Sys)
    requires Reachable(s) && Ready(start, snap) && s == start.(reqs := start.reqs[1 := Authorizing(snap, None)])
    requires QueryOk(snap, QUERY) && PendingBounded(OidcPending(snap, QUERY)) && snap.generation >= 1
    ensures Reachable(t) && t.snaps == start.snaps && t.phase == Idle && t.now == 0 && t.reqs == start.reqs - {1}
    ensures t.rt == WithRow(start.rt, snap) && t.used == {"p"}
  {
    MayFile(s, start, snap);
    t := FileReaches(s, snap);
    FiledState(s, start, snap);
  }

  lemma FileReaches(s: Sys, snap: Snapshot) returns (t: Sys)
    requires Reachable(s) && s.snaps != [] && 1 in s.reqs && s.reqs[1] == Authorizing(snap, None)
    requires EntryEnabled(s, s.reqs[1], AuthorizePutPending(QUERY, "p"))
    ensures Reachable(t) && t == After(s, 1, Submit(s, OidcPending(snap, QUERY), "p", None))
  {
    RequestReaches(s, 1, AuthorizePutPending(QUERY, "p"));
    t := After(s, 1, Submit(s, OidcPending(snap, QUERY), "p", None));
  }

  lemma FiledState(s: Sys, start: Sys, snap: Snapshot)
    requires Ready(start, snap) && s == start.(reqs := start.reqs[1 := Authorizing(snap, None)])
    requires PendingBounded(OidcPending(snap, QUERY)) && s.reqs - {1} == start.reqs - {1}
    ensures
      var t := After(s, 1, Submit(s, OidcPending(snap, QUERY), "p", None));
      && t.snaps == start.snaps && t.phase == Idle && t.now == 0 && t.reqs == start.reqs - {1}
      && t.rt == WithRow(start.rt, snap) && t.used == {"p"}
  {
    Filed(s, snap);
  }

  lemma MayFile(s: Sys, start: Sys, snap: Snapshot)
    requires Ready(start, snap) && s == start.(reqs := start.reqs[1 := Authorizing(snap, None)]) && QueryOk(snap, QUERY)
    ensures 1 in s.reqs && s.reqs[1] == Authorizing(snap, None) && EntryEnabled(s, s.reqs[1], AuthorizePutPending(QUERY, "p"))
    ensures s.snaps != [] && s.reqs - {1} == start.reqs - {1}
  {
  }

  /** What filing the row gives, of an empty runtime. */
  lemma Filed(s: Sys, snap: Snapshot)
    requires s.now == 0 && s.rt == EMPTY.(minGen := s.rt.minGen) && s.rt.minGen <= snap.generation
    requires PendingBounded(OidcPending(snap, QUERY))
    ensures
      var o := Submit(s, OidcPending(snap, QUERY), "p", None);
      o.rt == WithRow(s.rt, snap) && o.next.None? && o.born.Some? && o.born.value.0 == PendingHandle("p") && o.session.None?
  {
    assert Cleanup(s.rt, 0) == s.rt;
  }

  // -------------------------------------------------------------- the login

  lemma Recognises(s: Sys, snap: Snapshot, user: User)
    requires s.now == 0 && "p" in s.rt.pending && s.rt.pending["p"] == Row(snap) && PendingUsable(snap, Row(snap))
    requires FindUser(snap, "alice") == Some(user)
    ensures Identify(s, snap, "p", "alice", true) == Then(s.rt, Identified(snap, "p", user))
  {
  }

  lemma Returns(s: Sys, start: Sys, snap: Snapshot) returns (t: Sys)
    requires Reachable(s) && Ready(start, snap) && s.snaps == start.snaps && s.phase == Idle && s.now == 0
    requires s.reqs == start.reqs - {1} && s.rt == WithRow(start.rt, snap) && s.used == {"p"}
    ensures Reachable(t) && At(t, start, WithRow(start.rt, snap), {"p"}, Captured(snap))
  {
    StandsAt(s, start, snap);
    Arrives(s, 2);
    t := s.(reqs := s.reqs[2 := Captured(Active(s))]);
  }

  lemma StandsAt(s: Sys, start: Sys, snap: Snapshot)
    requires Ready(start, snap) && s.snaps == start.snaps && s.phase == Idle && s.now == 0
    requires s.reqs == start.reqs - {1} && s.rt == WithRow(start.rt, snap) && s.used == {"p"}
    ensures s.snaps != [] && Active(s) == snap && 2 !in s.reqs
    ensures At(s.(reqs := s.reqs[2 := Captured(Active(s))]), start, WithRow(start.rt, snap), {"p"}, Captured(snap))
  {
  }

  lemma Identifies(s: Sys, snap: Snapshot, user: User) returns (t: Sys)
    requires Reachable(s) && Ready(s, snap) && Open(snap, user)
    ensures Reachable(t) && At(t, s, WithRow(s.rt, snap), {"p"}, Identified(snap, "p", user))
  {
    t := Authorizes(s, snap, user);
    t := Returns(t, s, snap);
    RowIsUsable(snap, user);
    Recognises(t, snap, user);
    var o := Then(t.rt, Identified(snap, "p", user));
    LoginReaches(t, LoginReadPending("p", "alice", true));
    Moves(t, s, WithRow(s.rt, snap), {"p"}, Captured(snap), o);
    t := After(t, 2, o);
  }

  // ------------------------------------------------------- up to the code

  function Session(snap: Snapshot, user: User): LoginSession { SessionFor(snap, user, false, 0).(id := "s") }

  function WithSession(rt: Rt, snap: Snapshot, user: User): Rt { rt.(sessions := map["s" := Session(snap, user)]) }

  lemma OpensSession(s: Sys, snap: Snapshot, user: User, rt: Rt)
    requires s.now == 0 && s.rt == WithRow(rt, snap) && rt == EMPTY.(minGen := rt.minGen) && rt.minGen <= snap.generation
    requires snap.canonical.spec.auth.sessionTtl == 0
    requires LoginEnabled(s, Authenticated(snap, "p", user, false), LoginPutSession("s"))
    ensures LoginOut(s, Authenticated(snap, "p", user, false), LoginPutSession("s")) ==
              Then(WithSession(s.rt, snap, user), Finishing(snap, "p", user.id, user.username, false)).(session := Some("s"))
  {
    assert Cleanup(s.rt, 0) == s.rt;
  }

  lemma LogsIn(s: Sys, start: Sys, snap: Snapshot, user: User) returns (t: Sys)
    requires Reachable(s) && Ready(start, snap) && Open(snap, user) && MfaMode(snap).Never?
    requires At(s, start, WithRow(start.rt, snap), {"p"}, Identified(snap, "p", user))
    ensures Reachable(t) && At(t, start, WithSession(WithRow(start.rt, snap), snap, user), {"p", "s"}, Finishing(snap, "p", "u", "alice", false))
  {
    t := SkipsMfa(s, start, snap, user);
    t := Opens(t, start, snap, user);
  }

  lemma Opens(s: Sys, start: Sys, snap: Snapshot, user: User) returns (t: Sys)
    requires Reachable(s) && Ready(start, snap) && user.id == "u" && user.username == "alice" && snap.canonical.spec.auth.sessionTtl == 0
    requires At(s, start, WithRow(start.rt, snap), {"p"}, Authenticated(snap, "p", user, false))
    ensures Reachable(t) && At(t, start, WithSession(WithRow(start.rt, snap), snap, user), {"p", "s"}, Finishing(snap, "p", "u", "alice", false))
  {
    MayOpen(s, start, snap, user);
    OpensSession(s, snap, user, start.rt);
    LoginReaches(s, LoginPutSession("s"));
    var o := Then(WithSession(s.rt, snap, user), Finishing(snap, "p", "u", "alice", false)).(session := Some("s"));
    Moves(s, start, WithRow(start.rt, snap), {"p"}, Authenticated(snap, "p", user, false), o);
    t := After(s, 2, o);
  }

  lemma MayOpen(s: Sys, start: Sys, snap: Snapshot, user: User)
    requires Ready(start, snap) && At(s, start, WithRow(start.rt, snap), {"p"}, Authenticated(snap, "p", user, false))
    ensures LoginEnabled(s, s.reqs[2], LoginPutSession("s"))
  {
  }

  lemma SkipsMfa(s: Sys, start: Sys, snap: Snapshot, user: User) returns (t: Sys)
    requires Reachable(s) && s.snaps != [] && MfaMode(snap).Never?
    requires At(s, start, WithRow(start.rt, snap), {"p"}, Identified(snap, "p", user))
    ensures Reachable(t) && At(t, start, WithRow(start.rt, snap), {"p"}, Authenticated(snap, "p", user, false))
  {
    LoginReaches(s, LoginWithoutMfa);
    var o := Then(s.rt, Authenticated(snap, "p", user, false));
    Moves(s, start, WithRow(start.rt, snap), {"p"}, Identified(snap, "p", user), o);
    t := After(s, 2, o);
  }

  /** The three steps that lead to the row being taken. */
  lemma Finishes(s: Sys, start: Sys, rt: Rt, used: set<string>, snap: Snapshot) returns (t: Sys)
    requires Reachable(s) && s.snaps != [] && At(s, start, rt, used, Finishing(snap, "p", "u", "alice", false))
    requires MayFinish(s, snap, "u", false) && rt.pending == map["p" := Row(snap)] && PendingUsable(snap, Row(snap))
    ensures Reachable(t) && exists b :: At(t, start, rt.(pending := map[]), used, TookPending(snap, Row(snap), "u", "alice", false, b))
  {
    var o := Then(rt, Completing(snap, "p", "u", "alice", false));
    FinishReaches(s, CompleteAdmit);
    Moves(s, start, rt, used, Finishing(snap, "p", "u", "alice", false), o);
    t := After(s, 2, o);
    t := Holds(t, start, rt, used, snap);
    t := Takes(t, start, rt, used, snap);
  }

  lemma Holds(s: Sys, start: Sys, rt: Rt, used: set<string>, snap: Snapshot) returns (t: Sys)
    requires Reachable(s) && s.snaps != [] && At(s, start, rt, used, Completing(snap, "p", "u", "alice", false))
    requires rt.pending == map["p" := Row(snap)] && PendingUsable(snap, Row(snap))
    ensures Reachable(t) && At(t, start, rt, used, HoldsPending(snap, "p", Row(snap), "u", "alice", false))
  {
    var o := Then(rt, HoldsPending(snap, "p", Row(snap), "u", "alice", false));
    t := ReadReaches(s, snap);
    Moves(s, start, rt, used, Completing(snap, "p", "u", "alice", false), o);
    t := After(s, 2, o);
  }

  lemma Takes(s: Sys, start: Sys, rt: Rt, used: set<string>, snap: Snapshot) returns (t: Sys)
    requires Reachable(s) && s.snaps != [] && At(s, start, rt, used, HoldsPending(snap, "p", Row(snap), "u", "alice", false))
    requires rt.pending == map["p" := Row(snap)]
    ensures Reachable(t) && exists b :: At(t, start, rt.(pending := map[]), used, TookPending(snap, Row(snap), "u", "alice", false, b))
  {
    var b := BirthOf(s, PendingHandle("p"));
    var o := Then(rt.(pending := map[]), TookPending(snap, Row(snap), "u", "alice", false, b));
    t := TakeReaches(s, snap);
    Moves(s, start, rt, used, HoldsPending(snap, "p", Row(snap), "u", "alice", false), o);
    t := After(s, 2, o);
  }

  lemma ReadReaches(s: Sys, snap: Snapshot) returns (t: Sys)
    requires Reachable(s) && s.snaps != [] && 2 in s.reqs && s.reqs[2] == Completing(snap, "p", "u", "alice", false)
    requires s.now == 0 && s.rt.pending == map["p" := Row(snap)] && PendingUsable(snap, Row(snap))
    ensures Reachable(t) && t == After(s, 2, Then(s.rt, HoldsPending(snap, "p", Row(snap), "u", "alice", false)))
  {
    FinishReaches(s, CompleteReadPending);
    ReadsRow(s, snap);
    t := After(s, 2, FinishOut(s, s.reqs[2], CompleteReadPending));
  }

  lemma TakeReaches(s: Sys, snap: Snapshot) returns (t: Sys)
    requires Reachable(s) && s.snaps != [] && 2 in s.reqs && s.reqs[2] == HoldsPending(snap, "p", Row(snap), "u", "alice", false)
    requires s.now == 0 && s.rt.pending == map["p" := Row(snap)]
    ensures Reachable(t)
    ensures t == After(s, 2, Then(s.rt.(pending := map[]), TookPending(snap, Row(snap), "u", "alice", false, BirthOf(s, PendingHandle("p")))))
  {
    FinishReaches(s, CompleteTakePending);
    TakesRow(s, snap);
    t := After(s, 2, FinishOut(s, s.reqs[2], CompleteTakePending));
  }

  lemma ReadsRow(s: Sys, snap: Snapshot)
    requires s.now == 0 && s.rt.pending == map["p" := Row(snap)] && PendingUsable(snap, Row(snap))
    ensures
      var q := Completing(snap, "p", "u", "alice", false);
      FinishOut(s, q, CompleteReadPending) == Then(s.rt, HoldsPending(snap, "p", Row(snap), "u", "alice", false))
  {
  }

  lemma TakesRow(s: Sys, snap: Snapshot)
    requires s.now == 0 && s.rt.pending == map["p" := Row(snap)]
    ensures
      var q := HoldsPending(snap, "p", Row(snap), "u", "alice", false);
      FinishOut(s, q, CompleteTakePending) ==
        Then(s.rt.(pending := map[]), TookPending(snap, Row(snap), "u", "alice", false, BirthOf(s, PendingHandle("p"))))
  {
    assert s.rt.pending - {"p"} == map[];
  }

  /** The end of the login: the code is stored under the snapshot's generation, and request 2 is done. */
  lemma Issues(s: Sys, start: Sys, rt: Rt, snap: Snapshot, b: Birth) returns (t: Sys)
    requires Reachable(s) && Ready(start, snap) && At(s, start, rt, {"p", "s"}, TookPending(snap, Row(snap), "u", "alice", false, b))
    requires rt.codes == map[] && rt.minGen <= snap.generation
    ensures Reachable(t) && t.snaps == start.snaps && t.reqs == start.reqs - {1, 2} && t.rt.minGen == rt.minGen
    ensures "c" in t.rt.codes && t.rt.codes["c"].generation == snap.generation && t.rt.codes["c"].clientId == "app"
  {
    MayIssue(s, start, rt, snap, b);
    FinishReaches(s, CompletePutCode("c"));
    t := After(s, 2, FinishOut(s, s.reqs[2], CompletePutCode("c")));
    Issued(s, snap, b);
  }

  lemma MayIssue(s: Sys, start: Sys, rt: Rt, snap: Snapshot, b: Birth)
    requires Ready(start, snap) && At(s, start, rt, {"p", "s"}, TookPending(snap, Row(snap), "u", "alice", false, b))
    ensures s.snaps != [] && FinishEnabled(s, s.reqs[2], CompletePutCode("c")) && s.reqs - {2} == start.reqs - {1, 2}
  {
  }

  lemma Issued(s: Sys, snap: Snapshot, b: Birth)
    requires s.rt.codes == map[] && s.rt.minGen <= snap.generation
    requires FinishEnabled(s, TookPending(snap, Row(snap), "u", "alice", false, b), CompletePutCode("c"))
    ensures
      var o := FinishOut(s, TookPending(snap, Row(snap), "u", "alice", false, b), CompletePutCode("c"));
      && o.next.None? && o.rt.minGen == s.rt.minGen && "c" in o.rt.codes
      && o.rt.codes["c"].generation == snap.generation && o.rt.codes["c"].clientId == "app"
  {
    assert Cleanup(s.rt, s.now).codes == map[];
  }

  /** A login from beginning to end. */
  lemma LoginEndsInCode(s: Sys, snap: Snapshot, user: User) returns (t: Sys)
    requires Reachable(s) && Ready(s, snap) && Open(snap, user) && MfaMode(snap).Never?
    ensures Reachable(t) && t.snaps == s.snaps && t.reqs == s.reqs - {1, 2} && t.rt.minGen == s.rt.minGen
    ensures "c" in t.rt.codes && t.rt.codes["c"].generation == snap.generation && t.rt.codes["c"].clientId == "app"
  {
    t := Identifies(s, snap, user);
    t := LogsIn(t, s, snap, user);
    var rt := WithSession(WithRow(s.rt, snap), snap, user);
    MayEnd(t, s, rt, snap, user);
    t := Finishes(t, s, rt, {"p", "s"}, snap);
    var b :| At(t, s, rt.(pending := map[]), {"p", "s"}, TookPending(snap, Row(snap), "u", "alice", false, b));
    t := Issues(t, s, rt.(pending := map[]), snap, b);
  }

  lemma MayEnd(t: Sys, s: Sys, rt: Rt, snap: Snapshot, user: User)
    requires Ready(s, snap) && Open(snap, user) && MfaMode(snap).Never? && rt == WithSession(WithRow(s.rt, snap), snap, user)
    requires At(t, s, rt, {"p", "s"}, Finishing(snap, "p", "u", "alice", false))
    ensures t.snaps != [] && MayFinish(t, snap, "u", false) && PendingUsable(snap, Row(snap)) && rt.pending == map["p" := Row(snap)]
    ensures rt.codes == map[] && rt.minGen <= snap.generation && rt.minGen == s.rt.minGen
  {
    RowIsUsable(snap, user);
  }

  // ------------------------------------------------- a newer code is consumed

  lemma OneUserIndex(u: User)
    requires u.passwordRef == "f" && u.passwordHashRef == "" && (u.totpSecretRef == "" || u.totpSecretRef == "f")
    ensures IndexUsers(W.WORLD, [u]) ==
              Some(UserIndex(map[u.id := u], map[u.id := Credential("x", false)], if u.totpSecretRef == "" then map[] else map[u.id := "x"]))
  {
    assert [u][..0] == [];
    assert IndexUsers(W.WORLD, [u][..0]) == Some(NO_USERS);
    W.FileHolds();
  }

  /** The application with one user, compiled. */
  lemma AppCompiles(vendor: string, mode: Mfa, u: User, generation: int) returns (snap: Snapshot)
    requires (u == ALICE || u == SEEDED) && (vendor == "generic" || vendor == "okta") && (mode.Never? || mode.Always?) && generation >= 1
    ensures WellCompiled(snap) && snap.generation == generation && snap.canonical.spec.profile.vendor == vendor
    ensures Open(snap, u) && MfaMode(snap) == mode && snap.users.byId == map["u" := u]
    ensures snap.users.seeds == if u == SEEDED then map["u" := "x"] else map[]
  {
    var x := W.Setup(vendor, false, false, mode, [APP], [u]);
    AppSetupOk(x, u);
    OneUserIndex(u);
    snap := OneClientCompiles(x, generation, APP);
    AppIsOpen(snap, u);
  }

  lemma AppSetupOk(x: W.Setup, u: User)
    requires (u == ALICE || u == SEEDED) && x.clients == [APP] && x.users == [u] && ValidMfa(x.mode)
    requires x.vendor == "generic" || x.vendor == "okta"
    ensures W.SetupOk(x)
  {
    assert "generic" in VENDORS && "okta" in VENDORS;
    assert W.Https("https://sp") by { assert "https://sp"[..8] == "https://"; }
    assert ClientsValid(W.WORLD.syntax, [APP]);
    assert UsersValid([], [u]);
  }

  lemma AppIsOpen(snap: Snapshot, u: User)
    requires (u == ALICE || u == SEEDED) && snap.generation >= 1 && snap.canonical.spec.users == [u] && snap.users.byId == map["u" := u]
    requires snap.clients.byClientId == map["app" := APP] && OidcEnabled(snap) && !MfaMode(snap).ForceFail?
    requires snap.canonical.spec.auth.sessionTtl == 0
    ensures Open(snap, u)
  {
    assert snap.canonical.spec.users[0] == u;
    assert FindEnabled([u], "alice") == Some(u);
  }

  lemma AppScene() returns (s: Sys, before: Snapshot, after: Snapshot)
    ensures Reachable(s) && Scene(s, before, after) && Open(after, ALICE) && MfaMode(after).Never? && after.generation == 2
    ensures before.generation == 1 && before.clients.byClientId == map["app" := APP]
  {
    before := AppCompiles("generic", Never, ALICE, 1);
    after := AppCompiles("okta", Never, ALICE, 2);
    s := SceneIsReached(before, after);
  }

  lemma SceneIsReady(s: Sys, before: Snapshot, after: Snapshot)
    requires Scene(s, before, after) && after.generation == 2
    ensures Ready(s, after)
  {
  }

  /**
   A request that arrived before a revoking apply consumes a code that was issued
   after it: `s` holds the code and the request left behind, and `t` follows from it.
   */
  lemma NewerCodeIsConsumed() returns (s: Sys, t: Sys)
    ensures Reachable(s) && 0 in s.reqs && s.reqs[0].Captured? && Stale(s.rt, s.reqs[0].snap.generation)
    ensures "c" in s.rt.codes && s.rt.codes["c"].generation > s.reqs[0].snap.generation
    ensures Reachable(t) && "c" !in t.rt.codes
  {
    var before;
    s, before := CodeBesideLeftBehind();
    t := RedeemsLeftBehind(s);
  }

  lemma CodeBesideLeftBehind() returns (s: Sys, before: Snapshot)
    ensures Reachable(s) && s.snaps != [] && 0 in s.reqs && s.reqs[0] == Captured(before) && Stale(s.rt, before.generation)
    ensures before.generation == 1 && "app" in before.clients.byClientId
    ensures "c" in s.rt.codes && s.rt.codes["c"].generation == 2
  {
    var after;
    s, before, after := AppScene();
    SceneFacts(s, before, after);
    s := LoginEndsInCode(s, after, ALICE);
  }

  lemma SceneFacts(s: Sys, before: Snapshot, after: Snapshot)
    requires Scene(s, before, after) && after.generation == 2
    ensures Ready(s, after) && s.snaps != [] && s.rt.minGen == 2
    ensures 0 in s.reqs - {1, 2} && (s.reqs - {1, 2})[0] == Captured(before)
  {
    SceneIsReady(s, before, after);
  }

  lemma RedeemsLeftBehind(s: Sys) returns (t: Sys)
    requires Reachable(s) && s.snaps != [] && 0 in s.reqs && s.reqs[0].Captured? && "app" in s.reqs[0].snap.clients.byClientId
    ensures Reachable(t) && "c" !in t.rt.codes
  {
    StaleRequests.RedeemingConsumes(s, 0, "c", "app", "", "");
    ReachableStep(s, Token(0, RedeemCode("c", "app", "", "")));
    t := Do(s, Token(0, RedeemCode("c", "app", "", "")));
  }

  // ---------------------------------------- an enrolment does not stop a login

  /**
   A login that has verified its code when the user's secret is replaced is still
   authenticated with MFA, exactly when its generation is admitted: the enrolment
   cleared the ledger, and the step of the old secret becomes its first entry.
   */
  lemma EnrolmentRaceIff(s: Sys, q: Request, secret: Bytes)
    requires s.snaps != [] && q.Verified?
    ensures
      var t := EnvDo(s, EnrollTotp(q.user.id, secret));
      var o := LoginOut(t, q, LoginRecord);
      && t.rt.overlay[q.user.id] == secret && q.user.id !in t.rt.lastStep
      && (o.next.Some? <==> GenerationUsable(s.rt, q.snap.generation))
      && (o.next.Some? ==>
            && o.next.value == Authenticated(q.snap, q.pid, q.user, true)
            && o.rt.overlay[q.user.id] == secret && o.rt.lastStep[q.user.id] == q.step)
  {
  }

  const SIX := "123456"
  const HOTP: (Bytes, int) -> string := (secret: Bytes, _: int) => if secret == "x" then SIX else "000000"

  lemma SixDigits()
    ensures TrimSpace(SIX) == SIX && |SIX| == 6
  {
    assert SIX[0] == '1' && SIX[5] == '6' && !IsSpace('1') && !IsSpace('6');
    assert TrimLeft(SIX) == SIX && TrimRight(SIX) == SIX;
  }

  lemma SeedVerifies()
    ensures Totp.Verify(HOTP, "x", SIX, 0) == Some(0)
  {
    SixDigits();
    assert Totp.TimeStep(0) == 0;
  }

  /** Boot with MFA on, and one request. */
  lemma SeededStart() returns (s: Sys, snap: Snapshot)
    ensures Reachable(s) && Ready(s, snap) && Open(snap, SEEDED) && MfaMode(snap).Always? && snap.generation == 1
    ensures snap.users.byId == map["u" := SEEDED] && snap.users.seeds == map["u" := "x"] && s.rt == EMPTY
  {
    snap := AppCompiles("generic", Always, SEEDED, 1);
    BootArrives(snap);
    BootIsReady(snap);
    s := Start(snap, 0).(reqs := map[1 := Captured(snap)]);
  }

  lemma BootArrives(snap: Snapshot)
    requires WellCompiled(snap) && snap.generation == 1
    ensures Reachable(Start(snap, 0).(reqs := map[1 := Captured(snap)]))
  {
    ReachableStart(snap, 0);
    Arrives(Start(snap, 0), 1);
  }

  lemma BootIsReady(snap: Snapshot)
    requires snap.generation == 1
    ensures Ready(Start(snap, 0).(reqs := map[1 := Captured(snap)]), snap)
  {
  }

  lemma ReadsSeed(s: Sys, start: Sys, snap: Snapshot) returns (t: Sys)
    requires Reachable(s) && s.snaps != [] && start.rt == EMPTY && MfaMode(snap).Always? && snap.users.seeds == map["u" := "x"]
    requires At(s, start, WithRow(EMPTY, snap), {"p"}, Identified(snap, "p", SEEDED))
    ensures Reachable(t) && At(t, start, WithRow(EMPTY, snap), {"p"}, Challenged(snap, "p", SEEDED, "x"))
  {
    LoginReaches(s, LoginReadOverlay);
    var o := Then(s.rt, Challenged(snap, "p", SEEDED, "x"));
    Moves(s, start, WithRow(EMPTY, snap), {"p"}, Identified(snap, "p", SEEDED), o);
    t := After(s, 2, o);
  }

  lemma Verifies(s: Sys, start: Sys, snap: Snapshot) returns (t: Sys)
    requires Reachable(s) && s.snaps != []
    requires At(s, start, WithRow(EMPTY, snap), {"p"}, Challenged(snap, "p", SEEDED, "x"))
    ensures Reachable(t) && At(t, start, WithRow(EMPTY, snap), {"p"}, Verified(snap, "p", SEEDED, 0, 0))
  {
    SeedVerifies();
    LoginReaches(s, LoginVerify(HOTP, SIX));
    var o := Then(s.rt, Verified(snap, "p", SEEDED, 0, 0));
    Moves(s, start, WithRow(EMPTY, snap), {"p"}, Challenged(snap, "p", SEEDED, "x"), o);
    t := After(s, 2, o);
  }

  lemma VerifiedIsReached() returns (s: Sys, snap: Snapshot)
    ensures Reachable(s) && s.snaps != [] && Active(s) == snap && s.phase.Idle? && snap.generation == 1 && "u" in snap.users.byId
    ensures 2 in s.reqs && s.reqs[2] == Verified(snap, "p", SEEDED, 0, 0) && s.rt == WithRow(EMPTY, snap)
  {
    var start;
    start, snap := SeededStart();
    s := Identifies(start, snap, SEEDED);
    StartFacts(s, start, snap, Identified(snap, "p", SEEDED));
    s := ReadsSeed(s, start, snap);
    s := Verifies(s, start, snap);
    StartFacts(s, start, snap, Verified(snap, "p", SEEDED, 0, 0));
  }

  lemma StartFacts(s: Sys, start: Sys, snap: Snapshot, q: Request)
    requires Ready(start, snap) && At(s, start, WithRow(EMPTY, snap), {"p"}, q)
    ensures s.snaps != [] && Active(s) == snap && s.phase.Idle? && 2 in s.reqs && s.reqs[2] == q && s.rt == WithRow(EMPTY, snap)
  {
  }

  lemma Enrols(s: Sys, secret: Bytes) returns (t: Sys)
    requires Reachable(s) && s.snaps != [] && s.phase.Idle? && "u" in Active(s).users.byId
    ensures Reachable(t) && t.snaps == s.snaps && t.reqs == s.reqs && t.rt == SetOverlay(s.rt, "u", secret)
  {
    ReachableStep(s, Env(EnrollTotp("u", secret)));
    t := EnvDo(s, EnrollTotp("u", secret));
  }

  lemma WrongForNew()
    ensures Totp.Verify(HOTP, "new", SIX, 0) == None
  {
    SixDigits();
    assert "000000"[0] != SIX[0];
  }

  lemma FreshlyEnrolled(snap: Snapshot)
    requires snap.generation == 1
    ensures
      var rt := SetOverlay(WithRow(EMPTY, snap), "u", "new");
      rt.overlay == map["u" := "new"] && "u" !in rt.lastStep && GenerationUsable(rt, snap.generation)
  {
  }

  /**
   A run: a login verifies a code of the old secret, the user's secret is replaced
   by one for which that code is wrong, and the login is then authenticated.
   */
  lemma EnrolmentRace() returns (s: Sys)
    ensures Reachable(s) && 2 in s.reqs && s.reqs[2].Authenticated? && s.reqs[2].mfa && s.reqs[2].user.id == "u"
    ensures s.rt.overlay == map["u" := "new"] && Totp.Verify(HOTP, "new", SIX, 0) == None
  {
    var snap;
    s, snap := VerifiedIsReached();
    s := Enrols(s, "new");
    FreshlyEnrolled(snap);
    s := RecordsAfter(s, snap);
    WrongForNew();
  }

  lemma RecordsAfter(s: Sys, snap: Snapshot) returns (t: Sys)
    requires Reachable(s) && s.snaps != [] && 2 in s.reqs && s.reqs[2] == Verified(snap, "p", SEEDED, 0, 0)
    requires GenerationUsable(s.rt, snap.generation) && "u" !in s.rt.lastStep
    ensures Reachable(t) && 2 in t.reqs && t.reqs[2] == Authenticated(snap, "p", SEEDED, true) && t.rt.overlay == s.rt.overlay
  {
    LoginReaches(s, LoginRecord);
    Recorded(s, snap);
    t := After(s, 2, LoginOut(s, s.reqs[2], LoginRecord));
  }

  lemma Recorded(s: Sys, snap: Snapshot)
    requires GenerationUsable(s.rt, snap.generation) && "u" !in s.rt.lastStep
    ensures
      var o := LoginOut(s, Verified(snap, "p", SEEDED, 0, 0), LoginRecord);
      o.next == Some(Authenticated(snap, "p", SEEDED, true)) && o.rt.overlay == s.rt.overlay
  {
  }
}
