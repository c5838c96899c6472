/** Small concrete documents, the files they need, and runs that show where the code surprises. */
module Witnesses {
  import opened Basics
  import opened Documents
  import opened Snapshots
  import opened Operations
  import opened Idempotency
  import opened Engine
  import opened DesiredState
  import opened Retries
  import opened Drift

  // ------------------------------------------------------------- documents

  /** The URLs of the witnesses are plain HTTPS URLs. */
  predicate Https(u: string) { |u| >= 8 && u[..8] == "https://" }

  /** One file serves every reference; redirect and reply URLs must be HTTPS. */
  const WORLD := World(
    map["f" := "x"],
    Syntax((_: string) => true, (_: string, _: bool) => true, (_: string, _: string) => true, (u: string, _: bool) => Https(u)),
    (u: string) => Https(u), (_: string, _: string, _: string) => true, (_: Bytes, _: Bytes) => true, (_: Bytes, _: bool) => true,
    (b: Bytes, hashed: bool) => Some(Credential(b, hashed)), (b: Bytes) => Some(b))

  /** What the witness documents differ in. */
  datatype Setup = Setup(vendor: string, saml: bool, wsfed: bool, mode: Mfa, clients: seq<Client>, users: seq<User>)

  function SpecOf(x: Setup): Spec {
    Spec(Listeners(HttpsListener(":10443", "f", "f"), Management(":8080", "/v1", "/mcp", false)), "https://idp",
         Profile(x.vendor, ""), Protocols(Some(true), Some(x.saml), Some(x.wsfed)), "f", x.clients, x.users, [],
         Auth(0, x.mode), GroupOverage(false, 100, 200), Some(true), "f")
  }

  function DocOf(x: Setup): Document { Document(API_VERSION, KIND, "lab", SpecOf(x)) }

  predicate SetupOk(x: Setup) {
    x.vendor in VENDORS && x.vendor != "" && ValidMfa(x.mode) && ClientsValid(WORLD.syntax, x.clients) && UsersValid([], x.users)
  }

  lemma DocIsNormal(x: Setup)
    requires SetupOk(x)
    ensures Normalize(DocOf(x)) == DocOf(x)
  {
  }

  lemma FileHolds()
    ensures ReadRef(WORLD, "f") == Some("x") && |TrimSpace("x")| > 0
  {
    assert !IsSpace('x');
    assert "x"[0] == 'x';
    assert TrimLeft("x") == "x" && TrimRight("x") == "x";
  }

  lemma SettingsHold(x: Setup)
    requires SetupOk(x)
    ensures SettingsOk(WORLD, DocOf(x))
  {
    FileHolds();
    var d := DocOf(x);
    assert Https("https://idp") by { assert "https://idp"[..8] == "https://"; }
    assert GroupsValid(d.spec.groups);
    assert HeaderOk(WORLD.syntax, d);
    assert ValidDocument(WORLD.syntax, d);
  }

  lemma DocCompiles(x: Setup, opt: Options)
    requires SetupOk(x) && IndexClients(WORLD, x.clients).Some? && IndexUsers(WORLD, x.users).Some?
    ensures
      var r := Compiled(WORLD, DocOf(x), opt);
      && r.Ok? && r.value.canonical == DocOf(x)
      && r.value.clients == IndexClients(WORLD, x.clients).value && r.value.users == IndexUsers(WORLD, x.users).value
  {
    DocIsNormal(x);
    SettingsHold(x);
  }

  // ------------------------------------------------- an outdated drift flag

  function Plain(vendor: string): Document { DocOf(Setup(vendor, false, false, Never, [], [])) }

  function EnvWith(boot: BootFile): Env { Env(WORLD, boot, false) }

  function SwitchTo(vendor: string): Operation { Operation(Update, ProfileTarget, "", OfProfile(Profile(vendor, ""))) }

  predicate Known(vendor: string) { vendor == "generic" || vendor == "okta" }

  /** The live document has one vendor, the bootstrap document the other or the same. */
  predicate LiveAt(a: AppState, vendor: string, boot: string) {
    && a.active.canonical == Plain(vendor) && a.active.revision == RevisionOf(Plain(vendor))
    && a.active.bootstrapRevision == RevisionOf(Plain(boot)) && a.active.generation >= 1
  }

  lemma PlainCompiles(vendor: string, opt: Options)
    requires Known(vendor)
    ensures
      var r := Compiled(WORLD, Plain(vendor), opt);
      && r.Ok? && r.value.canonical == Plain(vendor) && r.value.revision == RevisionOf(Plain(vendor))
      && (opt.generation != 0 ==> r.value.generation == opt.generation)
      && r.value.bootstrapRevision == if opt.bootstrapRevision.NoRevision? then RevisionOf(Plain(vendor)) else opt.bootstrapRevision
  {
    assert ClientsValid(WORLD.syntax, []);
    assert "generic" in VENDORS && "okta" in VENDORS;
    DocCompiles(Setup(vendor, false, false, Never, [], []), opt);
    CompiledFacts(WORLD, Plain(vendor), opt);
  }

  lemma SwitchedDocument(k: Codec, vendor: string, to: string)
    ensures ApplyOps(k, Plain(vendor), [SwitchTo(to)]) == Ok(Plain(to))
  {
    var profile := Profile(to, "");
    assert EditOf(k, Plain(vendor).spec, SwitchTo(to)) == Ok(SetProfile(profile));
    OneEdit(k, Plain(vendor), SwitchTo(to), SetProfile(profile));
  }

  lemma SwitchBuilds(k: Codec, boot: BootFile, a: AppState, vendor: string, from: string, c: Change, to: string)
    requires LiveAt(a, vendor, from) && Known(to) && c.expected == RevisionOf(Plain(vendor)) && c.ops == [SwitchTo(to)]
    ensures
      var r := BuildCandidate(k, EnvWith(boot), a.active, c);
      && r.Ok? && r.value.canonical == Plain(to) && r.value.revision == RevisionOf(Plain(to))
      && r.value.bootstrapRevision == RevisionOf(Plain(from)) && r.value.generation == a.active.generation + 1
  {
    SwitchedDocument(k, vendor, to);
    PlainCompiles(to, Options(a.active.generation + 1, a.active.bootstrapRevision));
  }

  const OPERATOR := Actor("operator", "one")

  /** Switch the live document to another vendor; no idempotency key. */
  const SWITCH := ApplyCall(OPERATOR, Change(RevisionOf(Plain("generic")), "", "r", [SwitchTo("okta")]))

  /** Plan the way back to the bootstrap document. */
  const BACK := Change(RevisionOf(Plain("okta")), "k", "", [SwitchTo("generic")])
  const PLAN_BACK := PlanCall(OPERATOR, BACK)

  /** Reset to what is live anyway: the boot file was rewritten to it. */
  const ADOPT := ResetCall(OPERATOR, Reset(RevisionOf(Plain("okta")), "", false, "r"))

  const QUIET := EnvWith(Missing)
  const REWRITTEN := EnvWith(Loaded(Plain("okta")))

  lemma ReasonGiven()
    ensures !Blank("r")
  {
    assert "r"[0] == 'r' && !IsSpace('r');
  }

  lemma AfterSwitch(k: Codec, a: AppState)
    requires LiveAt(a, "generic", "generic")
    ensures LiveAt(Perform(k, QUIET, a, SWITCH).0, "okta", "generic") && Perform(k, QUIET, a, SWITCH).0.cache == a.cache
  {
    ReasonGiven();
    SwitchBuilds(k, Missing, a, "generic", "generic", SWITCH.change, "okta");
  }

  lemma AfterPlan(k: Codec, a: AppState)
    requires LiveAt(a, "okta", "generic") && KeyOf(PLAN_BACK).value !in a.cache.m
    ensures
      var (b, r) := Perform(k, QUIET, a, PLAN_BACK);
      && LiveAt(b, "okta", "generic") && r.Ok? && r.value.Planned?
      && r.value.plan.candidate == RevisionOf(Plain("generic")) && !r.value.plan.drifted
  {
    SwitchBuilds(k, Missing, a, "okta", "generic", BACK, "generic");
  }

  lemma AfterAdopt(k: Codec, a: AppState)
    requires LiveAt(a, "okta", "generic")
    ensures
      var b := Perform(k, REWRITTEN, a, ADOPT).0;
      LiveAt(b, "okta", "okta") && b.cache == a.cache
  {
    ReasonGiven();
    AdoptLoads(a);
  }

  lemma AdoptLoads(a: AppState)
    requires LiveAt(a, "okta", "generic")
    ensures
      var r := LoadBootstrap(REWRITTEN, a, a.active.generation + 1);
      && r.Ok? && r.value.canonical == Plain("okta") && r.value.revision == RevisionOf(Plain("okta"))
      && r.value.bootstrapRevision == RevisionOf(Plain("okta")) && r.value.generation == a.active.generation + 1
  {
    PlainCompiles("okta", Options(a.active.generation + 1, NoRevision));
  }

  lemma BootedPlain()
    ensures Boot(WORLD, Plain("generic")).Ok? && LiveAt(Boot(WORLD, Plain("generic")).value, "generic", "generic")
    ensures Boot(WORLD, Plain("generic")).value.cache == NewCache(CACHE_CAPACITY)
  {
    PlainCompiles("generic", Options(1, NoRevision));
  }

  /** The second plan is served from the cache and its flag is wrong. */
  lemma StaleServed(k: Codec, a: AppState)
    requires LiveAt(a, "okta", "generic") && KeyOf(PLAN_BACK).value !in a.cache.m
    ensures
      var b := Perform(k, QUIET, a, PLAN_BACK).0;
      var c := Perform(k, REWRITTEN, b, ADOPT).0;
      var again := Perform(k, QUIET, c, PLAN_BACK).1;
      && again.Ok? && again.value.Planned? && !again.value.plan.drifted
      && again.value.plan.candidate != c.active.bootstrapRevision
      && BuildCandidate(k, QUIET, c.active, BACK).Ok? && again.value.plan != Recomputed(k, QUIET, c, BACK)
  {
    var b := Perform(k, QUIET, a, PLAN_BACK).0;
    var c := Perform(k, REWRITTEN, b, ADOPT).0;
    AfterPlan(k, a);
    AfterAdopt(k, b);
    PlanIsRecorded(k, a, Made(QUIET, PLAN_BACK), KeyOf(PLAN_BACK).value);
    SwitchBuilds(k, Missing, c, "okta", "okta", BACK, "generic");
    assert Plain("generic").spec.profile.vendor != Plain("okta").spec.profile.vendor;
  }

  /**
   From boot: switch the vendor, plan the way back, reset after the boot file was
   rewritten to the live document, and ask for the same plan. It is served with
   the old flag: no drift, although the candidate is not the bootstrap document.
   */
  lemma StaleDriftIsServed(k: Codec)
    ensures
      var start := Boot(WORLD, Plain("generic"));
      start.Ok? &&
      var c := RunCalls(k, start.value, [Made(QUIET, SWITCH), Made(QUIET, PLAN_BACK), Made(REWRITTEN, ADOPT)]);
      var again := Perform(k, QUIET, c, PLAN_BACK).1;
      && again.Ok? && again.value.Planned? && !again.value.plan.drifted
      && again.value.plan.candidate != c.active.bootstrapRevision
      && BuildCandidate(k, QUIET, c.active, BACK).Ok? && again.value.plan != Recomputed(k, QUIET, c, BACK)
  {
    BootedPlain();
    var start := Boot(WORLD, Plain("generic")).value;
    var a := Perform(k, QUIET, start, SWITCH).0;
    AfterSwitch(k, start);
    StaleServed(k, a);
    ThreeCalls(k, start, Made(QUIET, SWITCH), Made(QUIET, PLAN_BACK), Made(REWRITTEN, ADOPT));
  }

  lemma ThreeCalls(k: Codec, a: AppState, x: Made, y: Made, z: Made)
    ensures
      var b := Perform(k, x.env, a, x.call).0;
      var c := Perform(k, y.env, b, y.call).0;
      RunCalls(k, a, [x, y, z]) == Perform(k, z.env, c, z.call).0
  {
    FirstCall(k, a, x, [y, z]);
    var b := Perform(k, x.env, a, x.call).0;
    FirstCall(k, b, y, [z]);
    FirstCall(k, Perform(k, y.env, b, y.call).0, z, []);
    assert [x, y, z] == [x] + [y, z] && [y, z] == [y] + [z] && [z] == [z] + [];
  }

  lemma FirstCall(k: Codec, a: AppState, x: Made, rest: seq<Made>)
    ensures RunCalls(k, a, [x] + rest) == RunCalls(k, Perform(k, x.env, a, x.call).0, rest)
  {
    assert ([x] + rest)[1..] == rest;
  }
}
