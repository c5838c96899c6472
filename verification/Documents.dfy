/**
 The desired-state document (internal/model/document.go) and its defaults
 (internal/config/load.go). Nil and empty slices are one value here.
 */
module Documents {
  import opened Basics

  datatype Client = Client(
    id: string, clientId: string, redirectUris: seq<string>, isPublic: bool,
    secretRef: string, scopes: seq<string>, preConsent: bool,
    entityId: string, acsUrls: seq<string>)

  datatype User = User(
    id: string, username: string, email: string, passwordRef: string,
    passwordHashRef: string, totpSecretRef: string, groupIds: seq<string>,
    enabled: Option<bool>)

  datatype Group = Group(id: string, name: string)

  datatype HttpsListener = HttpsListener(address: string, certRef: string, keyRef: string)
  datatype Management = Management(address: string, restPath: string, mcpPath: string, allowLegacy: bool)
  datatype Listeners = Listeners(https: HttpsListener, management: Management)
  datatype Profile = Profile(vendor: string, tenantId: string)
  datatype Protocols = Protocols(oidc: Option<bool>, saml: Option<bool>, wsfed: Option<bool>)
  /** spec.auth.mfa.mode; `Unset` is the empty string. */
  datatype Mfa = Unset | Never | Always | ForceFail | UnknownMode(text: string)

  datatype Auth = Auth(sessionTtl: int, mfaMode: Mfa)
  datatype GroupOverage = GroupOverage(entraGraphStub: bool, oktaFailAt: int, genericCap: int)

  datatype Spec = Spec(
    listeners: Listeners, issuer: string, profile: Profile, protocols: Protocols,
    signingRef: string, clients: seq<Client>, users: seq<User>, groups: seq<Group>,
    auth: Auth, groupOverage: GroupOverage, uiEnabled: Option<bool>, accessRef: string)

  datatype Document = Document(apiVersion: string, kind: string, name: string, spec: Spec)

  const API_VERSION := "labsso.dev/v1alpha1"
  const KIND := "LabSSO"

  function BoolVal(b: Option<bool>, def: bool): bool {
    if b.None? then def else b.value
  }

  /** The id a client is addressed by: its clientId, or its id when that is empty. */
  function EffectiveId(c: Client): string {
    if c.clientId == "" then c.id else c.clientId
  }

  // -------------------------------------------------------------- Normalize

  function OrString(s: string, def: string): string { if s == "" then def else s }
  function OrInt(n: int, def: int): int { if n == 0 then def else n }
  function OrBool(b: Option<bool>, def: bool): Option<bool> { if b.None? then Some(def) else b }

  function NormalizeListeners(l: Listeners): Listeners {
    Listeners(
      l.https.(address := OrString(l.https.address, ":10443")),
      l.management.(address := OrString(l.management.address, ":8080"),
                    restPath := OrString(l.management.restPath, "/v1"),
                    mcpPath := OrString(l.management.mcpPath, "/mcp")))
  }

  function NormalizeSpec(s: Spec): Spec {
    s.(listeners := NormalizeListeners(s.listeners),
       profile := s.profile.(vendor := OrString(s.profile.vendor, "generic")),
       protocols := Protocols(OrBool(s.protocols.oidc, true), OrBool(s.protocols.saml, false), OrBool(s.protocols.wsfed, false)),
       auth := s.auth.(mfaMode := if s.auth.mfaMode.Unset? then Never else s.auth.mfaMode),
       groupOverage := s.groupOverage.(oktaFailAt := OrInt(s.groupOverage.oktaFailAt, 100),
                                       genericCap := OrInt(s.groupOverage.genericCap, 200)),
       uiEnabled := OrBool(s.uiEnabled, true))
  }

  function Normalize(d: Document): Document {
    d.(spec := NormalizeSpec(d.spec))
  }

  // ------------------------------------------------------------ ValidateIDs

  /** URL, host and path checks that the source delegates to Go's net packages. */
  datatype Syntax = Syntax(
    segmentOk: string -> bool,
    listenOk: (string, bool) -> bool,
    pathsOk: (string, string) -> bool,
    uriOk: (string, bool) -> bool)

  const VENDORS := {"generic", "entra", "okta", "ping", "adfs", "google", "keycloak",
                    "iam-identity-center", "duo", "siteminder", "shibboleth"}

  predicate ValidMfa(mode: Mfa) { mode.Never? || mode.Always? || mode.ForceFail? }

  predicate HeaderOk(x: Syntax, d: Document) {
    && d.apiVersion == API_VERSION && d.kind == KIND && x.segmentOk(d.name)
    && (d.spec.profile.tenantId != "" ==> x.segmentOk(d.spec.profile.tenantId))
    && (d.spec.listeners.https.address != "" ==> x.listenOk(d.spec.listeners.https.address, false))
    && (d.spec.listeners.management.address != "" ==> x.listenOk(d.spec.listeners.management.address, true))
    && (d.spec.listeners.management.restPath != "" && d.spec.listeners.management.mcpPath != "" ==>
          x.pathsOk(d.spec.listeners.management.restPath, d.spec.listeners.management.mcpPath))
    && d.spec.auth.sessionTtl >= 0
  }

  predicate DistinctBy<T(!new)>(xs: seq<T>, key: T -> string) {
    forall i, j :: 0 <= i < j < |xs| ==> key(xs[i]) != key(xs[j])
  }

  /** Some group of the list carries the id. */
  predicate HasGroup(groups: seq<Group>, id: string) {
    exists k :: 0 <= k < |groups| && groups[k].id == id
  }

  predicate GroupsValid(groups: seq<Group>) {
    && (forall i :: 0 <= i < |groups| ==> groups[i].id != "")
    && DistinctBy(groups, (g: Group) => g.id)
  }

  predicate UserValid(groups: seq<Group>, u: User) {
    && u.id != "" && u.username != ""
    && (u.passwordRef == "") != (u.passwordHashRef == "")
    && (forall k :: 0 <= k < |u.groupIds| ==> HasGroup(groups, u.groupIds[k]))
  }

  predicate UsersValid(groups: seq<Group>, users: seq<User>) {
    && (forall i :: 0 <= i < |users| ==> UserValid(groups, users[i]))
    && DistinctBy(users, (u: User) => u.id)
    && DistinctBy(users, (u: User) => u.username)
  }

  predicate ClientValid(x: Syntax, c: Client) {
    && c.id != ""
    && (forall k :: 0 <= k < |c.redirectUris| ==> x.uriOk(c.redirectUris[k], false))
    && (c.entityId != "" && |c.acsUrls| == 0 ==>
          forall k :: 0 <= k < |c.redirectUris| ==> x.uriOk(c.redirectUris[k], true))
    && (forall k :: 0 <= k < |c.acsUrls| ==> x.uriOk(c.acsUrls[k], true))
    && (!c.isPublic ==> c.secretRef != "")
  }

  predicate ClientsValid(x: Syntax, clients: seq<Client>) {
    && (forall i :: 0 <= i < |clients| ==> ClientValid(x, clients[i]))
    && DistinctBy(clients, (c: Client) => c.id)
    && DistinctBy(clients, EffectiveId)
  }

  /** What ValidateIDs accepts, said without its loops. */
  predicate ValidDocument(x: Syntax, d: Document) {
    && HeaderOk(x, d)
    && GroupsValid(d.spec.groups)
    && UsersValid(d.spec.groups, d.spec.users)
    && ClientsValid(x, d.spec.clients)
    && (d.spec.profile.vendor != "" ==> d.spec.profile.vendor in VENDORS)
    && (!d.spec.auth.mfaMode.Unset? ==> ValidMfa(d.spec.auth.mfaMode))
  }

  /** The groups loop of ValidateIDs: a seen-set grows while ids stay fresh. */
  method ValidateGroups(groups: seq<Group>) returns (ok: bool, seen: set<string>)
    ensures ok <==> GroupsValid(groups)
    ensures ok ==> forall id :: id in seen <==> HasGroup(groups, id)
  {
    ok, seen := true, {};
    for i := 0 to |groups|
      invariant GroupsValid(groups[..i])
      invariant forall id :: id in seen <==> HasGroup(groups[..i], id)
    {
      var g := groups[i];
      if g.id == "" || g.id in seen {
        if g.id in seen {
          var k :| 0 <= k < |groups[..i]| && groups[..i][k].id == g.id;
          assert groups[k].id == groups[i].id;
        }
        return false, seen;
      }
      seen := seen + {g.id};
      assert groups[..i + 1] == groups[..i] + [g];
      assert groups[..i + 1][i] == g;
      forall id | HasGroup(groups[..i], id) ensures HasGroup(groups[..i + 1], id) {
        var k :| 0 <= k < |groups[..i]| && groups[..i][k].id == id;
        assert groups[..i + 1][k].id == id;
      }
    }
    assert groups[..|groups|] == groups;
  }

  /** The users loop: ids and usernames fresh, one password source, no dangling group. */
  method ValidateUsers(groups: seq<Group>, known: set<string>, users: seq<User>) returns (ok: bool)
    requires forall id :: id in known <==> HasGroup(groups, id)
    ensures ok <==> UsersValid(groups, users)
  {
    var ids: set<string>, names: set<string> := {}, {};
    for i := 0 to |users|
      invariant UsersValid(groups, users[..i])
      invariant ids == set k | 0 <= k < i :: users[k].id
      invariant names == set k | 0 <= k < i :: users[k].username
    {
      var u := users[i];
      if u.id == "" || u.id in ids || u.username == "" || u.username in names {
        return false;
      }
      if (u.passwordRef == "") == (u.passwordHashRef == "") {
        return false;
      }
      ids, names := ids + {u.id}, names + {u.username};
      for k := 0 to |u.groupIds|
        invariant forall m :: 0 <= m < k ==> HasGroup(groups, u.groupIds[m])
      {
        if u.groupIds[k] !in known {
          return false;
        }
      }
      assert users[..i + 1] == users[..i] + [u];
    }
    assert users[..|users|] == users;
    ok := true;
  }

  method AllUrisOk(x: Syntax, uris: seq<string>, https: bool) returns (ok: bool)
    ensures ok <==> forall k :: 0 <= k < |uris| ==> x.uriOk(uris[k], https)
  {
    for k := 0 to |uris|
      invariant forall m :: 0 <= m < k ==> x.uriOk(uris[m], https)
    {
      if !x.uriOk(uris[k], https) {
        return false;
      }
    }
    ok := true;
  }

  /** The clients loop: ids and effective ids fresh, URIs valid, a secret unless public. */
  method ValidateClients(x: Syntax, clients: seq<Client>) returns (ok: bool)
    ensures ok <==> ClientsValid(x, clients)
  {
    var ids: set<string>, keys: set<string> := {}, {};
    for i := 0 to |clients|
      invariant ClientsValid(x, clients[..i])
      invariant ids == set k | 0 <= k < i :: clients[k].id
      invariant keys == set k | 0 <= k < i :: EffectiveId(clients[k])
    {
      var c := clients[i];
      var key := EffectiveId(c);
      if c.id == "" || c.id in ids || key in keys {
        return false;
      }
      ids, keys := ids + {c.id}, keys + {key};
      var redirects := AllUrisOk(x, c.redirectUris, false);
      var fallback := true;
      if c.entityId != "" && |c.acsUrls| == 0 {
        fallback := AllUrisOk(x, c.redirectUris, true);
      }
      var acs := AllUrisOk(x, c.acsUrls, true);
      if !redirects || !fallback || !acs || (!c.isPublic && c.secretRef == "") {
        assert !ClientValid(x, clients[i]);
        return false;
      }
      assert clients[..i + 1] == clients[..i] + [c];
    }
    assert clients[..|clients|] == clients;
    ok := true;
  }

  /** ValidateIDs accepts exactly the valid documents. */
  method ValidateIds(x: Syntax, d: Document) returns (ok: bool)
    ensures ok <==> ValidDocument(x, d)
  {
    if !HeaderOk(x, d) {
      return false;
    }
    var groupsOk, known := ValidateGroups(d.spec.groups);
    if !groupsOk {
      return false;
    }
    var usersOk := ValidateUsers(d.spec.groups, known, d.spec.users);
    if !usersOk {
      return false;
    }
    var clientsOk := ValidateClients(x, d.spec.clients);
    if !clientsOk {
      return false;
    }
    ok := (d.spec.profile.vendor == "" || d.spec.profile.vendor in VENDORS)
      && (d.spec.auth.mfaMode.Unset? || ValidMfa(d.spec.auth.mfaMode));
  }
}
