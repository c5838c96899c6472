/**
 Compiled snapshots (internal/snapshot/snapshot.go) and the compiler's index
 construction (internal/compiler/compile.go).

 A SHA-256 revision is modelled by the document it digests, so equal revisions
 mean equal documents; `NoRevision` is the empty string.
 */
module Snapshots {
  import opened Basics
  import opened Documents

  datatype Revision = NoRevision | RevisionOf(doc: Document)

  datatype Credential = Credential(material: Bytes, hashed: bool)

  datatype Snapshot = Snapshot(
    canonical: Document, revision: Revision, bootstrapRevision: Revision, generation: int,
    tlsCert: Bytes, tlsKey: Bytes, signingKey: Bytes, accessToken: Bytes,
    clients: ClientIndex, users: UserIndex, groupsById: map<string, Group>)

  datatype ClientIndex = ClientIndex(
    byId: map<string, Client>, byClientId: map<string, Client>,
    bySamlEntity: map<string, Client>, secrets: map<string, Bytes>)

  datatype UserIndex = UserIndex(
    byId: map<string, User>, passwords: map<string, Credential>, seeds: map<string, Bytes>)

  /** The files and library parsers a compilation consults. */
  datatype World = World(
    files: map<string, Bytes>,
    syntax: Syntax,
    issuerOk: string -> bool,
    vendorOk: (string, string, string) -> bool,
    keyPairOk: (Bytes, Bytes) -> bool,
    signingOk: (Bytes, bool) -> bool,
    parsePassword: (Bytes, bool) -> Option<Credential>,
    parseSeed: Bytes -> Option<Bytes>)

  /** readRef: a non-empty file behind a non-empty reference. */
  function ReadRef(w: World, ref: string): (r: Option<Bytes>)
    ensures r.Some? ==> |r.value| > 0
  {
    if ref == "" || ref !in w.files || |w.files[ref]| == 0 then None else Some(w.files[ref])
  }

  // ---------------------------------------------------------- client index

  const NO_CLIENTS := ClientIndex(map[], map[], map[], map[])

  /** One round of the client loop; None is an early error return. */
  function AddClient(w: World, ix: ClientIndex, c: Client): Option<ClientIndex> {
    var key := EffectiveId(c);
    if c.entityId != "" && c.entityId in ix.bySamlEntity then None
    else
      var saml := if c.entityId != "" then ix.bySamlEntity[c.entityId := c] else ix.bySamlEntity;
      var next := ClientIndex(ix.byId[c.id := c], ix.byClientId[key := c], saml, ix.secrets);
      if c.secretRef == "" then Some(next)
      else
        var raw := ReadRef(w, c.secretRef);
        if raw.None? || |TrimSpace(raw.value)| == 0 then None
        else Some(next.(secrets := ix.secrets[key := TrimSpace(raw.value)]))
  }

  function IndexClients(w: World, clients: seq<Client>): Option<ClientIndex> {
    if clients == [] then Some(NO_CLIENTS)
    else
      var ix := IndexClients(w, clients[..|clients| - 1]);
      if ix.None? then None else AddClient(w, ix.value, clients[|clients| - 1])
  }

  lemma {:induction false} IndexClientsFails(w: World, clients: seq<Client>, i: nat)
    requires i <= |clients| && IndexClients(w, clients[..i]).None?
    ensures IndexClients(w, clients).None?
    decreases |clients| - i
  {
    if i == |clients| {
      assert clients[..i] == clients;
    } else {
      assert clients[..i + 1][..i] == clients[..i];
      IndexClientsFails(w, clients, i + 1);
    }
  }

  method BuildClientIndex(w: World, clients: seq<Client>) returns (r: Option<ClientIndex>)
    ensures r == IndexClients(w, clients)
  {
    var ix := NO_CLIENTS;
    for i := 0 to |clients|
      invariant IndexClients(w, clients[..i]) == Some(ix)
    {
      assert clients[..i + 1][..i] == clients[..i];
      var step := AddClient(w, ix, clients[i]);
      if step.None? {
        IndexClientsFails(w, clients, i + 1);
        return None;
      }
      ix := step.value;
    }
    assert clients[..|clients|] == clients;
    r := Some(ix);
  }

  // ------------------------------------------------------------ user index

  const NO_USERS := UserIndex(map[], map[], map[])

  function AddUser(w: World, ix: UserIndex, u: User): Option<UserIndex> {
    var hashed := u.passwordHashRef != "";
    var raw := ReadRef(w, if hashed then u.passwordHashRef else u.passwordRef);
    var cred := if raw.None? then None else w.parsePassword(raw.value, hashed);
    if cred.None? then None
    else
      var next := ix.(byId := ix.byId[u.id := u], passwords := ix.passwords[u.id := cred.value]);
      if u.totpSecretRef == "" then Some(next)
      else
        var seedFile := ReadRef(w, u.totpSecretRef);
        var seed := if seedFile.None? then None else w.parseSeed(seedFile.value);
        if seed.None? then None else Some(next.(seeds := ix.seeds[u.id := seed.value]))
  }

  function IndexUsers(w: World, users: seq<User>): Option<UserIndex> {
    if users == [] then Some(NO_USERS)
    else
      var ix := IndexUsers(w, users[..|users| - 1]);
      if ix.None? then None else AddUser(w, ix.value, users[|users| - 1])
  }

  lemma {:induction false} IndexUsersFails(w: World, users: seq<User>, i: nat)
    requires i <= |users| && IndexUsers(w, users[..i]).None?
    ensures IndexUsers(w, users).None?
    decreases |users| - i
  {
    if i == |users| {
      assert users[..i] == users;
    } else {
      assert users[..i + 1][..i] == users[..i];
      IndexUsersFails(w, users, i + 1);
    }
  }

  method BuildUserIndex(w: World, users: seq<User>) returns (r: Option<UserIndex>)
    ensures r == IndexUsers(w, users)
  {
    var ix := NO_USERS;
    for i := 0 to |users|
      invariant IndexUsers(w, users[..i]) == Some(ix)
    {
      assert users[..i + 1][..i] == users[..i];
      var step := AddUser(w, ix, users[i]);
      if step.None? {
        IndexUsersFails(w, users, i + 1);
        return None;
      }
      ix := step.value;
    }
    assert users[..|users|] == users;
    r := Some(ix);
  }

  function IndexGroups(groups: seq<Group>): map<string, Group> {
    if groups == [] then map[]
    else
      var g := groups[|groups| - 1];
      IndexGroups(groups[..|groups| - 1])[g.id := g]
  }

  method BuildGroupIndex(groups: seq<Group>) returns (m: map<string, Group>)
    ensures m == IndexGroups(groups)
  {
    m := map[];
    for i := 0 to |groups|
      invariant m == IndexGroups(groups[..i])
    {
      assert groups[..i + 1][..i] == groups[..i];
      m := m[groups[i].id := groups[i]];
    }
    assert groups[..|groups|] == groups;
  }

  // --------------------------------------------------------------- Compile

  datatype Options = Options(generation: int, bootstrapRevision: Revision)

  /** The non-loop checks of compile, in the order the source makes them. */
  predicate SettingsOk(w: World, d: Document) {
    var s := d.spec;
    && ValidDocument(w.syntax, d)
    && w.vendorOk(s.profile.vendor, s.profile.tenantId, d.name)
    && w.issuerOk(s.issuer)
    && ReadRef(w, s.listeners.https.certRef).Some? && ReadRef(w, s.listeners.https.keyRef).Some?
    && w.keyPairOk(ReadRef(w, s.listeners.https.certRef).value, ReadRef(w, s.listeners.https.keyRef).value)
    && ReadRef(w, s.signingRef).Some?
    && ReadRef(w, s.accessRef).Some? && |TrimSpace(ReadRef(w, s.accessRef).value)| > 0
    && w.signingOk(ReadRef(w, s.signingRef).value, BoolVal(s.protocols.saml, false) || BoolVal(s.protocols.wsfed, false))
    && s.groupOverage.genericCap >= 1 && s.groupOverage.oktaFailAt >= 1
  }

  function Assemble(w: World, d: Document, opt: Options, clients: ClientIndex, users: UserIndex): Snapshot
    requires SettingsOk(w, d)
  {
    var rev := RevisionOf(Normalize(d));
    Snapshot(d, rev, if opt.bootstrapRevision.NoRevision? then rev else opt.bootstrapRevision,
             if opt.generation == 0 then 1 else opt.generation,
             ReadRef(w, d.spec.listeners.https.certRef).value, ReadRef(w, d.spec.listeners.https.keyRef).value,
             ReadRef(w, d.spec.signingRef).value, TrimSpace(ReadRef(w, d.spec.accessRef).value),
             clients, users, IndexGroups(d.spec.groups))
  }

  /** What compile returns, as a function of the document, the options and the files. */
  function Compiled(w: World, doc: Document, opt: Options): Result<Snapshot> {
    var d := Normalize(doc);
    if !SettingsOk(w, d) then Err(Validation)
    else
      var clients, users := IndexClients(w, d.spec.clients), IndexUsers(w, d.spec.users);
      if clients.None? || users.None? then Err(Validation)
      else Ok(Assemble(w, d, opt, clients.value, users.value))
  }

  method Compile(w: World, doc: Document, opt: Options) returns (r: Result<Snapshot>)
    ensures r == Compiled(w, doc, opt)
  {
    var d := Normalize(doc);
    var idsOk := ValidateIds(w.syntax, d);
    if !idsOk || !SettingsOk(w, d) {
      return Err(Validation);
    }
    var clients := BuildClientIndex(w, d.spec.clients);
    if clients.None? {
      return Err(Validation);
    }
    var users := BuildUserIndex(w, d.spec.users);
    if users.None? {
      return Err(Validation);
    }
    var groups := BuildGroupIndex(d.spec.groups);
    r := Ok(Assemble(w, d, opt, clients.value, users.value));
  }

  // ------------------------------------- lookups agree with linear search

  /** Linear search: the first element with the given key. */
  function FindBy<T>(xs: seq<T>, key: T -> string, k: string): Option<T> {
    if xs == [] then None
    else if key(xs[0]) == k then Some(xs[0])
    else FindBy(xs[1..], key, k)
  }

  function Lookup<T>(m: map<string, T>, k: string): Option<T> {
    if k in m then Some(m[k]) else None
  }

  lemma {:induction false} FindByNone<T(!new)>(xs: seq<T>, key: T -> string, k: string)
    requires forall i :: 0 <= i < |xs| ==> key(xs[i]) != k
    ensures FindBy(xs, key, k) == None
  {
    if xs != [] {
      FindByNone(xs[1..], key, k);
    }
  }

  /** A map whose entries are exactly the list's elements under their keys. */
  ghost predicate Indexes<T(!new)>(m: map<string, T>, xs: seq<T>, key: T -> string) {
    && (forall i :: 0 <= i < |xs| && key(xs[i]) != "" ==> key(xs[i]) in m && m[key(xs[i])] == xs[i])
    && (forall k :: k in m ==> k != "" && exists i :: 0 <= i < |xs| && key(xs[i]) == k && m[k] == xs[i])
  }

  lemma IndexedLookup<T(!new)>(m: map<string, T>, xs: seq<T>, key: T -> string, k: string)
    requires Indexes(m, xs, key) && k != ""
    requires forall i, j :: 0 <= i < j < |xs| && key(xs[i]) != "" ==> key(xs[i]) != key(xs[j])
    ensures Lookup(m, k) == FindBy(xs, key, k)
  {
    if k in m {
      var i :| 0 <= i < |xs| && key(xs[i]) == k && m[k] == xs[i];
      FindFirst(xs, key, k, i);
    } else {
      FindByNone(xs, key, k);
    }
  }

  lemma {:induction false} FindFirst<T(!new)>(xs: seq<T>, key: T -> string, k: string, i: nat)
    requires i < |xs| && key(xs[i]) == k && k != ""
    requires forall i, j :: 0 <= i < j < |xs| && key(xs[i]) != "" ==> key(xs[i]) != key(xs[j])
    ensures FindBy(xs, key, k) == Some(xs[i])
  {
    if i > 0 {
      FindFirst(xs[1..], key, k, i - 1);
    }
  }

  lemma IndexesUnique<T(!new)>(a: map<string, T>, b: map<string, T>, xs: seq<T>, key: T -> string)
    requires Indexes(a, xs, key) && Indexes(b, xs, key)
    ensures a == b
  {
    forall k | k in a ensures k in b && a[k] == b[k] {
      var i :| 0 <= i < |xs| && key(xs[i]) == k && a[k] == xs[i];
    }
    forall k | k in b ensures k in a {
      var i :| 0 <= i < |xs| && key(xs[i]) == k && b[k] == xs[i];
    }
  }

  /** Adding one element with a fresh key keeps an index an index. */
  lemma IndexesSnoc<T(!new)>(m: map<string, T>, xs: seq<T>, x: T, key: T -> string)
    requires Indexes(m, xs, key)
    requires key(x) != "" ==> forall i :: 0 <= i < |xs| ==> key(xs[i]) != key(x)
    ensures Indexes(if key(x) == "" then m else m[key(x) := x], xs + [x], key)
  {
    var ys, m' := xs + [x], if key(x) == "" then m else m[key(x) := x];
    forall k | k in m' ensures k != "" && exists i :: 0 <= i < |ys| && key(ys[i]) == k && m'[k] == ys[i] {
      if key(x) != "" && k == key(x) {
        assert ys[|xs|] == x;
      } else {
        var i :| 0 <= i < |xs| && key(xs[i]) == k && m[k] == xs[i];
        assert ys[i] == xs[i];
      }
    }
  }

  const BY_ID: Client -> string := (c: Client) => c.id
  const BY_ENTITY: Client -> string := (c: Client) => c.entityId
  const BY_USER_ID: User -> string := (u: User) => u.id
  const BY_GROUP_ID: Group -> string := (g: Group) => g.id

  /** Non-empty keys occur once. */
  ghost predicate DistinctKeys<T(!new)>(xs: seq<T>, key: T -> string) {
    forall i, j :: 0 <= i < j < |xs| && key(xs[i]) != "" ==> key(xs[i]) != key(xs[j])
  }

  /** Every client that has a secretRef has a non-empty secret under its effective id, and no other id has one. */
  ghost predicate SecretsCover(secrets: map<string, Bytes>, clients: seq<Client>) {
    && (forall i :: 0 <= i < |clients| && clients[i].secretRef != "" ==> EffectiveId(clients[i]) in secrets)
    && (forall k :: k in secrets ==> |secrets[k]| > 0)
    && (forall k :: k in secrets ==> exists i :: 0 <= i < |clients| && clients[i].secretRef != "" && EffectiveId(clients[i]) == k)
  }

  ghost predicate ClientIndexOk(ix: ClientIndex, clients: seq<Client>) {
    && Indexes(ix.byId, clients, BY_ID)
    && Indexes(ix.byClientId, clients, EffectiveId)
    && Indexes(ix.bySamlEntity, clients, BY_ENTITY)
    && DistinctKeys(clients, BY_ENTITY)
    && SecretsCover(ix.secrets, clients)
  }

  /** Distinct keys of a longer list are distinct in its prefix and differ from the last one. */
  lemma DistinctSnoc<T(!new)>(xs: seq<T>, x: T, key: T -> string)
    requires DistinctKeys(xs + [x], key)
    ensures DistinctKeys(xs, key)
    ensures key(x) != "" ==> forall i :: 0 <= i < |xs| ==> key(xs[i]) != key(x)
  {
    var ys := xs + [x];
    assert ys[|xs|] == x;
    assert forall i :: 0 <= i < |xs| ==> ys[i] == xs[i];
  }

  lemma AddClientCorrect(w: World, ix: ClientIndex, init: seq<Client>, c: Client)
    requires ClientIndexOk(ix, init) && AddClient(w, ix, c).Some?
    requires c.id != "" && DistinctKeys(init + [c], BY_ID) && DistinctKeys(init + [c], EffectiveId)
    ensures ClientIndexOk(AddClient(w, ix, c).value, init + [c])
  {
    var r := AddClient(w, ix, c).value;
    assert Indexes(r.byId, init + [c], BY_ID) by {
      DistinctSnoc(init, c, BY_ID);
      IndexesSnoc(ix.byId, init, c, BY_ID);
    }
    assert Indexes(r.byClientId, init + [c], EffectiveId) by {
      DistinctSnoc(init, c, EffectiveId);
      IndexesSnoc(ix.byClientId, init, c, EffectiveId);
    }
    assert Indexes(r.bySamlEntity, init + [c], BY_ENTITY) && DistinctKeys(init + [c], BY_ENTITY) by {
      EntityFresh(ix, init, c);
      IndexesSnoc(ix.bySamlEntity, init, c, BY_ENTITY);
    }
    SecretsSnoc(w, ix, init, c);
  }

  lemma {:induction false} IndexClientsCorrect(w: World, clients: seq<Client>)
    requires IndexClients(w, clients).Some?
    requires forall i :: 0 <= i < |clients| ==> clients[i].id != ""
    requires DistinctKeys(clients, BY_ID) && DistinctKeys(clients, EffectiveId)
    ensures ClientIndexOk(IndexClients(w, clients).value, clients)
  {
    if clients != [] {
      var n := |clients| - 1;
      assert clients == clients[..n] + [clients[n]];
      DistinctSnoc(clients[..n], clients[n], BY_ID);
      DistinctSnoc(clients[..n], clients[n], EffectiveId);
      IndexClientsCorrect(w, clients[..n]);
      AddClientCorrect(w, IndexClients(w, clients[..n]).value, clients[..n], clients[n]);
    }
  }

  lemma EntityFresh(ix: ClientIndex, init: seq<Client>, c: Client)
    requires Indexes(ix.bySamlEntity, init, BY_ENTITY) && DistinctKeys(init, BY_ENTITY)
    requires c.entityId != "" ==> c.entityId !in ix.bySamlEntity
    ensures c.entityId != "" ==> forall i :: 0 <= i < |init| ==> BY_ENTITY(init[i]) != c.entityId
    ensures DistinctKeys(init + [c], BY_ENTITY)
  {
  }

  lemma SecretsSnoc(w: World, ix: ClientIndex, init: seq<Client>, c: Client)
    requires SecretsCover(ix.secrets, init) && AddClient(w, ix, c).Some?
    ensures SecretsCover(AddClient(w, ix, c).value.secrets, init + [c])
  {
    var secrets := AddClient(w, ix, c).value.secrets;
    var ys := init + [c];
    assert ys[|init|] == c;
    forall k | k in secrets ensures exists i :: 0 <= i < |ys| && ys[i].secretRef != "" && EffectiveId(ys[i]) == k {
      if k in ix.secrets {
        var i :| 0 <= i < |init| && init[i].secretRef != "" && EffectiveId(init[i]) == k;
        assert ys[i] == init[i];
      }
    }
  }

  /** Seeds and passwords belong to users of the list. */
  ghost predicate UserIndexOk(ix: UserIndex, users: seq<User>) {
    && Indexes(ix.byId, users, BY_USER_ID)
    && ix.passwords.Keys == ix.byId.Keys
    && ix.seeds.Keys <= ix.byId.Keys
  }

  lemma {:induction false} IndexUsersCorrect(w: World, users: seq<User>)
    requires IndexUsers(w, users).Some?
    requires forall i :: 0 <= i < |users| ==> users[i].id != ""
    requires DistinctKeys(users, BY_USER_ID)
    ensures UserIndexOk(IndexUsers(w, users).value, users)
  {
    if users != [] {
      var n := |users| - 1;
      var init, u := users[..n], users[n];
      assert users == init + [u];
      DistinctSnoc(init, u, BY_USER_ID);
      IndexUsersCorrect(w, init);
      AddUserCorrect(w, IndexUsers(w, init).value, init, u);
    }
  }

  lemma AddUserCorrect(w: World, ix: UserIndex, init: seq<User>, u: User)
    requires UserIndexOk(ix, init) && AddUser(w, ix, u).Some?
    requires u.id != "" && DistinctKeys(init + [u], BY_USER_ID)
    ensures UserIndexOk(AddUser(w, ix, u).value, init + [u])
  {
    DistinctSnoc(init, u, BY_USER_ID);
    IndexesSnoc(ix.byId, init, u, BY_USER_ID);
  }

  lemma {:induction false} IndexGroupsCorrect(groups: seq<Group>)
    requires forall i :: 0 <= i < |groups| ==> groups[i].id != ""
    requires DistinctKeys(groups, BY_GROUP_ID)
    ensures Indexes(IndexGroups(groups), groups, BY_GROUP_ID)
  {
    if groups != [] {
      var n := |groups| - 1;
      IndexGroupsCorrect(groups[..n]);
      assert groups == groups[..n] + [groups[n]];
      IndexesSnoc(IndexGroups(groups[..n]), groups[..n], groups[n], BY_GROUP_ID);
    }
  }

  /** The facts about a compiled snapshot that no longer mention the files it came from. */
  ghost predicate WellCompiled(s: Snapshot) {
    var spec := s.canonical.spec;
    && GroupsValid(spec.groups) && UsersValid(spec.groups, spec.users)
    && (forall i :: 0 <= i < |spec.clients| ==> spec.clients[i].id != "" && (spec.clients[i].isPublic || spec.clients[i].secretRef != ""))
    && DistinctKeys(spec.clients, BY_ID) && DistinctKeys(spec.clients, EffectiveId)
    && ClientIndexOk(s.clients, spec.clients)
    && UserIndexOk(s.users, spec.users)
    && Indexes(s.groupsById, spec.groups, BY_GROUP_ID)
    && s.revision == RevisionOf(s.canonical)
  }

  lemma NormalizeIdempotent(d: Document)
    ensures Normalize(Normalize(d)) == Normalize(d)
  {
  }

  lemma CompiledIsWellCompiled(w: World, doc: Document, opt: Options)
    requires Compiled(w, doc, opt).Ok?
    ensures WellCompiled(Compiled(w, doc, opt).value)
  {
    var spec := Normalize(doc).spec;
    NormalizeIdempotent(doc);
    assert ClientIndexOk(IndexClients(w, spec.clients).value, spec.clients) by {
      IndexClientsCorrect(w, spec.clients);
    }
    assert UserIndexOk(IndexUsers(w, spec.users).value, spec.users) by {
      IndexUsersCorrect(w, spec.users);
    }
    assert Indexes(IndexGroups(spec.groups), spec.groups, BY_GROUP_ID) by {
      IndexGroupsCorrect(spec.groups);
    }
  }

  /** Every lookup map of a compiled snapshot agrees with linear search over the canonical list. */
  lemma LookupsAgreeWithSearch(w: World, doc: Document, opt: Options, k: string)
    requires Compiled(w, doc, opt).Ok? && k != ""
    ensures
      var s := Compiled(w, doc, opt).value;
      var spec := s.canonical.spec;
      && Lookup(s.clients.byId, k) == FindBy(spec.clients, BY_ID, k)
      && Lookup(s.clients.byClientId, k) == FindBy(spec.clients, EffectiveId, k)
      && Lookup(s.clients.bySamlEntity, k) == FindBy(spec.clients, BY_ENTITY, k)
      && Lookup(s.users.byId, k) == FindBy(spec.users, BY_USER_ID, k)
      && Lookup(s.groupsById, k) == FindBy(spec.groups, BY_GROUP_ID, k)
  {
    CompiledIsWellCompiled(w, doc, opt);
    var s := Compiled(w, doc, opt).value;
    var spec := s.canonical.spec;
    IndexedLookup(s.clients.byId, spec.clients, BY_ID, k);
    IndexedLookup(s.clients.byClientId, spec.clients, EffectiveId, k);
    IndexedLookup(s.clients.bySamlEntity, spec.clients, BY_ENTITY, k);
    IndexedLookup(s.users.byId, spec.users, BY_USER_ID, k);
    IndexedLookup(s.groupsById, spec.groups, BY_GROUP_ID, k);
  }

  /** No dangling group, and a non-empty secret for every confidential client. */
  lemma CompiledReferencesResolve(w: World, doc: Document, opt: Options)
    requires Compiled(w, doc, opt).Ok?
    ensures
      var s := Compiled(w, doc, opt).value;
      && (forall id, k :: id in s.users.byId && 0 <= k < |s.users.byId[id].groupIds| ==>
            s.users.byId[id].groupIds[k] in s.groupsById)
      && (forall id :: id in s.clients.byClientId && !s.clients.byClientId[id].isPublic ==>
            id in s.clients.secrets && |s.clients.secrets[id]| > 0)
  {
    CompiledIsWellCompiled(w, doc, opt);
    var s := Compiled(w, doc, opt).value;
    var spec := s.canonical.spec;
    forall id, k | id in s.users.byId && 0 <= k < |s.users.byId[id].groupIds|
      ensures s.users.byId[id].groupIds[k] in s.groupsById
    {
      var i :| 0 <= i < |spec.users| && BY_USER_ID(spec.users[i]) == id && s.users.byId[id] == spec.users[i];
      assert HasGroup(spec.groups, spec.users[i].groupIds[k]);
      var g :| 0 <= g < |spec.groups| && spec.groups[g].id == spec.users[i].groupIds[k];
      assert BY_GROUP_ID(spec.groups[g]) in s.groupsById;
    }
    forall id | id in s.clients.byClientId && !s.clients.byClientId[id].isPublic
      ensures id in s.clients.secrets && |s.clients.secrets[id]| > 0
    {
      var i :| 0 <= i < |spec.clients| && EffectiveId(spec.clients[i]) == id && s.clients.byClientId[id] == spec.clients[i];
    }
  }

  // --------------------------------------------------- security comparison

  function SecretOr(m: map<string, Bytes>, id: string): Bytes { if id in m then m[id] else "" }

  predicate SecurityEqual(s: Snapshot, o: Snapshot) {
    && s.users.passwords == o.users.passwords && s.users.seeds == o.users.seeds
    && s.signingKey == o.signingKey && s.accessToken == o.accessToken
    && |s.clients.secrets| == |o.clients.secrets|
    && forall id :: id in s.clients.secrets ==> s.clients.secrets[id] == SecretOr(o.clients.secrets, id)
  }

  /** The one-directional loop of SecurityEqual. */
  method CompareSecurity(s: Snapshot, o: Snapshot) returns (eq: bool)
    ensures eq <==> SecurityEqual(s, o)
  {
    if s.users.passwords != o.users.passwords || s.users.seeds != o.users.seeds || s.signingKey != o.signingKey
      || s.accessToken != o.accessToken || |s.clients.secrets| != |o.clients.secrets| {
      return false;
    }
    var todo := s.clients.secrets.Keys;
    while todo != {}
      invariant todo <= s.clients.secrets.Keys
      invariant forall id :: id in s.clients.secrets && id !in todo ==> s.clients.secrets[id] == SecretOr(o.clients.secrets, id)
      decreases |todo|
    {
      var id :| id in todo;
      if s.clients.secrets[id] != SecretOr(o.clients.secrets, id) {
        return false;
      }
      todo := todo - {id};
    }
    eq := true;
  }

  /** On snapshots without empty secrets, SecurityEqual is equality of all compiled credentials. */
  lemma SecurityEqualIsEquality(s: Snapshot, o: Snapshot)
    requires forall id :: id in s.clients.secrets ==> |s.clients.secrets[id]| > 0
    ensures SecurityEqual(s, o) <==>
              && s.users.passwords == o.users.passwords && s.users.seeds == o.users.seeds
              && s.signingKey == o.signingKey && s.accessToken == o.accessToken
              && s.clients.secrets == o.clients.secrets
  {
    var a, b := s.clients.secrets, o.clients.secrets;
    if SecurityEqual(s, o) {
      assert a.Keys <= b.Keys;
      SubsetSize(a.Keys, b.Keys);
      assert |a| == |a.Keys| && |b| == |b.Keys|;
    }
  }

  /** With an empty secret the comparison confuses two different clients: it is not symmetric in meaning. */
  lemma EmptySecretsConfuse(s: Snapshot)
    ensures
      var a := s.(clients := s.clients.(secrets := map["one" := ""]));
      var b := s.(clients := s.clients.(secrets := map["two" := ""]));
      SecurityEqual(a, b) && a.clients.secrets != b.clients.secrets
  {
    assert "one" in map["one" := ""] && "one" !in map["two" := ""];
  }

  /** Everything the runtime's grants depend on. */
  datatype SecurityView = SecurityView(
    users: seq<User>, clients: seq<Client>, auth: Auth, protocols: Protocols, vendor: string,
    issuer: string, accessRef: string, signingRef: string, passwords: map<string, Credential>,
    seeds: map<string, Bytes>, signingKey: Bytes, accessToken: Bytes, secrets: map<string, Bytes>)

  function ViewOf(s: Snapshot): SecurityView {
    var d := s.canonical.spec;
    SecurityView(d.users, d.clients, d.auth, d.protocols, d.profile.vendor, d.issuer, d.accessRef, d.signingRef,
                 s.users.passwords, s.users.seeds, s.signingKey, s.accessToken, s.clients.secrets)
  }

  /** securityChanged of internal/app/mutate.go. */
  predicate SecurityChanged(prev: Snapshot, next: Snapshot) {
    var b, n := prev.canonical.spec, next.canonical.spec;
    || !SecurityEqual(prev, next) || b.profile.vendor != n.profile.vendor || b.issuer != n.issuer
    || b.users != n.users || b.clients != n.clients || b.auth != n.auth || b.protocols != n.protocols
    || b.accessRef != n.accessRef || b.signingRef != n.signingRef
  }

  lemma SecurityChangedIff(prev: Snapshot, next: Snapshot)
    requires WellCompiled(prev)
    ensures SecurityChanged(prev, next) <==> ViewOf(prev) != ViewOf(next)
  {
    SecurityEqualIsEquality(prev, next);
  }

  /** Snapshots with one security view answer every lookup alike, whatever files they were compiled from. */
  lemma SameViewSameLookups(a: Snapshot, b: Snapshot)
    requires WellCompiled(a) && WellCompiled(b) && ViewOf(a) == ViewOf(b)
    ensures a.clients == b.clients && a.users == b.users
    ensures a.canonical.spec.auth == b.canonical.spec.auth && a.canonical.spec.protocols == b.canonical.spec.protocols
  {
    var cs, us := a.canonical.spec.clients, a.canonical.spec.users;
    IndexesUnique(a.clients.byId, b.clients.byId, cs, BY_ID);
    IndexesUnique(a.clients.byClientId, b.clients.byClientId, cs, EffectiveId);
    IndexesUnique(a.clients.bySamlEntity, b.clients.bySamlEntity, cs, BY_ENTITY);
    IndexesUnique(a.users.byId, b.users.byId, us, BY_USER_ID);
  }
}
