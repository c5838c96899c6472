/** What the compiler makes of a document: which defaults it fills in, when it succeeds, and which value goes where. */
module CompilerLaws {
  import opened Basics
  import opened Documents
  import opened Snapshots

  // -------------------------------------------------------------- defaults

  /** Every default, and that a value that is set is kept. */
  lemma DefaultsFilled(d: Document)
    ensures
      var s, n := d.spec, Normalize(d).spec;
      && n.listeners.https.address == (if s.listeners.https.address == "" then ":10443" else s.listeners.https.address)
      && n.listeners.management.address == (if s.listeners.management.address == "" then ":8080" else s.listeners.management.address)
      && n.listeners.management.restPath == (if s.listeners.management.restPath == "" then "/v1" else s.listeners.management.restPath)
      && n.listeners.management.mcpPath == (if s.listeners.management.mcpPath == "" then "/mcp" else s.listeners.management.mcpPath)
      && n.profile.vendor == (if s.profile.vendor == "" then "generic" else s.profile.vendor)
      && n.protocols.oidc == (if s.protocols.oidc == None then Some(true) else s.protocols.oidc)
      && n.protocols.saml == (if s.protocols.saml == None then Some(false) else s.protocols.saml)
      && n.protocols.wsfed == (if s.protocols.wsfed == None then Some(false) else s.protocols.wsfed)
      && n.auth.mfaMode == (if s.auth.mfaMode == Unset then Never else s.auth.mfaMode)
      && n.groupOverage.oktaFailAt == (if s.groupOverage.oktaFailAt == 0 then 100 else s.groupOverage.oktaFailAt)
      && n.groupOverage.genericCap == (if s.groupOverage.genericCap == 0 then 200 else s.groupOverage.genericCap)
      && n.uiEnabled == (if s.uiEnabled == None then Some(true) else s.uiEnabled)
  {
  }

  /** Everything without a default is kept. */
  lemma RestKept(d: Document)
    ensures
      var s, n := d.spec, Normalize(d).spec;
      && Normalize(d).apiVersion == d.apiVersion && Normalize(d).kind == d.kind && Normalize(d).name == d.name
      && n.listeners.https.certRef == s.listeners.https.certRef && n.listeners.https.keyRef == s.listeners.https.keyRef
      && n.listeners.management.allowLegacy == s.listeners.management.allowLegacy
      && n.issuer == s.issuer && n.profile.tenantId == s.profile.tenantId && n.signingRef == s.signingRef && n.accessRef == s.accessRef
      && n.clients == s.clients && n.users == s.users && n.groups == s.groups
      && n.auth.sessionTtl == s.auth.sessionTtl && n.groupOverage.entraGraphStub == s.groupOverage.entraGraphStub
  {
  }

  // ------------------------------------------------------ when it succeeds

  /** A reference names a non-empty file. */
  predicate Readable(w: World, ref: string) { ref != "" && ref in w.files && w.files[ref] != "" }

  predicate ClientReadable(w: World, c: Client) { c.secretRef == "" || (Readable(w, c.secretRef) && TrimSpace(w.files[c.secretRef]) != "") }

  predicate UserReadable(w: World, u: User) {
    var hashed := u.passwordHashRef != "";
    var ref := if hashed then u.passwordHashRef else u.passwordRef;
    && Readable(w, ref) && w.parsePassword(w.files[ref], hashed).Some?
    && (u.totpSecretRef != "" ==> Readable(w, u.totpSecretRef) && w.parseSeed(w.files[u.totpSecretRef]).Some?)
  }

  ghost predicate EntitiesDistinct(clients: seq<Client>) {
    forall i, j :: 0 <= i < j < |clients| && clients[i].entityId != "" ==> clients[i].entityId != clients[j].entityId
  }

  lemma AddClientIff(w: World, ix: ClientIndex, c: Client)
    ensures AddClient(w, ix, c).Some? <==> (c.entityId == "" || c.entityId !in ix.bySamlEntity) && ClientReadable(w, c)
    ensures AddClient(w, ix, c).Some? ==>
              var r := AddClient(w, ix, c).value;
              && r.bySamlEntity.Keys == ix.bySamlEntity.Keys + (if c.entityId == "" then {} else {c.entityId})
              && r.secrets == (if c.secretRef == "" then ix.secrets else ix.secrets[EffectiveId(c) := TrimSpace(w.files[c.secretRef])])
  {
  }

  /** The client loop succeeds if and only if entity ids are distinct and every secret reference reads a non-blank file. */
  lemma {:induction false} ClientsIndexedIff(w: World, clients: seq<Client>)
    ensures IndexClients(w, clients).Some? <==>
              EntitiesDistinct(clients) && forall i :: 0 <= i < |clients| ==> ClientReadable(w, clients[i])
    ensures IndexClients(w, clients).Some? ==>
              forall k :: k in IndexClients(w, clients).value.bySamlEntity <==>
                            k != "" && exists i :: 0 <= i < |clients| && clients[i].entityId == k
  {
    if clients != [] {
      var init, c := clients[..|clients| - 1], clients[|clients| - 1];
      ClientsIndexedIff(w, init);
      assert clients == init + [c];
      assert forall i :: 0 <= i < |init| ==> clients[i] == init[i];
      if IndexClients(w, init).Some? {
        ClientsIndexedStep(w, IndexClients(w, init).value, init, c);
      }
    }
  }

  lemma ClientsIndexedStep(w: World, ix: ClientIndex, init: seq<Client>, c: Client)
    requires EntitiesDistinct(init) && (forall i :: 0 <= i < |init| ==> ClientReadable(w, init[i]))
    requires forall k :: k in ix.bySamlEntity <==> k != "" && exists i :: 0 <= i < |init| && init[i].entityId == k
    ensures
      var clients := init + [c];
      && (AddClient(w, ix, c).Some? <==> EntitiesDistinct(clients) && forall i :: 0 <= i < |clients| ==> ClientReadable(w, clients[i]))
      && (AddClient(w, ix, c).Some? ==>
            forall k :: k in AddClient(w, ix, c).value.bySamlEntity <==>
                          k != "" && exists i :: 0 <= i < |clients| && clients[i].entityId == k)
  {
    var clients := init + [c];
    AddClientIff(w, ix, c);
    assert clients[|init|] == c;
    assert forall i :: 0 <= i < |init| ==> clients[i] == init[i];
    if c.entityId != "" && c.entityId in ix.bySamlEntity {
      var i :| 0 <= i < |init| && init[i].entityId == c.entityId;
      assert clients[i].entityId == clients[|init|].entityId;
    }
  }

  lemma AddUserIff(w: World, ix: UserIndex, u: User)
    ensures AddUser(w, ix, u).Some? <==> UserReadable(w, u)
    ensures AddUser(w, ix, u).Some? ==>
              var r, hashed := AddUser(w, ix, u).value, u.passwordHashRef != "";
              var ref := if hashed then u.passwordHashRef else u.passwordRef;
              && r.byId == ix.byId[u.id := u]
              && r.passwords == ix.passwords[u.id := w.parsePassword(w.files[ref], hashed).value]
              && r.seeds == (if u.totpSecretRef == "" then ix.seeds else ix.seeds[u.id := w.parseSeed(w.files[u.totpSecretRef]).value])
  {
  }

  /** The user loop succeeds if and only if every password and every TOTP seed reads and parses. */
  lemma {:induction false} UsersIndexedIff(w: World, users: seq<User>)
    ensures IndexUsers(w, users).Some? <==> forall i :: 0 <= i < |users| ==> UserReadable(w, users[i])
  {
    if users != [] {
      var init, u := users[..|users| - 1], users[|users| - 1];
      UsersIndexedIff(w, init);
      assert forall i :: 0 <= i < |init| ==> users[i] == init[i];
      if IndexUsers(w, init).Some? {
        AddUserIff(w, IndexUsers(w, init).value, u);
      }
    }
  }

  /** A document compiles if and only if its settings pass, entity ids are distinct, and every referenced secret reads and parses. */
  lemma CompilesIff(w: World, doc: Document, opt: Options)
    ensures
      var d := Normalize(doc);
      Compiled(w, doc, opt).Ok? <==>
        && SettingsOk(w, d) && EntitiesDistinct(d.spec.clients)
        && (forall i :: 0 <= i < |d.spec.clients| ==> ClientReadable(w, d.spec.clients[i]))
        && (forall i :: 0 <= i < |d.spec.users| ==> UserReadable(w, d.spec.users[i]))
    ensures Compiled(w, doc, opt).Err? ==> Compiled(w, doc, opt).error == Validation
  {
    var d := Normalize(doc);
    ClientsIndexedIff(w, d.spec.clients);
    UsersIndexedIff(w, d.spec.users);
  }

  /** The settings a compilation checks. */
  lemma SettingsOkIff(w: World, d: Document)
    ensures
      var s := d.spec;
      SettingsOk(w, d) <==>
        && ValidDocument(w.syntax, d) && w.vendorOk(s.profile.vendor, s.profile.tenantId, d.name) && w.issuerOk(s.issuer)
        && Readable(w, s.listeners.https.certRef) && Readable(w, s.listeners.https.keyRef)
        && w.keyPairOk(w.files[s.listeners.https.certRef], w.files[s.listeners.https.keyRef])
        && Readable(w, s.signingRef) && Readable(w, s.accessRef) && TrimSpace(w.files[s.accessRef]) != ""
        && w.signingOk(w.files[s.signingRef], s.protocols.saml == Some(true) || s.protocols.wsfed == Some(true))
        && s.groupOverage.genericCap >= 1 && s.groupOverage.oktaFailAt >= 1
  {
  }

  // ---------------------------------------------------- what goes where

  /** The value of every client secret is the trimmed file behind its reference. */
  lemma {:induction false} SecretsExact(w: World, clients: seq<Client>, i: nat)
    requires IndexClients(w, clients).Some? && i < |clients| && DistinctKeys(clients, EffectiveId)
    requires forall j :: 0 <= j < |clients| ==> clients[j].id != ""
    ensures clients[i].secretRef != "" ==>
              && EffectiveId(clients[i]) in IndexClients(w, clients).value.secrets
              && clients[i].secretRef in w.files
              && IndexClients(w, clients).value.secrets[EffectiveId(clients[i])] == TrimSpace(w.files[clients[i].secretRef])
  {
    var n := |clients| - 1;
    var init, c := clients[..n], clients[n];
    assert clients == init + [c];
    DistinctSnoc(init, c, EffectiveId);
    AddClientIff(w, IndexClients(w, init).value, c);
    if i < n {
      SecretsExact(w, init, i);
      assert EffectiveId(init[i]) != EffectiveId(c);
    }
  }

  lemma {:induction false} CredentialsExact(w: World, users: seq<User>, i: nat)
    requires IndexUsers(w, users).Some? && i < |users| && DistinctKeys(users, BY_USER_ID)
    requires forall j :: 0 <= j < |users| ==> users[j].id != ""
    ensures
      var ix, u := IndexUsers(w, users).value, users[i];
      var hashed := u.passwordHashRef != "";
      var ref := if hashed then u.passwordHashRef else u.passwordRef;
      && ref in w.files && u.id in ix.passwords && Some(ix.passwords[u.id]) == w.parsePassword(w.files[ref], hashed)
      && (u.id in ix.seeds <==> u.totpSecretRef != "")
      && (u.totpSecretRef != "" ==> u.totpSecretRef in w.files && Some(ix.seeds[u.id]) == w.parseSeed(w.files[u.totpSecretRef]))
  {
    var n := |users| - 1;
    var init, u := users[..n], users[n];
    assert users == init + [u];
    DistinctSnoc(init, u, BY_USER_ID);
    AddUserIff(w, IndexUsers(w, init).value, u);
    if i < n {
      CredentialsExact(w, init, i);
      assert BY_USER_ID(init[i]) == init[i].id && BY_USER_ID(u) == u.id;
    } else {
      SeedsBelong(w, init, u.id);
    }
  }

  /** A user that is not in the list has no seed. */
  lemma {:induction false} SeedsBelong(w: World, users: seq<User>, id: string)
    requires IndexUsers(w, users).Some? && forall i :: 0 <= i < |users| ==> BY_USER_ID(users[i]) != id
    ensures id !in IndexUsers(w, users).value.seeds
  {
    if users != [] {
      var init, u := users[..|users| - 1], users[|users| - 1];
      SeedsBelong(w, init, id);
      AddUserIff(w, IndexUsers(w, init).value, u);
      assert BY_USER_ID(u) == u.id;
    }
  }

  /** A compiled snapshot holds the normalized document, its revision, the key files, and the trimmed access token. */
  lemma SnapshotHolds(w: World, doc: Document, opt: Options)
    requires Compiled(w, doc, opt).Ok?
    ensures
      var s, d := Compiled(w, doc, opt).value, Normalize(doc);
      && s.canonical == d && s.revision == RevisionOf(d)
      && s.bootstrapRevision == (if opt.bootstrapRevision == NoRevision then RevisionOf(d) else opt.bootstrapRevision)
      && s.generation == (if opt.generation == 0 then 1 else opt.generation)
      && Readable(w, d.spec.listeners.https.certRef) && s.tlsCert == w.files[d.spec.listeners.https.certRef]
      && Readable(w, d.spec.listeners.https.keyRef) && s.tlsKey == w.files[d.spec.listeners.https.keyRef]
      && Readable(w, d.spec.signingRef) && s.signingKey == w.files[d.spec.signingRef]
      && Readable(w, d.spec.accessRef) && s.accessToken == TrimSpace(w.files[d.spec.accessRef])
  {
    NormalizeIdempotent(doc);
    SettingsOkIff(w, Normalize(doc));
  }

  /** Every secret of a compiled snapshot is what its reference reads. */
  lemma SnapshotSecrets(w: World, doc: Document, opt: Options)
    requires Compiled(w, doc, opt).Ok?
    ensures
      var s := Compiled(w, doc, opt).value;
      var spec := s.canonical.spec;
      && (forall i :: 0 <= i < |spec.clients| && spec.clients[i].secretRef != "" ==>
            var c := spec.clients[i];
            var key := if c.clientId == "" then c.id else c.clientId;
            key in s.clients.secrets && c.secretRef in w.files && s.clients.secrets[key] == TrimSpace(w.files[c.secretRef]))
      && (forall i :: 0 <= i < |spec.users| ==>
            var u := spec.users[i];
            var ref := if u.passwordHashRef != "" then u.passwordHashRef else u.passwordRef;
            && u.id in s.users.passwords && ref in w.files
            && Some(s.users.passwords[u.id]) == w.parsePassword(w.files[ref], u.passwordHashRef != "")
            && (u.id in s.users.seeds <==> u.totpSecretRef != "")
            && (u.totpSecretRef != "" ==> u.totpSecretRef in w.files && Some(s.users.seeds[u.id]) == w.parseSeed(w.files[u.totpSecretRef])))
  {
    var s := Compiled(w, doc, opt).value;
    var spec := s.canonical.spec;
    CompiledIsWellCompiled(w, doc, opt);
    CompiledIds(s);
    forall i | 0 <= i < |spec.clients| && spec.clients[i].secretRef != ""
      ensures
        var c := spec.clients[i];
        var key := if c.clientId == "" then c.id else c.clientId;
        key in s.clients.secrets && c.secretRef in w.files && s.clients.secrets[key] == TrimSpace(w.files[c.secretRef])
    {
      SecretsExact(w, spec.clients, i);
    }
    forall i | 0 <= i < |spec.users|
      ensures
        var u := spec.users[i];
        var ref := if u.passwordHashRef != "" then u.passwordHashRef else u.passwordRef;
        && u.id in s.users.passwords && ref in w.files
        && Some(s.users.passwords[u.id]) == w.parsePassword(w.files[ref], u.passwordHashRef != "")
        && (u.id in s.users.seeds <==> u.totpSecretRef != "")
        && (u.totpSecretRef != "" ==> u.totpSecretRef in w.files && Some(s.users.seeds[u.id]) == w.parseSeed(w.files[u.totpSecretRef]))
    {
      CredentialsExact(w, spec.users, i);
    }
  }

  lemma CompiledIds(s: Snapshot)
    requires WellCompiled(s)
    ensures DistinctKeys(s.canonical.spec.clients, EffectiveId) && DistinctKeys(s.canonical.spec.users, BY_USER_ID)
    ensures forall i :: 0 <= i < |s.canonical.spec.clients| ==> s.canonical.spec.clients[i].id != ""
    ensures forall i :: 0 <= i < |s.canonical.spec.users| ==> s.canonical.spec.users[i].id != ""
  {
    var us := s.canonical.spec.users;
    assert forall i :: 0 <= i < |us| ==> us[i].id == BY_USER_ID(us[i]);
  }
}
