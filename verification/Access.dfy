/**
 The read-only predicates that handlers evaluate against their captured snapshot
 (internal/oidc/provider.go, internal/loginui/ui.go, internal/saml/provider.go,
 internal/wsfed/provider.go).
 */
module Access {
  import opened Basics
  import opened Documents
  import opened Snapshots
  import opened RuntimeState

  const KNOWN_SCOPES := {"openid", "profile", "email", "groups", "offline_access"}

  function MfaMode(snap: Snapshot): Mfa { snap.canonical.spec.auth.mfaMode }

  predicate UserUsable(snap: Snapshot, id: string) {
    id in snap.users.byId && BoolVal(snap.users.byId[id].enabled, true)
  }

  predicate HasScope(scope: string, want: string) { want in Fields(scope) }

  predicate ScopesAllowed(cl: Client, scope: string) {
    forall s :: s in Fields(scope) ==> s in KNOWN_SCOPES && (|cl.scopes| > 0 ==> s in cl.scopes)
  }

  predicate ScopeSubset(scope: string, original: string) {
    forall s :: s in Fields(scope) ==> HasScope(original, s)
  }

  /** SessionUsable of internal/oidc/runtime.go, on the session's MFA flag. */
  predicate SessionUsable(mfa: bool, mode: Mfa) {
    !(mode.ForceFail? || (mode.Always? && !mfa))
  }

  function ReplyUrls(cl: Client): seq<string> { if |cl.acsUrls| == 0 then cl.redirectUris else cl.acsUrls }

  predicate OidcEnabled(snap: Snapshot) { BoolVal(snap.canonical.spec.protocols.oidc, true) }
  predicate SamlEnabled(snap: Snapshot) { BoolVal(snap.canonical.spec.protocols.saml, false) }
  predicate WsFedEnabled(snap: Snapshot) { BoolVal(snap.canonical.spec.protocols.wsfed, false) }

  predicate PendingUsable(snap: Snapshot, p: Pending) {
    var found := Lookup(snap.clients.byClientId, p.clientId);
    var cl := if found.None? then Lookup(snap.clients.byId, p.clientId) else found;
    && cl.Some?
    && if IsOidc(p) then
         OidcEnabled(snap) && p.redirectUri in cl.value.redirectUris && ScopesAllowed(cl.value, p.scope)
       else if p.protocol.Saml? then
         SamlEnabled(snap) && cl.value.entityId == p.spEntityId && p.acsUrl in ReplyUrls(cl.value)
       else if p.protocol.WsFed? then
         && WsFedEnabled(snap)
         && (cl.value.entityId == p.spEntityId || cl.value.clientId == p.spEntityId)
         && p.acsUrl in ReplyUrls(cl.value)
       else false
  }

  predicate IsOidc(p: Pending) { p.protocol.Unstated? || p.protocol.Oidc? }

  /** findUser: the first enabled user with the name. */
  function FindEnabled(users: seq<User>, username: string): (r: Option<User>)
    ensures r.Some? ==> r.value in users && r.value.username == username && BoolVal(r.value.enabled, true)
  {
    if users == [] then None
    else if users[0].username == username && BoolVal(users[0].enabled, true) then Some(users[0])
    else FindEnabled(users[1..], username)
  }

  function FindUser(snap: Snapshot, username: string): Option<User> {
    FindEnabled(snap.canonical.spec.users, username)
  }

  /** A user found by name is usable by id, because ids are unique. */
  lemma FoundUserIsUsable(snap: Snapshot, username: string)
    requires WellCompiled(snap) && FindUser(snap, username).Some?
    ensures UserUsable(snap, FindUser(snap, username).value.id)
  {
    var u := FindUser(snap, username).value;
    var i :| 0 <= i < |snap.canonical.spec.users| && snap.canonical.spec.users[i] == u;
    assert BY_USER_ID(snap.canonical.spec.users[i]) == u.id;
  }

  /** Both client indexes sit under the keys of the clients they hold, and hold the same clients. */
  ghost predicate ClientKeys(snap: Snapshot) {
    var ix := snap.clients;
    && (forall k :: k in ix.byClientId ==> k != "" && EffectiveId(ix.byClientId[k]) == k)
    && (forall k :: k in ix.bySamlEntity ==> k != "" && ix.bySamlEntity[k].entityId == k)
    && (forall k :: k in ix.bySamlEntity ==>
          EffectiveId(ix.bySamlEntity[k]) in ix.byClientId && ix.byClientId[EffectiveId(ix.bySamlEntity[k])] == ix.bySamlEntity[k])
    && (forall k :: k in ix.byClientId && ix.byClientId[k].entityId != "" ==> ix.byClientId[k].entityId in ix.bySamlEntity)
  }

  lemma CompiledEntityKeys(snap: Snapshot, k: string)
    requires WellCompiled(snap) && k in snap.clients.bySamlEntity
    ensures
      var cl := snap.clients.bySamlEntity[k];
      && k != "" && cl.entityId == k
      && EffectiveId(cl) in snap.clients.byClientId && snap.clients.byClientId[EffectiveId(cl)] == cl
  {
    EntityKeys(snap.clients, snap.canonical.spec.clients, k);
  }

  lemma EntityKeys(ix: ClientIndex, cs: seq<Client>, k: string)
    requires Indexes(ix.bySamlEntity, cs, BY_ENTITY) && Indexes(ix.byClientId, cs, EffectiveId) && k in ix.bySamlEntity
    requires forall i :: 0 <= i < |cs| ==> cs[i].id != ""
    ensures
      var cl := ix.bySamlEntity[k];
      k != "" && cl.entityId == k && EffectiveId(cl) in ix.byClientId && ix.byClientId[EffectiveId(cl)] == cl
  {
    var i :| 0 <= i < |cs| && BY_ENTITY(cs[i]) == k && ix.bySamlEntity[k] == cs[i];
    assert EffectiveId(cs[i]) != "";
  }

  lemma CompiledIdKeys(snap: Snapshot, k: string)
    requires WellCompiled(snap) && k in snap.clients.byClientId
    ensures
      var cl := snap.clients.byClientId[k];
      k != "" && EffectiveId(cl) == k && (cl.entityId != "" ==> cl.entityId in snap.clients.bySamlEntity)
  {
    var cs := snap.canonical.spec.clients;
    var i :| 0 <= i < |cs| && EffectiveId(cs[i]) == k && snap.clients.byClientId[k] == cs[i];
    assert BY_ENTITY(cs[i]) == snap.clients.byClientId[k].entityId;
  }

  lemma CompiledClientKeys(snap: Snapshot)
    requires WellCompiled(snap)
    ensures ClientKeys(snap)
  {
    forall k | k in snap.clients.bySamlEntity
      ensures
        var cl := snap.clients.bySamlEntity[k];
        && k != "" && cl.entityId == k
        && EffectiveId(cl) in snap.clients.byClientId && snap.clients.byClientId[EffectiveId(cl)] == cl
    {
      CompiledEntityKeys(snap, k);
    }
    forall k | k in snap.clients.byClientId
      ensures
        var cl := snap.clients.byClientId[k];
        k != "" && EffectiveId(cl) == k && (cl.entityId != "" ==> cl.entityId in snap.clients.bySamlEntity)
    {
      CompiledIdKeys(snap, k);
    }
  }

  /** Narrowing a scope never loses permission. */
  lemma NarrowedScopeAllowed(cl: Client, narrow: string, wide: string)
    requires ScopesAllowed(cl, wide) && ScopeSubset(narrow, wide)
    ensures ScopesAllowed(cl, narrow)
  {
  }

  // ------------------------------------------------------------ federation

  /** The pending row that `sso` stores for an AuthnRequest of the given issuer. */
  function SamlPending(snap: Snapshot, issuer: string, acs: string, requestId: string, relay: string): Pending
    requires issuer in snap.clients.bySamlEntity
  {
    NO_PENDING.(generation := snap.generation, protocol := Saml,
                clientId := EffectiveId(snap.clients.bySamlEntity[issuer]), acsUrl := acs,
                requestId := requestId, spEntityId := issuer, relayState := relay, redirectUri := acs)
  }

  lemma SamlPendingUsable(snap: Snapshot, issuer: string, acs: string, requestId: string, relay: string)
    requires ClientKeys(snap) && SamlEnabled(snap)
    requires issuer in snap.clients.bySamlEntity && acs in ReplyUrls(snap.clients.bySamlEntity[issuer])
    ensures PendingUsable(snap, SamlPending(snap, issuer, acs, requestId, relay))
  {
    assert EffectiveId(snap.clients.bySamlEntity[issuer]) in snap.clients.byClientId;
  }

  /** The client `passive` picks for a realm: by entity id first, then by effective client id. */
  function RealmClient(snap: Snapshot, realm: string): Option<Client> {
    var named := Lookup(snap.clients.bySamlEntity, realm);
    if named.Some? then named else Lookup(snap.clients.byClientId, realm)
  }

  function WsFedPending(snap: Snapshot, realm: string, reply: string, context: string): Pending
    requires RealmClient(snap, realm).Some?
  {
    NO_PENDING.(generation := snap.generation, protocol := WsFed,
                clientId := EffectiveId(RealmClient(snap, realm).value), acsUrl := reply,
                spEntityId := realm, relayState := context, redirectUri := reply)
  }

  /** The realm named a client by its id, because that client has no clientId of its own. */
  predicate RealmIsBareId(snap: Snapshot, realm: string) {
    && realm !in snap.clients.bySamlEntity
    && realm in snap.clients.byClientId && snap.clients.byClientId[realm].clientId == ""
  }

  /**
   `passive` accepts every realm it can resolve, but the pending row it stores is
   usable exactly when the realm did not have to fall back on a bare client id.
   */
  lemma WsFedPendingUsableIff(snap: Snapshot, realm: string, reply: string, context: string)
    requires ClientKeys(snap) && WsFedEnabled(snap)
    requires RealmClient(snap, realm).Some? && reply in ReplyUrls(RealmClient(snap, realm).value)
    ensures PendingUsable(snap, WsFedPending(snap, realm, reply, context)) <==> !RealmIsBareId(snap, realm)
  {
    var cl := RealmClient(snap, realm).value;
    assert Lookup(snap.clients.byClientId, EffectiveId(cl)) == Some(cl);
  }
}
