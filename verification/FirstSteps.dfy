/** Runs of two steps from boot: a request arrives and one handler stores a pending row. */
module FirstSteps {
  import opened Basics
  import opened Documents
  import opened Snapshots
  import opened RuntimeState
  import opened Access
  import opened System
  import opened Protocol
  import RL = RuntimeLaws
  import W = Witnesses

  /** Boot, arrival of one request. */
  function Arrived(boot: Snapshot, now: int): Sys { Start(boot, now).(reqs := map[0 := Captured(boot)]) }

  /** What Submit leaves of an empty table. */
  lemma SubmitStores(boot: Snapshot, now: int, p: Pending, newId: string, next: Option<Request>)
    requires p == Unstamped(p) && p.generation == 1 && newId != ""
    ensures
      var t := After(Arrived(boot, now), 0, Submit(Arrived(boot, now), p, newId, next));
      && t.snaps == [boot]
      && (newId in t.rt.pending <==> PendingBounded(p))
      && (newId in t.rt.pending ==> t.rt.pending[newId] == p.(id := newId, created := now))
  {
  }

  // ------------------------------------------------- a realm named by a bare id

  lemma StoreRunReaches(boot: Snapshot, now: int, e: EntryEvent)
    requires WellCompiled(boot) && boot.generation == 1 && now > ZERO_TIME
    requires EntryEnabled(Arrived(boot, now), Captured(boot), e)
    ensures Reachable(After(Arrived(boot, now), 0, EntryOut(Arrived(boot, now), Captured(boot), e)))
  {
    ReachableStart(boot, now);
    ReachableStep(Start(boot, now), Env(Capture(0)));
    ReachableStep(Arrived(boot, now), Entry(0, e));
  }

  /**
   WS-Fed: for a realm that is a bare client id the handler stores its row, if it
   is within the field limits, and the row is not usable under the active snapshot.
   */
  lemma BareRealmIsStored(boot: Snapshot, now: int, realm: string, reply: string, context: string, newId: string) returns (s: Sys)
    requires WellCompiled(boot) && boot.generation == 1 && now > ZERO_TIME && newId != ""
    requires WsFedEnabled(boot) && RealmIsBareId(boot, realm) && reply in ReplyUrls(RealmClient(boot, realm).value)
    ensures Reachable(s) && s.snaps == [boot]
    ensures newId in s.rt.pending <==> PendingBounded(WsFedPending(boot, realm, reply, context))
    ensures newId in s.rt.pending ==> !PendingUsable(boot, s.rt.pending[newId])
  {
    s := WsFedStores(boot, now, realm, reply, context, newId);
    StoreRunReaches(boot, now, WsFedPutPending(realm, reply, context, newId));
    assert ClientKeys(boot) by { CompiledClientKeys(boot); }
    BareRealmIsUnusable(boot, realm, reply, context, newId, now);
  }

  lemma WsFedStores(boot: Snapshot, now: int, realm: string, reply: string, context: string, newId: string) returns (s: Sys)
    requires boot.generation == 1 && newId != ""
    requires WsFedEnabled(boot) && RealmClient(boot, realm).Some? && reply in ReplyUrls(RealmClient(boot, realm).value)
    ensures
      var e, p := WsFedPutPending(realm, reply, context, newId), WsFedPending(boot, realm, reply, context);
      && EntryEnabled(Arrived(boot, now), Captured(boot), e)
      && s == After(Arrived(boot, now), 0, EntryOut(Arrived(boot, now), Captured(boot), e))
      && s.snaps == [boot] && (newId in s.rt.pending <==> PendingBounded(p))
      && (newId in s.rt.pending ==> s.rt.pending[newId] == p.(id := newId, created := now))
  {
    var p := WsFedPending(boot, realm, reply, context);
    s := After(Arrived(boot, now), 0, Submit(Arrived(boot, now), p, newId, Some(Stored(boot, newId))));
    SubmitStores(boot, now, p, newId, Some(Stored(boot, newId)));
  }

  lemma BareRealmIsUnusable(boot: Snapshot, realm: string, reply: string, context: string, newId: string, now: int)
    requires ClientKeys(boot) && WsFedEnabled(boot) && RealmIsBareId(boot, realm) && reply in ReplyUrls(RealmClient(boot, realm).value)
    ensures !PendingUsable(boot, WsFedPending(boot, realm, reply, context).(id := newId, created := now))
  {
    WsFedPendingUsableIff(boot, realm, reply, context);
  }

  /** A document with one public client, compiled for the given generation. */
  lemma OneClientCompiles(x: W.Setup, generation: int, c: Client) returns (snap: Snapshot)
    requires W.SetupOk(x) && x.clients == [c] && c.secretRef == "" && IndexUsers(W.WORLD, x.users).Some? && generation != 0
    ensures WellCompiled(snap) && snap.generation == generation && snap.canonical == W.DocOf(x)
    ensures snap.clients == ClientIndex(map[c.id := c], map[EffectiveId(c) := c], if c.entityId == "" then map[] else map[c.entityId := c], map[])
    ensures snap.users == IndexUsers(W.WORLD, x.users).value
  {
    var opt := Options(generation, NoRevision);
    OneClientIndex(c);
    W.DocCompiles(x, opt);
    CompiledIsWellCompiled(W.WORLD, W.DocOf(x), opt);
    snap := Compiled(W.WORLD, W.DocOf(x), opt).value;
  }

  lemma OneClientIndex(c: Client)
    requires c.secretRef == ""
    ensures IndexClients(W.WORLD, [c]) ==
              Some(ClientIndex(map[c.id := c], map[EffectiveId(c) := c], if c.entityId == "" then map[] else map[c.entityId := c], map[]))
  {
    assert [c][..0] == [];
    assert IndexClients(W.WORLD, [c][..0]) == Some(NO_CLIENTS);
  }

  /** One public client with HTTPS URLs, and no users. */
  lemma ClientSetupOk(x: W.Setup, c: Client)
    requires x.clients == [c] && x.users == [] && ValidMfa(x.mode) && (x.vendor == "generic" || x.vendor == "okta")
    requires c.id != "" && c.isPublic
    requires forall k :: 0 <= k < |c.redirectUris| ==> W.Https(c.redirectUris[k])
    requires forall k :: 0 <= k < |c.acsUrls| ==> W.Https(c.acsUrls[k])
    ensures W.SetupOk(x) && IndexUsers(W.WORLD, x.users).Some?
  {
    assert "generic" in VENDORS && "okta" in VENDORS;
    assert ClientsValid(W.WORLD.syntax, [c]);
    assert UsersValid([], []);
  }

  const BARE := Client("app", "", ["https://sp"], true, "", [], false, "", [])

  /** A concrete instance: client "app" without a clientId, addressed as realm "app". */
  lemma BareRealmWitness(newId: string) returns (s: Sys)
    requires newId != ""
    ensures Reachable(s) && s.snaps != [] && newId in s.rt.pending && !PendingUsable(Active(s), s.rt.pending[newId])
  {
    var boot := BareBoots();
    BareIsBounded(boot);
    s := BareRealmIsStored(boot, 0, "app", "https://sp", "", newId);
  }

  lemma BareBoots() returns (boot: Snapshot)
    ensures WellCompiled(boot) && boot.generation == 1 && WsFedEnabled(boot)
    ensures RealmIsBareId(boot, "app") && RealmClient(boot, "app") == Some(BARE) && "https://sp" in ReplyUrls(BARE)
  {
    var x := W.Setup("generic", false, true, Never, [BARE], []);
    assert "https://sp"[..8] == "https://" && BARE.redirectUris[0] == "https://sp";
    ClientSetupOk(x, BARE);
    boot := OneClientCompiles(x, 1, BARE);
  }

  lemma BareIsBounded(boot: Snapshot)
    requires RealmClient(boot, "app") == Some(BARE)
    ensures PendingBounded(WsFedPending(boot, "app", "https://sp", ""))
  {
    RL.FieldTotal(WsFedPending(boot, "app", "https://sp", ""));
  }

  // --------------------------------------------------- a row over its budget

  function Long(n: nat): string { seq(n, (_: int) => 'a') }

  /** A reply URL of 4096 characters. */
  function LongUrl(): string { "https://sp/" + Long(4085) }

  const WORDY := Client("c", "", [], true, "", [], false, Long(4096), [LongUrl()])

  /** The row is exactly at the budget without its id. */
  lemma WordyIsBounded(boot: Snapshot)
    requires Long(4096) in boot.clients.bySamlEntity && boot.clients.bySamlEntity[Long(4096)] == WORDY
    ensures
      var p := SamlPending(boot, Long(4096), LongUrl(), "_1", Long(4089));
      PendingBounded(p) && TotalLength(FieldsOf(p)) == 16 * 1024
  {
    RL.FieldTotal(SamlPending(boot, Long(4096), LongUrl(), "_1", Long(4089)));
  }

  /**
   SAML: a registered service provider with a long entity id and URL, and a long
   relay state. The handler's row is accepted and, with whatever id it is given,
   the stored row is over the budget.
   */
  lemma OverBudgetRowIsStored(newId: string) returns (s: Sys)
    requires newId != ""
    ensures Reachable(s) && newId in s.rt.pending && TotalLength(FieldsOf(s.rt.pending[newId])) == 16 * 1024 + |newId|
    ensures !PendingBounded(s.rt.pending[newId])
  {
    var x := W.Setup("generic", true, false, Never, [WORDY], []);
    assert LongUrl()[..8] == "https://";
    ClientSetupOk(x, WORDY);
    var boot := OneClientCompiles(x, 1, WORDY);
    assert Long(4096) != "" by { assert |Long(4096)| == 4096; }
    s := WordyStores(boot, newId);
    StoreRunReaches(boot, 0, SamlPutPending(Long(4096), LongUrl(), "_1", Long(4089), newId));
  }

  lemma WordyStores(boot: Snapshot, newId: string) returns (s: Sys)
    requires boot.generation == 1 && newId != "" && SamlEnabled(boot)
    requires Long(4096) in boot.clients.bySamlEntity && boot.clients.bySamlEntity[Long(4096)] == WORDY
    ensures
      var e := SamlPutPending(Long(4096), LongUrl(), "_1", Long(4089), newId);
      && EntryEnabled(Arrived(boot, 0), Captured(boot), e)
      && s == After(Arrived(boot, 0), 0, EntryOut(Arrived(boot, 0), Captured(boot), e))
    ensures newId in s.rt.pending && TotalLength(FieldsOf(s.rt.pending[newId])) == 16 * 1024 + |newId|
  {
    WordyIsBounded(boot);
    var p := SamlPending(boot, Long(4096), LongUrl(), "_1", Long(4089));
    s := After(Arrived(boot, 0), 0, Submit(Arrived(boot, 0), p, newId, Some(Stored(boot, newId))));
    SubmitStores(boot, 0, p, newId, Some(Stored(boot, newId)));
    RL.FieldTotal(p);
    RL.FieldTotal(p.(id := newId, created := 0));
  }
}
