/**
 Idempotent retries: what calls that share an actor, a capability and an
 idempotency key do to the store, over any sequence of calls.
 */
module Retries {
  import opened Basics
  import opened Documents
  import opened Snapshots
  import opened Operations
  import opened Idempotency
  import opened Engine
  import opened DesiredState

  type Cached = Cache<Key, Print, Saved>

  // ------------------------------------------------------ holding an entry

  /** In the use history a + [key] + b of the cache, only `others` were used after `key`. */
  ghost predicate UsedLast(c: Cached, a: seq<Key>, key: Key, b: seq<Key>, others: set<Key>) {
    IsLru(c, a + [key] + b) && key !in b && Elements(b) <= others
  }

  /** The entry is in the cache and stays there while only `others` are used besides it. */
  ghost predicate Holds(c: Cached, key: Key, entry: Entry<Print, Saved>, others: set<Key>) {
    && key !in others && |others| < c.cap
    && key in c.m && c.m[key] == entry
    && exists a, b :: UsedLast(c, a, key, b, others)
  }

  /** After an operation on the key itself or on one of the others, the key is still used last among them. */
  lemma UseMoves(c: Cached, op: Op<Key, Print, Saved>, a: seq<Key>, key: Key, b: seq<Key>, others: set<Key>)
    returns (a': seq<Key>, b': seq<Key>)
    requires UsedLast(c, a, key, b, others) && (op.key.Some? ==> op.key.value == key || op.key.value in others)
    ensures UsedLast(Step(c, op), a', key, b', others)
  {
    var x := Touched(c, op);
    assert x.Some? ==> x == op.key;
    a', b' := SplitAtUse(a, key, b, x, others);
    TouchKeepsLru(c, op, a + [key] + b);
  }

  /** Splitting a longer use history at the last use of the key. */
  lemma SplitAtUse(a: seq<Key>, key: Key, b: seq<Key>, x: Option<Key>, others: set<Key>) returns (a': seq<Key>, b': seq<Key>)
    requires key !in b && Elements(b) <= others && (x.Some? ==> x.value == key || x.value in others)
    ensures Append(a + [key] + b, x) == a' + [key] + b' && key !in b' && Elements(b') <= others
  {
    if x.None? {
      a', b' := a, b;
    } else if x.value == key {
      a', b' := a + [key] + b, [];
    } else {
      a', b' := a, b + [x.value];
      assert Elements(b') == Elements(b) + {x.value};
    }
  }

  /** A key that is used last among few enough others is in the cache. */
  lemma UsedLastIsKept(c: Cached, a: seq<Key>, key: Key, b: seq<Key>, others: set<Key>)
    requires UsedLast(c, a, key, b, others) && |others| < c.cap
    ensures key in c.m
  {
    SubsetSize(Elements(b), others);
    RetainedIff(c, a, key, b);
  }

  lemma HoldsThroughLook(c: Cached, key: Key, entry: Entry<Print, Saved>, others: set<Key>, k: Option<Key>, mark: Print)
    requires Holds(c, key, entry, others) && (k.Some? ==> k.value == key || k.value in others)
    ensures Holds(Look(c, k, mark).0, key, entry, others)
  {
    var a, b :| UsedLast(c, a, key, b, others);
    var op: Op<Key, Print, Saved> := DoLook(k, mark);
    var a', b' := UseMoves(c, op, a, key, b, others);
    LookKeepsEntries(c, k, mark);
    assert UsedLast(Look(c, k, mark).0, a', key, b', others);
  }

  lemma HoldsThroughPut(c: Cached, key: Key, entry: Entry<Print, Saved>, others: set<Key>, k: Option<Key>, mark: Print, v: Saved)
    requires Holds(c, key, entry, others) && (k.Some? ==> k.value in others)
    ensures Holds(Put(c, k, mark, v), key, entry, others)
  {
    var a, b :| UsedLast(c, a, key, b, others);
    var op := DoPut(k, mark, v);
    var a', b' := UseMoves(c, op, a, key, b, others);
    var c' := Put(c, k, mark, v);
    assert UsedLast(c', a', key, b', others);
    PutKeepsOther(c, k, mark, v, key);
    UsedLastIsKept(c', a', key, b', others);
  }

  lemma PutKeepsOther(c: Cached, k: Option<Key>, mark: Print, v: Saved, key: Key)
    requires k != Some(key) && key in c.m
    ensures Put(c, k, mark, v).cap == c.cap
    ensures key in Put(c, k, mark, v).m ==> Put(c, k, mark, v).m[key] == c.m[key]
  {
  }

  // ---------------------------------------------- one call beside the entry

  ghost predicate Among(k: Option<Key>, key: Key, others: set<Key>) {
    k.Some? ==> k.value == key || k.value in others
  }

  /** The recorded result of a mutation. */
  ghost predicate HasResult(entry: Entry<Print, Saved>) { entry.value.res.Some? }

  /** The cache has no result for the request. */
  predicate Unrecorded(c: Cached, k: Option<Key>, mark: Print) {
    var hit := Look(c, k, mark).1;
    hit.Ok? && (hit.value.None? || hit.value.value.res.None?)
  }

  /** What a call can leave of the cache: one or two lookups of its key, then perhaps an entry of its own. */
  predicate CacheEnds(c: Cached, k: Option<Key>, mark: Print, v: Saved, c': Cached) {
    var one := Look(c, k, mark).0;
    var two := Look(one, k, mark).0;
    || c' == c || c' == one || c' == two
    || (Unrecorded(c, k, mark) && (c' == Put(one, k, mark, v) || c' == Put(two, k, mark, v)))
  }

  /** The record of a mutation that went through. */
  predicate Stores(c: Cached, k: Option<Key>, mark: Print, res: ApplyResult, c': Cached) {
    var one := Look(c, k, mark).0;
    var two := Look(one, k, mark).0;
    var v := Saved(res.plan, Some(res));
    Unrecorded(c, k, mark) && (c' == Put(one, k, mark, v) || c' == Put(two, k, mark, v))
  }

  lemma ApplyCache(k: Codec, e: Env, a: AppState, kk: Option<Key>, c: Change, mark: Print)
    ensures
      var (b, r) := ApplyLocked(k, e, a, kk, c, mark);
      var one := Look(a.cache, kk, mark).0;
      || (Quiet(a, b) && (b.cache == a.cache || b.cache == one))
      || (r.Ok? && Unrecorded(a.cache, kk, mark) && b.cache == Put(one, kk, mark, Saved(r.value.plan, Some(r.value))))
  {
    ReplayEffect(a, kk, mark);
  }

  lemma SecondLook(c: Cached, k: Option<Key>, mark: Print)
    ensures Unrecorded(Look(c, k, mark).0, k, mark) <==> Unrecorded(c, k, mark)
  {
  }

  lemma TypedCache(k: Codec, e: Env, a: AppState, kk: Option<Key>, t: Typed)
    ensures
      var (b, r) := ApplyTyped(k, e, a, kk, t);
      var mark := TypedPrint(t);
      || (Quiet(a, b) && (b.cache == a.cache || b.cache == Look(a.cache, kk, mark).0 || b.cache == Look(Look(a.cache, kk, mark).0, kk, mark).0))
      || (r.Ok? && Stores(a.cache, kk, mark, r.value, b.cache))
  {
    ReplayEffect(a, kk, TypedPrint(t));
    SecondLook(a.cache, kk, TypedPrint(t));
    var op := Derive(k, a.active, t.command);
    if op.Ok? {
      ApplyCache(k, e, Replay(a, kk, TypedPrint(t)).0, kk, Change(t.expected, t.key, t.reason, [op.value]), TypedPrint(t));
    }
  }

  lemma ResetCache(e: Env, a: AppState, kk: Option<Key>, r: Reset, next: Result<Snapshot>)
    ensures
      var (b, res) := ResetLocked(e, a, kk, r, next);
      var one := Look(a.cache, kk, ResetPrint(r)).0;
      || (Quiet(a, b) && (b.cache == a.cache || b.cache == one))
      || (res.Ok? && Unrecorded(a.cache, kk, ResetPrint(r)) && b.cache == Put(one, kk, ResetPrint(r), Saved(res.value.plan, Some(res.value))))
  {
    ReplayEffect(a, kk, ResetPrint(r));
    ResetWithCache(e, Replay(a, kk, ResetPrint(r)).0, kk, r, next);
  }

  lemma ResetWithCache(e: Env, a: AppState, kk: Option<Key>, r: Reset, next: Result<Snapshot>)
    ensures
      var (b, res) := ResetWith(e, a, kk, r, next);
      || (Quiet(a, b) && b.cache == a.cache)
      || (res.Ok? && b.cache == Put(a.cache, kk, ResetPrint(r), Saved(res.value.plan, Some(res.value))))
  {
  }

  lemma PlanCache(k: Codec, e: Env, a: AppState, kk: Option<Key>, c: Change) returns (v: Saved)
    ensures CacheEnds(a.cache, kk, PrintOf(c), v, PlanLocked(k, e, a, kk, c).0.cache)
  {
    var next := BuildCandidate(k, e, a.active, c);
    if next.Ok? {
      v := Saved(PlanFrom(a.active, next.value, c.ops), None);
    } else {
      v := Saved(Plan(NoRevision, NoRevision, false, false, Impact(false, false, false, false, false, false), []), None);
    }
  }

  /** A call swaps and stores its own result, or leaves store and runtime alone and looks only. */
  ghost predicate Settles(a: AppState, b: AppState, r: Result<ApplyResult>, k: Option<Key>, mark: Print) {
    var one := Look(a.cache, k, mark).0;
    || (Quiet(a, b) && (b.cache == a.cache || b.cache == one || b.cache == Look(one, k, mark).0))
    || (r.Ok? && Stores(a.cache, k, mark, r.value, b.cache))
  }

  lemma ApplySettles(k: Codec, e: Env, a: AppState, kk: Option<Key>, c: Change, mark: Print)
    ensures Settles(a, ApplyLocked(k, e, a, kk, c, mark).0, ApplyLocked(k, e, a, kk, c, mark).1, kk, mark)
  {
    ApplyCache(k, e, a, kk, c, mark);
  }

  lemma TypedSettles(k: Codec, e: Env, a: AppState, kk: Option<Key>, t: Typed)
    ensures Settles(a, ApplyTyped(k, e, a, kk, t).0, ApplyTyped(k, e, a, kk, t).1, kk, TypedPrint(t))
  {
    TypedCache(k, e, a, kk, t);
  }

  /** Whatever loading the bootstrap document produced. */
  lemma ResetSettles(e: Env, a: AppState, kk: Option<Key>, r: Reset)
    ensures forall next ::
              Settles(a, Reported(ResetLocked(e, a, kk, r, next)).0, ResultOf(Reported(ResetLocked(e, a, kk, r, next)).1), kk, ResetPrint(r))
  {
    forall next
      ensures Settles(a, Reported(ResetLocked(e, a, kk, r, next)).0, ResultOf(Reported(ResetLocked(e, a, kk, r, next)).1), kk, ResetPrint(r))
    {
      ResetCache(e, a, kk, r, next);
      ReportedResult(ResetLocked(e, a, kk, r, next));
    }
  }

  /** The result of a mutating call. */
  function ResultOf(r: Result<Reply>): Result<ApplyResult> {
    if r.Err? then Err(r.error) else if r.value.Done? then Ok(r.value.res) else Err(Validation)
  }

  lemma ReportedResult(r: (AppState, Result<ApplyResult>))
    ensures Reported(r).0 == r.0 && ResultOf(Reported(r).1) == r.1 && (Reported(r).1.Ok? ==> Reported(r).1.value.Done?)
  {
  }

  ghost predicate CallSettles(k: Codec, e: Env, a: AppState, call: Call) {
    var (b, r) := Perform(k, e, a, call);
    (r.Ok? ==> r.value.Done?) && Settles(a, b, ResultOf(r), KeyOf(call), MarkOf(call))
  }

  lemma ApplyCallSettles(k: Codec, e: Env, a: AppState, call: Call)
    requires call.ApplyCall?
    ensures CallSettles(k, e, a, call)
  {
    ApplySettles(k, e, a, KeyOf(call), call.change, PrintOf(call.change));
    ReportedResult(ApplyLocked(k, e, a, KeyOf(call), call.change, PrintOf(call.change)));
  }

  lemma TypedCallSettles(k: Codec, e: Env, a: AppState, call: Call)
    requires call.TypedCall?
    ensures CallSettles(k, e, a, call)
  {
    TypedSettles(k, e, a, KeyOf(call), call.typed);
    ReportedResult(ApplyTyped(k, e, a, KeyOf(call), call.typed));
  }

  lemma ResetCallSettles(k: Codec, e: Env, a: AppState, call: Call)
    requires call.ResetCall?
    ensures CallSettles(k, e, a, call)
  {
    ResetSettles(e, a, KeyOf(call), call.reset);
  }

  lemma MutationCache(k: Codec, e: Env, a: AppState, call: Call)
    requires !call.PlanCall?
    ensures CallSettles(k, e, a, call)
  {
    match call
    case ApplyCall(_, _) => ApplyCallSettles(k, e, a, call);
    case TypedCall(_, _) => TypedCallSettles(k, e, a, call);
    case ResetCall(_, _) => ResetCallSettles(k, e, a, call);
  }

  lemma CallCache(k: Codec, e: Env, a: AppState, call: Call) returns (v: Saved)
    ensures CacheEnds(a.cache, KeyOf(call), MarkOf(call), v, Perform(k, e, a, call).0.cache)
  {
    if call.PlanCall? {
      v := PlanCache(k, e, a, KeyOf(call), call.change);
    } else {
      MutationCache(k, e, a, call);
      var r := Perform(k, e, a, call).1;
      if r.Ok? && r.value.Done? {
        v := Saved(r.value.res.plan, Some(r.value.res));
      } else {
        v := Saved(Plan(NoRevision, NoRevision, false, false, Impact(false, false, false, false, false, false), []), None);
      }
    }
  }

  lemma EndsHold(c: Cached, k: Option<Key>, mark: Print, v: Saved, c': Cached, key: Key, entry: Entry<Print, Saved>, others: set<Key>)
    requires Holds(c, key, entry, others) && Among(k, key, others) && CacheEnds(c, k, mark, v, c')
    requires HasResult(entry) || k != Some(key)
    ensures Holds(c', key, entry, others)
  {
    LooksHold(c, k, mark, key, entry, others);
    if k == Some(key) {
      HitIsRecorded(c, key, mark);
    } else {
      var one := Look(c, k, mark).0;
      HoldsThroughPut(one, key, entry, others, k, mark, v);
      HoldsThroughPut(Look(one, k, mark).0, key, entry, others, k, mark, v);
    }
  }

  lemma LooksHold(c: Cached, k: Option<Key>, mark: Print, key: Key, entry: Entry<Print, Saved>, others: set<Key>)
    requires Holds(c, key, entry, others) && Among(k, key, others)
    ensures Holds(Look(c, k, mark).0, key, entry, others)
    ensures Holds(Look(Look(c, k, mark).0, k, mark).0, key, entry, others)
  {
    HoldsThroughLook(c, key, entry, others, k, mark);
    HoldsThroughLook(Look(c, k, mark).0, key, entry, others, k, mark);
  }

  lemma HitIsRecorded(c: Cached, key: Key, mark: Print)
    requires key in c.m && HasResult(c.m[key])
    ensures !Unrecorded(c, Some(key), mark)
  {
  }

  /** Nothing overwrites the entry: a call under its key finds a result, or finds the plan it asks for. */
  ghost predicate Lasting(key: Key, entry: Entry<Print, Saved>) { HasResult(entry) || key.capability.PlanChange? }

  /** Calls under the key of a plan are plans, and with the entry present they only look. */
  lemma PlanKeyLooks(k: Codec, e: Env, a: AppState, call: Call, key: Key)
    requires KeyOf(call) == Some(key) && key.capability.PlanChange? && key in a.cache.m
    ensures call.PlanCall? && Perform(k, e, a, call).0.cache == Look(a.cache, Some(key), MarkOf(call)).0
  {
  }

  /** While its key is in the cache, a lasting entry does not change. */
  lemma EntryStays(k: Codec, e: Env, a: AppState, call: Call, key: Key)
    requires key in a.cache.m && Lasting(key, a.cache.m[key]) && key in Perform(k, e, a, call).0.cache.m
    ensures Perform(k, e, a, call).0.cache.m[key] == a.cache.m[key]
  {
    if KeyOf(call) == Some(key) && key.capability.PlanChange? {
      PlanKeyLooks(k, e, a, call, key);
      LookKeepsEntries(a.cache, Some(key), MarkOf(call));
    } else {
      var v := CallCache(k, e, a, call);
      EndsStay(a.cache, KeyOf(call), MarkOf(call), v, Perform(k, e, a, call).0.cache, key);
    }
  }

  lemma EndsStay(c: Cached, k: Option<Key>, mark: Print, v: Saved, c': Cached, key: Key)
    requires CacheEnds(c, k, mark, v, c') && key in c.m && key in c'.m && (HasResult(c.m[key]) || k != Some(key))
    ensures c'.m[key] == c.m[key]
  {
    var one := Look(c, k, mark).0;
    LookKeepsEntries(c, k, mark);
    LookKeepsEntries(one, k, mark);
    if k == Some(key) {
      HitIsRecorded(c, key, mark);
    } else {
      PutKeepsOther(one, k, mark, v, key);
      PutKeepsOther(Look(one, k, mark).0, k, mark, v, key);
    }
  }

  /** The key is in the cache before, between and after the calls. */
  ghost predicate Kept(k: Codec, a: AppState, calls: seq<Made>, key: Key)
    decreases |calls|
  {
    && key in a.cache.m
    && (calls == [] || Kept(k, Perform(k, calls[0].env, a, calls[0].call).0, calls[1..], key))
  }

  lemma {:induction false} KeptEntryStays(k: Codec, a: AppState, calls: seq<Made>, key: Key)
    requires Kept(k, a, calls, key) && Lasting(key, a.cache.m[key])
    ensures key in RunCalls(k, a, calls).cache.m && RunCalls(k, a, calls).cache.m[key] == a.cache.m[key]
    decreases |calls|
  {
    if calls != [] {
      var b := Perform(k, calls[0].env, a, calls[0].call).0;
      assert Kept(k, b, calls[1..], key);
      EntryStays(k, calls[0].env, a, calls[0].call, key);
      KeptEntryStays(k, b, calls[1..], key);
    }
  }

  lemma CallHolds(k: Codec, e: Env, a: AppState, call: Call, key: Key, entry: Entry<Print, Saved>, others: set<Key>)
    requires Holds(a.cache, key, entry, others) && Lasting(key, entry) && Among(KeyOf(call), key, others)
    ensures Holds(Perform(k, e, a, call).0.cache, key, entry, others)
  {
    if KeyOf(call) == Some(key) && key.capability.PlanChange? {
      PlanKeyLooks(k, e, a, call, key);
      HoldsThroughLook(a.cache, key, entry, others, Some(key), MarkOf(call));
    } else {
      var v := CallCache(k, e, a, call);
      EndsHold(a.cache, KeyOf(call), MarkOf(call), v, Perform(k, e, a, call).0.cache, key, entry, others);
    }
  }

  /** A key is kept as long as fewer than `cap` others are used. */
  lemma {:induction false} FewOthersKeep(k: Codec, a: AppState, calls: seq<Made>, key: Key, entry: Entry<Print, Saved>, others: set<Key>)
    requires Holds(a.cache, key, entry, others) && Lasting(key, entry)
    requires forall i :: 0 <= i < |calls| ==> Among(KeyOf(calls[i].call), key, others)
    ensures Kept(k, a, calls, key)
    decreases |calls|
  {
    if calls != [] {
      CallHolds(k, calls[0].env, a, calls[0].call, key, entry, others);
      FewOthersKeep(k, Perform(k, calls[0].env, a, calls[0].call).0, calls[1..], key, entry, others);
    }
  }

  // ------------------------------------------------------------- the retry

  /** The checks a call makes before it looks into the cache; they read only what the fingerprint covers. */
  predicate ReachesCache(call: Call) {
    match call
    case PlanCall(_, _) => true
    case ApplyCall(_, c) => !Blank(c.reason)
    case TypedCall(_, t) => Admissible(t.command)
    case ResetCall(_, r) => !Blank(r.reason)
  }

  /** With a recorded result in the cache, a call under its key swaps nothing: it replays, or it is refused. */
  lemma RecordedKeyNeverSwaps(k: Codec, e: Env, a: AppState, call: Call, key: Key)
    requires KeyOf(call) == Some(key) && key in a.cache.m && HasResult(a.cache.m[key])
    ensures Quiet(a, Perform(k, e, a, call).0)
    ensures !call.PlanCall? ==>
              Perform(k, e, a, call).1 ==
                if !ReachesCache(call) then Err(Validation)
                else if MarkOf(call) != a.cache.m[key].mark then Err(Conflict)
                else Ok(Done(a.cache.m[key].value.res.value))
  {
    if call.PlanCall? {
      PlanEffect(k, e, a, KeyOf(call), call.change);
    }
  }

  // ----------------------------------------------------------- first record

  /** The cache is an LRU cache with room. */
  ghost predicate Sound(c: Cached) { exists ts :: IsLru(c, ts) }

  lemma StepSound(c: Cached, op: Op<Key, Print, Saved>)
    requires Sound(c)
    ensures Sound(Step(c, op))
  {
    var ts :| IsLru(c, ts);
    TouchKeepsLru(c, op, ts);
  }

  lemma LookSound(c: Cached, k: Option<Key>, mark: Print)
    requires Sound(c)
    ensures Sound(Look(c, k, mark).0)
  {
    var op: Op<Key, Print, Saved> := DoLook(k, mark);
    StepSound(c, op);
  }

  lemma PutSound(c: Cached, k: Option<Key>, mark: Print, v: Saved)
    requires Sound(c)
    ensures Sound(Put(c, k, mark, v))
  {
    StepSound(c, DoPut(k, mark, v));
  }

  lemma CallKeepsSound(k: Codec, e: Env, a: AppState, call: Call)
    requires Sound(a.cache)
    ensures Sound(Perform(k, e, a, call).0.cache)
  {
    var v := CallCache(k, e, a, call);
    EndsSound(a.cache, KeyOf(call), MarkOf(call), v, Perform(k, e, a, call).0.cache);
  }

  lemma EndsSound(c: Cached, k: Option<Key>, mark: Print, v: Saved, c': Cached)
    requires Sound(c) && CacheEnds(c, k, mark, v, c')
    ensures Sound(c')
  {
    var one := Look(c, k, mark).0;
    LookSound(c, k, mark);
    LookSound(one, k, mark);
    PutSound(one, k, mark, v);
    PutSound(Look(one, k, mark).0, k, mark, v);
  }

  lemma {:induction false} CallsKeepSound(k: Codec, a: AppState, calls: seq<Made>)
    requires Sound(a.cache)
    ensures Sound(RunCalls(k, a, calls).cache) && RunCalls(k, a, calls).cache.cap == a.cache.cap
    decreases |calls|
  {
    if calls != [] {
      CallKeepsSound(k, calls[0].env, a, calls[0].call);
      CallKeepsCapacity(k, calls[0].env, a, calls[0].call);
      CallsKeepSound(k, Perform(k, calls[0].env, a, calls[0].call).0, calls[1..]);
    }
  }

  lemma CallKeepsCapacity(k: Codec, e: Env, a: AppState, call: Call)
    ensures Perform(k, e, a, call).0.cache.cap == a.cache.cap
  {
    var v := CallCache(k, e, a, call);
  }

  lemma PutLru(c: Cached, ts: seq<Key>, key: Key, mark: Print, v: Saved) returns (a: seq<Key>)
    requires IsLru(c, ts) && (key in c.m ==> ts != [] && ts[|ts| - 1] == key)
    ensures IsLru(Put(c, Some(key), mark, v), a + [key] + [])
  {
    var op := DoPut(Some(key), mark, v);
    a := if key in c.m then ts[..|ts| - 1] else ts;
    assert Append(ts, Touched(c, op)) == a + [key] + [];
    TouchKeepsLru(c, op, ts);
  }

  /** Storing under a key, right after looking it up without finding a result, uses the key last. */
  lemma PutUsesLast(c: Cached, ts: seq<Key>, key: Key, mark: Print, v: Saved, others: set<Key>)
    requires IsLru(c, ts) && (key in c.m ==> ts != [] && ts[|ts| - 1] == key)
    requires key !in others && |others| < c.cap
    ensures Holds(Put(c, Some(key), mark, v), key, Entry(mark, v), others)
  {
    var a := PutLru(c, ts, key, mark, v);
    assert UsedLast(Put(c, Some(key), mark, v), a, key, [], others);
    PutKeepsValid(c, Some(key), mark, v);
  }

  /** A lookup that finds an entry of the same request uses its key last. */
  lemma LookLru(c: Cached, key: Key, mark: Print) returns (ts: seq<Key>)
    requires Sound(c) && Unrecorded(c, Some(key), mark)
    ensures IsLru(Look(c, Some(key), mark).0, ts) && (key in c.m ==> ts != [] && ts[|ts| - 1] == key)
  {
    ts :| IsLru(c, ts);
    var op: Op<Key, Print, Saved> := DoLook(Some(key), mark);
    TouchKeepsLru(c, op, ts);
    if key in c.m {
      ts := ts + [key];
    }
  }

  lemma StoresHold(c: Cached, key: Key, mark: Print, res: ApplyResult, c': Cached, others: set<Key>)
    requires Sound(c) && Stores(c, Some(key), mark, res, c') && key !in others && |others| < c.cap
    ensures Holds(c', key, Entry(mark, Saved(res.plan, Some(res))), others)
  {
    var v, one := Saved(res.plan, Some(res)), Look(c, Some(key), mark).0;
    if c' == Put(one, Some(key), mark, v) {
      var ts := LookLru(c, key, mark);
      PutUsesLast(one, ts, key, mark, v, others);
    } else {
      LookSound(c, Some(key), mark);
      SecondLook(c, Some(key), mark);
      var ts := LookLru(one, key, mark);
      PutUsesLast(Look(one, Some(key), mark).0, ts, key, mark, v, others);
    }
  }

  // --------------------------------------------------------------- theorem

  /** The keys of the other calls between a mutation and its retry. */
  ghost predicate Spares(calls: seq<Made>, key: Key, others: set<Key>) {
    key !in others && forall i :: 0 <= i < |calls| ==> Among(KeyOf(calls[i].call), key, others)
  }

  /**
   A keyed call that swapped is the only one under its key to do so while the key
   is kept: every later call with the key leaves store and runtime alone; an
   identical retry gets the first reply, a different request is refused.
   */
  lemma KeyedCallsSwapOnce(k: Codec, a: AppState, first: Made, later: seq<Made>, retry: Made, key: Key)
    requires KeyOf(first.call) == Some(key) && KeyOf(retry.call) == Some(key)
    requires !Quiet(a, Perform(k, first.env, a, first.call).0) && Kept(k, Perform(k, first.env, a, first.call).0, later, key)
    ensures
      var (b, reply) := Perform(k, first.env, a, first.call);
      var c := RunCalls(k, b, later);
      var (d, again) := Perform(k, retry.env, c, retry.call);
      && Quiet(c, d)
      && (MarkOf(retry.call) == MarkOf(first.call) ==> again == reply)
      && (MarkOf(retry.call) != MarkOf(first.call) ==> again == Err(if ReachesCache(retry.call) then Conflict else Validation))
  {
    var b := Perform(k, first.env, a, first.call).0;
    FirstIsRecorded(k, a, first, key);
    KeptEntryStays(k, b, later, key);
    RecordedKeyNeverSwaps(k, retry.env, RunCalls(k, b, later), retry.call, key);
    SameCapability(first.call, retry.call);
    SwappingReachesCache(k, first.env, a, first.call);
  }

  lemma FirstIsRecorded(k: Codec, a: AppState, first: Made, key: Key)
    requires KeyOf(first.call) == Some(key) && !Quiet(a, Perform(k, first.env, a, first.call).0)
    ensures
      var (b, reply) := Perform(k, first.env, a, first.call);
      && reply.Ok? && reply.value.Done? && key in b.cache.m
      && b.cache.m[key] == Entry(MarkOf(first.call), Saved(reply.value.res.plan, Some(reply.value.res)))
  {
    SwappingReachesCache(k, first.env, a, first.call);
    MutationCache(k, first.env, a, first.call);
  }

  lemma SameCapability(a: Call, b: Call)
    requires KeyOf(a).Some? && KeyOf(a) == KeyOf(b)
    ensures a.PlanCall? == b.PlanCall? && a.ApplyCall? == b.ApplyCall? && a.TypedCall? == b.TypedCall?
    ensures MarkOf(a) == MarkOf(b) ==> (ReachesCache(a) <==> ReachesCache(b))
  {
  }

  lemma SwappingReachesCache(k: Codec, e: Env, a: AppState, call: Call)
    requires !Quiet(a, Perform(k, e, a, call).0)
    ensures ReachesCache(call) && !call.PlanCall?
  {
    if call.PlanCall? {
      PlanEffect(k, e, a, KeyOf(call), call.change);
    }
  }

  /** A swap under a key puts it last in use. */
  lemma FirstIsHeld(k: Codec, a: AppState, first: Made, key: Key, others: set<Key>)
    requires Sound(a.cache) && |others| < a.cache.cap && key !in others && KeyOf(first.call) == Some(key)
    requires !Quiet(a, Perform(k, first.env, a, first.call).0)
    ensures
      var (b, reply) := Perform(k, first.env, a, first.call);
      reply.Ok? && reply.value.Done? &&
      Holds(b.cache, key, Entry(MarkOf(first.call), Saved(reply.value.res.plan, Some(reply.value.res))), others)
  {
    SwappingReachesCache(k, first.env, a, first.call);
    MutationCache(k, first.env, a, first.call);
    var (b, reply) := Perform(k, first.env, a, first.call);
    StoresHold(a.cache, key, MarkOf(first.call), reply.value.res, b.cache, others);
  }

  lemma FewOthersKeepSwap(k: Codec, a: AppState, first: Made, later: seq<Made>, key: Key, others: set<Key>)
    requires Sound(a.cache) && |others| < a.cache.cap && Spares(later, key, others)
    requires KeyOf(first.call) == Some(key) && !Quiet(a, Perform(k, first.env, a, first.call).0)
    ensures Kept(k, Perform(k, first.env, a, first.call).0, later, key)
  {
    var (b, reply) := Perform(k, first.env, a, first.call);
    FirstIsHeld(k, a, first, key, others);
    FewOthersKeep(k, b, later, key, Entry(MarkOf(first.call), Saved(reply.value.res.plan, Some(reply.value.res))), others);
  }

  /** The state after some calls since some boot. */
  ghost predicate Running(k: Codec, a: AppState) {
    exists w, doc, calls :: Started(k, w, doc, calls, a)
  }

  ghost predicate Started(k: Codec, w: World, doc: Document, calls: seq<Made>, a: AppState) {
    Boot(w, doc).Ok? && a == RunCalls(k, Boot(w, doc).value, calls)
  }

  lemma RunningFacts(k: Codec, a: AppState)
    requires Running(k, a)
    ensures Sane(k, a) && Sound(a.cache) && a.cache.cap == CACHE_CAPACITY
  {
    var w, doc, calls :| Started(k, w, doc, calls, a);
    BootIsSane(k, w, doc);
    BootIsSound(w, doc);
    LaterFacts(k, Boot(w, doc).value, calls);
  }

  lemma BootIsSound(w: World, doc: Document)
    requires Boot(w, doc).Ok?
    ensures Boot(w, doc).value.cache == NewCache(CACHE_CAPACITY) && Sound(Boot(w, doc).value.cache)
  {
    EmptyIsSound();
  }

  lemma EmptyIsSound()
    ensures Sound(NewCache(CACHE_CAPACITY))
  {
    var c: Cached := NewCache(CACHE_CAPACITY);
    assert IsLru(c, []);
  }

  lemma LaterFacts(k: Codec, start: AppState, calls: seq<Made>)
    requires Sane(k, start) && Sound(start.cache)
    ensures
      var a := RunCalls(k, start, calls);
      Sane(k, a) && Sound(a.cache) && a.cache.cap == start.cache.cap
  {
    CallsKeepSane(k, start, calls);
    CallsKeepSound(k, start, calls);
  }

  /** From boot, with fewer than 256 other keys in between, the key is kept and the same holds. */
  lemma KeyedCallsSwapOnceSinceBoot(k: Codec, a: AppState, first: Made, later: seq<Made>, retry: Made, key: Key, others: set<Key>)
    requires Running(k, a) && |others| < CACHE_CAPACITY && Spares(later, key, others)
    requires KeyOf(first.call) == Some(key) && KeyOf(retry.call) == Some(key)
    requires !Quiet(a, Perform(k, first.env, a, first.call).0)
    ensures
      var (b, reply) := Perform(k, first.env, a, first.call);
      var c := RunCalls(k, b, later);
      var (d, again) := Perform(k, retry.env, c, retry.call);
      && Quiet(c, d)
      && (MarkOf(retry.call) == MarkOf(first.call) ==> again == reply)
      && (MarkOf(retry.call) != MarkOf(first.call) ==> again == Err(if ReachesCache(retry.call) then Conflict else Validation))
  {
    RunningFacts(k, a);
    FewOthersKeepSwap(k, a, first, later, key, others);
    KeyedCallsSwapOnce(k, a, first, later, retry, key);
  }
}
