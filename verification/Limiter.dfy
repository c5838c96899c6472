/**
 The sliding-window rate limiter (internal/oidc/limit.go, and the identical one
 in internal/loginui/ui.go): per key, the times of the admitted calls.
 */
module RateLimit {
  import opened Basics

  const MAX_BUCKETS := 4096

  datatype Config = Config(n: int, window: int)

  type Buckets = map<string, seq<int>>

  /** The elements after `cut`. */
  function After(ts: seq<int>, cut: int): (r: seq<int>)
    ensures |r| <= |ts|
  {
    if ts == [] then []
    else
      var rest := After(ts[..|ts| - 1], cut);
      if ts[|ts| - 1] > cut then rest + [ts[|ts| - 1]] else rest
  }

  /** The compaction `kept := cur[:0]; for t in cur { if t.After(cut) { kept = append(kept, t) } }`, in the slice's own array. */
  method Compact(cur: array<int>, cut: int) returns (kept: nat)
    modifies cur
    ensures kept <= cur.Length
    ensures cur[..kept] == After(old(cur[..]), cut)
  {
    kept := 0;
    ghost var was := cur[..];
    for i := 0 to cur.Length
      invariant kept <= i
      invariant cur[..kept] == After(was[..i], cut)
      invariant forall k :: i <= k < cur.Length ==> cur[k] == was[k]
    {
      assert was[..i + 1][..i] == was[..i];
      if cur[i] > cut {
        ghost var before := cur[..kept];
        cur[kept] := cur[i];
        kept := kept + 1;
        assert cur[..kept] == before + [was[i]];
      }
    }
    assert was[..cur.Length] == was;
  }

  predicate LiveBucket(ts: seq<int>, cut: int) { |ts| > 0 && ts[|ts| - 1] > cut }

  function Prune(hits: Buckets, cut: int): Buckets {
    Keep(hits, (ts: seq<int>) => LiveBucket(ts, cut))
  }

  function BucketOf(hits: Buckets, key: string): seq<int> { if key in hits then hits[key] else [] }

  /** `allow` at time `now`. */
  function Allow(c: Config, hits: Buckets, key: string, now: int): (Buckets, bool) {
    var live := Prune(hits, now - c.window);
    if key !in live && |live| >= MAX_BUCKETS then (live, false)
    else
      var kept := After(BucketOf(live, key), now - c.window);
      if |kept| >= c.n then (live[key := kept], false) else (live[key := kept + [now]], true)
  }

  // --------------------------------------------------------------- history

  datatype Call = Call(key: string, now: int)

  /** The clock never runs backwards. */
  predicate Ordered(calls: seq<Call>) {
    forall i, j :: 0 <= i <= j < |calls| ==> calls[i].now <= calls[j].now
  }

  function HitsAfter(c: Config, calls: seq<Call>): Buckets {
    if calls == [] then map[]
    else
      var last := calls[|calls| - 1];
      Allow(c, HitsAfter(c, calls[..|calls| - 1]), last.key, last.now).0
  }

  /** What the last call of the history was answered. */
  predicate Admitted(c: Config, calls: seq<Call>)
    requires calls != []
  {
    var last := calls[|calls| - 1];
    Allow(c, HitsAfter(c, calls[..|calls| - 1]), last.key, last.now).1
  }

  /** The times at which the key was ever admitted, oldest first. */
  function Log(c: Config, calls: seq<Call>, key: string): seq<int> {
    if calls == [] then []
    else
      var before, last := Log(c, calls[..|calls| - 1], key), calls[|calls| - 1];
      if last.key == key && Admitted(c, calls) then before + [last.now] else before
  }

  // --------------------------------------------------------------- filters

  lemma {:induction false} AfterTwice(ts: seq<int>, a: int, b: int)
    requires a <= b
    ensures After(After(ts, a), b) == After(ts, b)
  {
    if ts != [] {
      AfterTwice(ts[..|ts| - 1], a, b);
      var rest := After(ts[..|ts| - 1], a);
      if ts[|ts| - 1] > a {
        assert (rest + [ts[|ts| - 1]])[..|rest|] == rest;
      }
    }
  }

  lemma {:induction false} AfterSnoc(ts: seq<int>, t: int, cut: int)
    ensures After(ts + [t], cut) == After(ts, cut) + (if t > cut then [t] else [])
  {
    assert (ts + [t])[..|ts|] == ts;
  }

  /** Nondecreasing, and no element after `now`. */
  predicate Past(ts: seq<int>, now: int) {
    ts == [] || (ts[|ts| - 1] <= now && Past(ts[..|ts| - 1], ts[|ts| - 1]))
  }

  lemma {:induction false} AfterPast(ts: seq<int>, now: int, cut: int)
    requires Past(ts, now)
    ensures Past(After(ts, cut), now)
    ensures LiveBucket(ts, cut) <==> After(ts, cut) != []
  {
    if ts != [] {
      var init, last := ts[..|ts| - 1], ts[|ts| - 1];
      AfterPast(init, last, cut);
      if last > cut {
        PastSnoc(After(init, cut), last);
      }
    }
  }

  lemma {:induction false} PastSnoc(ts: seq<int>, now: int)
    requires Past(ts, now)
    ensures Past(ts + [now], now)
  {
    assert (ts + [now])[..|ts|] == ts;
  }

  // ------------------------------------------------------------- invariant

  /** Inside the window that ends now, the bucket is the log; it is sorted and lies in the past. */
  predicate Tracks(bucket: seq<int>, log: seq<int>, now: int, window: int) {
    After(bucket, now - window) == After(log, now - window) && Past(bucket, now)
  }

  lemma {:induction false} RecentLater(bucket: seq<int>, log: seq<int>, a: int, b: int)
    requires After(bucket, a) == After(log, a) && a <= b
    ensures After(bucket, b) == After(log, b)
  {
    AfterTwice(bucket, a, b);
    AfterTwice(log, a, b);
  }

  lemma {:induction false} PastLater(ts: seq<int>, before: int, now: int)
    requires Past(ts, before) && before <= now
    ensures Past(ts, now)
  {
  }

  lemma {:induction false} TracksLater(bucket: seq<int>, log: seq<int>, before: int, now: int, window: int)
    requires Tracks(bucket, log, before, window) && before <= now
    ensures Tracks(bucket, log, now, window)
  {
    RecentLater(bucket, log, before - window, now - window);
    PastLater(bucket, before, now);
  }

  function PrunedBucket(bucket: seq<int>, cut: int): seq<int> { if LiveBucket(bucket, cut) then bucket else [] }

  lemma {:induction false} TracksPruned(bucket: seq<int>, log: seq<int>, now: int, window: int)
    requires Tracks(bucket, log, now, window)
    ensures Tracks(PrunedBucket(bucket, now - window), log, now, window)
  {
    AfterPast(bucket, now, now - window);
  }

  lemma {:induction false} TracksKept(bucket: seq<int>, log: seq<int>, now: int, window: int)
    requires Tracks(bucket, log, now, window)
    ensures Tracks(After(bucket, now - window), log, now, window)
  {
    AfterPast(bucket, now, now - window);
    AfterAgain(bucket, now - window);
  }

  lemma {:induction false} AfterAgain(ts: seq<int>, cut: int)
    ensures After(After(ts, cut), cut) == After(ts, cut)
  {
    AfterTwice(ts, cut, cut);
  }

  lemma {:induction false} TracksAdmitted(bucket: seq<int>, log: seq<int>, now: int, window: int)
    requires Tracks(bucket, log, now, window)
    ensures Tracks(bucket + [now], log + [now], now, window)
  {
    PastSnoc(bucket, now);
    AfterSnoc(bucket, now, now - window);
    AfterSnoc(log, now, now - window);
  }

  /** What one call does to the bucket of any key. */
  lemma {:induction false} AllowBucket(c: Config, hits: Buckets, call: Call, key: string)
    ensures
      var (hits', ok) := Allow(c, hits, call.key, call.now);
      var cut := call.now - c.window;
      var pruned := PrunedBucket(BucketOf(hits, key), cut);
      && (ok && key == call.key ==> BucketOf(hits', key) == After(pruned, cut) + [call.now])
      && (!(ok && key == call.key) ==> BucketOf(hits', key) == pruned || BucketOf(hits', key) == After(pruned, cut))
  {
  }

  /** A pruned bucket, compacted or not, still tracks the log. */
  lemma {:induction false} RefusedTracks(bucket: seq<int>, next: seq<int>, log: seq<int>, before: int, now: int, window: int)
    requires Tracks(bucket, log, before, window) && before <= now
    requires next == PrunedBucket(bucket, now - window) || next == After(PrunedBucket(bucket, now - window), now - window)
    ensures Tracks(next, log, now, window)
  {
    var pruned := PrunedBucket(bucket, now - window);
    assert Tracks(pruned, log, now, window) by {
      TracksLater(bucket, log, before, now, window);
      TracksPruned(bucket, log, now, window);
    }
    if next != pruned {
      TracksKept(pruned, log, now, window);
    }
  }

  lemma {:induction false} StepTracks(c: Config, hits: Buckets, call: Call, key: string, log: seq<int>, before: int)
    requires Tracks(BucketOf(hits, key), log, before, c.window) && before <= call.now
    ensures
      var (hits', ok) := Allow(c, hits, call.key, call.now);
      Tracks(BucketOf(hits', key), if ok && key == call.key then log + [call.now] else log, call.now, c.window)
  {
    var (hits', ok) := Allow(c, hits, call.key, call.now);
    var bucket, next, cut := BucketOf(hits, key), BucketOf(hits', key), call.now - c.window;
    AllowBucket(c, hits, call, key);
    if ok && key == call.key {
      var kept := After(PrunedBucket(bucket, cut), cut);
      RefusedTracks(bucket, kept, log, before, call.now, c.window);
      TracksAdmitted(kept, log, call.now, c.window);
    } else {
      RefusedTracks(bucket, next, log, before, call.now, c.window);
    }
  }

  lemma {:induction false} HistoryTracks(c: Config, calls: seq<Call>, now: int, key: string)
    requires Ordered(calls) && (forall i :: 0 <= i < |calls| ==> calls[i].now <= now)
    ensures Tracks(BucketOf(HitsAfter(c, calls), key), Log(c, calls, key), now, c.window)
  {
    if calls == [] {
      assert BucketOf(HitsAfter(c, calls), key) == [] && Log(c, calls, key) == [];
    } else {
      var init, last := calls[..|calls| - 1], calls[|calls| - 1];
      HistoryTracks(c, init, last.now, key);
      StepTracks(c, HitsAfter(c, init), last, key, Log(c, init, key), last.now);
      TracksLater(BucketOf(HitsAfter(c, calls), key), Log(c, calls, key), last.now, now, c.window);
    }
  }

  // ------------------------------------------------------------- theorems

  /** The elements in (a, b]. */
  function Within(ts: seq<int>, a: int, b: int): (r: seq<int>)
    ensures |r| <= |ts|
  {
    if ts == [] then []
    else
      var rest := Within(ts[..|ts| - 1], a, b);
      if a < ts[|ts| - 1] <= b then rest + [ts[|ts| - 1]] else rest
  }

  lemma {:induction false} WithinAfter(ts: seq<int>, a: int, b: int, cut: int)
    requires cut <= a
    ensures |Within(ts, a, b)| <= |After(ts, cut)|
  {
    if ts != [] {
      WithinAfter(ts[..|ts| - 1], a, b, cut);
    }
  }

  lemma {:induction false} LiveByLog(hits: Buckets, key: string, log: seq<int>, now: int, window: int)
    requires Tracks(BucketOf(hits, key), log, now, window)
    ensures key in Prune(hits, now - window) <==> After(log, now - window) != []
  {
    var bucket := BucketOf(hits, key);
    assert key in Prune(hits, now - window) <==> LiveBucket(bucket, now - window);
    AfterPast(bucket, now, now - window);
  }

  /** How a call is answered, given what the log of its key is. */
  lemma {:induction false} AllowByLog(c: Config, hits: Buckets, call: Call, log: seq<int>)
    requires Tracks(BucketOf(hits, call.key), log, call.now, c.window)
    ensures
      var recent, live := After(log, call.now - c.window), Prune(hits, call.now - c.window);
      && (call.key in live <==> recent != [])
      && (Allow(c, hits, call.key, call.now).1 <==> |recent| < c.n && (recent != [] || |live| < MAX_BUCKETS))
  {
    LiveByLog(hits, call.key, log, call.now, c.window);
  }

  /** Over the whole history no interval (a, a + window] holds more than `n` admitted calls of one key. */
  lemma {:induction false} AtMostNPerWindow(c: Config, calls: seq<Call>, key: string, a: int)
    requires Ordered(calls)
    ensures |Within(Log(c, calls, key), a, a + c.window)| <= if c.n > 0 then c.n else 0
  {
    if calls != [] {
      var init, last := calls[..|calls| - 1], calls[|calls| - 1];
      var log := Log(c, init, key);
      AtMostNPerWindow(c, init, key, a);
      if last.key == key && Admitted(c, calls) {
        HistoryTracks(c, init, last.now, key);
        AdmissionFits(c, HitsAfter(c, init), last, log, a);
      }
    }
  }

  lemma {:induction false} WithinAdmitted(log: seq<int>, now: int, a: int, window: int)
    ensures |Within(log + [now], a, a + window)| <= |Within(log, a, a + window)|
         || |Within(log + [now], a, a + window)| <= |After(log, now - window)| + 1
  {
    var grown := Within(log + [now], a, a + window);
    assert |grown| <= |Within(log, a, a + window)| + (if a < now <= a + window then 1 else 0) by {
      assert (log + [now])[..|log|] == log;
    }
    if a < now <= a + window {
      WithinAfter(log, a, a + window, now - window);
    }
  }

  lemma {:induction false} AdmissionFits(c: Config, hits: Buckets, call: Call, log: seq<int>, a: int)
    requires Tracks(BucketOf(hits, call.key), log, call.now, c.window) && Allow(c, hits, call.key, call.now).1
    ensures |Within(log + [call.now], a, a + c.window)| <= |Within(log, a, a + c.window)|
         || |Within(log + [call.now], a, a + c.window)| <= c.n
  {
    AllowByLog(c, hits, call, log);
    WithinAdmitted(log, call.now, a, c.window);
  }

  /** The latest admission of the key is still inside the window. */
  predicate LiveKey(c: Config, calls: seq<Call>, now: int, key: string) {
    After(Log(c, calls, key), now - c.window) != []
  }

  /** The pruned table holds exactly the live keys. */
  lemma {:induction false} LiveKeysAreBuckets(c: Config, calls: seq<Call>, now: int, key: string)
    requires Ordered(calls) && (forall i :: 0 <= i < |calls| ==> calls[i].now <= now)
    ensures key in Prune(HitsAfter(c, calls), now - c.window) <==> LiveKey(c, calls, now, key)
  {
    HistoryTracks(c, calls, now, key);
    LiveByLog(HitsAfter(c, calls), key, Log(c, calls, key), now, c.window);
  }

  /** A call is refused exactly when its window is full, or when its key is not live and 4096 others are. */
  lemma {:induction false} RefusedIff(c: Config, init: seq<Call>, last: Call, live: set<string>)
    requires Ordered(init + [last])
    requires forall k :: k in live <==> LiveKey(c, init, last.now, k)
    ensures !Admitted(c, init + [last]) <==>
              || |After(Log(c, init, last.key), last.now - c.window)| >= c.n
              || (last.key !in live && |live| >= MAX_BUCKETS)
  {
    var hits := HitsAfter(c, init);
    var pruned := Prune(hits, last.now - c.window);
    InitBefore(init, last);
    forall k ensures k in pruned <==> k in live {
      LiveKeysAreBuckets(c, init, last.now, k);
    }
    assert pruned.Keys == live;
    assert |pruned| == |live|;
    HistoryTracks(c, init, last.now, last.key);
    AllowByLog(c, hits, last, Log(c, init, last.key));
    assert (init + [last])[..|init|] == init;
  }

  lemma {:induction false} InitBefore(init: seq<Call>, last: Call)
    requires Ordered(init + [last])
    ensures Ordered(init) && forall i :: 0 <= i < |init| ==> init[i].now <= last.now
  {
    var calls := init + [last];
    assert calls[|init|] == last;
    assert forall i :: 0 <= i < |init| ==> calls[i] == init[i];
  }

  lemma {:induction false} UpdateGrows(live: Buckets, key: string, ts: seq<int>)
    ensures |live[key := ts]| <= if key in live then |live| else |live| + 1
  {
    assert live[key := ts].Keys == live.Keys + {key};
    assert |live[key := ts]| == |live[key := ts].Keys| && |live| == |live.Keys|;
    if key in live { assert live.Keys + {key} == live.Keys; }
  }

  lemma {:induction false} AllowBounded(c: Config, hits: Buckets, key: string, now: int)
    requires |hits| <= MAX_BUCKETS
    ensures |Allow(c, hits, key, now).0| <= MAX_BUCKETS
  {
    var live := Prune(hits, now - c.window);
    SubMapSize(live, hits);
    var kept := After(BucketOf(live, key), now - c.window);
    UpdateGrows(live, key, kept);
    UpdateGrows(live, key, kept + [now]);
  }

  /** The table never holds more than 4096 buckets. */
  lemma {:induction false} BucketsBounded(c: Config, calls: seq<Call>)
    ensures |HitsAfter(c, calls)| <= MAX_BUCKETS
  {
    if calls != [] {
      var init, last := calls[..|calls| - 1], calls[|calls| - 1];
      BucketsBounded(c, init);
      AllowBounded(c, HitsAfter(c, init), last.key, last.now);
    }
  }

  // ---------------------------------------------------------------- object

  class Limiter {
    const config: Config
    var hits: Buckets
    /** Every call so far. */
    ghost var calls: seq<Call>

    ghost predicate Valid()
      reads this
    {
      hits == HitsAfter(config, calls) && Ordered(calls)
    }

    constructor (n: int, window: int)
      ensures Valid() && calls == [] && config == Config(n, window)
    {
      config, hits, calls := Config(n, window), map[], [];
    }

    method Admit(key: string, now: int) returns (ok: bool)
      requires Valid() && (forall i :: 0 <= i < |calls| ==> calls[i].now <= now)
      modifies this
      ensures Valid() && calls == old(calls) + [Call(key, now)]
      ensures ok == Admitted(config, calls)
    {
      ghost var was := hits;
      hits, ok := Decide(config, hits, key, now);
      calls := calls + [Call(key, now)];
      assert calls[..|calls| - 1] == old(calls);
    }
  }

  /** The body of `allow`: prune, compact the key's own bucket, decide. */
  method Decide(c: Config, table: Buckets, key: string, now: int) returns (hits: Buckets, ok: bool)
    ensures (hits, ok) == Allow(c, table, key, now)
  {
    var cut := now - c.window;
    hits := DeleteUnless(table, (ts: seq<int>) => LiveBucket(ts, cut));
    if key !in hits && |hits| >= MAX_BUCKETS {
      return hits, false;
    }
    var bucket := BucketOf(hits, key);
    var cur := new int[|bucket|](i requires 0 <= i < |bucket| => bucket[i]);
    assert cur[..] == bucket;
    var kept := Compact(cur, cut);
    if kept >= c.n {
      return hits[key := cur[..kept]], false;
    }
    return hits[key := cur[..kept] + [now]], true;
  }
}
