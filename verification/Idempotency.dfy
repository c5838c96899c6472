/**
 The idempotency cache (internal/app/idemp.go): a bounded map from scoped keys to
 request fingerprints and results, with a recency list that decides eviction.

 `None` stands for the empty key, which the cache ignores.
 */
module Idempotency {
  import opened Basics

  datatype Entry<F, V> = Entry(mark: F, value: V)

  datatype Cache<K(==), F(==), V> = Cache(cap: int, order: seq<K>, m: map<K, Entry<F, V>>)

  function NewCache<K, F, V>(cap: int): Cache<K, F, V> { Cache(cap, [], map[]) }

  // ------------------------------------------------------------- operations

  /** The position of the first occurrence, or the length. */
  function IndexOf<K(==)>(order: seq<K>, key: K): (i: nat)
    ensures i <= |order|
    ensures i < |order| ==> order[i] == key
    ensures forall j :: 0 <= j < i ==> order[j] != key
  {
    if order == [] || order[0] == key then 0 else 1 + IndexOf(order[1..], key)
  }

  /** The list with the first occurrence of the key moved to the back, as `lookup` does it. */
  function MoveToBack<K(==)>(order: seq<K>, key: K): seq<K> {
    var i := IndexOf(order, key);
    if i < |order| then order[..i] + order[i + 1..] + [key] else order
  }

  function Look<K, F, V>(c: Cache<K, F, V>, key: Option<K>, mark: F): (Cache<K, F, V>, Result<Option<V>>) {
    if key.None? || key.value !in c.m then (c, Ok(None))
    else if c.m[key.value].mark != mark then (c, Err(Conflict))
    else
      (c.(order := MoveToBack(c.order, key.value)), Ok(Some(c.m[key.value].value)))
  }

  function Put<K, F, V>(c: Cache<K, F, V>, key: Option<K>, mark: F, value: V): Cache<K, F, V> {
    if key.None? then c
    else if key.value in c.m then c.(m := c.m[key.value := Entry(mark, value)])
    else
      var order := c.order + [key.value];
      if |order| > c.cap then Cache(c.cap, order[1..], (c.m - {order[0]})[key.value := Entry(mark, value)])
      else Cache(c.cap, order, c.m[key.value := Entry(mark, value)])
  }

  // -------------------------------------------------------------- invariant

  ghost predicate NoDup<K(!new)>(xs: seq<K>) {
    forall i, j :: 0 <= i < j < |xs| ==> xs[i] != xs[j]
  }

  /** The list has no duplicates, its elements are the map's keys, and there are at most `cap`. */
  ghost predicate Valid<K(!new), F, V>(c: Cache<K, F, V>) {
    NoDup(c.order) && (forall k :: k in c.order <==> k in c.m) && |c.order| <= c.cap
  }

  /** The elements other than `k`. */
  function Without<K(==)>(xs: seq<K>, k: K): seq<K> {
    if xs == [] then []
    else
      var rest := Without(xs[..|xs| - 1], k);
      if xs[|xs| - 1] == k then rest else rest + [xs[|xs| - 1]]
  }

  /** `k` becomes the most recently used key. */
  function Use<K(==)>(xs: seq<K>, k: K): seq<K> { Without(xs, k) + [k] }

  lemma {:induction false} WithoutConcat<K(!new)>(a: seq<K>, b: seq<K>, k: K)
    ensures Without(a + b, k) == Without(a, k) + Without(b, k)
  {
    if b == [] {
      assert a + b == a;
    } else {
      assert (a + b)[..|a + b| - 1] == a + b[..|b| - 1];
      WithoutConcat(a, b[..|b| - 1], k);
    }
  }

  lemma {:induction false} WithoutAbsent<K(!new)>(xs: seq<K>, k: K)
    requires k !in xs
    ensures Without(xs, k) == xs
  {
    if xs != [] {
      WithoutAbsent(xs[..|xs| - 1], k);
    }
  }

  lemma {:induction false} WithoutElements<K(!new)>(xs: seq<K>, k: K)
    ensures forall x :: x in Without(xs, k) <==> x in xs && x != k
  {
    if xs != [] {
      WithoutElements(xs[..|xs| - 1], k);
      assert xs == xs[..|xs| - 1] + [xs[|xs| - 1]];
    }
  }

  lemma {:induction false} WithoutNoDup<K(!new)>(xs: seq<K>, k: K)
    requires NoDup(xs)
    ensures NoDup(Without(xs, k))
  {
    if xs != [] {
      WithoutNoDup(xs[..|xs| - 1], k);
      WithoutElements(xs[..|xs| - 1], k);
      if xs[|xs| - 1] != k {
        NoDupSnoc(Without(xs[..|xs| - 1], k), xs[|xs| - 1]);
      }
    }
  }

  lemma {:induction false} WithoutAround<K(!new)>(p: seq<K>, k: K, q: seq<K>)
    requires k !in p && k !in q
    ensures Without(p + [k] + q, k) == p + q
  {
    WithoutConcat(p + [k], q, k);
    WithoutConcat(p, [k], k);
    WithoutAbsent(p, k);
    WithoutAbsent(q, k);
    assert [k][..0] == [] && Without([k], k) == [];
  }

  lemma NoDupSnoc<K(!new)>(xs: seq<K>, k: K)
    requires NoDup(xs) && k !in xs
    ensures NoDup(xs + [k])
  {
  }

  lemma NoDupAround<K(!new)>(xs: seq<K>, i: nat)
    requires NoDup(xs) && i < |xs|
    ensures xs == xs[..i] + [xs[i]] + xs[i + 1..]
    ensures xs[i] !in xs[..i] && xs[i] !in xs[i + 1..]
  {
  }

  /** Without duplicates, moving the first occurrence to the back is using the key. */
  lemma {:induction false} MoveToBackIsUse<K(!new)>(xs: seq<K>, k: K)
    requires NoDup(xs) && k in xs
    ensures MoveToBack(xs, k) == Use(xs, k)
  {
    var i := IndexOf(xs, k);
    NoDupAround(xs, i);
    WithoutAround(xs[..i], k, xs[i + 1..]);
  }

  lemma {:induction false} UseNoDup<K(!new)>(xs: seq<K>, k: K)
    requires NoDup(xs)
    ensures NoDup(Use(xs, k))
    ensures forall x :: x in Use(xs, k) <==> x in xs || x == k
  {
    WithoutNoDup(xs, k);
    WithoutElements(xs, k);
    NoDupSnoc(Without(xs, k), k);
  }

  lemma {:induction false} UseLength<K(!new)>(xs: seq<K>, k: K)
    requires NoDup(xs) && k in xs
    ensures |Use(xs, k)| == |xs|
  {
    MoveToBackIsUse(xs, k);
  }

  lemma {:induction false} LookKeepsValid<K(!new), F, V>(c: Cache<K, F, V>, key: Option<K>, mark: F)
    requires Valid(c)
    ensures Valid(Look(c, key, mark).0)
  {
    if key.Some? && key.value in c.m {
      MoveToBackIsUse(c.order, key.value);
      UseNoDup(c.order, key.value);
      UseLength(c.order, key.value);
    }
  }

  /** Storing a new key keeps the invariant exactly when the capacity is at least one. */
  lemma PutKeepsValidIff<K(!new), F, V>(c: Cache<K, F, V>, key: K, mark: F, value: V)
    requires Valid(c) && key !in c.m
    ensures Valid(Put(c, Some(key), mark, value)) <==> c.cap >= 1
  {
    var order := c.order + [key];
    NoDupSnoc(c.order, key);
    assert order[|c.order|] == key;
    if c.cap >= 1 {
      assert NoDup(order[1..]);
      if |order| > c.cap {
        assert order == [order[0]] + order[1..] && order[0] == c.order[0];
        assert order[1..] == c.order[1..] + [key];
        assert forall k :: k in c.order <==> k == c.order[0] || k in c.order[1..];
      }
    }
  }

  lemma PutKeepsValid<K(!new), F, V>(c: Cache<K, F, V>, key: Option<K>, mark: F, value: V)
    requires Valid(c) && c.cap >= 1
    ensures Valid(Put(c, key, mark, value))
    ensures key.Some? ==> key.value in Put(c, key, mark, value).m
    ensures key.Some? ==> Put(c, key, mark, value).m[key.value] == Entry(mark, value)
  {
    if key.Some? && key.value !in c.m {
      PutKeepsValidIff(c, key.value, mark, value);
    }
  }

  /** With capacity zero the evicted key is the new one, and its row stays behind. */
  lemma CapacityZeroLeaks<K(!new), F, V>(key: K, mark: F, value: V)
    ensures
      var c := Put(NewCache(0), Some(key), mark, value);
      c.order == [] && key in c.m
  {
  }

  // ------------------------------------------------- refinement of an LRU list

  /** Distinct keys by the time they were last touched, oldest first. */
  function Recency<K(==)>(touches: seq<K>): seq<K> {
    if touches == [] then [] else Use(Recency(touches[..|touches| - 1]), touches[|touches| - 1])
  }

  /** The last `n` elements. */
  function Last<K>(xs: seq<K>, n: nat): seq<K> { if |xs| <= n then xs else xs[|xs| - n..] }

  datatype Op<K, F, V> = DoLook(key: Option<K>, mark: F) | DoPut(key: Option<K>, mark: F, value: V)

  function Step<K, F, V>(c: Cache<K, F, V>, op: Op<K, F, V>): Cache<K, F, V> {
    match op
    case DoLook(key, mark) => Look(c, key, mark).0
    case DoPut(key, mark, value) => Put(c, key, mark, value)
  }

  /** The key an operation uses: a hit, or an insertion. */
  function Touched<K, F, V>(c: Cache<K, F, V>, op: Op<K, F, V>): Option<K> {
    match op
    case DoLook(key, mark) => if key.Some? && key.value in c.m && c.m[key.value].mark == mark then key else None
    case DoPut(key, _, _) => if key.Some? && key.value !in c.m then key else None
  }

  function Append<K>(xs: seq<K>, k: Option<K>): seq<K> { if k.None? then xs else xs + [k.value] }

  function Run<K, F, V>(cap: int, ops: seq<Op<K, F, V>>): Cache<K, F, V> {
    if ops == [] then NewCache(cap) else Step(Run(cap, ops[..|ops| - 1]), ops[|ops| - 1])
  }

  function Touches<K(==), F(==), V>(cap: int, ops: seq<Op<K, F, V>>): seq<K> {
    if ops == [] then []
    else Append(Touches(cap, ops[..|ops| - 1]), Touched(Run(cap, ops[..|ops| - 1]), ops[|ops| - 1]))
  }

  lemma {:induction false} RecencySnoc<K(!new)>(ts: seq<K>, k: K)
    ensures Recency(ts + [k]) == Use(Recency(ts), k)
  {
    assert (ts + [k])[..|ts|] == ts;
  }

  lemma {:induction false} RecencyNoDup<K(!new)>(ts: seq<K>)
    ensures NoDup(Recency(ts)) && forall k :: k in Recency(ts) <==> k in ts
  {
    if ts != [] {
      var init, k := ts[..|ts| - 1], ts[|ts| - 1];
      RecencyNoDup(init);
      UseNoDup(Recency(init), k);
      assert ts == init + [k];
    }
  }

  lemma {:induction false} LastOf<K(!new)>(head: seq<K>, tail: seq<K>, n: nat)
    requires |tail| == n || (head == [] && |tail| <= n)
    ensures Last(head + tail, n) == tail
  {
    assert head == [] ==> head + tail == tail;
  }

  lemma NoDupConcat<K(!new)>(a: seq<K>, b: seq<K>, x: K)
    requires NoDup(a + b) && x in b
    ensures x !in a
  {
    var j :| 0 <= j < |b| && b[j] == x;
    assert (a + b)[|a| + j] == x;
    assert forall i :: 0 <= i < |a| ==> (a + b)[i] == a[i];
  }

  lemma NoDupParts<K(!new)>(a: seq<K>, b: seq<K>)
    requires NoDup(a + b)
    ensures NoDup(a) && NoDup(b)
  {
    assert forall i :: 0 <= i < |a| ==> (a + b)[i] == a[i];
    assert forall i :: 0 <= i < |b| ==> (a + b)[|a| + i] == b[i];
  }

  /** What a bounded list makes of the use of a key. */
  function UseBounded<K(==)>(w: seq<K>, n: nat, k: K): seq<K>
    requires n >= 1
  {
    if k in w then Use(w, k)
    else if |w| + 1 > n then (w + [k])[1..]
    else w + [k]
  }

  /** Using a key moves the window of the last `n` keys as it moves a list bounded by `n`. */
  lemma {:induction false} WindowMoves<K(!new)>(h: seq<K>, w: seq<K>, n: nat, k: K)
    requires NoDup(h + w) && n >= 1 && (|w| == n || (h == [] && |w| <= n))
    ensures Last(Use(h + w, k), n) == UseBounded(w, n, k)
  {
    WithoutConcat(h, w, k);
    var h' := Without(h, k);
    if k in w {
      NoDupConcat(h, w, k);
      WithoutAbsent(h, k);
      assert Use(h + w, k) == h + Use(w, k);
      NoDupParts(h, w);
      UseLength(w, k);
      LastOf(h, Use(w, k), n);
    } else {
      WithoutAbsent(w, k);
      if |w| == n {
        assert Use(h + w, k) == (h' + [w[0]]) + (w + [k])[1..];
        LastOf(h' + [w[0]], (w + [k])[1..], n);
      } else {
        assert Use(h + w, k) == h' + (w + [k]);
        LastOf(h', w + [k], n);
      }
    }
  }

  lemma {:induction false} LastMoves<K(!new)>(recency: seq<K>, n: nat, k: K)
    requires NoDup(recency) && n >= 1
    ensures Last(Use(recency, k), n) == UseBounded(Last(recency, n), n, k)
  {
    var w := Last(recency, n);
    var h := recency[..|recency| - |w|];
    assert recency == h + w;
    WindowMoves(h, w, n, k);
  }

  /** The cache's list is the window of the `cap` most recently used keys. */
  ghost predicate IsWindow<K(!new), F, V>(c: Cache<K, F, V>, recency: seq<K>) {
    Valid(c) && c.cap >= 1 && c.order == Last(recency, c.cap)
  }

  lemma {:induction false} StepOrder<K(!new), F, V>(c: Cache<K, F, V>, op: Op<K, F, V>)
    requires Valid(c) && c.cap >= 1
    ensures Valid(Step(c, op)) && Step(c, op).cap == c.cap
    ensures Step(c, op).order == if Touched(c, op).None? then c.order else UseBounded(c.order, c.cap, Touched(c, op).value)
  {
    match op {
      case DoLook(key, mark) =>
        LookKeepsValid(c, key, mark);
        if key.Some? && key.value in c.m {
          MoveToBackIsUse(c.order, key.value);
        }
      case DoPut(key, mark, value) => PutKeepsValid(c, key, mark, value);
    }
  }

  lemma {:induction false} WindowStep<K(!new), F, V>(c: Cache<K, F, V>, op: Op<K, F, V>, recency: seq<K>)
    requires IsWindow(c, recency) && NoDup(recency)
    ensures IsWindow(Step(c, op), if Touched(c, op).None? then recency else Use(recency, Touched(c, op).value))
  {
    StepOrder(c, op);
    if Touched(c, op).Some? {
      LastMoves(recency, c.cap, Touched(c, op).value);
    }
  }

  ghost predicate IsLru<K(!new), F, V>(c: Cache<K, F, V>, touches: seq<K>) {
    IsWindow(c, Recency(touches))
  }

  lemma {:induction false} TouchKeepsLru<K(!new), F, V>(c: Cache<K, F, V>, op: Op<K, F, V>, touches: seq<K>)
    requires IsLru(c, touches)
    ensures IsLru(Step(c, op), Append(touches, Touched(c, op)))
  {
    RecencyNoDup(touches);
    WindowStep(c, op, Recency(touches));
    if Touched(c, op).Some? {
      RecencySnoc(touches, Touched(c, op).value);
    }
  }

  /** After any operations the cache holds the `cap` most recently used keys, in the order of their last use. */
  lemma {:induction false} CacheIsLru<K(!new), F, V>(cap: int, ops: seq<Op<K, F, V>>)
    requires cap >= 1
    ensures IsLru(Run(cap, ops), Touches(cap, ops)) && Run(cap, ops).cap == cap
  {
    if ops != [] {
      var init, op := ops[..|ops| - 1], ops[|ops| - 1];
      CacheIsLru(cap, init);
      TouchKeepsLru(Run(cap, init), op, Touches(cap, init));
      StepOrder(Run(cap, init), op);
    }
  }

  ghost function Elements<K(!new)>(xs: seq<K>): set<K> { set k | k in xs }

  /** Using another key puts it, once, behind `k`. */
  lemma {:induction false} UseBehind<K(!new)>(p: seq<K>, k: K, q: seq<K>, x: K)
    requires x != k
    ensures Use(p + [k] + q, x) == Without(p, x) + [k] + Use(q, x)
  {
    WithoutConcat(p + [k], q, x);
    WithoutConcat(p, [k], x);
    WithoutAbsent([k], x);
  }

  /** In recency order, the keys behind `k` are those touched since `k` was last touched. */
  lemma {:induction false} RecencySplit<K(!new)>(a: seq<K>, k: K, b: seq<K>) returns (p: seq<K>, q: seq<K>)
    requires k !in b
    ensures Recency(a + [k] + b) == p + [k] + q && Elements(q) == Elements(b)
    decreases |b|
  {
    if b == [] {
      assert a + [k] + b == a + [k];
      RecencySnoc(a, k);
      p, q := Without(Recency(a), k), [];
      assert p + [k] + q == Use(Recency(a), k);
    } else {
      var b', x := b[..|b| - 1], b[|b| - 1];
      var p', q' := RecencySplit(a, k, b');
      var ts := a + [k] + b';
      assert a + [k] + b == ts + [x];
      RecencySnoc(ts, x);
      UseBehind(p', k, q', x);
      p, q := Without(p', x), Use(q', x);
      UseElements(q', x);
      assert Elements(b) == Elements(b') + {x} by { assert b == b' + [x]; }
    }
  }

  lemma {:induction false} UseElements<K(!new)>(q: seq<K>, x: K)
    ensures Elements(Use(q, x)) == Elements(q) + {x}
  {
    WithoutElements(q, x);
  }

  lemma {:induction false} NoDupSize<K(!new)>(xs: seq<K>)
    requires NoDup(xs)
    ensures |Elements(xs)| == |xs|
  {
    if xs != [] {
      var init, x := xs[..|xs| - 1], xs[|xs| - 1];
      NoDupSize(init);
      assert xs == init + [x];
      assert Elements(xs) == Elements(init) + {x};
    }
  }

  /**
   A key stays in the cache exactly while fewer than `cap` distinct other keys
   have been inserted or hit since its own last use.
   */
  lemma {:induction false} RetainedIff<K(!new), F, V>(c: Cache<K, F, V>, a: seq<K>, k: K, b: seq<K>)
    requires k !in b && IsLru(c, a + [k] + b)
    ensures k in c.m <==> |Elements(b)| < c.cap
  {
    var p, q := RecencySplit(a, k, b);
    RecencyNoDup(a + [k] + b);
    NoDupParts(p + [k], q);
    NoDupSize(q);
    WindowHolds(p, k, q, c.cap);
  }

  lemma {:induction false} WindowHolds<K(!new)>(p: seq<K>, k: K, q: seq<K>, n: nat)
    requires NoDup(p + [k] + q)
    ensures k in Last(p + [k] + q, n) <==> |q| < n
  {
    var r := p + [k] + q;
    var w := Last(r, n);
    var d := |r| - |w|;
    assert r[|p|] == k;
    if |p| >= d {
      assert w[|p| - d] == k;
    }
    assert forall j :: 0 <= j < |w| ==> w[j] == r[d + j];
  }

  // ----------------------------------------------------------------- object

  class IdempCache<K(==, !new), F(==), V> {
    const cap: int
    var order: seq<K>
    var m: map<K, Entry<F, V>>

    ghost function State(): Cache<K, F, V>
      reads this
    {
      Cache(cap, order, m)
    }

    constructor (cap: int)
      ensures State() == NewCache(cap)
    {
      this.cap, order, m := cap, [], map[];
    }

    /** A hit moves its key to the back of the list; a reused key with another request is a conflict. */
    method Lookup(key: Option<K>, mark: F) returns (r: Result<Option<V>>)
      modifies this`order
      ensures (State(), r) == Look(old(State()), key, mark)
    {
      if key.None? || key.value !in m {
        return Ok(None);
      }
      if m[key.value].mark != mark {
        return Err(Conflict);
      }
      for i := 0 to |order|
        invariant order == old(order)
        invariant forall j :: 0 <= j < i ==> order[j] != key.value
      {
        if order[i] == key.value {
          assert IndexOf(order, key.value) == i;
          order := order[..i] + order[i + 1..] + [key.value];
          return Ok(Some(m[key.value].value));
        }
      }
      r := Ok(Some(m[key.value].value));
    }

    method Store(key: Option<K>, mark: F, value: V)
      modifies this
      ensures State() == Put(old(State()), key, mark, value)
    {
      if key.None? {
        return;
      }
      if key.value !in m {
        order := order + [key.value];
        if |order| > cap {
          m := m - {order[0]};
          order := order[1..];
        }
      }
      m := m[key.value := Entry(mark, value)];
    }
  }
}
