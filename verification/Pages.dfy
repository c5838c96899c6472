/**
 Cursor pagination (internal/app/page.go). A cursor carries the kind and a digest
 of the sorted collection; the digest is modelled by the collection itself.
 */
module Pages {
  import opened Basics

  // ----------------------------------------------------------- string order

  /** Go's `<` on strings. */
  predicate Less(a: string, b: string) {
    b != "" && (a == "" || a[0] < b[0] || (a[0] == b[0] && Less(a[1..], b[1..])))
  }

  lemma {:induction false} LessTotal(a: string, b: string)
    ensures a == b || Less(a, b) || Less(b, a)
    ensures !(Less(a, b) && Less(b, a))
    decreases |a|
  {
    if a != "" && b != "" && a[0] == b[0] {
      LessTotal(a[1..], b[1..]);
      if a[1..] == b[1..] {
        assert a == [a[0]] + a[1..] && b == [b[0]] + b[1..];
      }
    }
  }

  lemma {:induction false} LessTransitive(a: string, b: string, c: string)
    requires Less(a, b) && Less(b, c)
    ensures Less(a, c)
    decreases |a|
  {
    if a != "" && a[0] == b[0] && b[0] == c[0] {
      LessTransitive(a[1..], b[1..], c[1..]);
    }
  }

  // ------------------------------------------------------------------ sort

  /** Strictly ascending ids: sorted, and no id twice. */
  ghost predicate Ascending<T(!new)>(xs: seq<T>, id: T -> string) {
    forall i, j :: 0 <= i < j < |xs| ==> Less(id(xs[i]), id(xs[j]))
  }

  ghost predicate DistinctIds<T(!new)>(xs: seq<T>, id: T -> string) {
    forall i, j :: 0 <= i < j < |xs| ==> id(xs[i]) != id(xs[j])
  }

  function Insert<T>(xs: seq<T>, x: T, id: T -> string): seq<T> {
    if xs == [] || !Less(id(x), id(xs[|xs| - 1])) then xs + [x]
    else Insert(xs[..|xs| - 1], x, id) + [xs[|xs| - 1]]
  }

  /** The collection in id order. */
  function SortById<T>(xs: seq<T>, id: T -> string): seq<T> {
    if xs == [] then []
    else Insert(SortById(xs[..|xs| - 1], id), xs[|xs| - 1], id)
  }

  lemma {:induction false} InsertKeeps<T(!new)>(xs: seq<T>, x: T, id: T -> string)
    ensures multiset(Insert(xs, x, id)) == multiset(xs) + multiset{x}
  {
    if xs != [] && Less(id(x), id(xs[|xs| - 1])) {
      InsertKeeps(xs[..|xs| - 1], x, id);
      assert xs == xs[..|xs| - 1] + [xs[|xs| - 1]];
    }
  }

  lemma {:induction false} SortKeeps<T(!new)>(xs: seq<T>, id: T -> string)
    ensures multiset(SortById(xs, id)) == multiset(xs)
    ensures |SortById(xs, id)| == |xs|
  {
    if xs != [] {
      SortKeeps(xs[..|xs| - 1], id);
      InsertKeeps(SortById(xs[..|xs| - 1], id), xs[|xs| - 1], id);
      assert xs == xs[..|xs| - 1] + [xs[|xs| - 1]];
    }
    assert |xs| == |multiset(xs)| && |SortById(xs, id)| == |multiset(SortById(xs, id))|;
  }

  lemma {:induction false} InsertAscending<T(!new)>(xs: seq<T>, x: T, id: T -> string)
    requires Ascending(xs, id) && forall y :: y in xs ==> id(y) != id(x)
    ensures Ascending(Insert(xs, x, id), id)
  {
    if xs != [] {
      var init, last := xs[..|xs| - 1], xs[|xs| - 1];
      LessTotal(id(x), id(last));
      if Less(id(x), id(last)) {
        InsertAscending(init, x, id);
        InsertKeeps(init, x, id);
        var r := Insert(init, x, id);
        forall i | 0 <= i < |r| ensures Less(id(r[i]), id(last)) {
          assert r[i] in multiset(r);
          if r[i] != x {
            assert r[i] in init;
          }
        }
      } else {
        forall i | 0 <= i < |xs| ensures Less(id(xs[i]), id(x)) {
          if i < |xs| - 1 { LessTransitive(id(xs[i]), id(last), id(x)); }
        }
      }
    }
  }

  lemma {:induction false} SortAscending<T(!new)>(xs: seq<T>, id: T -> string)
    requires DistinctIds(xs, id)
    ensures Ascending(SortById(xs, id), id)
  {
    if xs != [] {
      var init, last := xs[..|xs| - 1], xs[|xs| - 1];
      SortAscending(init, id);
      SortKeeps(init, id);
      var r := SortById(init, id);
      forall y | y in r ensures id(y) != id(last) {
        assert y in multiset(init);
      }
      InsertAscending(r, last, id);
    }
  }

  lemma {:induction false} LastIsGreatest<T(!new)>(xs: seq<T>, y: T, id: T -> string)
    requires Ascending(xs, id) && y in multiset(xs)
    ensures xs != [] && (y == xs[|xs| - 1] || Less(id(y), id(xs[|xs| - 1])))
  {
    var i :| 0 <= i < |xs| && xs[i] == y;
  }

  lemma {:induction false} LastInMultiset<T(!new)>(xs: seq<T>)
    requires xs != []
    ensures xs[|xs| - 1] in multiset(xs)
    ensures multiset(xs[..|xs| - 1]) == multiset(xs) - multiset{xs[|xs| - 1]}
  {
    assert xs == xs[..|xs| - 1] + [xs[|xs| - 1]];
  }

  lemma {:induction false} LastsAgree<T(!new)>(xs: seq<T>, ys: seq<T>, id: T -> string)
    requires Ascending(xs, id) && Ascending(ys, id) && multiset(xs) == multiset(ys) && xs != [] && ys != []
    ensures xs[|xs| - 1] == ys[|ys| - 1]
    ensures multiset(xs[..|xs| - 1]) == multiset(ys[..|ys| - 1])
  {
    var x, y := xs[|xs| - 1], ys[|ys| - 1];
    LastInMultiset(xs);
    LastInMultiset(ys);
    LastIsGreatest(ys, x, id);
    LastIsGreatest(xs, y, id);
    LessTotal(id(x), id(y));
  }

  /** A collection has only one ascending arrangement, so any correct sort computes it. */
  lemma {:induction false} AscendingUnique<T(!new)>(xs: seq<T>, ys: seq<T>, id: T -> string)
    requires Ascending(xs, id) && Ascending(ys, id) && multiset(xs) == multiset(ys)
    ensures xs == ys
    decreases |xs|
  {
    assert |xs| == |ys| by { assert |xs| == |multiset(xs)| && |ys| == |multiset(ys)|; }
    if xs != [] {
      var x, y := xs[|xs| - 1], ys[|ys| - 1];
      LastsAgree(xs, ys, id);
      AscendingUnique(xs[..|xs| - 1], ys[..|ys| - 1], id);
      assert xs == xs[..|xs| - 1] + [x] && ys == ys[..|ys| - 1] + [y];
    }
  }

  lemma {:induction false} SortIgnoresOrder<T(!new)>(xs: seq<T>, ys: seq<T>, id: T -> string)
    requires DistinctIds(xs, id) && DistinctIds(ys, id) && multiset(xs) == multiset(ys)
    ensures SortById(xs, id) == SortById(ys, id)
  {
    SortAscending(xs, id);
    SortAscending(ys, id);
    SortKeeps(xs, id);
    SortKeeps(ys, id);
    AscendingUnique(SortById(xs, id), SortById(ys, id), id);
  }

  // ------------------------------------------------------------------ page

  /** `NoCursor` is the empty string, `Garbage` anything that does not decode. */
  datatype Cursor<T> = NoCursor | Garbage | Token(kind: string, digest: seq<T>, offset: int)

  datatype Page<T> = Page(items: seq<T>, next: Cursor<T>)

  const DEFAULT_LIMIT := 100
  const MAX_LIMIT := 1000

  function Min(a: int, b: int): int { if a < b then a else b }

  /** The offset a cursor stands for in the sorted collection, or None if it is not accepted. */
  function OffsetOf<T(==)>(sorted: seq<T>, kind: string, cursor: Cursor<T>): (r: Option<int>)
    ensures r.Some? ==> 0 <= r.value <= |sorted|
  {
    match cursor
    case NoCursor => Some(0)
    case Garbage => None
    case Token(k, digest, offset) =>
      if k != kind || digest != sorted || offset < 0 || offset >= |sorted| then None else Some(offset)
  }

  function PageAt<T>(sorted: seq<T>, kind: string, offset: int, limit: int): Page<T>
    requires 0 <= offset <= |sorted| && 0 < limit
  {
    var end := Min(offset + limit, |sorted|);
    Page(sorted[offset..end], if end < |sorted| then Token(kind, sorted, end) else NoCursor)
  }

  function Limit(limit: int): int { if limit == 0 then DEFAULT_LIMIT else limit }

  function PageFrom<T(==)>(sorted: seq<T>, kind: string, cursor: Cursor<T>, limit: int): Result<Page<T>> {
    var offset := OffsetOf(sorted, kind, cursor);
    if limit < 0 || limit > MAX_LIMIT || offset.None? then Err(Validation)
    else Ok(PageAt(sorted, kind, offset.value, Limit(limit)))
  }

  function PageOf<T(==)>(items: seq<T>, id: T -> string, kind: string, cursor: Cursor<T>, limit: int): Result<Page<T>> {
    PageFrom(SortById(items, id), kind, cursor, limit)
  }

  lemma {:induction false} InsertDown<T(!new)>(prefix: seq<T>, j: nat, x: T, id: T -> string)
    requires 0 < j <= |prefix| && Less(id(x), id(prefix[j - 1]))
    requires Insert(prefix, x, id) == Insert(prefix[..j], x, id) + prefix[j..]
    ensures Insert(prefix, x, id) == Insert(prefix[..j - 1], x, id) + prefix[j - 1..]
  {
    assert prefix[..j][..j - 1] == prefix[..j - 1];
    assert prefix[j - 1..] == [prefix[j - 1]] + prefix[j..];
  }

  /** The sequence with `x` at position `j` of the prefix, and what swapping it down one place gives. */
  lemma {:induction false} Layout<T(!new)>(s: seq<T>, prefix: seq<T>, j: nat, x: T, tail: seq<T>)
    requires j <= |prefix| && s == prefix[..j] + [x] + prefix[j..] + tail
    ensures s[j] == x
    ensures j > 0 ==> s[j - 1] == prefix[j - 1] && s[j := s[j - 1]][j - 1 := s[j]] == prefix[..j - 1] + [x] + prefix[j - 1..] + tail
  {
  }

  /** `x` on its way down: it stands at position `j` of the prefix, and what is above it already lies where insertion puts it. */
  ghost predicate Sinking<T(!new)>(s: seq<T>, prefix: seq<T>, j: nat, x: T, tail: seq<T>, id: T -> string) {
    && j <= |prefix| && s == prefix[..j] + [x] + prefix[j..] + tail
    && Insert(prefix, x, id) == Insert(prefix[..j], x, id) + prefix[j..]
  }

  lemma SinkStarts<T(!new)>(s: seq<T>, i: nat, id: T -> string)
    requires i < |s|
    ensures Sinking(s, s[..i], i, s[i], s[i + 1..], id)
  {
    var prefix := s[..i];
    assert prefix[..i] == prefix;
    assert s == s[..i] + [s[i]] + s[i + 1..];
  }

  lemma SinkMoves<T(!new)>(s: seq<T>, prefix: seq<T>, j: nat, x: T, tail: seq<T>, id: T -> string)
    requires Sinking(s, prefix, j, x, tail, id) && 0 < j < |s| && Less(id(s[j]), id(s[j - 1]))
    ensures Sinking(s[j := s[j - 1]][j - 1 := s[j]], prefix, j - 1, x, tail, id)
  {
    Layout(s, prefix, j, x, tail);
    InsertDown(prefix, j, x, id);
  }

  lemma SinkEnds<T(!new)>(s: seq<T>, prefix: seq<T>, j: nat, x: T, tail: seq<T>, id: T -> string)
    requires Sinking(s, prefix, j, x, tail, id) && j < |s| && (j == 0 || !Less(id(s[j]), id(s[j - 1])))
    ensures s == Insert(prefix, x, id) + tail
  {
    Layout(s, prefix, j, x, tail);
    assert j > 0 ==> prefix[..j][j - 1] == prefix[j - 1];
    assert Insert(prefix[..j], x, id) == prefix[..j] + [x];
  }

  /** Insertion of one element into the ascending prefix, by swapping downwards. */
  method SinkInPlace<T(!new)>(items: array<T>, i: nat, id: T -> string)
    requires i < items.Length
    modifies items
    ensures items[..] == Insert(old(items[..i]), old(items[i]), id) + old(items[i + 1..])
  {
    var j: nat := i;
    ghost var s := items[..];
    ghost var prefix, x, tail := s[..i], s[i], s[i + 1..];
    assert prefix == items[..i] && tail == items[i + 1..];
    SinkStarts(s, i, id);
    while j > 0 && Less(id(items[j]), id(items[j - 1]))
      invariant j <= i && s == items[..] && Sinking(s, prefix, j, x, tail, id)
      decreases j
    {
      SinkMoves(s, prefix, j, x, tail, id);
      s := s[j := s[j - 1]][j - 1 := s[j]];
      items[j], items[j - 1] := items[j - 1], items[j];
      j := j - 1;
    }
    SinkEnds(s, prefix, j, x, tail, id);
  }

  lemma HalfSorted<T>(now: seq<T>, done: seq<T>, was: seq<T>, i: nat)
    requires i == |done| < |was| && now == done + was[i..]
    ensures |now| == |was| && now[..i] == done && now[i] == was[i] && now[i + 1..] == was[i + 1..]
  {
  }

  method SortInPlace<T(!new)>(items: array<T>, id: T -> string)
    modifies items
    ensures items[..] == SortById(old(items[..]), id)
  {
    ghost var was := items[..];
    for i := 0 to items.Length
      invariant items[..] == SortById(was[..i], id) + was[i..]
    {
      ghost var done := SortById(was[..i], id);
      SortKeeps(was[..i], id);
      HalfSorted(items[..], done, was, i);
      assert items[..i] == items[..][..i] && items[i + 1..] == items[..][i + 1..];
      assert was[..i + 1][..i] == was[..i];
      SinkInPlace(items, i, id);
    }
    assert was[..items.Length] == was;
  }

  /** `page`: the slice is sorted where it lies, then cut. */
  method ServePage<T(==, !new)>(items: array<T>, id: T -> string, kind: string, cursor: Cursor<T>, limit: int)
    returns (r: Result<Page<T>>)
    modifies items
    ensures r == PageOf(old(items[..]), id, kind, cursor, limit)
    ensures items[..] == if limit < 0 || limit > MAX_LIMIT then old(items[..]) else SortById(old(items[..]), id)
  {
    if limit < 0 || limit > MAX_LIMIT {
      return Err(Validation);
    }
    SortInPlace(items, id);
    r := CutPage(items[..], kind, cursor, limit);
  }

  method CutPage<T(==)>(items: seq<T>, kind: string, cursor: Cursor<T>, limit: int) returns (r: Result<Page<T>>)
    requires 0 <= limit <= MAX_LIMIT
    ensures r == PageFrom(items, kind, cursor, limit)
  {
    var size := limit;
    if size == 0 {
      size := DEFAULT_LIMIT;
    }
    var offset := 0;
    match cursor {
      case NoCursor =>
      case Garbage => return Err(Validation);
      case Token(k, digest, o) =>
        if k != kind || digest != items || o < 0 || o >= |items| {
          return Err(Validation);
        }
        offset := o;
    }
    var end := Min(offset + size, |items|);
    r := Ok(Page(items[offset..end], if end < |items| then Token(kind, items, end) else NoCursor));
  }

  // -------------------------------------------------------------- theorems

  /** A list request of a walk: the order in which the items happened to arrive, and the limit asked for. */
  datatype Request<T> = Request(items: seq<T>, limit: int)

  /** Follow NextCursor through the requests until it is empty or they run out. */
  function Follow<T(==)>(id: T -> string, kind: string, cursor: Cursor<T>, reqs: seq<Request<T>>): Result<Page<T>>
    decreases |reqs|
  {
    if reqs == [] then Ok(Page([], cursor))
    else
      var first := PageOf(reqs[0].items, id, kind, cursor, reqs[0].limit);
      if first.Err? || first.value.next.NoCursor? then first
      else
        var rest := Follow(id, kind, first.value.next, reqs[1..]);
        if rest.Err? then rest else Ok(Page(first.value.items + rest.value.items, rest.value.next))
  }

  /** Every request sees the same collection, in any order, and asks for a valid limit. */
  ghost predicate SameCollection<T(!new)>(xs: seq<T>, id: T -> string, reqs: seq<Request<T>>) {
    forall i :: 0 <= i < |reqs| ==>
      0 <= reqs[i].limit <= MAX_LIMIT && DistinctIds(reqs[i].items, id) && multiset(reqs[i].items) == multiset(xs)
  }

  /** What the requests of one collection have in common once their items are sorted. */
  ghost predicate SeesSorted<T(!new)>(sorted: seq<T>, id: T -> string, reqs: seq<Request<T>>) {
    forall i :: 0 <= i < |reqs| ==> 0 <= reqs[i].limit <= MAX_LIMIT && SortById(reqs[i].items, id) == sorted
  }

  /** The pages served so far, and where they stop: a piece of the collection that reaches its end iff no cursor is left. */
  ghost predicate Covers<T(!new)>(sorted: seq<T>, offset: nat, budget: nat, r: Result<Page<T>>)
    requires offset <= |sorted|
  {
    && r.Ok? && r.value.items <= sorted[offset..]
    && (r.value.next.NoCursor? ==> r.value.items == sorted[offset..])
    && (budget > 0 && budget >= |sorted| - offset ==> r.value.next.NoCursor?)
  }

  /** One page followed by pages that cover the rest covers everything from the page's offset. */
  lemma {:induction false} CoversFirst<T(!new)>(sorted: seq<T>, kind: string, offset: nat, limit: int, budget: nat, rest: Result<Page<T>>)
    requires offset <= |sorted| && 0 <= limit <= MAX_LIMIT
    ensures
      var first := PageAt(sorted, kind, offset, Limit(limit));
      if first.next.NoCursor? then Covers(sorted, offset, budget + 1, Ok(first))
      else
        && OffsetOf(sorted, kind, first.next) == Some(first.next.offset) && 0 <= first.next.offset <= |sorted|
        && (Covers(sorted, first.next.offset, budget, rest) ==>
              Covers(sorted, offset, budget + 1, Ok(Page(first.items + rest.value.items, rest.value.next))))
  {
    var end := Min(offset + Limit(limit), |sorted|);
    assert sorted[offset..] == sorted[offset..end] + sorted[end..];
  }

  lemma {:induction false} FollowFrom<T(!new)>(
    sorted: seq<T>, id: T -> string, kind: string, cursor: Cursor<T>, reqs: seq<Request<T>>, offset: nat)
    requires SeesSorted(sorted, id, reqs) && OffsetOf(sorted, kind, cursor) == Some(offset)
    requires reqs == [] ==> !cursor.NoCursor?
    ensures Covers(sorted, offset, |reqs|, Follow(id, kind, cursor, reqs))
    decreases |reqs|
  {
    if reqs != [] {
      var first := PageAt(sorted, kind, offset, Limit(reqs[0].limit));
      assert PageOf(reqs[0].items, id, kind, cursor, reqs[0].limit) == Ok(first);
      var rest := Follow(id, kind, first.next, reqs[1..]);
      CoversFirst(sorted, kind, offset, reqs[0].limit, |reqs| - 1, rest);
      if !first.next.NoCursor? {
        FollowFrom(sorted, id, kind, first.next, reqs[1..], first.next.offset);
      }
    }
  }

  /**
   Following NextCursor over an unchanged collection ends within as many requests
   as there are items, and the pages concatenate to the sorted collection.
   */
  lemma {:induction false} FollowingListsEverythingOnce<T(!new)>(xs: seq<T>, id: T -> string, kind: string, reqs: seq<Request<T>>)
    requires DistinctIds(xs, id) && SameCollection(xs, id, reqs) && reqs != [] && |reqs| >= |xs|
    ensures
      var r := Follow(id, kind, NoCursor, reqs);
      && r.Ok? && r.value.next.NoCursor?
      && Ascending(r.value.items, id) && multiset(r.value.items) == multiset(xs)
  {
    var sorted := SortById(xs, id);
    SortAscending(xs, id);
    SortKeeps(xs, id);
    forall i | 0 <= i < |reqs| ensures SortById(reqs[i].items, id) == sorted {
      SortIgnoresOrder(reqs[i].items, xs, id);
    }
    FollowFrom(sorted, id, kind, NoCursor, reqs, 0);
    assert sorted[0..] == sorted;
  }

  /**
   What a page holds: from its offset on, as many items as were asked for, a hundred
   if no number was given, or what is left; and a cursor to the rest if there is one.
   */
  lemma PageHolds<T(!new)>(items: seq<T>, id: T -> string, kind: string, cursor: Cursor<T>, limit: int)
    requires PageOf(items, id, kind, cursor, limit).Ok?
    ensures
      var p, sorted := PageOf(items, id, kind, cursor, limit).value, SortById(items, id);
      var start, size := if cursor.Token? then cursor.offset else 0, if limit == 0 then 100 else limit;
      && 0 <= limit <= 1000 && 0 <= start <= |sorted|
      && |p.items| == (if |sorted| - start < size then |sorted| - start else size)
      && p.items == sorted[start..start + |p.items|]
      && p.next == (if start + |p.items| < |sorted| then Token(kind, sorted, start + |p.items|) else NoCursor)
  {
  }

  /** A request is served if and only if its limit is valid and its cursor is none, or one of this very collection. */
  lemma PageServedIff<T(!new)>(items: seq<T>, id: T -> string, kind: string, cursor: Cursor<T>, limit: int)
    ensures PageOf(items, id, kind, cursor, limit).Ok? <==>
              && 0 <= limit <= 1000
              && (cursor.NoCursor? ||
                  (cursor.Token? && cursor.kind == kind && cursor.digest == SortById(items, id) && 0 <= cursor.offset < |SortById(items, id)|))
    ensures PageOf(items, id, kind, cursor, limit).Err? ==> PageOf(items, id, kind, cursor, limit).error == Validation
  {
  }

  /** A served cursor is accepted exactly for the kind and the contents it was issued for. */
  lemma {:induction false} CursorBelongsToItsCollection<T(!new)>(
    xs: seq<T>, ys: seq<T>, id: T -> string, kind: string, kind': string, cursor: Cursor<T>, limit: int, limit': int)
    requires DistinctIds(xs, id) && DistinctIds(ys, id)
    requires PageOf(xs, id, kind, cursor, limit).Ok? && PageOf(xs, id, kind, cursor, limit).value.next.Token?
    ensures PageOf(ys, id, kind', PageOf(xs, id, kind, cursor, limit).value.next, limit').Ok? <==>
              kind == kind' && multiset(xs) == multiset(ys) && 0 <= limit' <= MAX_LIMIT
  {
    SameSortedIff(xs, ys, id);
    ServedCursor(SortById(xs, id), SortById(ys, id), kind, kind', cursor, limit, limit');
  }

  lemma {:induction false} SameSortedIff<T(!new)>(xs: seq<T>, ys: seq<T>, id: T -> string)
    requires DistinctIds(xs, id) && DistinctIds(ys, id)
    ensures SortById(xs, id) == SortById(ys, id) <==> multiset(xs) == multiset(ys)
  {
    SortKeeps(xs, id);
    SortKeeps(ys, id);
    if multiset(xs) == multiset(ys) {
      SortIgnoresOrder(xs, ys, id);
    }
  }

  lemma {:induction false} ServedCursor<T(!new)>(
    a: seq<T>, b: seq<T>, kind: string, kind': string, cursor: Cursor<T>, limit: int, limit': int)
    requires PageFrom(a, kind, cursor, limit).Ok? && PageFrom(a, kind, cursor, limit).value.next.Token?
    ensures PageFrom(b, kind', PageFrom(a, kind, cursor, limit).value.next, limit').Ok? <==>
              kind == kind' && a == b && 0 <= limit' <= MAX_LIMIT
  {
  }
}
