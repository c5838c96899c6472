/** Small shared vocabulary: optional values, Go's `strings` helpers, and map filtering. */
module Basics {

  datatype Option<+T> = None | Some(value: T)

  datatype Error =
    | Validation
    | NotFound
    | Conflict
    | RevisionConflict

  datatype Result<+T> = Ok(value: T) | Err(error: Error)

  /** File and key material. One character stands for one byte. */
  type Bytes = string

  // ---------------------------------------------------------------- strings

  predicate IsSpace(c: char) {
    || '\U{0009}' <= c <= '\U{000d}'
    || c in {' ', '\U{0085}', '\U{00a0}', '\U{1680}', '\U{2028}', '\U{2029}', '\U{202f}', '\U{205f}', '\U{3000}'}
    || '\U{2000}' <= c <= '\U{200a}'
  }

  function WordEnd(s: string, i: nat): (j: nat)
    requires i <= |s|
    ensures i <= j <= |s|
    ensures i < |s| && !IsSpace(s[i]) ==> i < j
    decreases |s| - i
  {
    if i < |s| && !IsSpace(s[i]) then WordEnd(s, i + 1) else i
  }

  /** Go's strings.Fields: the maximal runs of non-space characters. */
  function Fields(s: string): seq<string>
    decreases |s|
  {
    if s == "" then []
    else if IsSpace(s[0]) then Fields(s[1..])
    else
      var j := WordEnd(s, 0);
      [s[..j]] + Fields(s[j..])
  }

  function TrimLeft(s: string): string
    decreases |s|
  {
    if s != "" && IsSpace(s[0]) then TrimLeft(s[1..]) else s
  }

  function TrimRight(s: string): string
    decreases |s|
  {
    if s != "" && IsSpace(s[|s| - 1]) then TrimRight(s[..|s| - 1]) else s
  }

  /** Go's strings.TrimSpace. */
  function TrimSpace(s: string): string {
    TrimRight(TrimLeft(s))
  }

  /** Nothing but white space: what `strings.TrimSpace(s) == ""` tests. */
  predicate Blank(s: string) { forall i :: 0 <= i < |s| ==> IsSpace(s[i]) }

  lemma {:induction false} TrimLeftKeepsWords(s: string)
    ensures (TrimLeft(s) == "" <==> Blank(s)) && (TrimLeft(s) != "" ==> !IsSpace(TrimLeft(s)[0]))
    decreases |s|
  {
    if s != "" && IsSpace(s[0]) {
      TrimLeftKeepsWords(s[1..]);
      assert s == [s[0]] + s[1..];
      assert Blank(s) <==> Blank(s[1..]) by { assert forall i :: 1 <= i < |s| ==> s[i] == s[1..][i - 1]; }
    }
  }

  lemma {:induction false} TrimRightKeepsWords(s: string)
    requires s != "" && !IsSpace(s[0])
    ensures TrimRight(s) != ""
    decreases |s|
  {
    if IsSpace(s[|s| - 1]) {
      TrimRightKeepsWords(s[..|s| - 1]);
    }
  }

  lemma BlankIffTrimmedEmpty(s: string)
    ensures Blank(s) <==> TrimSpace(s) == ""
  {
    TrimLeftKeepsWords(s);
    if TrimLeft(s) != "" {
      TrimRightKeepsWords(TrimLeft(s));
    }
  }

  // ------------------------------------------------------------------- maps

  /** The rows of `m` that satisfy `keep`. */
  function Keep<V>(m: map<string, V>, keep: V -> bool): map<string, V> {
    map k | k in m && keep(m[k]) :: m[k]
  }

  lemma SubMapSize<V>(a: map<string, V>, b: map<string, V>)
    requires a.Keys <= b.Keys
    ensures |a| <= |b|
  {
    SubsetSize(a.Keys, b.Keys);
    assert |a| == |a.Keys| && |b| == |b.Keys|;
  }

  lemma {:induction false} SubsetSize<T>(a: set<T>, b: set<T>)
    requires a <= b
    ensures |a| <= |b|
    ensures |a| == |b| ==> a == b
    decreases |a|
  {
    if a == {} {
    } else {
      var x :| x in a;
      SubsetSize(a - {x}, b - {x});
      assert a == (a - {x}) + {x} && b == (b - {x}) + {x};
    }
  }

  /** The deletion loop `for k, v := range m { if !keep { delete(m, k) } }`. */
  method DeleteUnless<V>(m: map<string, V>, keep: V -> bool) returns (r: map<string, V>)
    ensures r == Keep(m, keep)
  {
    r := m;
    var todo := m.Keys;
    while todo != {}
      invariant todo <= m.Keys
      invariant r == map k | k in m && (k in todo || keep(m[k])) :: m[k]
      decreases |todo|
    {
      var k :| k in todo;
      if !keep(m[k]) {
        r := r - {k};
      }
      todo := todo - {k};
    }
  }

  /** The rows, each once, in the order of some enumeration of the keys. */
  ghost predicate Lists<V(!new)>(rows: seq<V>, keys: seq<string>, m: map<string, V>) {
    && |rows| == |keys| == |m|
    && (forall k :: k in keys <==> k in m)
    && (forall i :: 0 <= i < |keys| ==> keys[i] in m && m[keys[i]] == rows[i])
  }

  /** A loop that deletes some rows and collects the others. */
  method CollectUnless<V(!new)>(m: map<string, V>, keep: V -> bool)
    returns (r: map<string, V>, rows: seq<V>, ghost keys: seq<string>)
    ensures r == Keep(m, keep)
    ensures Lists(rows, keys, r)
  {
    r, rows, keys := m, [], [];
    var todo := m.Keys;
    while todo != {}
      invariant todo <= m.Keys
      invariant forall k :: k in r <==> k in m && (k in todo || keep(m[k]))
      invariant forall k :: k in r ==> r[k] == m[k]
      invariant |rows| == |keys| && |keys| + |todo| == |r.Keys|
      invariant forall k :: k in keys <==> k in r && k !in todo
      invariant forall i :: 0 <= i < |keys| ==> keys[i] in m && m[keys[i]] == rows[i]
      decreases |todo|
    {
      var k :| k in todo;
      if !keep(m[k]) {
        assert r.Keys == (r - {k}).Keys + {k};
        r := r - {k};
      } else {
        rows, keys := rows + [m[k]], keys + [k];
      }
      todo := todo - {k};
    }
    assert |r| == |r.Keys|;
  }
}
