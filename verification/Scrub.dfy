/**
 The import scrubber (internal/importrw/rewrite.go): a tree transformation that
 drops secret-named fields, PEM strings and nulls.

 An object is the list of its fields in the order in which the map was ranged
 over, so every statement holds for every iteration order.
 */
module Scrub {
  import opened Basics

  datatype Json =
    | Null
    | Bool(flag: bool)
    | Num(digits: string)
    | Str(text: string)
    | Arr(items: seq<Json>)
    | Obj(fields: seq<Field>)

  datatype Field = Field(key: string, value: Json)

  // ------------------------------------------------------------ secrecy test

  /** unicode.ToLower, as far as it can produce an ASCII letter. */
  function LowerChar(c: char): char {
    if 'A' <= c <= 'Z' then c + 32 as char
    else if c == '\U{212A}' then 'k'
    else if c == '\U{0130}' then 'i'
    else c
  }

  /** unicode.ToUpper, as far as it can produce an ASCII letter. */
  function UpperChar(c: char): char {
    if 'a' <= c <= 'z' then c - 32 as char
    else if c == '\U{0131}' then 'I'
    else if c == '\U{017F}' then 'S'
    else c
  }

  function Lower(s: string): string { seq(|s|, i requires 0 <= i < |s| => LowerChar(s[i])) }
  function Upper(s: string): string { seq(|s|, i requires 0 <= i < |s| => UpperChar(s[i])) }

  const SECRET_NAMES := {
    "client_secret", "clientsecret", "password", "private_key", "privatekey", "pem", "jwks",
    "passwordcredentials", "keycredentials", "secrettext", "token", "access_token", "accesstoken",
    "refresh_token", "refreshtoken", "id_token", "idtoken", "authorization", "apikey", "api_key"}

  const PEM_MARK := "-----BEGIN "

  predicate SecretKey(k: string) { Lower(k) in SECRET_NAMES }

  predicate HasAt(s: string, sub: string, i: nat) { i + |sub| <= |s| && s[i..i + |sub|] == sub }

  predicate Contains(s: string, sub: string) { exists i :: 0 <= i <= |s| && HasAt(s, sub, i) }

  predicate Pem(v: Json) { v.Str? && Contains(Upper(v.text), PEM_MARK) }

  // ------------------------------------------------------------------ scrub

  function Warning(path: string): string { "dropped secret-like field " + path + "; use file refs" }

  function FieldPath(path: string, key: string): string { if path == "" then key else path + "." + key }

  function Width(v: Json): nat {
    match v
    case Obj(fields) => |fields|
    case Arr(items) => |items|
    case _ => 0
  }

  /** scrubValue; None is Go's nil. An array always comes back as an array, even when nothing is left in it. */
  function ScrubValue(path: string, v: Json): (Option<Json>, seq<string>)
    decreases v, Width(v) + 1
  {
    match v
    case Obj(fields) =>
      var (kept, warn) := ScrubFields(path, v, |fields|);
      (Some(Obj(kept)), warn)
    case Arr(items) =>
      var (kept, warn) := ScrubItems(path, v, |items|);
      (Some(Arr(kept)), warn)
    case Null => (None, [])
    case _ => if Pem(v) then (None, [Warning(path)]) else (Some(v), [])
  }

  /** The first `n` rounds of the object loop. */
  function ScrubFields(path: string, v: Json, n: nat): (seq<Field>, seq<string>)
    requires v.Obj? && n <= |v.fields|
    decreases v, n
  {
    if n == 0 then ([], [])
    else
      var (kept, warn) := ScrubFields(path, v, n - 1);
      var f := v.fields[n - 1];
      if SecretKey(f.key) || Pem(f.value) then (kept, warn + [Warning(FieldPath(path, f.key))])
      else
        var (child, extra) := ScrubValue(FieldPath(path, f.key), f.value);
        (if child.Some? then kept + [Field(f.key, child.value)] else kept, warn + extra)
  }

  /** The first `n` rounds of the array loop. */
  function ScrubItems(path: string, v: Json, n: nat): (seq<Json>, seq<string>)
    requires v.Arr? && n <= |v.items|
    decreases v, n
  {
    if n == 0 then ([], [])
    else
      var (kept, warn) := ScrubItems(path, v, n - 1);
      var item := v.items[n - 1];
      if Pem(item) then (kept, warn + [Warning(path + "[]")])
      else
        var (child, extra) := ScrubValue(path + "[]", item);
        (if child.Some? then kept + [child.value] else kept, warn + extra)
  }

  /** The recursive procedure with its two loops. */
  method ScrubTree(path: string, v: Json) returns (kept: Option<Json>, warn: seq<string>)
    ensures (kept, warn) == ScrubValue(path, v)
    decreases v
  {
    warn := [];
    match v {
      case Obj(fields) =>
        var out: seq<Field> := [];
        for i := 0 to |fields|
          invariant (out, warn) == ScrubFields(path, v, i)
        {
          var f := fields[i];
          if SecretKey(f.key) || Pem(f.value) {
            warn := warn + [Warning(FieldPath(path, f.key))];
          } else {
            var child, extra := ScrubTree(FieldPath(path, f.key), f.value);
            warn := warn + extra;
            if child.Some? {
              out := out + [Field(f.key, child.value)];
            }
          }
        }
        kept := Some(Obj(out));
      case Arr(items) =>
        var out: seq<Json> := [];
        for i := 0 to |items|
          invariant (out, warn) == ScrubItems(path, v, i)
        {
          if Pem(items[i]) {
            warn := warn + [Warning(path + "[]")];
          } else {
            var child, extra := ScrubTree(path + "[]", items[i]);
            warn := warn + extra;
            if child.Some? {
              out := out + [child.value];
            }
          }
        }
        kept := Some(Arr(out));
      case Null => kept := None;
      case _ =>
        if Pem(v) {
          kept, warn := None, [Warning(path)];
        } else {
          kept := Some(v);
        }
    }
  }

  // --------------------------------------------------------- what is left

  /** No secret-named key and no PEM string at any depth. */
  predicate Clean(v: Json)
    decreases v
  {
    match v
    case Obj(fields) => forall i :: 0 <= i < |fields| ==> !SecretKey(fields[i].key) && Clean(fields[i].value)
    case Arr(items) => forall i :: 0 <= i < |items| ==> Clean(items[i])
    case _ => !Pem(v)
  }

  /** No null at any depth. */
  predicate NullFree(v: Json)
    decreases v
  {
    match v
    case Obj(fields) => forall i :: 0 <= i < |fields| ==> NullFree(fields[i].value)
    case Arr(items) => forall i :: 0 <= i < |items| ==> NullFree(items[i])
    case _ => !v.Null?
  }

  lemma {:induction false} ScrubbedIsClean(path: string, v: Json)
    requires ScrubValue(path, v).0.Some?
    ensures Clean(ScrubValue(path, v).0.value) && NullFree(ScrubValue(path, v).0.value)
    decreases v, Width(v) + 1
  {
    match v
    case Obj(fields) => FieldsAreClean(path, v, |fields|);
    case Arr(items) => ItemsAreClean(path, v, |items|);
    case _ =>
  }

  lemma {:induction false} FieldsAreClean(path: string, v: Json, n: nat)
    requires v.Obj? && n <= |v.fields|
    ensures Clean(Obj(ScrubFields(path, v, n).0)) && NullFree(Obj(ScrubFields(path, v, n).0))
    decreases v, n
  {
    if n > 0 {
      FieldsAreClean(path, v, n - 1);
      var f := v.fields[n - 1];
      if !SecretKey(f.key) && !Pem(f.value) && ScrubValue(FieldPath(path, f.key), f.value).0.Some? {
        ScrubbedIsClean(FieldPath(path, f.key), f.value);
      }
    }
  }

  lemma {:induction false} ItemsAreClean(path: string, v: Json, n: nat)
    requires v.Arr? && n <= |v.items|
    ensures Clean(Arr(ScrubItems(path, v, n).0)) && NullFree(Arr(ScrubItems(path, v, n).0))
    decreases v, n
  {
    if n > 0 {
      ItemsAreClean(path, v, n - 1);
      var item := v.items[n - 1];
      if !Pem(item) && ScrubValue(path + "[]", item).0.Some? {
        ScrubbedIsClean(path + "[]", item);
      }
    }
  }

  // ----------------------------------------------------------- idempotence

  lemma {:induction false} CleanIsFixed(path: string, v: Json)
    requires Clean(v) && NullFree(v)
    ensures ScrubValue(path, v) == (Some(v), [])
    decreases v, Width(v) + 1
  {
    match v
    case Obj(fields) =>
      FieldsAreFixed(path, v, |fields|);
      assert fields[..|fields|] == fields;
    case Arr(items) =>
      ItemsAreFixed(path, v, |items|);
      assert items[..|items|] == items;
    case _ =>
  }

  lemma {:induction false} FieldsAreFixed(path: string, v: Json, n: nat)
    requires v.Obj? && Clean(v) && NullFree(v) && n <= |v.fields|
    ensures ScrubFields(path, v, n).0 == v.fields[..n] && ScrubFields(path, v, n).1 == []
    decreases v, n
  {
    if n > 0 {
      FieldsAreFixed(path, v, n - 1);
      var f := v.fields[n - 1];
      assert Clean(f.value) && !Pem(f.value);
      CleanIsFixed(FieldPath(path, f.key), f.value);
      assert v.fields[..n] == v.fields[..n - 1] + [f] && f == Field(f.key, f.value);
    }
  }

  lemma {:induction false} ItemsAreFixed(path: string, v: Json, n: nat)
    requires v.Arr? && Clean(v) && NullFree(v) && n <= |v.items|
    ensures ScrubItems(path, v, n).0 == v.items[..n] && ScrubItems(path, v, n).1 == []
    decreases v, n
  {
    if n > 0 {
      ItemsAreFixed(path, v, n - 1);
      var item := v.items[n - 1];
      assert Clean(item) && !Pem(item);
      CleanIsFixed(path + "[]", item);
      assert v.items[..n] == v.items[..n - 1] + [item];
    }
  }

  /** Scrubbing again, under any path, changes nothing and warns of nothing. */
  lemma ScrubIdempotent(path: string, again: string, v: Json)
    requires ScrubValue(path, v).0.Some?
    ensures ScrubValue(again, ScrubValue(path, v).0.value) == (ScrubValue(path, v).0, [])
  {
    ScrubbedIsClean(path, v);
    CleanIsFixed(again, ScrubValue(path, v).0.value);
  }

  // ------------------------------------------------------------- warnings

  /** There is a warning exactly when there was something secret to drop. */
  lemma {:induction false} WarnsIffUnclean(path: string, v: Json)
    ensures ScrubValue(path, v).1 == [] <==> Clean(v)
    decreases v, Width(v) + 1
  {
    match v
    case Obj(fields) => FieldsWarnIff(path, v, |fields|);
    case Arr(items) => ItemsWarnIff(path, v, |items|);
    case _ =>
  }

  lemma {:induction false} FieldsWarnIff(path: string, v: Json, n: nat)
    requires v.Obj? && n <= |v.fields|
    ensures ScrubFields(path, v, n).1 == [] <==> forall i :: 0 <= i < n ==> !SecretKey(v.fields[i].key) && Clean(v.fields[i].value)
    decreases v, n
  {
    if n > 0 {
      FieldsWarnIff(path, v, n - 1);
      var f := v.fields[n - 1];
      assert FieldWarns(path, f) == [] <==> !SecretKey(f.key) && Clean(f.value) by {
        WarnsIffUnclean(FieldPath(path, f.key), f.value);
      }
      NextField(path, v, n);
    }
  }

  lemma {:induction false} ItemsWarnIff(path: string, v: Json, n: nat)
    requires v.Arr? && n <= |v.items|
    ensures ScrubItems(path, v, n).1 == [] <==> forall i :: 0 <= i < n ==> Clean(v.items[i])
    decreases v, n
  {
    if n > 0 {
      ItemsWarnIff(path, v, n - 1);
      WarnsIffUnclean(path + "[]", v.items[n - 1]);
    }
  }

  // ---------------------------------------------------- nothing else is lost

  datatype Step = Key(key: string) | Elem

  datatype Shape = Object | Array | Leaf(value: Json)

  /** A node of a tree: where it is, and what it is. */
  datatype Node = Node(at: seq<Step>, shape: Shape)

  /** The nodes of a tree in document order. */
  function Nodes(at: seq<Step>, v: Json): seq<Node>
    decreases v, Width(v) + 1
  {
    match v
    case Obj(fields) => [Node(at, Object)] + FieldNodes(at, v, |fields|)
    case Arr(items) => [Node(at, Array)] + ItemNodes(at, v, |items|)
    case _ => [Node(at, Leaf(v))]
  }

  function FieldNodes(at: seq<Step>, v: Json, n: nat): seq<Node>
    requires v.Obj? && n <= |v.fields|
    decreases v, n
  {
    if n == 0 then []
    else FieldNodes(at, v, n - 1) + Nodes(at + [Key(v.fields[n - 1].key)], v.fields[n - 1].value)
  }

  function ItemNodes(at: seq<Step>, v: Json, n: nat): seq<Node>
    requires v.Arr? && n <= |v.items|
    decreases v, n
  {
    if n == 0 then [] else ItemNodes(at, v, n - 1) + Nodes(at + [Elem], v.items[n - 1])
  }

  predicate SecretStep(s: Step) { s.Key? && SecretKey(s.key) }

  predicate OpenPath(at: seq<Step>) { forall i :: 0 <= i < |at| ==> !SecretStep(at[i]) }

  /** Not under a secret-named key, not a PEM string and not null. */
  predicate Survives(n: Node) {
    OpenPath(n.at) && !(n.shape.Leaf? && (n.shape.value.Null? || Pem(n.shape.value)))
  }

  function Survivors(nodes: seq<Node>): seq<Node> {
    if nodes == [] then []
    else
      var rest := Survivors(nodes[..|nodes| - 1]);
      if Survives(nodes[|nodes| - 1]) then rest + [nodes[|nodes| - 1]] else rest
  }

  lemma {:induction false} SurvivorsSplit(a: seq<Node>, b: seq<Node>)
    ensures Survivors(a + b) == Survivors(a) + Survivors(b)
  {
    if b == [] {
      assert a + b == a;
    } else {
      assert (a + b)[..|a + b| - 1] == a + b[..|b| - 1];
      SurvivorsSplit(a, b[..|b| - 1]);
    }
  }

  lemma {:induction false} RootSurvives(root: Node, rest: seq<Node>)
    ensures Survivors([root] + rest) == (if Survives(root) then [root] else []) + Survivors(rest)
  {
    SurvivorsSplit([root], rest);
    assert [root][..0] == [];
  }

  /** Nothing survives under a secret-named key. */
  lemma {:induction false} NothingUnderSecret(at: seq<Step>, v: Json)
    requires !OpenPath(at)
    ensures Survivors(Nodes(at, v)) == []
    decreases v, Width(v) + 1
  {
    match v
    case Obj(fields) =>
      RootSurvives(Node(at, Object), FieldNodes(at, v, |fields|));
      NoFieldUnderSecret(at, v, |fields|);
    case Arr(items) =>
      RootSurvives(Node(at, Array), ItemNodes(at, v, |items|));
      NoItemUnderSecret(at, v, |items|);
    case _ =>
  }

  lemma {:induction false} NoFieldUnderSecret(at: seq<Step>, v: Json, n: nat)
    requires !OpenPath(at) && v.Obj? && n <= |v.fields|
    ensures Survivors(FieldNodes(at, v, n)) == []
    decreases v, n
  {
    if n > 0 {
      var f := v.fields[n - 1];
      var before, last := FieldNodes(at, v, n - 1), Nodes(at + [Key(f.key)], f.value);
      assert Survivors(before) == [] by { NoFieldUnderSecret(at, v, n - 1); }
      assert Survivors(last) == [] by {
        LongerPath(at, Key(f.key));
        NothingUnderSecret(at + [Key(f.key)], f.value);
      }
      SurvivorsSplit(before, last);
    }
  }

  lemma {:induction false} NoItemUnderSecret(at: seq<Step>, v: Json, n: nat)
    requires !OpenPath(at) && v.Arr? && n <= |v.items|
    ensures Survivors(ItemNodes(at, v, n)) == []
    decreases v, n
  {
    if n > 0 {
      var before, last := ItemNodes(at, v, n - 1), Nodes(at + [Elem], v.items[n - 1]);
      assert Survivors(before) == [] by { NoItemUnderSecret(at, v, n - 1); }
      assert Survivors(last) == [] by {
        LongerPath(at, Elem);
        NothingUnderSecret(at + [Elem], v.items[n - 1]);
      }
      SurvivorsSplit(before, last);
    }
  }

  lemma LongerPath(at: seq<Step>, s: Step)
    ensures OpenPath(at + [s]) <==> OpenPath(at) && !SecretStep(s)
  {
    assert (at + [s])[|at|] == s;
    assert forall i :: 0 <= i < |at| ==> (at + [s])[i] == at[i];
  }

  function NodesOf(at: seq<Step>, v: Option<Json>): seq<Node> { if v.None? then [] else Nodes(at, v.value) }

  /** Appending a field or an item appends its nodes. */
  lemma {:induction false} FieldNodesPrefix(at: seq<Step>, fields: seq<Field>, f: Field, n: nat)
    requires n <= |fields|
    ensures FieldNodes(at, Obj(fields + [f]), n) == FieldNodes(at, Obj(fields), n)
  {
    if n > 0 { FieldNodesPrefix(at, fields, f, n - 1); }
  }

  lemma {:induction false} ItemNodesPrefix(at: seq<Step>, items: seq<Json>, item: Json, n: nat)
    requires n <= |items|
    ensures ItemNodes(at, Arr(items + [item]), n) == ItemNodes(at, Arr(items), n)
  {
    if n > 0 { ItemNodesPrefix(at, items, item, n - 1); }
  }

  /**
   The nodes of the scrubbed tree are exactly the surviving nodes of the
   original, in their order: everything secret or null is dropped, and nothing else.
   */
  lemma {:induction false} ScrubKeepsSurvivors(path: string, at: seq<Step>, v: Json)
    requires OpenPath(at)
    ensures NodesOf(at, ScrubValue(path, v).0) == Survivors(Nodes(at, v))
    decreases v, Width(v) + 1
  {
    match v
    case Obj(fields) =>
      FieldsKeepSurvivors(path, at, v, |fields|);
      RootSurvives(Node(at, Object), FieldNodes(at, v, |fields|));
    case Arr(items) =>
      ItemsKeepSurvivors(path, at, v, |items|);
      RootSurvives(Node(at, Array), ItemNodes(at, v, |items|));
    case _ =>
  }

  /** What becomes of one field, whatever reason it is dropped for. */
  function ScrubField(path: string, f: Field): (r: Option<Json>) {
    if SecretKey(f.key) || Pem(f.value) then None else ScrubValue(FieldPath(path, f.key), f.value).0
  }

  lemma {:induction false} FieldKeepsSurvivors(path: string, at: seq<Step>, f: Field)
    requires OpenPath(at)
    ensures NodesOf(at + [Key(f.key)], ScrubField(path, f)) == Survivors(Nodes(at + [Key(f.key)], f.value))
    decreases f.value, Width(f.value) + 2
  {
    LongerPath(at, Key(f.key));
    if SecretKey(f.key) {
      NothingUnderSecret(at + [Key(f.key)], f.value);
    } else if !Pem(f.value) {
      ScrubKeepsSurvivors(FieldPath(path, f.key), at + [Key(f.key)], f.value);
    }
  }

  lemma {:induction false} FieldNodesGrow(at: seq<Step>, fields: seq<Field>, key: string, child: Option<Json>)
    ensures
      var grown := if child.Some? then fields + [Field(key, child.value)] else fields;
      FieldNodes(at, Obj(grown), |grown|) == FieldNodes(at, Obj(fields), |fields|) + NodesOf(at + [Key(key)], child)
  {
    if child.Some? {
      FieldNodesPrefix(at, fields, Field(key, child.value), |fields|);
    }
  }

  lemma {:induction false} FieldsKeepSurvivors(path: string, at: seq<Step>, v: Json, n: nat)
    requires OpenPath(at) && v.Obj? && n <= |v.fields|
    ensures
      var kept := ScrubFields(path, v, n).0;
      FieldNodes(at, Obj(kept), |kept|) == Survivors(FieldNodes(at, v, n))
    decreases v, n
  {
    if n > 0 {
      var f := v.fields[n - 1];
      FieldsKeepSurvivors(path, at, v, n - 1);
      FieldKeepsSurvivors(path, at, f);
      SurvivorsSplit(FieldNodes(at, v, n - 1), Nodes(at + [Key(f.key)], f.value));
      FieldNodesGrow(at, ScrubFields(path, v, n - 1).0, f.key, ScrubField(path, f));
    }
  }

  function ScrubItem(path: string, item: Json): Option<Json> {
    if Pem(item) then None else ScrubValue(path + "[]", item).0
  }

  lemma {:induction false} ItemKeepsSurvivors(path: string, at: seq<Step>, item: Json)
    requires OpenPath(at)
    ensures NodesOf(at + [Elem], ScrubItem(path, item)) == Survivors(Nodes(at + [Elem], item))
    decreases item, Width(item) + 2
  {
    LongerPath(at, Elem);
    if !Pem(item) {
      ScrubKeepsSurvivors(path + "[]", at + [Elem], item);
    }
  }

  lemma {:induction false} ItemNodesGrow(at: seq<Step>, items: seq<Json>, child: Option<Json>)
    ensures
      var grown := if child.Some? then items + [child.value] else items;
      ItemNodes(at, Arr(grown), |grown|) == ItemNodes(at, Arr(items), |items|) + NodesOf(at + [Elem], child)
  {
    if child.Some? {
      ItemNodesPrefix(at, items, child.value, |items|);
    }
  }

  lemma {:induction false} ItemsKeepSurvivors(path: string, at: seq<Step>, v: Json, n: nat)
    requires OpenPath(at) && v.Arr? && n <= |v.items|
    ensures
      var kept := ScrubItems(path, v, n).0;
      ItemNodes(at, Arr(kept), |kept|) == Survivors(ItemNodes(at, v, n))
    decreases v, n
  {
    if n > 0 {
      var item := v.items[n - 1];
      ItemsKeepSurvivors(path, at, v, n - 1);
      ItemKeepsSurvivors(path, at, item);
      SurvivorsSplit(ItemNodes(at, v, n - 1), Nodes(at + [Elem], item));
      ItemNodesGrow(at, ScrubItems(path, v, n - 1).0, ScrubItem(path, item));
    }
  }

  // ---------------------------------------------- what the warnings name

  /** The path of a node as the warnings write it. */
  function Render(at: seq<Step>): string {
    if at == [] then ""
    else
      var up := Render(at[..|at| - 1]);
      match at[|at| - 1]
      case Key(k) => if up == "" then k else up + "." + k
      case Elem => up + "[]"
  }

  lemma RenderStep(at: seq<Step>, s: Step)
    ensures Render(at + [s]) == match s case Key(k) => FieldPath(Render(at), k) case Elem => Render(at) + "[]"
  {
    assert (at + [s])[..|at|] == at;
  }

  /** The topmost secret nodes: a secret-named field, or a PEM string, not below a secret-named field. */
  predicate Offends(n: Node) {
    if n.at != [] && SecretStep(n.at[|n.at| - 1]) then OpenPath(n.at[..|n.at| - 1])
    else OpenPath(n.at) && n.shape.Leaf? && Pem(n.shape.value)
  }

  /** One warning for each offending node, in order. */
  function Offences(nodes: seq<Node>): seq<string> {
    if nodes == [] then []
    else
      var rest, n := Offences(nodes[..|nodes| - 1]), nodes[|nodes| - 1];
      if Offends(n) then rest + ["dropped secret-like field " + Render(n.at) + "; use file refs"] else rest
  }

  lemma {:induction false} OffencesSplit(a: seq<Node>, b: seq<Node>)
    ensures Offences(a + b) == Offences(a) + Offences(b)
  {
    if b == [] {
      assert a + b == a;
    } else {
      assert (a + b)[..|a + b| - 1] == a + b[..|b| - 1];
      OffencesSplit(a, b[..|b| - 1]);
    }
  }

  lemma OneOffence(n: Node)
    ensures Offences([n]) == if Offends(n) then [Warning(Render(n.at))] else []
  {
    assert [n][..0] == [];
  }

  /** Below a secret-named field nothing offends. */
  lemma {:induction false} NoneBelow(at: seq<Step>, v: Json)
    requires at != [] && !OpenPath(at[..|at| - 1])
    ensures Offences(Nodes(at, v)) == []
    decreases v, Width(v) + 1
  {
    PrefixClosed(at);
    match v
    case Obj(fields) =>
      NoFieldBelow(at, v, |fields|);
      RootOffence(Node(at, Object), FieldNodes(at, v, |fields|));
    case Arr(items) =>
      NoItemBelow(at, v, |items|);
      RootOffence(Node(at, Array), ItemNodes(at, v, |items|));
    case _ => OneOffence(Node(at, Leaf(v)));
  }

  lemma {:induction false} RootOffence(root: Node, rest: seq<Node>)
    ensures Offences([root] + rest) == (if Offends(root) then [Warning(Render(root.at))] else []) + Offences(rest)
  {
    OneOffence(root);
    OffencesSplit([root], rest);
  }

  lemma PrefixClosed(at: seq<Step>)
    requires at != [] && !OpenPath(at[..|at| - 1])
    ensures !OpenPath(at) && forall shape :: !Offends(Node(at, shape))
  {
    var i :| 0 <= i < |at| - 1 && SecretStep(at[..|at| - 1][i]);
    assert SecretStep(at[i]);
  }

  lemma {:induction false} NoFieldBelow(at: seq<Step>, v: Json, n: nat)
    requires !OpenPath(at) && v.Obj? && n <= |v.fields|
    ensures Offences(FieldNodes(at, v, n)) == []
    decreases v, n
  {
    if n > 0 {
      var f := v.fields[n - 1];
      var before, last := FieldNodes(at, v, n - 1), Nodes(at + [Key(f.key)], f.value);
      NoFieldBelow(at, v, n - 1);
      assert (at + [Key(f.key)])[..|at|] == at;
      NoneBelow(at + [Key(f.key)], f.value);
      OffencesSplit(before, last);
    }
  }

  lemma {:induction false} NoItemBelow(at: seq<Step>, v: Json, n: nat)
    requires !OpenPath(at) && v.Arr? && n <= |v.items|
    ensures Offences(ItemNodes(at, v, n)) == []
    decreases v, n
  {
    if n > 0 {
      var before, last := ItemNodes(at, v, n - 1), Nodes(at + [Elem], v.items[n - 1]);
      NoItemBelow(at, v, n - 1);
      assert (at + [Elem])[..|at|] == at;
      NoneBelow(at + [Elem], v.items[n - 1]);
      OffencesSplit(before, last);
    }
  }

  /** A secret-named field offends once, however much is below it. */
  lemma {:induction false} SecretFieldOffendsOnce(at: seq<Step>, k: string, v: Json)
    requires OpenPath(at) && SecretKey(k)
    ensures Offences(Nodes(at + [Key(k)], v)) == [Warning(Render(at + [Key(k)]))]
  {
    var here := at + [Key(k)];
    assert here[|here| - 1] == Key(k) && here[..|here| - 1] == at;
    LongerPath(at, Key(k));
    match v
    case Obj(fields) =>
      NoFieldBelow(here, v, |fields|);
      RootOffence(Node(here, Object), FieldNodes(here, v, |fields|));
    case Arr(items) =>
      NoItemBelow(here, v, |items|);
      RootOffence(Node(here, Array), ItemNodes(here, v, |items|));
    case _ => OneOffence(Node(here, Leaf(v)));
  }

  /** The warnings are one for each topmost secret-named field and each PEM string, with its path, in document order. */
  lemma {:induction false} WarningsNameOffences(at: seq<Step>, v: Json)
    requires OpenPath(at)
    ensures ScrubValue(Render(at), v).1 == Offences(Nodes(at, v))
    decreases v, Width(v) + 1
  {
    match v
    case Obj(fields) =>
      FieldWarnings(at, v, |fields|);
      RootOffence(Node(at, Object), FieldNodes(at, v, |fields|));
    case Arr(items) =>
      ItemWarnings(at, v, |items|);
      RootOffence(Node(at, Array), ItemNodes(at, v, |items|));
    case _ =>
      OneOffence(Node(at, Leaf(v)));
      assert at != [] ==> !SecretStep(at[|at| - 1]);
  }

  lemma {:induction false} FieldWarnings(at: seq<Step>, v: Json, n: nat)
    requires OpenPath(at) && v.Obj? && n <= |v.fields|
    ensures ScrubFields(Render(at), v, n).1 == Offences(FieldNodes(at, v, n))
    decreases v, n
  {
    if n > 0 {
      var f := v.fields[n - 1];
      FieldWarnings(at, v, n - 1);
      assert Offences(Nodes(at + [Key(f.key)], f.value)) == FieldWarns(Render(at), f) by { FieldWarning(at, f); }
      NextField(Render(at), v, n);
      OffencesSplit(FieldNodes(at, v, n - 1), Nodes(at + [Key(f.key)], f.value));
    }
  }

  /** The warnings of one field. */
  function FieldWarns(path: string, f: Field): seq<string> {
    if SecretKey(f.key) || Pem(f.value) then [Warning(FieldPath(path, f.key))] else ScrubValue(FieldPath(path, f.key), f.value).1
  }

  lemma {:induction false} NextField(path: string, v: Json, n: nat)
    requires v.Obj? && 0 < n <= |v.fields|
    ensures ScrubFields(path, v, n).1 == ScrubFields(path, v, n - 1).1 + FieldWarns(path, v.fields[n - 1])
  {
  }

  lemma {:induction false} NextItem(path: string, v: Json, n: nat)
    requires v.Arr? && 0 < n <= |v.items|
    ensures ScrubItems(path, v, n).1 == ScrubItems(path, v, n - 1).1 + ScrubValue(path + "[]", v.items[n - 1]).1
  {
  }

  lemma {:induction false} FieldWarning(at: seq<Step>, f: Field)
    requires OpenPath(at)
    ensures FieldWarns(Render(at), f) == Offences(Nodes(at + [Key(f.key)], f.value))
    decreases f.value, Width(f.value) + 2
  {
    RenderStep(at, Key(f.key));
    LongerPath(at, Key(f.key));
    if SecretKey(f.key) {
      SecretFieldOffendsOnce(at, f.key, f.value);
    } else {
      WarningsNameOffences(at + [Key(f.key)], f.value);
    }
  }

  lemma {:induction false} ItemWarnings(at: seq<Step>, v: Json, n: nat)
    requires OpenPath(at) && v.Arr? && n <= |v.items|
    ensures ScrubItems(Render(at), v, n).1 == Offences(ItemNodes(at, v, n))
    decreases v, n
  {
    if n > 0 {
      ItemWarnings(at, v, n - 1);
      assert Offences(Nodes(at + [Elem], v.items[n - 1])) == ScrubValue(Render(at) + "[]", v.items[n - 1]).1 by {
        RenderStep(at, Elem);
        LongerPath(at, Elem);
        WarningsNameOffences(at + [Elem], v.items[n - 1]);
      }
      NextItem(Render(at), v, n);
      OffencesSplit(ItemNodes(at, v, n - 1), Nodes(at + [Elem], v.items[n - 1]));
    }
  }

  /** The test for secret names ignores case, and covers these twenty names. */
  lemma SecretNames(k: string)
    ensures SecretKey(k) <==> Lower(k) in {
      "client_secret", "clientsecret", "password", "private_key", "privatekey", "pem", "jwks", "passwordcredentials",
      "keycredentials", "secrettext", "token", "access_token", "accesstoken", "refresh_token", "refreshtoken", "id_token",
      "idtoken", "authorization", "apikey", "api_key"}
    ensures |Lower(k)| == |k| && forall i :: 0 <= i < |k| && 'A' <= k[i] <= 'Z' ==> Lower(k)[i] as int == k[i] as int + 32
    ensures forall i :: 0 <= i < |k| && k[i] < '\U{0080}' && !('A' <= k[i] <= 'Z') ==> Lower(k)[i] == k[i]
  {
  }

  /** A string is PEM-like if its upper-case form holds the marker somewhere. */
  lemma PemIff(v: Json)
    ensures Pem(v) <==> v.Str? && exists i :: 0 <= i <= |v.text| && HasAt(Upper(v.text), "-----BEGIN ", i)
  {
    if v.Str? {
      assert |Upper(v.text)| == |v.text|;
    }
  }
}
