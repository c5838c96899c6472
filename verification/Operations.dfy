/**
 Operation lists over the desired-state document (internal/app/ops.go). The JSON
 decoder is a partial function per target type.
 */
module Operations {
  import opened Basics
  import opened Documents
  import opened Snapshots

  datatype OpKind = Add | Update | Remove | OtherOp(text: string)

  datatype Target =
    | ClientTarget | UserTarget | GroupTarget | ProfileTarget | ProtocolsTarget | AuthTarget
    | OverageTarget | ListenersTarget | AccessTarget | UiTarget | ManagementTarget | IssuerTarget
    | OtherTarget(text: string)

  /** A JSON value: text from a caller, or what the program itself marshalled. */
  datatype Value =
    | Text(json: string)
    | OfClient(client: Client)
    | OfProfile(profile: Profile)
    | OfAuth(auth: Auth)
    | OfOverage(overage: GroupOverage)

  datatype Operation = Operation(op: OpKind, target: Target, id: string, value: Value)

  /** Strict decoding of caller-supplied text, one partial function per target type. */
  datatype Codec = Codec(
    client: string -> Option<Client>, user: string -> Option<User>, group: string -> Option<Group>,
    profile: string -> Option<Profile>, protocols: string -> Option<Protocols>, auth: string -> Option<Auth>,
    overage: string -> Option<GroupOverage>, listeners: string -> Option<Listeners>,
    management: string -> Option<Management>, access: string -> Option<string>, ui: string -> Option<Option<bool>>,
    issuerObject: string -> Option<string>, issuerString: string -> Option<string>,
    importClient: (string, string) -> Option<Client>)

  function AsClient(k: Codec, v: Value): Option<Client> {
    match v case OfClient(c) => Some(c) case Text(t) => k.client(t) case _ => None
  }
  function AsProfile(k: Codec, v: Value): Option<Profile> {
    match v case OfProfile(p) => Some(p) case Text(t) => k.profile(t) case _ => None
  }
  function AsAuth(k: Codec, v: Value): Option<Auth> {
    match v case OfAuth(a) => Some(a) case Text(t) => k.auth(t) case _ => None
  }
  function AsOverage(k: Codec, v: Value): Option<GroupOverage> {
    match v case OfOverage(g) => Some(g) case Text(t) => k.overage(t) case _ => None
  }
  function AsText<T>(decode: string -> Option<T>, v: Value): Option<T> {
    if v.Text? then decode(v.json) else None
  }

  const ZERO_LISTENERS := Listeners(HttpsListener("", "", ""), ZERO_MANAGEMENT)
  const ZERO_MANAGEMENT := Management("", "", "", false)

  // ------------------------------------------------------------------ lists

  /** The first position whose id matches, or the length. */
  function IndexById<T>(list: seq<T>, id: string, idOf: T -> string): (i: nat)
    ensures i <= |list|
    ensures i < |list| ==> idOf(list[i]) == id
    ensures forall j :: 0 <= j < i ==> idOf(list[j]) != id
  {
    if list == [] || idOf(list[0]) == id then 0 else 1 + IndexById(list[1..], id, idOf)
  }

  function MutateList<T>(list: seq<T>, op: OpKind, id: string, decoded: Option<T>, idOf: T -> string): Result<seq<T>> {
    if id == "" then Err(Validation)
    else
      var i := IndexById(list, id, idOf);
      match op
      case Remove => if i == |list| then Err(NotFound) else Ok(list[..i] + list[i + 1..])
      case Add =>
        if i < |list| then Err(Conflict)
        else if decoded.None? || idOf(decoded.value) != id then Err(Validation)
        else Ok(list + [decoded.value])
      case Update =>
        if i == |list| then Err(NotFound)
        else if decoded.None? || idOf(decoded.value) != id then Err(Validation)
        else Ok(list[i := decoded.value])
      case OtherOp(_) => Ok(list)
  }

  function MutateSingleton<T>(op: OpKind, decoded: Option<T>, zero: T): Result<T> {
    if op.Remove? then Ok(zero) else if decoded.None? then Err(Validation) else Ok(decoded.value)
  }

  function MutateIssuer(k: Codec, op: OpKind, v: Value): Result<string> {
    var wrapped, text := AsText(k.issuerObject, v), AsText(k.issuerString, v);
    if op.Remove? then Ok("")
    else if wrapped.None? then (if text.None? then Err(Validation) else Ok(text.value))
    else if wrapped.value == "" then Err(Validation)
    else Ok(wrapped.value)
  }

  // ------------------------------------------------------------- documents

  /** The one field an operation overwrites, and with what. */
  datatype Edit =
    | SetClients(clients: seq<Client>)
    | SetUsers(users: seq<User>)
    | SetGroups(groups: seq<Group>)
    | SetProfile(profile: Profile)
    | SetProtocols(protocols: Protocols)
    | SetAuth(auth: Auth)
    | SetOverage(overage: GroupOverage)
    | SetListeners(listeners: Listeners)
    | SetAccess(accessRef: string)
    | SetUi(enabled: Option<bool>)
    | SetManagement(management: Management)
    | SetIssuer(issuer: string)

  function Overwrite(s: Spec, e: Edit): Spec {
    match e
    case SetClients(x) => s.(clients := x)
    case SetUsers(x) => s.(users := x)
    case SetGroups(x) => s.(groups := x)
    case SetProfile(x) => s.(profile := x)
    case SetProtocols(x) => s.(protocols := x)
    case SetAuth(x) => s.(auth := x)
    case SetOverage(x) => s.(groupOverage := x)
    case SetListeners(x) => s.(listeners := x)
    case SetAccess(x) => s.(accessRef := x)
    case SetUi(x) => s.(uiEnabled := x)
    case SetManagement(x) => s.(listeners := s.listeners.(management := x))
    case SetIssuer(x) => s.(issuer := x)
  }

  function Wrap<T>(r: Result<T>, edit: T -> Edit): Result<Edit> { if r.Err? then Err(r.error) else Ok(edit(r.value)) }

  /** The switch of applyOne. */
  function EditOf(k: Codec, s: Spec, o: Operation): Result<Edit> {
    match o.target
    case ClientTarget => Wrap(MutateList(s.clients, o.op, o.id, AsClient(k, o.value), BY_ID), x => SetClients(x))
    case UserTarget => Wrap(MutateList(s.users, o.op, o.id, AsText(k.user, o.value), BY_USER_ID), x => SetUsers(x))
    case GroupTarget => Wrap(MutateList(s.groups, o.op, o.id, AsText(k.group, o.value), BY_GROUP_ID), x => SetGroups(x))
    case ProfileTarget => Wrap(MutateSingleton(o.op, AsProfile(k, o.value), Profile("", "")), x => SetProfile(x))
    case ProtocolsTarget =>
      Wrap(MutateSingleton(o.op, AsText(k.protocols, o.value), Protocols(None, None, None)), x => SetProtocols(x))
    case AuthTarget => Wrap(MutateSingleton(o.op, AsAuth(k, o.value), Auth(0, Unset)), x => SetAuth(x))
    case OverageTarget => Wrap(MutateSingleton(o.op, AsOverage(k, o.value), GroupOverage(false, 0, 0)), x => SetOverage(x))
    case ListenersTarget => Wrap(MutateSingleton(o.op, AsText(k.listeners, o.value), ZERO_LISTENERS), x => SetListeners(x))
    case AccessTarget => Wrap(MutateSingleton(o.op, AsText(k.access, o.value), ""), x => SetAccess(x))
    case UiTarget => Wrap(MutateSingleton(o.op, AsText(k.ui, o.value), None), x => SetUi(x))
    case ManagementTarget =>
      Wrap(MutateSingleton(o.op, AsText(k.management, o.value), ZERO_MANAGEMENT), x => SetManagement(x))
    case IssuerTarget => Wrap(MutateIssuer(k, o.op, o.value), x => SetIssuer(x))
    case OtherTarget(_) => Err(Validation)
  }

  /** applyOne. */
  function ApplyOp(k: Codec, d: Document, o: Operation): Result<Document> {
    if o.op.OtherOp? then Err(Validation)
    else
      var edit := EditOf(k, d.spec, o);
      if edit.Err? then Err(edit.error) else Ok(d.(spec := Overwrite(d.spec, edit.value)))
  }

  /** applyOperations: in order, stopping at the first failure. */
  function ApplyOps(k: Codec, d: Document, ops: seq<Operation>): Result<Document> {
    if ops == [] then Ok(d)
    else
      var before := ApplyOps(k, d, ops[..|ops| - 1]);
      if before.Err? then before else ApplyOp(k, before.value, ops[|ops| - 1])
  }

  lemma {:induction false} ApplyOpsFails(k: Codec, d: Document, ops: seq<Operation>, i: nat)
    requires i <= |ops| && ApplyOps(k, d, ops[..i]).Err?
    ensures ApplyOps(k, d, ops) == ApplyOps(k, d, ops[..i])
    decreases |ops| - i
  {
    if i == |ops| {
      assert ops[..i] == ops;
    } else {
      assert ops[..i + 1][..i] == ops[..i];
      ApplyOpsFails(k, d, ops, i + 1);
    }
  }

  /** Two batches in a row are one batch. */
  lemma {:induction false} ApplyOpsConcat(k: Codec, d: Document, a: seq<Operation>, b: seq<Operation>)
    requires ApplyOps(k, d, a).Ok?
    ensures ApplyOps(k, d, a + b) == ApplyOps(k, ApplyOps(k, d, a).value, b)
  {
    if b == [] {
      assert a + b == a;
    } else {
      assert (a + b)[..|a + b| - 1] == a + b[..|b| - 1];
      ApplyOpsConcat(k, d, a, b[..|b| - 1]);
    }
  }

  // ------------------------------------------ lists as maps from ids to items

  /** What the list holds under `k` after the operation. */
  function Expected<T>(list: seq<T>, op: OpKind, id: string, decoded: Option<T>, idOf: T -> string, k: string): Option<T> {
    if k != id then FindBy(list, idOf, k) else if op.Remove? then None else decoded
  }

  lemma {:induction false} FindByConcat<T(!new)>(a: seq<T>, b: seq<T>, key: T -> string, k: string)
    ensures FindBy(a + b, key, k) == if FindBy(a, key, k).Some? then FindBy(a, key, k) else FindBy(b, key, k)
  {
    if a == [] {
      assert a + b == b;
    } else {
      assert (a + b)[1..] == a[1..] + b;
      FindByConcat(a[1..], b, key, k);
    }
  }

  lemma {:induction false} FindAround<T(!new)>(p: seq<T>, x: T, q: seq<T>, key: T -> string, k: string)
    ensures FindBy(p + [x] + q, key, k) ==
              if FindBy(p, key, k).Some? then FindBy(p, key, k) else if key(x) == k then Some(x) else FindBy(q, key, k)
  {
    FindByConcat(p, [x] + q, key, k);
    assert p + [x] + q == p + ([x] + q) && ([x] + q)[1..] == q;
  }

  /** Around its first occurrence a key is nowhere else, when keys are distinct. */
  lemma KeyAround<T(!new)>(list: seq<T>, i: nat, key: T -> string)
    requires DistinctBy(list, key) && i < |list|
    ensures list == list[..i] + [list[i]] + list[i + 1..]
    ensures FindBy(list[..i], key, key(list[i])) == None && FindBy(list[i + 1..], key, key(list[i])) == None
  {
    FindByNone(list[..i], key, key(list[i]));
    FindByNone(list[i + 1..], key, key(list[i]));
  }

  /** A list operation is the map update it names: its own id changes as asked, every other id keeps its item. */
  lemma {:induction false} ListOpIsMapUpdate<T(!new)>(list: seq<T>, op: OpKind, id: string, decoded: Option<T>, idOf: T -> string, k: string)
    requires DistinctBy(list, idOf) && !op.OtherOp? && MutateList(list, op, id, decoded, idOf).Ok?
    ensures FindBy(MutateList(list, op, id, decoded, idOf).value, idOf, k) == Expected(list, op, id, decoded, idOf, k)
  {
    var i := IndexById(list, id, idOf);
    if op.Add? {
      FindByNone(list, idOf, id);
      assert list + [decoded.value] == list + [decoded.value] + [];
      FindAround(list, decoded.value, [], idOf, k);
    } else {
      var p, x, q := list[..i], list[i], list[i + 1..];
      KeyAround(list, i, idOf);
      FindAround(p, x, q, idOf, k);
      if op.Update? {
        assert list[i := decoded.value] == p + [decoded.value] + q;
        FindAround(p, decoded.value, q, idOf, k);
      } else {
        FindByConcat(p, q, idOf, k);
      }
    }
  }

  /** Operations keep ids distinct. */
  lemma ListOpKeepsIdsDistinct<T(!new)>(list: seq<T>, op: OpKind, id: string, decoded: Option<T>, idOf: T -> string)
    requires DistinctBy(list, idOf) && MutateList(list, op, id, decoded, idOf).Ok?
    ensures DistinctBy(MutateList(list, op, id, decoded, idOf).value, idOf)
  {
    var i, r := IndexById(list, id, idOf), MutateList(list, op, id, decoded, idOf).value;
    if op.Remove? {
      assert forall j :: 0 <= j < |r| ==> r[j] == list[if j < i then j else j + 1];
    }
  }

  /** Success says whether the id was there: add needs it absent, update and remove need it present. */
  lemma ListOpNeedsPresence<T(!new)>(list: seq<T>, op: OpKind, id: string, decoded: Option<T>, idOf: T -> string)
    requires id != "" && !op.OtherOp?
    ensures MutateList(list, op, id, decoded, idOf).Ok? <==>
              && (op.Add? <==> FindBy(list, idOf, id) == None)
              && (!op.Remove? ==> decoded.Some? && idOf(decoded.value) == id)
  {
    var i := IndexById(list, id, idOf);
    if i == |list| {
      FindByNone(list, idOf, id);
    } else {
      FindByHit(list, idOf, i);
    }
  }

  lemma {:induction false} FindByHit<T(!new)>(list: seq<T>, key: T -> string, i: nat)
    requires i < |list|
    ensures FindBy(list, key, key(list[i])).Some?
  {
    if key(list[0]) != key(list[i]) {
      FindByHit(list[1..], key, i - 1);
    }
  }

  /** Removing what was added restores the list. */
  lemma RemoveUndoesAdd<T(!new)>(list: seq<T>, id: string, x: T, idOf: T -> string)
    requires MutateList(list, Add, id, Some(x), idOf).Ok?
    ensures MutateList(MutateList(list, Add, id, Some(x), idOf).value, Remove, id, None, idOf) == Ok(list)
  {
    var r := list + [x];
    assert r[|list|] == x && forall j :: 0 <= j < |list| ==> r[j] == list[j];
    assert IndexById(r, id, idOf) == |list|;
    assert r[..|list|] + r[|list| + 1..] == list;
  }

  /** Updating back restores the list. */
  lemma UpdateUndoesUpdate<T(!new)>(list: seq<T>, id: string, x: T, idOf: T -> string)
    requires MutateList(list, Update, id, Some(x), idOf).Ok?
    ensures MutateList(MutateList(list, Update, id, Some(x), idOf).value, Update, id, FindBy(list, idOf, id), idOf) == Ok(list)
  {
    var i := IndexById(list, id, idOf);
    var r := list[i := x];
    assert r[i] == x && forall j :: 0 <= j < i ==> r[j] == list[j];
    assert IndexById(r, id, idOf) == i;
    FindFirstBy(list, idOf, id, i);
    assert r[i := list[i]] == list;
  }

  lemma {:induction false} FindFirstBy<T(!new)>(list: seq<T>, key: T -> string, k: string, i: nat)
    requires i < |list| && key(list[i]) == k && forall j :: 0 <= j < i ==> key(list[j]) != k
    ensures FindBy(list, key, k) == Some(list[i])
  {
    if i > 0 {
      FindFirstBy(list[1..], key, k, i - 1);
    }
  }

  // ---------------------------------------- operations on a whole document

  /** The new list in its order: add appends, update replaces in place, remove closes the gap. */
  ghost predicate ListEdited<T(!new)>(before: seq<T>, after: seq<T>, op: OpKind, id: string, decoded: Option<T>, idOf: T -> string) {
    match op
    case Add => decoded.Some? && after == before + [decoded.value]
    case Update =>
      decoded.Some? && exists i :: 0 <= i < |before| && idOf(before[i]) == id && after == before[i := decoded.value]
    case Remove => exists i :: 0 <= i < |before| && idOf(before[i]) == id && after == before[..i] + before[i + 1..]
    case OtherOp(_) => false
  }

  lemma ListOpEdits<T(!new)>(list: seq<T>, op: OpKind, id: string, decoded: Option<T>, idOf: T -> string)
    requires !op.OtherOp? && MutateList(list, op, id, decoded, idOf).Ok?
    ensures ListEdited(list, MutateList(list, op, id, decoded, idOf).value, op, id, decoded, idOf)
  {
    var i := IndexById(list, id, idOf);
    assert !op.Add? ==> i < |list| && idOf(list[i]) == id;
  }

  /** The exact error of a list operation. */
  function ListError<T>(present: bool, op: OpKind, id: string, decoded: Option<T>, idOf: T -> string): Option<Error> {
    if id == "" then Some(Validation)
    else if op.Add? && present then Some(Conflict)
    else if !op.Add? && !present then Some(NotFound)
    else if !op.Remove? && (decoded.None? || idOf(decoded.value) != id) then Some(Validation)
    else None
  }

  lemma ListOpFailsIff<T(!new)>(list: seq<T>, op: OpKind, id: string, decoded: Option<T>, idOf: T -> string)
    requires !op.OtherOp?
    ensures
      var r, e := MutateList(list, op, id, decoded, idOf), ListError(FindBy(list, idOf, id).Some?, op, id, decoded, idOf);
      (r.Err? <==> e.Some?) && (r.Err? ==> r.error == e.value)
  {
    var i := IndexById(list, id, idOf);
    if i == |list| {
      FindByNone(list, idOf, id);
    } else {
      FindByHit(list, idOf, i);
    }
  }

  /** An operation on a client changes the clients and nothing else: in order, by id, and failing as the list does. */
  lemma ClientOperation(k: Codec, d: Document, o: Operation, id: string)
    requires o.target.ClientTarget? && !o.op.OtherOp? && DistinctBy(d.spec.clients, BY_ID)
    ensures
      var r, v := ApplyOp(k, d, o), AsClient(k, o.value);
      var e := ListError(FindBy(d.spec.clients, BY_ID, o.id).Some?, o.op, o.id, v, BY_ID);
      if e.Some? then r == Err(e.value)
      else
        && r.Ok? && r.value == d.(spec := d.spec.(clients := r.value.spec.clients))
        && ListEdited(d.spec.clients, r.value.spec.clients, o.op, o.id, v, BY_ID)
        && FindBy(r.value.spec.clients, BY_ID, id) == Expected(d.spec.clients, o.op, o.id, v, BY_ID, id)
  {
    var v := AsClient(k, o.value);
    ListOpFailsIff(d.spec.clients, o.op, o.id, v, BY_ID);
    if MutateList(d.spec.clients, o.op, o.id, v, BY_ID).Ok? {
      ListOpEdits(d.spec.clients, o.op, o.id, v, BY_ID);
      ListOpIsMapUpdate(d.spec.clients, o.op, o.id, v, BY_ID, id);
    }
  }

  lemma UserOperation(k: Codec, d: Document, o: Operation, id: string)
    requires o.target.UserTarget? && !o.op.OtherOp? && DistinctBy(d.spec.users, BY_USER_ID)
    ensures
      var r, v := ApplyOp(k, d, o), AsText(k.user, o.value);
      var e := ListError(FindBy(d.spec.users, BY_USER_ID, o.id).Some?, o.op, o.id, v, BY_USER_ID);
      if e.Some? then r == Err(e.value)
      else
        && r.Ok? && r.value == d.(spec := d.spec.(users := r.value.spec.users))
        && ListEdited(d.spec.users, r.value.spec.users, o.op, o.id, v, BY_USER_ID)
        && FindBy(r.value.spec.users, BY_USER_ID, id) == Expected(d.spec.users, o.op, o.id, v, BY_USER_ID, id)
  {
    var v := AsText(k.user, o.value);
    ListOpFailsIff(d.spec.users, o.op, o.id, v, BY_USER_ID);
    if MutateList(d.spec.users, o.op, o.id, v, BY_USER_ID).Ok? {
      ListOpEdits(d.spec.users, o.op, o.id, v, BY_USER_ID);
      ListOpIsMapUpdate(d.spec.users, o.op, o.id, v, BY_USER_ID, id);
    }
  }

  lemma GroupOperation(k: Codec, d: Document, o: Operation, id: string)
    requires o.target.GroupTarget? && !o.op.OtherOp? && DistinctBy(d.spec.groups, BY_GROUP_ID)
    ensures
      var r, v := ApplyOp(k, d, o), AsText(k.group, o.value);
      var e := ListError(FindBy(d.spec.groups, BY_GROUP_ID, o.id).Some?, o.op, o.id, v, BY_GROUP_ID);
      if e.Some? then r == Err(e.value)
      else
        && r.Ok? && r.value == d.(spec := d.spec.(groups := r.value.spec.groups))
        && ListEdited(d.spec.groups, r.value.spec.groups, o.op, o.id, v, BY_GROUP_ID)
        && FindBy(r.value.spec.groups, BY_GROUP_ID, id) == Expected(d.spec.groups, o.op, o.id, v, BY_GROUP_ID, id)
  {
    var v := AsText(k.group, o.value);
    ListOpFailsIff(d.spec.groups, o.op, o.id, v, BY_GROUP_ID);
    if MutateList(d.spec.groups, o.op, o.id, v, BY_GROUP_ID).Ok? {
      ListOpEdits(d.spec.groups, o.op, o.id, v, BY_GROUP_ID);
      ListOpIsMapUpdate(d.spec.groups, o.op, o.id, v, BY_GROUP_ID, id);
    }
  }

  /** Removing a singleton sets its zero value; any other operation sets the decoded value or fails. */
  function Chosen<T>(op: OpKind, decoded: Option<T>, zero: T): Result<T> {
    if op == Remove then Ok(zero) else if decoded == None then Err(Validation) else Ok(decoded.value)
  }

  /** The operation replaced one field of the document, or failed. */
  ghost predicate Replaces<T(!new)>(r: Result<Document>, v: Result<T>, with: T -> Document) {
    if v.Err? then r == Err(v.error) else r == Ok(with(v.value))
  }

  lemma SingletonOperation(k: Codec, d: Document, o: Operation)
    requires !o.op.OtherOp?
    ensures
      var r, s := ApplyOp(k, d, o), d.spec;
      match o.target
      case ProfileTarget =>
        Replaces(r, Chosen(o.op, AsProfile(k, o.value), Profile("", "")), (x: Profile) => d.(spec := s.(profile := x)))
      case ProtocolsTarget =>
        Replaces(r, Chosen(o.op, AsText(k.protocols, o.value), Protocols(None, None, None)), (x: Protocols) => d.(spec := s.(protocols := x)))
      case AuthTarget =>
        Replaces(r, Chosen(o.op, AsAuth(k, o.value), Auth(0, Unset)), (x: Auth) => d.(spec := s.(auth := x)))
      case OverageTarget =>
        Replaces(r, Chosen(o.op, AsOverage(k, o.value), GroupOverage(false, 0, 0)), (x: GroupOverage) => d.(spec := s.(groupOverage := x)))
      case _ => true
  {
  }

  lemma ListenerOperation(k: Codec, d: Document, o: Operation)
    requires !o.op.OtherOp?
    ensures
      var r, s := ApplyOp(k, d, o), d.spec;
      match o.target
      case ListenersTarget =>
        Replaces(r, Chosen(o.op, AsText(k.listeners, o.value), Listeners(HttpsListener("", "", ""), Management("", "", "", false))),
                 (x: Listeners) => d.(spec := s.(listeners := x)))
      case ManagementTarget =>
        Replaces(r, Chosen(o.op, AsText(k.management, o.value), Management("", "", "", false)),
                 (x: Management) => d.(spec := s.(listeners := Listeners(s.listeners.https, x))))
      case AccessTarget => Replaces(r, Chosen(o.op, AsText(k.access, o.value), ""), (x: string) => d.(spec := s.(accessRef := x)))
      case UiTarget => Replaces(r, Chosen(o.op, AsText(k.ui, o.value), None), (x: Option<bool>) => d.(spec := s.(uiEnabled := x)))
      case _ => true
  {
  }

  /** The issuer is cleared, or set from an object with a non-empty issuer, or from a bare string. */
  lemma IssuerOperation(k: Codec, d: Document, o: Operation)
    requires o.target.IssuerTarget? && !o.op.OtherOp?
    ensures
      var r, wrapped, text := ApplyOp(k, d, o), AsText(k.issuerObject, o.value), AsText(k.issuerString, o.value);
      && (r.Err? ==> r.error == Validation)
      && (r.Ok? <==> o.op.Remove? || (wrapped.Some? && wrapped.value != "") || (wrapped.None? && text.Some?))
      && (r.Ok? ==> r.value == d.(spec := d.spec.(issuer :=
             if o.op.Remove? then "" else if wrapped.Some? then wrapped.value else text.value)))
  {
  }

  /** Unknown operations and targets are refused. */
  lemma UnknownOperation(k: Codec, d: Document, o: Operation)
    requires o.op.OtherOp? || o.target.OtherTarget?
    ensures ApplyOp(k, d, o) == Err(Validation)
  {
  }

  /** A batch of one is its operation, and a longer batch is the operations in their order. */
  lemma BatchInOrder(k: Codec, d: Document, ops: seq<Operation>, o: Operation)
    ensures ApplyOps(k, d, []) == Ok(d)
    ensures
      var rest := ApplyOps(k, d, ops);
      ApplyOps(k, d, ops + [o]) == if rest.Err? then rest else ApplyOp(k, rest.value, o)
  {
    assert (ops + [o])[..|ops|] == ops;
  }

  // ------------------------------------------------ defaults and operations

  /** An operation fails or succeeds alike on a document and on its normal form. */
  ghost predicate SameUpToDefaults(a: Result<Document>, b: Result<Document>) {
    if a.Err? then a == b else b.Ok? && Normalize(a.value) == Normalize(b.value)
  }

  /** Only the three lists decide what an operation does. */
  lemma SameListsSameEdit(k: Codec, s: Spec, t: Spec, o: Operation)
    requires s.clients == t.clients && s.users == t.users && s.groups == t.groups
    ensures EditOf(k, s, o) == EditOf(k, t, o)
  {
  }

  lemma OverwriteIgnoresDefaults(s: Spec, t: Spec, e: Edit)
    requires NormalizeSpec(s) == NormalizeSpec(t)
    ensures NormalizeSpec(Overwrite(s, e)) == NormalizeSpec(Overwrite(t, e))
  {
  }

  lemma SameNormalSameLists(s: Spec, t: Spec)
    requires NormalizeSpec(s) == NormalizeSpec(t)
    ensures s.clients == t.clients && s.users == t.users && s.groups == t.groups
  {
    assert NormalizeSpec(s).clients == s.clients && NormalizeSpec(t).clients == t.clients;
    assert NormalizeSpec(s).users == s.users && NormalizeSpec(t).users == t.users;
    assert NormalizeSpec(s).groups == s.groups && NormalizeSpec(t).groups == t.groups;
  }

  lemma OpIgnoresDefaults(k: Codec, c: Document, d: Document, o: Operation)
    requires Normalize(c) == Normalize(d)
    ensures SameUpToDefaults(ApplyOp(k, c, o), ApplyOp(k, d, o))
  {
    SameNormalSameLists(c.spec, d.spec);
    SameListsSameEdit(k, c.spec, d.spec, o);
    var edit := EditOf(k, c.spec, o);
    if edit.Ok? {
      OverwriteIgnoresDefaults(c.spec, d.spec, edit.value);
    }
  }

  /**
   Filling in defaults between operations changes nothing: a batch applied to a
   normalized document normalizes to the same result as on the raw one.
   */
  lemma {:induction false} OpsIgnoreDefaults(k: Codec, c: Document, d: Document, ops: seq<Operation>)
    requires Normalize(c) == Normalize(d)
    ensures SameUpToDefaults(ApplyOps(k, c, ops), ApplyOps(k, d, ops))
  {
    if ops != [] {
      var init := ops[..|ops| - 1];
      OpsIgnoreDefaults(k, c, d, init);
      if ApplyOps(k, c, init).Ok? {
        OpIgnoresDefaults(k, ApplyOps(k, c, init).value, ApplyOps(k, d, init).value, ops[|ops| - 1]);
      }
    }
  }

  // ----------------------------------------------------------------- object

  method FindIndex<T>(list: seq<T>, id: string, idOf: T -> string) returns (idx: int)
    ensures idx == if IndexById(list, id, idOf) < |list| then IndexById(list, id, idOf) else -1
  {
    idx := -1;
    for i := 0 to |list|
      invariant forall j :: 0 <= j < i ==> idOf(list[j]) != id
    {
      if idOf(list[i]) == id {
        return i;
      }
    }
  }

  /** mutateList, with its search loop. */
  method EditList<T>(list: seq<T>, op: OpKind, id: string, decoded: Option<T>, idOf: T -> string) returns (r: Result<seq<T>>)
    ensures r == MutateList(list, op, id, decoded, idOf)
  {
    if id == "" {
      return Err(Validation);
    }
    var idx := FindIndex(list, id, idOf);
    if op.Remove? {
      return if idx < 0 then Err(NotFound) else Ok(list[..idx] + list[idx + 1..]);
    }
    if op.Add? && idx >= 0 {
      return Err(Conflict);
    }
    if op.Update? && idx < 0 {
      return Err(NotFound);
    }
    if op.OtherOp? {
      return Ok(list);
    }
    if decoded.None? || idOf(decoded.value) != id {
      return Err(Validation);
    }
    r := if op.Add? then Ok(list + [decoded.value]) else Ok(list[idx := decoded.value]);
  }

  /** The cloned document that a batch edits in place. */
  class Draft {
    var doc: Document

    constructor (d: Document)
      ensures doc == d
    {
      doc := d;
    }

    /** A failing operation leaves the draft as it was. */
    method ApplyOne(k: Codec, o: Operation) returns (r: Result<()>)
      modifies this
      ensures
        var next := ApplyOp(k, old(doc), o);
        if next.Ok? then r == Ok(()) && doc == next.value else r == Err(next.error) && doc == old(doc)
    {
      if o.op.OtherOp? {
        return Err(Validation);
      }
      var edit;
      match o.target {
        case ClientTarget =>
          var list := EditList(doc.spec.clients, o.op, o.id, AsClient(k, o.value), BY_ID);
          edit := Wrap(list, x => SetClients(x));
        case UserTarget =>
          var list := EditList(doc.spec.users, o.op, o.id, AsText(k.user, o.value), BY_USER_ID);
          edit := Wrap(list, x => SetUsers(x));
        case GroupTarget =>
          var list := EditList(doc.spec.groups, o.op, o.id, AsText(k.group, o.value), BY_GROUP_ID);
          edit := Wrap(list, x => SetGroups(x));
        case _ => edit := EditOf(k, doc.spec, o);
      }
      if edit.Err? {
        return Err(edit.error);
      }
      doc := doc.(spec := Overwrite(doc.spec, edit.value));
      r := Ok(());
    }

    method ApplyAll(k: Codec, ops: seq<Operation>) returns (r: Result<()>)
      modifies this
      ensures
        var next := ApplyOps(k, old(doc), ops);
        if next.Ok? then r == Ok(()) && doc == next.value else r == Err(next.error)
    {
      for i := 0 to |ops|
        invariant ApplyOps(k, old(doc), ops[..i]) == Ok(doc)
      {
        assert ops[..i + 1][..i] == ops[..i];
        r := ApplyOne(k, ops[i]);
        if r.Err? {
          ApplyOpsFails(k, old(doc), ops, i + 1);
          return;
        }
      }
      assert ops[..|ops|] == ops;
      r := Ok(());
    }
  }
}
