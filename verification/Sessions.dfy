/**
 Sessions of a remote corestore: the client opens feeds by key or by name and gives each a
 number (`client/src/session.rs`); the server files the feed under that number and sends
 notifications with it (`server/src/rpc/session.rs`).
 */
module Sessions {
  import opened Common
  import Keys
  import NM = NamedMaps

  type Bytes = seq<Byte>

  /** Ids cross the wire in 32 bits. */
  const U32: nat := 0x1_0000_0000

  /** The client's record of a session. */
  datatype Core = Core(name: Option<string>, key: Option<Bytes>, open: bool)

  /**
   Both ends of the connection: the client's sessions, and for every id the server knows the
   public key of the feed filed under it.
   */
  datatype Net = Net(sessions: NM.Table<Core>, cores: map<nat, Bytes>)

  const NEW_NET: Net := Net(NM.EmptyTable(), map[])

  /** The key of the feed the server opens for a session: the name goes first. */
  function FeedOf(keyOf: string -> Bytes, core: Core): Bytes {
    if core.name.Some? then keyOf(core.name.value) else core.key.GetOr([])
  }

  /** What the server accepts: a name, or a key of 32 bytes. */
  predicate Servable(core: Core) {
    core.name.Some? || (core.key.Some? && |core.key.value| == 32)
  }

  /** Opening a session that is not open yet; `served` is false when the server's store fails. */
  function Ensured(keyOf: string -> Bytes, n: Net, id: nat, served: bool): Net
    requires id in n.sessions.values
  {
    var core := n.sessions.values[id];
    if core.open || !served || !Servable(core) then n
    else
      var feed := FeedOf(keyOf, core);
      Net(n.sessions.(values := n.sessions.values[id := core.(key := Some(feed), open := true)]),
          n.cores[id % U32 := feed])
  }

  function Added(n: Net, core: Core, name: string): Net {
    var id := NM.NextId(n.sessions);
    n.(sessions := NM.Renamed(NM.Inserted(n.sessions, core), id, name))
  }

  predicate Filed(n: Net, text: string) {
    text in n.sessions.nameId && n.sessions.nameId[text] in n.sessions.values
  }

  /** The session found under `text`, or a new one filed under it. */
  function Located(n: Net, core: Core, text: string): (Net, nat) {
    if Filed(n, text) then (n, n.sessions.nameId[text])
    else (Added(n, core, text), NM.NextId(n.sessions))
  }

  /** `Some(id)` is the session returned; `None` an error. */
  function OpenByKey(keyOf: string -> Bytes, n: Net, key: Bytes, served: bool): (Net, Option<nat>) {
    var (n1, id) := Located(n, Core(None, Some(key), false), Keys.Hex(key));
    var n2 := Ensured(keyOf, n1, id, served);
    (n2, if n2.sessions.values[id].open then Some(id) else None)
  }

  function OpenByName(keyOf: string -> Bytes, n: Net, name: string, served: bool): (Net, Option<nat>) {
    var (n1, id) := Located(n, Core(Some(name), None, false), name);
    var n2 := Ensured(keyOf, n1, id, served);
    var core := n2.sessions.values[id];
    if !core.open then (n2, None)
    else if Filed(n, name) || core.key.None? then (n2, Some(id))
    else (n2.(sessions := NM.Renamed(n2.sessions, id, Keys.Hex(core.key.value))), Some(id))
  }

  datatype Op = ByKey(key: Bytes, served: bool) | ByName(name: string, served: bool)

  /** The session an open makes when it finds none, and the text it is looked for and filed under. */
  function NewCore(op: Op): Core {
    match op
    case ByKey(key, _) => Core(None, Some(key), false)
    case ByName(name, _) => Core(Some(name), None, false)
  }

  function TextOf(op: Op): string {
    match op
    case ByKey(key, _) => Keys.Hex(key)
    case ByName(name, _) => name
  }

  function Do(keyOf: string -> Bytes, n: Net, op: Op): (Net, Option<nat>) {
    match op
    case ByKey(key, served) => OpenByKey(keyOf, n, key, served)
    case ByName(name, served) => OpenByName(keyOf, n, name, served)
  }

  function Exec(keyOf: string -> Bytes, n: Net, ops: seq<Op>): Net
    decreases |ops|
  {
    if ops == [] then n else Exec(keyOf, Do(keyOf, n, ops[0]).0, ops[1..])
  }

  // ---- the program's own form ----

  datatype Answer = Opened(feed: Bytes) | InvalidKeyLength | InvalidParameters | StoreFailed

  /** The server's end: feeds filed under the ids of the client. */
  class ServerSession {
    const keyOf: string -> Bytes
    var cores: map<nat, Bytes>

    constructor (keyOf: string -> Bytes)
      ensures this.keyOf == keyOf && cores == map[]
    {
      this.keyOf := keyOf;
      cores := map[];
    }

    /**
     The `open` request; the answer carries the public key of the feed that was opened. The name
     goes before the key, a malformed request files nothing, and `served` says whether the store
     opens the feed.
     */
    method Open(id: nat, name: Option<string>, key: Option<Bytes>, served: bool) returns (answer: Answer)
      modifies this
      ensures answer.Opened? <==> served && Servable(Core(name, key, false))
      ensures answer.Opened? && name.Some? ==> answer.feed == keyOf(name.value)
      ensures answer.Opened? && name.None? ==> key == Some(answer.feed) && |answer.feed| == 32
      ensures name.Some? && served ==> answer.Opened?
      ensures answer == InvalidParameters <==> name.None? && key.None?
      ensures answer == InvalidKeyLength <==> name.None? && key.Some? && |key.value| != 32
      ensures cores == if answer.Opened? then old(cores)[id := answer.feed] else old(cores)
    {
      var feed;
      if name.Some? {
        feed := keyOf(name.value);
      } else if key.Some? {
        if |key.value| != 32 {
          return InvalidKeyLength;
        }
        feed := key.value;
      } else {
        return InvalidParameters;
      }
      if !served {
        return StoreFailed;
      }
      cores := cores[id := feed];
      answer := Opened(feed);
    }
  }

  class RemoteCorestore {
    const server: ServerSession
    const sessions: NM.InnerMap<Core>

    constructor (server: ServerSession)
      ensures this.server == server && fresh(sessions) && sessions.Value() == NM.EmptyTable()
    {
      this.server := server;
      sessions := new NM.InnerMap();
    }

    ghost function Value(): Net
      reads this, server, sessions
    {
      Net(sessions.Value(), server.cores)
    }

    ghost predicate Valid()
      reads this, sessions
    {
      NM.IdsPartition(sessions.Value()) && NM.NamesLead(sessions.Value())
    }

    /** Opens the session unless it is open; the id is sent in 32 bits. */
    method EnsureOpen(id: nat, served: bool) returns (ok: bool)
      requires id in sessions.values
      modifies sessions, server
      ensures Value() == Ensured(server.keyOf, old(Value()), id, served)
      ensures id in sessions.values && ok == sessions.values[id].open
    {
      var core := sessions.values[id];
      if core.open {
        return true;
      }
      var answer := server.Open(id % U32, core.name, core.key, served);
      if !answer.Opened? {
        return false;
      }
      sessions.values := sessions.values[id := core.(key := Some(answer.feed), open := true)];
      ok := true;
    }

    method OpenKey(key: Bytes, served: bool) returns (result: Option<nat>)
      requires Valid()
      modifies sessions, server
      ensures (Value(), result) == OpenByKey(server.keyOf, old(Value()), key, served)
    {
      var text := Keys.Hex(key);
      var id;
      if text in sessions.nameId && sessions.nameId[text] in sessions.values {
        id := sessions.nameId[text];
      } else {
        id := sessions.InsertWithName(Core(None, Some(key), false), text);
      }
      var ok := EnsureOpen(id, served);
      result := if ok then Some(id) else None;
    }

    method OpenName(name: string, served: bool) returns (result: Option<nat>)
      requires Valid()
      modifies sessions, server
      ensures (Value(), result) == OpenByName(server.keyOf, old(Value()), name, served)
    {
      if name in sessions.nameId && sessions.nameId[name] in sessions.values {
        var known := sessions.nameId[name];
        var ok := EnsureOpen(known, served);
        return if ok then Some(known) else None;
      }
      var id := sessions.InsertWithName(Core(Some(name), None, false), name);
      var ok := EnsureOpen(id, served);
      if !ok {
        return None;
      }
      var key := sessions.values[id].key;
      if key.Some? {
        sessions.SetName(id, Keys.Hex(key.value));
      }
      result := Some(id);
    }
  }

  // ---- the invariant ----

  /** A session has what it was asked with; an open one knows its feed's key, which the name decides. */
  ghost predicate CoreOk(keyOf: string -> Bytes, core: Core) {
    && (core.name.Some? || core.key.Some?)
    && (core.open ==> core.key.Some?)
    && (core.name.Some? && core.key.Some? ==> core.key.value == keyOf(core.name.value))
  }

  /** A session is filed under the name it was asked with, or the hexadecimal text of its key. */
  ghost predicate FiledUnder(core: Core, name: string) {
    core.name == Some(name) || (core.key.Some? && Keys.Hex(core.key.value) == name)
  }

  ghost predicate TableOk(keyOf: string -> Bytes, t: NM.Table<Core>) {
    && NM.IdsPartition(t) && NM.NamesLead(t) && t.free == []
    && (forall id :: id in t.values ==> CoreOk(keyOf, t.values[id]))
    && (forall name :: name in t.nameId ==> FiledUnder(t.values[t.nameId[name]], name))
  }

  /** The server has under an id the feed of the client's session with that id, and every open session is there. */
  ghost predicate RoutesOk(n: Net) {
    && (forall id: nat :: id in n.cores ==>
          id in n.sessions.values && n.sessions.values[id].open && n.sessions.values[id].key == Some(n.cores[id]))
    && (forall id: nat :: id in n.sessions.values && n.sessions.values[id].open ==> id in n.cores)
  }

  ghost predicate NetOk(keyOf: string -> Bytes, n: Net) {
    TableOk(keyOf, n.sessions) && RoutesOk(n)
  }

  lemma {:induction false} AddedTableOk(keyOf: string -> Bytes, n: Net, core: Core, name: string)
    requires TableOk(keyOf, n.sessions) && CoreOk(keyOf, core) && FiledUnder(core, name)
    ensures TableOk(keyOf, Added(n, core, name).sessions)
    ensures NM.NextId(n.sessions) !in n.sessions.values
    ensures |Added(n, core, name).sessions.values| == |n.sessions.values| + 1
  {
    var id := NM.NextId(n.sessions);
    NM.InsertFresh(n.sessions, core);
    NM.InsertKeepsNames(n.sessions, core);
    NM.RenameKeepsNames(NM.Inserted(n.sessions, core), id, name);
    forall x | x in n.sessions.nameId
      ensures n.sessions.nameId[x] != id
    {
    }
  }

  lemma {:induction false} AddedOk(keyOf: string -> Bytes, n: Net, core: Core, name: string)
    requires NetOk(keyOf, n) && CoreOk(keyOf, core) && !core.open && FiledUnder(core, name)
    ensures NetOk(keyOf, Added(n, core, name))
    ensures NM.NextId(n.sessions) !in n.sessions.values
    ensures |Added(n, core, name).sessions.values| == |n.sessions.values| + 1
  {
    AddedTableOk(keyOf, n, core, name);
  }

  lemma {:induction false} EnsuredTableOk(keyOf: string -> Bytes, n: Net, id: nat, served: bool)
    requires TableOk(keyOf, n.sessions) && id in n.sessions.values
    ensures TableOk(keyOf, Ensured(keyOf, n, id, served).sessions)
    ensures |Ensured(keyOf, n, id, served).sessions.values| == |n.sessions.values|
  {
  }

  lemma {:induction false} EnsuredRoutesOk(keyOf: string -> Bytes, n: Net, id: nat, served: bool)
    requires RoutesOk(n) && id in n.sessions.values && id < U32
    ensures RoutesOk(Ensured(keyOf, n, id, served))
  {
  }

  lemma {:induction false} EnsuredOk(keyOf: string -> Bytes, n: Net, id: nat, served: bool)
    requires NetOk(keyOf, n) && id in n.sessions.values && |n.sessions.values| < U32
    ensures NetOk(keyOf, Ensured(keyOf, n, id, served))
    ensures |Ensured(keyOf, n, id, served).sessions.values| == |n.sessions.values|
    ensures Ensured(keyOf, n, id, served).sessions.nameId == n.sessions.nameId
    ensures id in Ensured(keyOf, n, id, served).sessions.values
    ensures var core := Ensured(keyOf, n, id, served).sessions.values[id];
            && core.name == n.sessions.values[id].name
            && (core.open ==> core.key == Some(FeedOf(keyOf, n.sessions.values[id])))
            && (served && Servable(n.sessions.values[id]) ==> core.open)
  {
    assert 1 <= id <= |n.sessions.values|;
    EnsuredTableOk(keyOf, n, id, served);
    EnsuredRoutesOk(keyOf, n, id, served);
    assert CoreOk(keyOf, n.sessions.values[id]);
  }

  lemma {:induction false} LocatedOk(keyOf: string -> Bytes, n: Net, core: Core, text: string)
    requires NetOk(keyOf, n) && CoreOk(keyOf, core) && !core.open && FiledUnder(core, text)
    ensures var (n1, id) := Located(n, core, text);
            && NetOk(keyOf, n1) && id in n1.sessions.values && FiledUnder(n1.sessions.values[id], text)
            && |n.sessions.values| <= |n1.sessions.values| <= |n.sessions.values| + 1
  {
    if text !in n.sessions.nameId {
      AddedOk(keyOf, n, core, text);
    }
  }

  lemma {:induction false} RenamedOk(keyOf: string -> Bytes, n: Net, id: nat, name: string)
    requires NetOk(keyOf, n) && id in n.sessions.values && FiledUnder(n.sessions.values[id], name)
    ensures NetOk(keyOf, n.(sessions := NM.Renamed(n.sessions, id, name)))
  {
  }

  lemma {:induction false} OpenedOk(keyOf: string -> Bytes, n: Net, core: Core, text: string, served: bool)
    requires NetOk(keyOf, n) && |n.sessions.values| + 1 < U32
    requires CoreOk(keyOf, core) && !core.open && FiledUnder(core, text)
    ensures var (n1, id) := Located(n, core, text);
            && id in n1.sessions.values
            && var n2 := Ensured(keyOf, n1, id, served);
               && NetOk(keyOf, n2) && |n2.sessions.values| <= |n.sessions.values| + 1
               && id in n2.sessions.values
               && (n2.sessions.values[id].open ==> n2.sessions.values[id].key.Some?)
  {
    LocatedOk(keyOf, n, core, text);
    EnsuredOk(keyOf, Located(n, core, text).0, Located(n, core, text).1, served);
  }

  lemma {:induction false} ByKeyOk(keyOf: string -> Bytes, n: Net, key: Bytes, served: bool)
    requires NetOk(keyOf, n) && |n.sessions.values| + 1 < U32
    ensures NetOk(keyOf, OpenByKey(keyOf, n, key, served).0)
    ensures |OpenByKey(keyOf, n, key, served).0.sessions.values| <= |n.sessions.values| + 1
  {
    OpenedOk(keyOf, n, Core(None, Some(key), false), Keys.Hex(key), served);
  }

  lemma {:induction false} ByNameOk(keyOf: string -> Bytes, n: Net, name: string, served: bool)
    requires NetOk(keyOf, n) && |n.sessions.values| + 1 < U32
    ensures NetOk(keyOf, OpenByName(keyOf, n, name, served).0)
    ensures |OpenByName(keyOf, n, name, served).0.sessions.values| <= |n.sessions.values| + 1
  {
    var core := Core(Some(name), None, false);
    OpenedOk(keyOf, n, core, name, served);
    var (n1, id) := Located(n, core, name);
    var n2 := Ensured(keyOf, n1, id, served);
    if n2.sessions.values[id].open {
      RenamedOk(keyOf, n2, id, Keys.Hex(n2.sessions.values[id].key.value));
    }
  }

  lemma {:induction false} DoOk(keyOf: string -> Bytes, n: Net, op: Op)
    requires NetOk(keyOf, n) && |n.sessions.values| + 1 < U32
    ensures NetOk(keyOf, Do(keyOf, n, op).0)
    ensures |Do(keyOf, n, op).0.sessions.values| <= |n.sessions.values| + 1
  {
    match op {
      case ByKey(key, served) => ByKeyOk(keyOf, n, key, served);
      case ByName(name, served) => ByNameOk(keyOf, n, name, served);
    }
  }

  lemma {:induction false} RunOk(keyOf: string -> Bytes, n: Net, ops: seq<Op>)
    requires NetOk(keyOf, n) && |n.sessions.values| + |ops| < U32
    ensures NetOk(keyOf, Exec(keyOf, n, ops))
    decreases |ops|
  {
    if ops != [] {
      DoOk(keyOf, n, ops[0]);
      RunOk(keyOf, Do(keyOf, n, ops[0]).0, ops[1..]);
    }
  }

  // ---- which session an open returns ----

  /** The key of the feed an open asks for. */
  function Asked(keyOf: string -> Bytes, op: Op): Bytes {
    match op
    case ByKey(key, _) => key
    case ByName(name, _) => keyOf(name)
  }

  /** The by-key open finds a session that was asked for by a name that spells the key. */
  predicate NameInTheWay(keyOf: string -> Bytes, n: Net, key: Bytes) {
    && Filed(n, Keys.Hex(key))
    && n.sessions.values[n.sessions.nameId[Keys.Hex(key)]].name == Some(Keys.Hex(key))
    && keyOf(Keys.Hex(key)) != key
  }

  /** The by-name open finds a session under the name because that is the text of another key. */
  predicate KeyInTheWay(keyOf: string -> Bytes, n: Net, name: string) {
    && Filed(n, name)
    && n.sessions.values[n.sessions.nameId[name]].name != Some(name)
    && name != Keys.Hex(keyOf(name))
  }

  predicate InTheWay(keyOf: string -> Bytes, n: Net, op: Op) {
    match op
    case ByKey(key, _) => NameInTheWay(keyOf, n, key)
    case ByName(name, _) => KeyInTheWay(keyOf, n, name)
  }

  /** A by-key open that succeeds returns a session on that key's feed exactly when no name stood in the way. */
  lemma {:induction false} ByKeyIntendedIff(keyOf: string -> Bytes, n: Net, key: Bytes, served: bool)
    requires NetOk(keyOf, n) && |n.sessions.values| + 1 < U32 && OpenByKey(keyOf, n, key, served).1.Some?
    ensures var (next, result) := OpenByKey(keyOf, n, key, served);
            && result.value in next.sessions.values && next.sessions.values[result.value].open
            && (next.sessions.values[result.value].key == Some(key) <==> !NameInTheWay(keyOf, n, key))
  {
    var core, text := Core(None, Some(key), false), Keys.Hex(key);
    LocatedOk(keyOf, n, core, text);
    var (n1, id) := Located(n, core, text);
    EnsuredOk(keyOf, n1, id, served);
    var found := n1.sessions.values[id];
    if found.name != Some(text) {
      Keys.HexInjective(found.key.value, key);
    }
  }

  /** The same for a by-name open: it returns that name's feed exactly when no other key stood in the way. */
  lemma {:induction false} ByNameIntendedIff(keyOf: string -> Bytes, n: Net, name: string, served: bool)
    requires NetOk(keyOf, n) && |n.sessions.values| + 1 < U32 && OpenByName(keyOf, n, name, served).1.Some?
    ensures var (next, result) := OpenByName(keyOf, n, name, served);
            && result.value in next.sessions.values && next.sessions.values[result.value].open
            && (next.sessions.values[result.value].key == Some(keyOf(name)) <==> !KeyInTheWay(keyOf, n, name))
  {
    var core := Core(Some(name), None, false);
    LocatedOk(keyOf, n, core, name);
    var (n1, id) := Located(n, core, name);
    EnsuredOk(keyOf, n1, id, served);
    var found := Ensured(keyOf, n1, id, served).sessions.values[id];
    assert found.name == Some(name) || Keys.Hex(found.key.value) == name;
    if found.name != Some(name) && Keys.Hex(found.key.value) == Keys.Hex(keyOf(name)) {
      Keys.HexInjective(found.key.value, keyOf(name));
    }
  }

  lemma {:induction false} NamedFirst(keyOf: string -> Bytes, name: string)
    ensures var (n, result) := OpenByName(keyOf, NEW_NET, name, true);
            && result == Some(1) && name in n.sessions.nameId && n.sessions.nameId[name] == 1
            && 1 in n.sessions.values && n.sessions.values[1] == Core(Some(name), Some(keyOf(name)), true)
  {
  }

  lemma {:induction false} KeyFirst(keyOf: string -> Bytes, key: Bytes)
    requires |key| == 32
    ensures var (n, result) := OpenByKey(keyOf, NEW_NET, key, true);
            && result == Some(1) && Keys.Hex(key) in n.sessions.nameId && n.sessions.nameId[Keys.Hex(key)] == 1
            && 1 in n.sessions.values && n.sessions.values[1] == Core(None, Some(key), true)
  {
  }

  /** Opening by the name that spells a key and then by the key gives the name's feed instead. */
  lemma {:induction false} NameSpellsKey(keyOf: string -> Bytes, key: Bytes)
    requires keyOf(Keys.Hex(key)) != key
    ensures var n := OpenByName(keyOf, NEW_NET, Keys.Hex(key), true).0;
            var (next, result) := OpenByKey(keyOf, n, key, true);
            && result.Some? && result.value in next.sessions.values
            && next.sessions.values[result.value].key != Some(key)
  {
    NamedFirst(keyOf, Keys.Hex(key));
  }

  /** Opening by a key and then by the name that spells it gives the key's feed instead. */
  lemma {:induction false} KeySpeltByName(keyOf: string -> Bytes, key: Bytes)
    requires |key| == 32 && keyOf(Keys.Hex(key)) != key
    ensures var n := OpenByKey(keyOf, NEW_NET, key, true).0;
            var (next, result) := OpenByName(keyOf, n, Keys.Hex(key), true);
            && result.Some? && result.value in next.sessions.values
            && next.sessions.values[result.value].key == Some(key)
  {
    KeyFirst(keyOf, key);
  }

  // ---- over a whole run ----

  /** The names and keys of all sessions come from these. */
  ghost predicate DrawnFrom(n: Net, names: set<string>, keys: set<Bytes>) {
    forall id :: id in n.sessions.values ==>
      && (n.sessions.values[id].name.Some? ==> n.sessions.values[id].name.value in names)
      && (n.sessions.values[id].key.Some? ==> n.sessions.values[id].key.value in keys)
  }

  ghost predicate OpAmong(keyOf: string -> Bytes, op: Op, names: set<string>, keys: set<Bytes>) {
    Asked(keyOf, op) in keys && (op.ByName? ==> op.name in names)
  }

  /** A name that spells one of the keys belongs to that key. */
  ghost predicate Unambiguous(keyOf: string -> Bytes, names: set<string>, keys: set<Bytes>) {
    forall name, key :: name in names && key in keys && name == Keys.Hex(key) ==> keyOf(name) == key
  }

  lemma {:induction false} NothingInTheWay(keyOf: string -> Bytes, n: Net, op: Op, names: set<string>, keys: set<Bytes>)
    requires TableOk(keyOf, n.sessions) && DrawnFrom(n, names, keys) && OpAmong(keyOf, op, names, keys)
    requires Unambiguous(keyOf, names, keys)
    ensures !InTheWay(keyOf, n, op)
  {
  }

  lemma {:induction false} LocatedDrawn(n: Net, core: Core, text: string, names: set<string>, keys: set<Bytes>)
    requires DrawnFrom(n, names, keys)
    requires core.name.Some? ==> core.name.value in names
    requires core.key.Some? ==> core.key.value in keys
    ensures DrawnFrom(Located(n, core, text).0, names, keys)
  {
  }

  lemma {:induction false} EnsuredDrawn(
    keyOf: string -> Bytes, n: Net, id: nat, served: bool, names: set<string>, keys: set<Bytes>)
    requires DrawnFrom(n, names, keys) && id in n.sessions.values && CoreOk(keyOf, n.sessions.values[id])
    requires forall name :: name in names ==> keyOf(name) in keys
    ensures DrawnFrom(Ensured(keyOf, n, id, served), names, keys)
  {
  }

  lemma {:induction false} OpenDrawn(
    keyOf: string -> Bytes, n: Net, core: Core, text: string, served: bool, names: set<string>, keys: set<Bytes>)
    requires NetOk(keyOf, n) && CoreOk(keyOf, core) && !core.open && FiledUnder(core, text)
    requires DrawnFrom(n, names, keys)
    requires core.name.Some? ==> core.name.value in names
    requires core.key.Some? ==> core.key.value in keys
    requires forall name :: name in names ==> keyOf(name) in keys
    ensures var (n1, id) := Located(n, core, text);
            id in n1.sessions.values && DrawnFrom(Ensured(keyOf, n1, id, served), names, keys)
  {
    LocatedOk(keyOf, n, core, text);
    LocatedDrawn(n, core, text, names, keys);
    var (n1, id) := Located(n, core, text);
    EnsuredDrawn(keyOf, n1, id, served, names, keys);
  }

  lemma {:induction false} DoDrawn(keyOf: string -> Bytes, n: Net, op: Op, names: set<string>, keys: set<Bytes>)
    requires NetOk(keyOf, n) && |n.sessions.values| + 1 < U32
    requires DrawnFrom(n, names, keys) && OpAmong(keyOf, op, names, keys)
    requires forall name :: name in names ==> keyOf(name) in keys
    ensures DrawnFrom(Do(keyOf, n, op).0, names, keys)
  {
    match op {
      case ByKey(key, served) => OpenDrawn(keyOf, n, Core(None, Some(key), false), Keys.Hex(key), served, names, keys);
      case ByName(name, served) => OpenDrawn(keyOf, n, Core(Some(name), None, false), name, served, names, keys);
    }
  }

  lemma {:induction false} RunDrawn(keyOf: string -> Bytes, n: Net, ops: seq<Op>, names: set<string>, keys: set<Bytes>)
    requires NetOk(keyOf, n) && |n.sessions.values| + |ops| < U32 && DrawnFrom(n, names, keys)
    requires forall i :: 0 <= i < |ops| ==> OpAmong(keyOf, ops[i], names, keys)
    requires forall name :: name in names ==> keyOf(name) in keys
    ensures DrawnFrom(Exec(keyOf, n, ops), names, keys)
    decreases |ops|
  {
    if ops != [] {
      DoOk(keyOf, n, ops[0]);
      DoDrawn(keyOf, n, ops[0], names, keys);
      RunDrawn(keyOf, Do(keyOf, n, ops[0]).0, ops[1..], names, keys);
    }
  }

  ghost function NamesOf(ops: seq<Op>): set<string> {
    set i | 0 <= i < |ops| && ops[i].ByName? :: ops[i].name
  }

  ghost function KeysOf(keyOf: string -> Bytes, ops: seq<Op>): set<Bytes> {
    set i | 0 <= i < |ops| :: Asked(keyOf, ops[i])
  }

  lemma {:induction false} SessionCount(keyOf: string -> Bytes, n: Net, ops: seq<Op>)
    requires NetOk(keyOf, n) && |n.sessions.values| + |ops| < U32
    ensures |Exec(keyOf, n, ops).sessions.values| <= |n.sessions.values| + |ops|
    decreases |ops|
  {
    if ops != [] {
      DoOk(keyOf, n, ops[0]);
      SessionCount(keyOf, Do(keyOf, n, ops[0]).0, ops[1..]);
    }
  }

  lemma {:induction false} AllAmong(keyOf: string -> Bytes, ops: seq<Op>)
    ensures forall i :: 0 <= i < |ops| ==> OpAmong(keyOf, ops[i], NamesOf(ops), KeysOf(keyOf, ops))
    ensures forall name :: name in NamesOf(ops) ==> keyOf(name) in KeysOf(keyOf, ops)
  {
  }

  lemma {:induction false} IntendedAmong(
    keyOf: string -> Bytes, ops: seq<Op>, op: Op, names: set<string>, keys: set<Bytes>)
    requires |ops| + 1 < U32 && Unambiguous(keyOf, names, keys) && OpAmong(keyOf, op, names, keys)
    requires forall i :: 0 <= i < |ops| ==> OpAmong(keyOf, ops[i], names, keys)
    requires forall name :: name in names ==> keyOf(name) in keys
    ensures var (next, result) := Do(keyOf, Exec(keyOf, NEW_NET, ops), op);
            result.Some? ==>
              && result.value in next.sessions.values
              && next.sessions.values[result.value].key == Some(Asked(keyOf, op))
  {
    var n := Exec(keyOf, NEW_NET, ops);
    RunOk(keyOf, NEW_NET, ops);
    SessionCount(keyOf, NEW_NET, ops);
    RunDrawn(keyOf, NEW_NET, ops, names, keys);
    NothingInTheWay(keyOf, n, op, names, keys);
    if Do(keyOf, n, op).1.Some? {
      match op {
        case ByKey(key, served) => ByKeyIntendedIff(keyOf, n, key, served);
        case ByName(name, served) => ByNameIntendedIff(keyOf, n, name, served);
      }
    }
  }

  /**
   In a run of fewer than 2^32 opens in which no opened name spells the key of another feed that
   is asked for, every open that succeeds returns a session on the feed it asked for.
   */
  lemma {:induction false} OpensAreIntended(keyOf: string -> Bytes, ops: seq<Op>, op: Op)
    requires |ops| + 1 < U32
    requires Unambiguous(keyOf, NamesOf(ops + [op]), KeysOf(keyOf, ops + [op]))
    ensures var (next, result) := Do(keyOf, Exec(keyOf, NEW_NET, ops), op);
            result.Some? ==>
              && result.value in next.sessions.values
              && next.sessions.values[result.value].key == Some(Asked(keyOf, op))
  {
    var all := ops + [op];
    var names, keys := NamesOf(all), KeysOf(keyOf, all);
    AllAmong(keyOf, all);
    assert forall i :: 0 <= i < |ops| ==> ops[i] == all[i];
    assert all[|ops|] == op;
    IntendedAmong(keyOf, ops, op, names, keys);
  }

  lemma {:induction false} LocatedStays(keyOf: string -> Bytes, n: Net, core: Core, text: string, id: nat)
    requires NetOk(keyOf, n) && id in n.sessions.values
    ensures var next := Located(n, core, text).0;
            id in next.sessions.values && next.sessions.values[id] == n.sessions.values[id]
  {
    NM.InsertFresh(n.sessions, core);
  }

  /** An open session is never changed by a later open. */
  lemma {:induction false} OpenStays(keyOf: string -> Bytes, n: Net, op: Op, id: nat)
    requires NetOk(keyOf, n) && id in n.sessions.values && n.sessions.values[id].open
    ensures var next := Do(keyOf, n, op).0;
            id in next.sessions.values && next.sessions.values[id] == n.sessions.values[id]
  {
    match op {
      case ByKey(key, _) => LocatedStays(keyOf, n, Core(None, Some(key), false), Keys.Hex(key), id);
      case ByName(name, _) => LocatedStays(keyOf, n, Core(Some(name), None, false), name, id);
    }
  }

  // ---- one session under name and key ----

  /** The text leads to the session, which is open on the feed of the key. */
  ghost predicate LeadsTo(n: Net, text: string, id: nat, key: Bytes) {
    && text in n.sessions.nameId && n.sessions.nameId[text] == id
    && id in n.sessions.values && n.sessions.values[id].open && n.sessions.values[id].key == Some(key)
  }

  /** A by-name open that makes a session files it under the name and under the text of its key. */
  lemma {:induction false} NamedIsFiledTwice(keyOf: string -> Bytes, n: Net, name: string, served: bool)
    requires NetOk(keyOf, n) && |n.sessions.values| + 1 < U32 && !Filed(n, name)
    ensures var (next, result) := OpenByName(keyOf, n, name, served);
            && (result.Some? <==> served)
            && (served ==>
                  && result.value !in n.sessions.values
                  && LeadsTo(next, Keys.Hex(keyOf(name)), result.value, keyOf(name))
                  && LeadsTo(next, name, result.value, keyOf(name)))
  {
    LocatedOk(keyOf, n, Core(Some(name), None, false), name);
    NM.InsertFresh(n.sessions, Core(Some(name), None, false));
  }

  /** Where the text of a key leads, a by-key open goes, and changes nothing. */
  lemma {:induction false} KeyedFindsIt(keyOf: string -> Bytes, n: Net, key: Bytes, id: nat, served: bool)
    requires LeadsTo(n, Keys.Hex(key), id, key)
    ensures OpenByKey(keyOf, n, key, served) == (n, Some(id))
  {
  }

  /** The open may file another session under the text of the key of `name`: it asks for its feed by another name. */
  predicate Refiles(keyOf: string -> Bytes, op: Op, name: string) {
    op.ByName? && keyOf(op.name) == keyOf(name) && op.name != name && op.name != Keys.Hex(keyOf(name))
  }

  /** Both the name and the text of its key lead to the session. */
  ghost predicate Shared(keyOf: string -> Bytes, n: Net, name: string, id: nat) {
    LeadsTo(n, Keys.Hex(keyOf(name)), id, keyOf(name)) && name in n.sessions.nameId
  }

  lemma {:induction false} SharedStays(keyOf: string -> Bytes, n: Net, op: Op, name: string, id: nat)
    requires NetOk(keyOf, n) && |n.sessions.values| + 1 < U32 && Shared(keyOf, n, name, id)
    requires !Refiles(keyOf, op, name)
    ensures Shared(keyOf, Do(keyOf, n, op).0, name, id)
  {
    var text := Keys.Hex(keyOf(name));
    OpenStays(keyOf, n, op, id);
    match op {
      case ByKey(key, _) =>
      case ByName(other, _) =>
        if !Filed(n, other) && Keys.Hex(keyOf(other)) == text {
          Keys.HexInjective(keyOf(other), keyOf(name));
        }
    }
  }

  lemma {:induction false} SharedInRuns(keyOf: string -> Bytes, n: Net, ops: seq<Op>, name: string, id: nat)
    requires NetOk(keyOf, n) && |n.sessions.values| + |ops| < U32 && Shared(keyOf, n, name, id)
    requires forall i :: 0 <= i < |ops| ==> !Refiles(keyOf, ops[i], name)
    ensures Shared(keyOf, Exec(keyOf, n, ops), name, id)
    decreases |ops|
  {
    if ops != [] {
      DoOk(keyOf, n, ops[0]);
      SharedStays(keyOf, n, ops[0], name, id);
      SharedInRuns(keyOf, Do(keyOf, n, ops[0]).0, ops[1..], name, id);
    }
  }

  /**
   One session: after a by-name open has made a session, a by-key open of its key returns that very
   session and changes nothing, also after any further opens that do not ask for the feed by another name.
   */
  lemma {:induction false} NameThenKeyShares(keyOf: string -> Bytes, n: Net, name: string, ops: seq<Op>, served: bool)
    requires NetOk(keyOf, n) && |n.sessions.values| + 1 + |ops| < U32 && !Filed(n, name)
    requires forall i :: 0 <= i < |ops| ==> !Refiles(keyOf, ops[i], name)
    ensures var (named, result) := OpenByName(keyOf, n, name, true);
            var later := Exec(keyOf, named, ops);
            result.Some? && OpenByKey(keyOf, later, keyOf(name), served) == (later, result)
  {
    var (named, result) := OpenByName(keyOf, n, name, true);
    NamedIsFiledTwice(keyOf, n, name, true);
    ByNameOk(keyOf, n, name, true);
    SharedInRuns(keyOf, named, ops, name, result.value);
    KeyedFindsIt(keyOf, Exec(keyOf, named, ops), keyOf(name), result.value, served);
  }

  /** The other way round there are two sessions: the key first, then a name of its feed that is not filed. */
  lemma {:induction false} KeyThenNameDoesNot(keyOf: string -> Bytes, name: string)
    requires |keyOf(name)| == 32 && name != Keys.Hex(keyOf(name))
    ensures var (keyed, first) := OpenByKey(keyOf, NEW_NET, keyOf(name), true);
            var (named, second) := OpenByName(keyOf, keyed, name, true);
            && first.Some? && second.Some? && first != second
            && OpenByKey(keyOf, named, keyOf(name), true) == (named, second)
  {
    KeyFirst(keyOf, keyOf(name));
    var keyed := OpenByKey(keyOf, NEW_NET, keyOf(name), true).0;
    ByKeyOk(keyOf, NEW_NET, keyOf(name), true);
    NamedIsFiledTwice(keyOf, keyed, name, true);
    var (named, second) := OpenByName(keyOf, keyed, name, true);
    KeyedFindsIt(keyOf, named, keyOf(name), second.value, true);
  }

  lemma {:induction false} EnsuredOpensIff(keyOf: string -> Bytes, n: Net, id: nat, served: bool)
    requires id in n.sessions.values
    ensures var core := n.sessions.values[id];
            var next := Ensured(keyOf, n, id, served);
            && id in next.sessions.values
            && (next.sessions.values[id].open <==>
                  core.open || (served && (core.name.Some? || (core.key.Some? && |core.key.value| == 32))))
  {
  }

  /**
   When an open succeeds: exactly if the session it finds is open already, or the store serves it and
   it asks with a name, or with a key of 32 bytes.
   */
  lemma {:induction false} OpenSucceedsIff(keyOf: string -> Bytes, n: Net, op: Op)
    requires NetOk(keyOf, n) && |n.sessions.values| + 1 < U32
    ensures Do(keyOf, n, op).1.Some? <==>
              if Filed(n, TextOf(op))
              then var core := n.sessions.values[n.sessions.nameId[TextOf(op)]];
                   core.open || (op.served && (core.name.Some? || |core.key.value| == 32))
              else op.served && (op.ByName? || |op.key| == 32)
  {
    LocatedOk(keyOf, n, NewCore(op), TextOf(op));
    var (n1, id) := Located(n, NewCore(op), TextOf(op));
    EnsuredOpensIff(keyOf, n1, id, op.served);
    assert CoreOk(keyOf, n1.sessions.values[id]);
  }

  lemma {:induction false} KeyedAgain(keyOf: string -> Bytes, n: Net, key: Bytes, served: bool)
    requires NetOk(keyOf, n) && |n.sessions.values| + 1 < U32 && OpenByKey(keyOf, n, key, served).1.Some?
    ensures OpenByKey(keyOf, OpenByKey(keyOf, n, key, served).0, key, served) == OpenByKey(keyOf, n, key, served)
  {
    LocatedOk(keyOf, n, Core(None, Some(key), false), Keys.Hex(key));
  }

  lemma {:induction false} NamedAgain(keyOf: string -> Bytes, n: Net, name: string, served: bool)
    requires NetOk(keyOf, n) && |n.sessions.values| + 1 < U32 && OpenByName(keyOf, n, name, served).1.Some?
    ensures OpenByName(keyOf, OpenByName(keyOf, n, name, served).0, name, served) == OpenByName(keyOf, n, name, served)
  {
    if Filed(n, name) {
      LocatedOk(keyOf, n, Core(Some(name), None, false), name);
    } else {
      NamedIsFiledTwice(keyOf, n, name, served);
    }
  }

  /** Asked again, a successful open returns the same session and changes nothing. */
  lemma {:induction false} OpenedAgain(keyOf: string -> Bytes, n: Net, op: Op)
    requires NetOk(keyOf, n) && |n.sessions.values| + 1 < U32 && Do(keyOf, n, op).1.Some?
    ensures Do(keyOf, Do(keyOf, n, op).0, op) == Do(keyOf, n, op)
  {
    match op {
      case ByKey(key, served) => KeyedAgain(keyOf, n, key, served);
      case ByName(name, served) => NamedAgain(keyOf, n, name, served);
    }
  }

  /**
   Why there may be only 2^32 sessions: two sessions whose ids agree in 32 bits share a place at the
   server, and opening the second takes it from the first.
   */
  lemma {:induction false} IdsCollide(keyOf: string -> Bytes, n: Net, a: nat, b: nat)
    requires a in n.sessions.values && b in n.sessions.values && a != b && a % 0x1_0000_0000 == b % 0x1_0000_0000
    requires !n.sessions.values[a].open && !n.sessions.values[b].open
    requires Servable(n.sessions.values[a]) && Servable(n.sessions.values[b])
    ensures var first := Ensured(keyOf, n, a, true);
            var second := Ensured(keyOf, first, b, true);
            var place := a % 0x1_0000_0000;
            && place in first.cores && first.cores[place] == FeedOf(keyOf, n.sessions.values[a])
            && place in second.cores && second.cores[place] == FeedOf(keyOf, n.sessions.values[b])
            && second.sessions.values[a].open && second.sessions.values[b].open
  {
  }
}
