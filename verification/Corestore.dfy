/**
 A store of feeds on disk, opened by public key, by name or by discovery key
 (`corestore/src/corestore.rs`).

 The operations are functions from a store to a store and a result; class `InnerCorestore`
 has them as methods on fields, proved to compute those functions.
 */
module Corestores {
  import opened Common
  import opened Keys
  import opened FeedMaps

  // ---- files ----

  type Path = seq<string>
  type Files = map<Path, seq<Byte>>

  const MASTER_KEY_PATH: Path := ["master_key"]

  /** A file that was never written reads as empty. */
  function Content(files: Files, path: Path): seq<Byte> {
    if path in files then files[path] else []
  }

  /** Writing at offset 0 replaces the front of the file. */
  function Written(files: Files, path: Path, data: seq<Byte>): Files {
    var was := Content(files, path);
    files[path := data + (if |data| < |was| then was[|data|..] else [])]
  }

  /** The directory of a feed: two levels named by the first digits, then the whole discovery key. */
  function FeedPath(dkey: Key): Path {
    var text := Hex(dkey);
    [text[..2], text[2..4], text]
  }

  function FilePath(dkey: Key, file: string): Path {
    FeedPath(dkey) + [file]
  }

  function NameFile(files: Files, dkey: Key): seq<Byte> {
    Content(files, FilePath(dkey, "name"))
  }

  function KeyFile(files: Files, dkey: Key): seq<Byte> {
    Content(files, FilePath(dkey, "key"))
  }

  function MasterFile(files: Files): seq<Byte> {
    Content(files, MASTER_KEY_PATH)
  }

  /** The first 32 bytes, which is how keys are read; a shorter file is an error. */
  function AsKey(content: seq<Byte>): Option<Key> {
    if |content| >= 32 then Some(content[..32]) else None
  }

  /** Where a file of a feed lies: below the first byte of its discovery key, the second, and the whole key. */
  lemma {:induction false} FilePathParts(dkey: Key, file: string)
    ensures var path := FilePath(dkey, file);
            && |path| == 4 && path[3] == file && path[2] == Hex(dkey)
            && path[0] == ["0123456789abcdef"[dkey[0] as int / 16], "0123456789abcdef"[dkey[0] as int % 16]]
            && path[1] == ["0123456789abcdef"[dkey[1] as int / 16], "0123456789abcdef"[dkey[1] as int % 16]]
  {
    HexAt(dkey, 0);
    HexAt(dkey, 1);
  }

  /** Feeds never share a file. */
  lemma {:induction false} FilePathInjective(a: Key, f: string, b: Key, g: string)
    requires FilePath(a, f) == FilePath(b, g)
    ensures a == b && f == g
  {
    assert FilePath(a, f)[2] == Hex(a) && FilePath(b, g)[2] == Hex(b);
    assert FilePath(a, f)[3] == f && FilePath(b, g)[3] == g;
    HexInjective(a, b);
  }

  lemma {:induction false} WrittenFeedFile(files: Files, dkey: Key, file: string, data: seq<Byte>)
    ensures var after := Written(files, FilePath(dkey, file), data);
            && data <= Content(after, FilePath(dkey, file))
            && (Content(files, FilePath(dkey, file)) == [] ==> Content(after, FilePath(dkey, file)) == data)
            && MasterFile(after) == MasterFile(files)
            && (forall d: Key :: d != dkey || file != "name" ==> NameFile(after, d) == NameFile(files, d))
            && (forall d: Key :: d != dkey || file != "key" ==> KeyFile(after, d) == KeyFile(files, d))
  {
    var after := Written(files, FilePath(dkey, file), data);
    assert |FilePath(dkey, file)| != |MASTER_KEY_PATH|;
    forall d: Key | d != dkey || file != "name"
      ensures NameFile(after, d) == NameFile(files, d)
    {
      if FilePath(d, "name") == FilePath(dkey, file) {
        FilePathInjective(d, "name", dkey, file);
      }
    }
    forall d: Key | d != dkey || file != "key"
      ensures KeyFile(after, d) == KeyFile(files, d)
    {
      if FilePath(d, "key") == FilePath(dkey, file) {
        FilePathInjective(d, "key", dkey, file);
      }
    }
  }

  /** A write replaces as many bytes as it has at the front of the file, and touches no other file. */
  lemma {:induction false} WrittenExactly(files: Files, path: Path, data: seq<Byte>, other: Path)
    ensures var was, now := Content(files, path), Content(Written(files, path, data), path);
            && |now| == (if |data| < |was| then |was| else |data|)
            && forall i :: 0 <= i < |now| ==> now[i] == if i < |data| then data[i] else was[i]
    ensures other != path ==> Content(Written(files, path, data), other) == Content(files, other)
  {
  }

  /** The files the store itself reads: `name` and `key` of each feed, and `master_key`. */
  lemma {:induction false} FilesRead(files: Files, dkey: Key)
    ensures NameFile(files, dkey) == Content(files, FeedPath(dkey) + ["name"])
    ensures KeyFile(files, dkey) == Content(files, FeedPath(dkey) + ["key"])
    ensures MasterFile(files) == Content(files, ["master_key"])
    ensures forall path :: path !in files ==> Content(files, path) == []
    ensures forall path :: path in files ==> Content(files, path) == files[path]
  {
  }

  function ReadName(files: Files, dkey: Key): Option<Name> {
    if NameFile(files, dkey) != [] then Some(NameFile(files, dkey)) else None
  }

  function NameWrittenIfEmpty(files: Files, dkey: Key, name: Name): Files {
    if NameFile(files, dkey) != [] then files else Written(files, FilePath(dkey, "name"), name)
  }

  // ---- the store ----

  /** `queues` holds what each subscriber has been sent; `made` counts the shared feeds made so far. */
  datatype Store = Store(master: Key, index: Index, files: Files, queues: seq<seq<Handle>>, made: nat)

  datatype Opened = Opened(feed: Handle) | NotFound | BadKey

  function Emitted(queues: seq<seq<Handle>>, feed: Handle): seq<seq<Handle>> {
    seq(|queues|, i requires 0 <= i < |queues| => queues[i] + [feed])
  }

  /** Opening the feed's storage records its public key, and the name if it has none yet. */
  function BuiltFiles(c: Crypto, files: Files, publicKey: Key, name: Option<Name>): Files {
    var dkey := c.discovery(publicKey);
    var named := if name.Some? then NameWrittenIfEmpty(files, dkey, name.value) else files;
    Written(named, FilePath(dkey, "key"), publicKey)
  }

  function Build(c: Crypto, s: Store, publicKey: Key, secretKey: Option<Key>, name: Option<Name>): Store {
    var feed := Handle(s.made, publicKey, secretKey);
    Store(s.master, Inserted(c, s.index, feed, name), BuiltFiles(c, s.files, publicKey, name),
          Emitted(s.queues, feed), s.made + 1)
  }

  /** What an open comes to: an answer that changes nothing, or a feed to make. */
  datatype Plan = Answer(answer: Opened) | Make(publicKey: Key, secretKey: Option<Key>, name: Option<Name>)

  /**
   An open feed is found in the index. Otherwise a given name, or the name on disk of a given
   key, decides the key pair; a key without a name is opened without its secret. `random` is
   the name made up when neither a key nor a name is given.
   */
  function PlanOpen(c: Crypto, s: Store, key: Option<Key>, name: Option<Name>, random: Name): Plan {
    var byKey := if key.Some? then Lookup(s.index.feeds, s.index.keys, key.value) else None;
    var byName := if name.Some? then Lookup(s.index.feeds, s.index.names, name.value) else None;
    if byKey.Some? then Answer(Opened(byKey.value))
    else if byName.Some? then Answer(Opened(byName.value))
    else
      var known := if name.None? && key.Some? then ReadName(s.files, c.discovery(key.value)) else name;
      if known.None? && key.Some? then
        if !c.isPublicKey(key.value) then Answer(BadKey) else Make(key.value, None, None)
      else
        var n := known.GetOr(random);
        var secret := c.seed(s.master, n);
        Make(c.publicKey(secret), Some(secret), Some(n))
  }

  function PlanDkey(c: Crypto, s: Store, dkey: Key): Plan {
    var open := Lookup(s.index.feeds, s.index.dkeys, dkey);
    if open.Some? then Answer(Opened(open.value))
    else
      var key := AsKey(KeyFile(s.files, dkey));
      if key.Some? then PlanOpen(c, s, key, None, []) else Answer(NotFound)
  }

  function Perform(c: Crypto, s: Store, plan: Plan): (Store, Opened) {
    match plan
    case Answer(answer) => (s, answer)
    case Make(publicKey, secretKey, name) =>
      (Build(c, s, publicKey, secretKey, name), Opened(Handle(s.made, publicKey, secretKey)))
  }

  /** Opening the store: the master key is read back, or made up and written. */
  function OpenStore(files: Files, random: Key, made: nat): Store {
    var stored := AsKey(MasterFile(files));
    var master := stored.GetOr(random);
    Store(master, EMPTY_INDEX, if stored.Some? then files else Written(files, MASTER_KEY_PATH, master), [], made)
  }

  datatype Op = ByKey(key: Key) | ByName(name: Name) | ByDkey(dkey: Key) | Subscribe | Reopen(random: Key) {
    predicate Opens() {
      ByKey? || ByName? || ByDkey?
    }
  }

  /** Opens by name use the names in use. */
  predicate Allowed(c: Crypto, op: Op) {
    op.ByName? ==> op.name in c.names
  }

  predicate AllAllowed(c: Crypto, ops: seq<Op>) {
    forall i :: 0 <= i < |ops| ==> Allowed(c, ops[i])
  }

  function PlanFor(c: Crypto, s: Store, op: Op): Plan
    requires op.Opens()
  {
    match op
    case ByKey(key) => PlanOpen(c, s, Some(key), None, [])
    case ByName(name) => PlanOpen(c, s, None, Some(name), [])
    case ByDkey(dkey) => PlanDkey(c, s, dkey)
  }

  /** One call; `Reopen` ends the session and opens the same directory again. */
  function Do(c: Crypto, s: Store, op: Op): (Store, Opened) {
    match op
    case Subscribe => (s.(queues := s.queues + [[]]), NotFound)
    case Reopen(random) => (OpenStore(s.files, random, s.made), NotFound)
    case _ => Perform(c, s, PlanFor(c, s, op))
  }

  function Exec(c: Crypto, s: Store, ops: seq<Op>): Store
    decreases |ops|
  {
    if ops == [] then s else Exec(c, Do(c, s, ops[0]).0, ops[1..])
  }

  // ---- the program's own form ----

  class Disk {
    var files: Files

    constructor (files: Files)
      ensures this.files == files
    {
      this.files := files;
    }

    method Write(path: Path, data: seq<Byte>)
      modifies this
      ensures files == Written(old(files), path, data)
    {
      files := Written(files, path, data);
    }
  }

  class InnerCorestore {
    const crypto: Crypto
    const disk: Disk
    const feeds: FeedMap
    const masterKey: Key
    var queues: seq<seq<Handle>>
    var made: nat

    constructor (crypto: Crypto, disk: Disk, random: Key, made: nat)
      modifies disk
      ensures this.crypto == crypto && this.disk == disk && fresh(feeds) && feeds.crypto == crypto
      ensures Value() == OpenStore(old(disk.files), random, made)
    {
      this.crypto := crypto;
      this.disk := disk;
      var content := Content(disk.files, MASTER_KEY_PATH);
      if |content| >= 32 {
        masterKey := content[..32];
      } else {
        masterKey := random;
      }
      feeds := new FeedMap(crypto);
      queues := [];
      this.made := made;
      new;
      if |content| < 32 {
        disk.Write(MASTER_KEY_PATH, random);
      }
    }

    ghost function Value(): Store
      reads this, disk, feeds
    {
      Store(masterKey, feeds.Value(), disk.files, queues, made)
    }

    method NewSubscriber()
      modifies this
      ensures Value() == old(Value()).(queues := old(queues) + [[]])
    {
      queues := queues + [[]];
    }

    method Emit(feed: Handle)
      modifies this`queues
      ensures queues == Emitted(old(queues), feed)
      ensures |queues| == |old(queues)|
      ensures forall j :: 0 <= j < |queues| ==> queues[j] == old(queues)[j] + [feed]
    {
      for i := 0 to |queues|
        invariant |queues| == |old(queues)|
        invariant forall j :: 0 <= j < i ==> queues[j] == old(queues)[j] + [feed]
        invariant forall j :: i <= j < |queues| ==> queues[j] == old(queues)[j]
      {
        queues := queues[i := queues[i] + [feed]];
      }
    }

    method ReadNameOf(dkey: Key) returns (name: Option<Name>)
      ensures name == ReadName(disk.files, dkey)
    {
      var content := Content(disk.files, FilePath(dkey, "name"));
      if |content| > 0 {
        name := Some(content);
      } else {
        name := None;
      }
    }

    method WriteNameIfEmpty(dkey: Key, name: Name) returns (written: bool)
      modifies disk
      ensures written == (NameFile(old(disk.files), dkey) == [])
      ensures disk.files == NameWrittenIfEmpty(old(disk.files), dkey, name)
    {
      var content := Content(disk.files, FilePath(dkey, "name"));
      if |content| > 0 {
        return false;
      }
      disk.Write(FilePath(dkey, "name"), name);
      written := true;
    }

    /** Makes the feed, records it on disk and in the index, and tells the subscribers. */
    method BuildFeed(publicKey: Key, secretKey: Option<Key>, name: Option<Name>) returns (feed: Handle)
      requires feeds.crypto == crypto
      modifies this, disk, feeds
      ensures Value() == Build(crypto, old(Value()), publicKey, secretKey, name)
      ensures feed == Handle(old(made), publicKey, secretKey)
    {
      var dkey := crypto.discovery(publicKey);
      if name.Some? {
        var _ := WriteNameIfEmpty(dkey, name.value);
      }
      disk.Write(FilePath(dkey, "key"), publicKey);
      feed := Handle(made, publicKey, secretKey);
      made := made + 1;
      feeds.Insert(feed, name);
      Emit(feed);
    }

    method Open(key: Option<Key>, name: Option<Name>, random: Name) returns (result: Opened)
      requires feeds.crypto == crypto
      modifies this, disk, feeds
      ensures (Value(), result) == Perform(crypto, old(Value()), PlanOpen(crypto, old(Value()), key, name, random))
    {
      if key.Some? {
        var found := feeds.GetKey(key.value);
        if found.Some? {
          return Opened(found.value);
        }
      }
      if name.Some? {
        var found := feeds.GetName(name.value);
        if found.Some? {
          return Opened(found.value);
        }
      }
      var known := name;
      if name.None? && key.Some? {
        known := ReadNameOf(crypto.discovery(key.value));
      }
      var feed;
      if known.None? && key.Some? {
        if !crypto.isPublicKey(key.value) {
          return BadKey;
        }
        feed := BuildFeed(key.value, None, None);
      } else {
        var n := known.GetOr(random);
        var secret := crypto.seed(masterKey, n);
        feed := BuildFeed(crypto.publicKey(secret), Some(secret), Some(n));
      }
      result := Opened(feed);
    }

    method OpenByDkey(dkey: Key) returns (result: Opened)
      requires feeds.crypto == crypto
      modifies this, disk, feeds
      ensures (Value(), result) == Perform(crypto, old(Value()), PlanDkey(crypto, old(Value()), dkey))
    {
      var found := feeds.GetDkey(dkey);
      if found.Some? {
        return Opened(found.value);
      }
      var content := Content(disk.files, FilePath(dkey, "key"));
      if |content| < 32 {
        return NotFound;
      }
      result := Open(Some(content[..32]), None, []);
    }
  }
}
