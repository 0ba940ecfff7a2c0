/** What holds of a corestore through every run of opens, across sessions on the same directory. */
module CorestoreRuns {
  import opened Common
  import opened Keys
  import opened FeedMaps
  import opened Corestores

  // ---- the invariant of a store and its directory ----

  /** A name file holds a name that derives to the feed it lies with; a key file holds that feed's key. */
  ghost predicate DiskTrue(c: Crypto, master: Key, files: Files) {
    && AsKey(MasterFile(files)) == Some(master)
    && (forall d: Key :: NameFile(files, d) != [] ==>
          NameFile(files, d) in c.names && c.discovery(c.KeyOf(master, NameFile(files, d))) == d)
    && (forall d: Key :: |KeyFile(files, d)| >= 32 ==>
          c.discovery(KeyFile(files, d)[..32]) == d && c.isPublicKey(KeyFile(files, d)[..32]))
  }

  /** Names belong to the feeds they derive, and those feeds have their secret key. */
  ghost predicate NamesTrue(c: Crypto, s: Store) {
    && (forall n: Name :: n in s.index.names ==>
          && n in c.names && s.index.names[n] in s.index.feeds
          && s.index.feeds[s.index.names[n]].publicKey == c.KeyOf(s.master, n))
    && (forall id: nat :: id in s.index.namesRev ==>
          && id in s.index.feeds && s.index.namesRev[id] in c.names
          && s.index.feeds[id].publicKey == c.KeyOf(s.master, s.index.namesRev[id])
          && s.index.feeds[id].secretKey == Some(c.seed(s.master, s.index.namesRev[id])))
  }

  ghost predicate StoreOk(c: Crypto, s: Store) {
    Consistent(c, s.index) && NamesTrue(c, s) && DiskTrue(c, s.master, s.files)
  }

  lemma {:induction false} BuiltFilesTrue(c: Crypto, master: Key, files: Files, publicKey: Key, name: Option<Name>)
    requires DiskTrue(c, master, files) && c.isPublicKey(publicKey)
    requires name.Some? ==> name.value in c.names && publicKey == c.KeyOf(master, name.value)
    ensures DiskTrue(c, master, BuiltFiles(c, files, publicKey, name))
    ensures AsKey(KeyFile(BuiltFiles(c, files, publicKey, name), c.discovery(publicKey))) == Some(publicKey)
    ensures forall d: Key :: NameFile(files, d) != [] ==>
              NameFile(BuiltFiles(c, files, publicKey, name), d) == NameFile(files, d)
    ensures name.Some? && NameFile(files, c.discovery(publicKey)) == [] ==>
              NameFile(BuiltFiles(c, files, publicKey, name), c.discovery(publicKey)) == name.value
    ensures forall d: Key :: d != c.discovery(publicKey) ==>
              KeyFile(BuiltFiles(c, files, publicKey, name), d) == KeyFile(files, d)
  {
    var dkey := c.discovery(publicKey);
    var named := if name.Some? then NameWrittenIfEmpty(files, dkey, name.value) else files;
    if name.Some? {
      WrittenFeedFile(files, dkey, "name", name.value);
    }
    WrittenFeedFile(named, dkey, "key", publicKey);
  }

  lemma {:induction false} NamesTrueBuilt(
    c: Crypto, s: Store, publicKey: Key, secretKey: Option<Key>, name: Option<Name>)
    requires Dense(s.index) && NamesTrue(c, s)
    requires name.Some? ==>
               && name.value in c.names && publicKey == c.KeyOf(s.master, name.value)
               && secretKey == Some(c.seed(s.master, name.value))
    ensures NamesTrue(c, Build(c, s, publicKey, secretKey, name))
  {
  }

  lemma {:induction false} BuildOk(c: Crypto, s: Store, publicKey: Key, secretKey: Option<Key>, name: Option<Name>)
    requires c.CollisionFree() && StoreOk(c, s) && c.isPublicKey(publicKey)
    requires name.Some? ==>
               && name.value in c.names && publicKey == c.KeyOf(s.master, name.value)
               && secretKey == Some(c.seed(s.master, name.value))
    ensures StoreOk(c, Build(c, s, publicKey, secretKey, name))
  {
    InsertedConsistent(c, s.index, Handle(s.made, publicKey, secretKey), name);
    BuiltFilesTrue(c, s.master, s.files, publicKey, name);
    NamesTrueBuilt(c, s, publicKey, secretKey, name);
  }

  /** The name found with a key's files derives back to the key. */
  lemma {:induction false} RecoveredName(c: Crypto, master: Key, files: Files, key: Key)
    requires c.CollisionFree() && DiskTrue(c, master, files) && ReadName(files, c.discovery(key)).Some?
    ensures c.KeyOf(master, ReadName(files, c.discovery(key)).value) == key
  {
  }

  /** The key a call asks for. */
  ghost predicate Denotes(c: Crypto, master: Key, op: Op, key: Key) {
    match op
    case ByKey(k) => k == key
    case ByName(n) => c.KeyOf(master, n) == key
    case ByDkey(d) => c.discovery(key) == d
    case _ => false
  }

  /**
   A feed that a call may make: it is the one the call asks for; with a name it is the feed
   of that name and has its secret, and without one the disk has no name for it.
   */
  ghost predicate Sensible(c: Crypto, s: Store, op: Op, plan: Plan)
    requires plan.Make?
  {
    && Denotes(c, s.master, op, plan.publicKey) && c.isPublicKey(plan.publicKey)
    && (plan.name.Some? ==>
          && plan.name.value in c.names
          && plan.publicKey == c.KeyOf(s.master, plan.name.value)
          && plan.secretKey == Some(c.seed(s.master, plan.name.value)))
    && (plan.name.None? ==> plan.secretKey.None? && NameFile(s.files, c.discovery(plan.publicKey)) == [])
    && (op.ByName? ==> plan.name == Some(op.name) && op.name !in s.index.names)
    && (!op.ByName? ==> plan.publicKey !in s.index.keys)
  }

  lemma {:induction false} PlanByKey(c: Crypto, s: Store, key: Key)
    requires c.CollisionFree() && StoreOk(c, s)
    ensures var plan := PlanOpen(c, s, Some(key), None, []);
            && (plan.Make? ==> plan.publicKey == key && Sensible(c, s, ByKey(key), plan))
            && (plan.Answer? ==>
                  plan.answer == (if key in s.index.keys then Opened(s.index.feeds[s.index.keys[key]]) else BadKey))
            && (plan == Answer(BadKey) <==>
                  key !in s.index.keys && NameFile(s.files, c.discovery(key)) == [] && !c.isPublicKey(key))
  {
  }

  lemma {:induction false} PlanByDkey(c: Crypto, s: Store, dkey: Key)
    requires c.CollisionFree() && StoreOk(c, s)
    ensures var plan := PlanDkey(c, s, dkey);
            && (plan.Make? ==> Sensible(c, s, ByDkey(dkey), plan))
            && (plan.Answer? ==>
                  plan.answer == if dkey in s.index.dkeys then Opened(s.index.feeds[s.index.dkeys[dkey]]) else NotFound)
            && (plan == Answer(NotFound) <==> dkey !in s.index.dkeys && |KeyFile(s.files, dkey)| < 32)
  {
  }

  /**
   What an open with any key and any name comes to, on a store in order: an open feed of the key, else
   one of the name; else a feed of the given name, of the name on disk with the key's files, or of the
   random name, with its secret; else the key's feed without its secret, if the key is one.
   */
  lemma {:induction false} PlanOpenMeans(c: Crypto, s: Store, key: Option<Key>, name: Option<Name>, random: Name)
    requires StoreOk(c, s)
    ensures var plan := PlanOpen(c, s, key, name, random);
            var keyOpen := key.Some? && key.value in s.index.keys;
            var nameOpen := name.Some? && name.value in s.index.names;
            var onDisk := if key.Some? then NameFile(s.files, c.discovery(key.value)) else [];
            && (plan.Answer? && plan.answer.Opened? <==> keyOpen || nameOpen)
            && (keyOpen ==> plan.answer.feed.publicKey == key.value)
            && (!keyOpen && nameOpen ==> plan.answer.feed == s.index.feeds[s.index.names[name.value]])
            && (plan.Answer? ==> plan.answer != NotFound)
            && (plan == Answer(BadKey) <==>
                  key.Some? && !keyOpen && name.None? && onDisk == [] && !c.isPublicKey(key.value))
            && (plan.Make? && plan.name.Some? ==>
                  && plan.name.value == (if name.Some? then name.value else if onDisk != [] then onDisk else random)
                  && plan.publicKey == c.KeyOf(s.master, plan.name.value)
                  && plan.secretKey == Some(c.seed(s.master, plan.name.value)))
            && (plan.Make? && plan.name.None? ==>
                  key.Some? && name.None? && onDisk == [] && plan == Make(key.value, None, None))
  {
  }

  /** What a call plans: a feed found in the index is the one asked for, and a feed made is sensible. */
  lemma {:induction false} PlanTrue(c: Crypto, s: Store, op: Op)
    requires c.CollisionFree() && StoreOk(c, s) && op.Opens() && Allowed(c, op)
    ensures var plan := PlanFor(c, s, op);
            && (plan.Make? ==> Sensible(c, s, op, plan))
            && (plan.Answer? && plan.answer.Opened? ==>
                  && plan.answer.feed.publicKey in s.index.keys
                  && Denotes(c, s.master, op, plan.answer.feed.publicKey))
  {
    match op {
      case ByKey(key) => PlanByKey(c, s, key);
      case ByName(name) =>
      case ByDkey(dkey) => PlanByDkey(c, s, dkey);
    }
  }

  /** A by-key open that succeeds gives the feed of that very key, recovered name or not. */
  lemma {:induction false} OpensTheKeyAskedFor(c: Crypto, s: Store, op: Op)
    requires c.CollisionFree() && StoreOk(c, s) && Allowed(c, op) && Do(c, s, op).1.Opened?
    ensures Denotes(c, s.master, op, Do(c, s, op).1.feed.publicKey)
  {
    PlanTrue(c, s, op);
  }

  lemma {:induction false} ReopenOk(c: Crypto, s: Store, random: Key)
    requires StoreOk(c, s)
    ensures var next := OpenStore(s.files, random, s.made);
            StoreOk(c, next) && next.master == s.master && next.files == s.files && next.index == EMPTY_INDEX
  {
  }

  lemma {:induction false} DoOk(c: Crypto, s: Store, op: Op)
    requires c.CollisionFree() && StoreOk(c, s) && Allowed(c, op)
    ensures StoreOk(c, Do(c, s, op).0) && Do(c, s, op).0.master == s.master
  {
    if op.Opens() {
      PlanTrue(c, s, op);
      var plan := PlanFor(c, s, op);
      if plan.Make? {
        BuildOk(c, s, plan.publicKey, plan.secretKey, plan.name);
      }
    } else if op.Reopen? {
      ReopenOk(c, s, op.random);
    }
  }

  /** Every store ever reached, in any number of sessions on a directory, satisfies the invariant. */
  lemma {:induction false} RunOk(c: Crypto, s: Store, ops: seq<Op>)
    requires c.CollisionFree() && StoreOk(c, s) && AllAllowed(c, ops)
    ensures StoreOk(c, Exec(c, s, ops)) && Exec(c, s, ops).master == s.master
    decreases |ops|
  {
    if ops != [] {
      DoOk(c, s, ops[0]);
      RunOk(c, Do(c, s, ops[0]).0, ops[1..]);
    }
  }

  /** A new directory: whatever master key is made up, the store on it is fine. */
  lemma {:induction false} NewStoreOk(c: Crypto, random: Key)
    ensures StoreOk(c, OpenStore(map[], random, 0)) && OpenStore(map[], random, 0).master == random
    ensures OpenStore(map[], random, 0).index == EMPTY_INDEX
  {
  }

  // ---- one shared feed per key ----

  /** The call opens by a name that is not in the index although its key is. */
  ghost predicate MakesSecond(c: Crypto, s: Store, op: Op) {
    op.ByName? && op.name !in s.index.names && c.KeyOf(s.master, op.name) in s.index.keys
  }

  /**
   A call makes a second shared feed for a key that is open exactly when it opens by a name
   that is not in the index while the key of that name is.
   */
  lemma {:induction false} SecondFeedIff(c: Crypto, s: Store, op: Op)
    requires c.CollisionFree() && StoreOk(c, s) && OnePerKey(s.index) && Allowed(c, op)
    ensures OnePerKey(Do(c, s, op).0.index) <==> !MakesSecond(c, s, op)
  {
    if op.Opens() {
      PlanTrue(c, s, op);
      var plan := PlanFor(c, s, op);
      if plan.Make? {
        InsertedOnePerKey(c, s.index, Handle(s.made, plan.publicKey, plan.secretKey), plan.name);
      }
    } else if op.Reopen? {
      ReopenOk(c, s, op.random);
    }
  }

  /** A second entry never goes away: no id is overwritten. */
  lemma {:induction false} SecondStays(c: Crypto, s: Store, op: Op)
    requires Consistent(c, s.index) && !OnePerKey(s.index) && !op.Reopen?
    ensures !OnePerKey(Do(c, s, op).0.index)
  {
    if op.Opens() && PlanFor(c, s, op).Make? {
      var plan, next := PlanFor(c, s, op), Do(c, s, op).0.index;
      var id: nat :| id in s.index.feeds && s.index.keys[s.index.feeds[id].publicKey] != id;
      assert |s.index.feeds| !in s.index.feeds;
      assert next.feeds[id] == s.index.feeds[id] && next.keys[next.feeds[id].publicKey] != id;
    }
  }

  /** Calls of one session, by names in use. */
  predicate OneSession(c: Crypto, ops: seq<Op>) {
    forall i :: 0 <= i < |ops| ==> !ops[i].Reopen? && Allowed(c, ops[i])
  }

  ghost predicate NoneMakesSecond(c: Crypto, s: Store, ops: seq<Op>)
    decreases |ops|
  {
    ops == [] || (!MakesSecond(c, s, ops[0]) && NoneMakesSecond(c, Do(c, s, ops[0]).0, ops[1..]))
  }

  lemma {:induction false} SecondStaysInSession(c: Crypto, s: Store, ops: seq<Op>)
    requires c.CollisionFree() && StoreOk(c, s) && !OnePerKey(s.index) && OneSession(c, ops)
    ensures !OnePerKey(Exec(c, s, ops).index)
    decreases |ops|
  {
    if ops != [] {
      DoOk(c, s, ops[0]);
      SecondStays(c, s, ops[0]);
      SecondStaysInSession(c, Do(c, s, ops[0]).0, ops[1..]);
    }
  }

  lemma {:induction false} SecondFeedStep(c: Crypto, s: Store, op: Op)
    requires c.CollisionFree() && StoreOk(c, s) && OnePerKey(s.index) && Allowed(c, op)
    ensures StoreOk(c, Do(c, s, op).0) && (OnePerKey(Do(c, s, op).0.index) <==> !MakesSecond(c, s, op))
  {
    DoOk(c, s, op);
    SecondFeedIff(c, s, op);
  }

  /** One entry per key, exactly: a session ends with it if and only if none of its calls made a second entry. */
  lemma {:induction false} OnePerKeyInSessionIff(c: Crypto, s: Store, ops: seq<Op>)
    requires c.CollisionFree() && StoreOk(c, s) && OnePerKey(s.index) && OneSession(c, ops)
    ensures OnePerKey(Exec(c, s, ops).index) <==> NoneMakesSecond(c, s, ops)
    decreases |ops|
  {
    if ops != [] {
      var next := Do(c, s, ops[0]).0;
      SecondFeedStep(c, s, ops[0]);
      assert OneSession(c, ops[1..]);
      if MakesSecond(c, s, ops[0]) {
        SecondStaysInSession(c, next, ops[1..]);
      } else {
        OnePerKeyInSessionIff(c, next, ops[1..]);
      }
    }
  }

  /** Every open feed whose key some name in use derives to is in the index under that name. */
  ghost predicate Named(c: Crypto, s: Store) {
    forall n: Name :: n in c.names && c.KeyOf(s.master, n) in s.index.keys ==> n in s.index.names
  }

  /** The store is consistent, no key is open twice, and every open feed is under its name. */
  ghost predicate Settled(c: Crypto, s: Store) {
    StoreOk(c, s) && OnePerKey(s.index) && Named(c, s)
  }

  /**
   The call does not open a key ahead of its name: if a name derives to the key it asks for,
   then the key is already open or the name is recorded on disk.
   */
  ghost predicate NotAheadOfName(c: Crypto, s: Store, op: Op) {
    forall n: Name ::
      n in c.names && (op.ByKey? || op.ByDkey?) && Denotes(c, s.master, op, c.KeyOf(s.master, n)) ==>
        c.KeyOf(s.master, n) in s.index.keys || NameFile(s.files, c.discovery(c.KeyOf(s.master, n))) != []
  }

  lemma {:induction false} NamedKept(c: Crypto, s: Store, op: Op)
    requires c.CollisionFree() && StoreOk(c, s) && Named(c, s) && NotAheadOfName(c, s, op) && Allowed(c, op)
    ensures Named(c, Do(c, s, op).0)
  {
    if op.Opens() {
      PlanTrue(c, s, op);
      var plan, next := PlanFor(c, s, op), Do(c, s, op).0;
      if plan.Make? {
        forall n: Name | n in c.names && c.KeyOf(s.master, n) in next.index.keys
          ensures n in next.index.names
        {
          if c.KeyOf(s.master, n) == plan.publicKey {
            assert plan.name.Some? ==> plan.name.value == n;
          }
        }
      }
    } else if op.Reopen? {
      ReopenOk(c, s, op.random);
    }
  }

  ghost predicate NamesFirst(c: Crypto, s: Store, ops: seq<Op>)
    decreases |ops|
  {
    ops == [] || (Allowed(c, ops[0]) && NotAheadOfName(c, s, ops[0]) && NamesFirst(c, Do(c, s, ops[0]).0, ops[1..]))
  }

  lemma {:induction false} NamesFirstStep(c: Crypto, s: Store, op: Op)
    requires c.CollisionFree() && Settled(c, s)
    requires NotAheadOfName(c, s, op) && Allowed(c, op)
    ensures OnePerKey(Do(c, s, op).0.index) && Named(c, Do(c, s, op).0)
  {
    SecondFeedIff(c, s, op);
    NamedKept(c, s, op);
  }

  /** One entry per key, in every state of every run in which no key is opened ahead of its name. */
  lemma {:induction false} OnePerKeyInRuns(c: Crypto, s: Store, ops: seq<Op>)
    requires c.CollisionFree() && Settled(c, s) && NamesFirst(c, s, ops)
    ensures Settled(c, Exec(c, s, ops))
    decreases |ops|
  {
    if ops != [] {
      DoOk(c, s, ops[0]);
      NamesFirstStep(c, s, ops[0]);
      OnePerKeyInRuns(c, Do(c, s, ops[0]).0, ops[1..]);
    }
  }

  /** An open key is answered with the feed it is open with, however it is asked for, and nothing changes. */
  lemma {:induction false} OpenKeyAnswered(c: Crypto, s: Store, op: Op, key: Key)
    requires c.CollisionFree() && Settled(c, s)
    requires key in s.index.keys && Denotes(c, s.master, op, key) && Allowed(c, op)
    ensures Do(c, s, op) == (s, Opened(s.index.feeds[s.index.keys[key]]))
  {
    assert s.index.dkeys[c.discovery(key)] == s.index.keys[key];
    if op.ByName? {
      assert op.name in s.index.names;
      assert s.index.feeds[s.index.names[op.name]].publicKey == s.index.feeds[s.index.keys[key]].publicKey;
    }
  }

  /** The shared feed a key is open with. */
  ghost predicate OpenWith(ix: Index, key: Key, feed: Handle) {
    key in ix.keys && ix.keys[key] in ix.feeds && ix.feeds[ix.keys[key]] == feed
  }

  lemma {:induction false} BuildKeepsOpen(c: Crypto, s: Store, plan: Plan, key: Key, feed: Handle)
    requires Dense(s.index) && plan.Make? && plan.publicKey != key && OpenWith(s.index, key, feed)
    ensures OpenWith(Perform(c, s, plan).0.index, key, feed)
  {
  }

  /** An open key stays open with the same feed until the store is opened anew. */
  lemma {:induction false} OpenKeyStays(c: Crypto, s: Store, op: Op, key: Key, feed: Handle)
    requires c.CollisionFree() && Settled(c, s)
    requires OpenWith(s.index, key, feed) && !op.Reopen? && Allowed(c, op)
    ensures OpenWith(Do(c, s, op).0.index, key, feed)
  {
    if Denotes(c, s.master, op, key) {
      OpenKeyAnswered(c, s, op, key);
    } else if op.Opens() {
      PlanTrue(c, s, op);
      if PlanFor(c, s, op).Make? {
        BuildKeepsOpen(c, s, PlanFor(c, s, op), key, feed);
      }
    }
  }

  lemma {:induction false} OpenKeyStep(c: Crypto, s: Store, op: Op, key: Key, feed: Handle)
    requires c.CollisionFree() && Settled(c, s) && NotAheadOfName(c, s, op)
    requires OpenWith(s.index, key, feed) && !op.Reopen? && Allowed(c, op)
    ensures var next := Do(c, s, op).0;
            Settled(c, next) && next.master == s.master && OpenWith(next.index, key, feed)
  {
    DoOk(c, s, op);
    NamesFirstStep(c, s, op);
    OpenKeyStays(c, s, op, key, feed);
  }

  /** Calls of one session, none of which opens a key ahead of its name. */
  ghost predicate Session(c: Crypto, s: Store, ops: seq<Op>)
    decreases |ops|
  {
    ops == [] || (
      && !ops[0].Reopen? && Allowed(c, ops[0]) && NotAheadOfName(c, s, ops[0])
      && Session(c, Do(c, s, ops[0]).0, ops[1..]))
  }

  lemma {:induction false} OpenKeyStaysInRun(c: Crypto, s: Store, ops: seq<Op>, key: Key, feed: Handle)
    requires c.CollisionFree() && Settled(c, s) && Session(c, s, ops) && OpenWith(s.index, key, feed)
    ensures Settled(c, Exec(c, s, ops)) && OpenWith(Exec(c, s, ops).index, key, feed)
    ensures Exec(c, s, ops).master == s.master
    decreases |ops|
  {
    if ops != [] {
      var next := Do(c, s, ops[0]).0;
      OpenKeyStep(c, s, ops[0], key, feed);
      OpenKeyStaysInRun(c, next, ops[1..], key, feed);
    }
  }

  lemma {:induction false} DenotesOne(c: Crypto, master: Key, op: Op, a: Key, b: Key)
    requires c.CollisionFree() && Denotes(c, master, op, a) && Denotes(c, master, op, b)
    ensures a == b
  {
  }

  /** A successful open leaves the key in the index with the feed that was returned. */
  lemma {:induction false} OpenedIsIndexed(c: Crypto, s: Store, op: Op, key: Key)
    requires c.CollisionFree() && Settled(c, s)
    requires Denotes(c, s.master, op, key) && Allowed(c, op) && Do(c, s, op).1.Opened?
    ensures OpenWith(Do(c, s, op).0.index, key, Do(c, s, op).1.feed)
  {
    if key in s.index.keys {
      OpenKeyAnswered(c, s, op, key);
    } else {
      var plan := PlanFor(c, s, op);
      PlanTrue(c, s, op);
      DenotesOne(c, s.master, op, key, Do(c, s, op).1.feed.publicKey);
      assert plan.Make? && plan.publicKey == key;
    }
  }

  /**
   One shared feed per key: two calls of a session that denote the same key, with any calls
   between them, answer with the same shared feed.
   */
  lemma {:induction false} SameFeed(c: Crypto, s: Store, first: Op, between: seq<Op>, second: Op, key: Key)
    requires c.CollisionFree() && Settled(c, s)
    requires NotAheadOfName(c, s, first) && Session(c, Do(c, s, first).0, between)
    requires Denotes(c, s.master, first, key) && Denotes(c, s.master, second, key)
    requires Allowed(c, first) && Allowed(c, second)
    requires Do(c, s, first).1.Opened?
    ensures Do(c, Exec(c, Do(c, s, first).0, between), second).1 == Do(c, s, first).1
  {
    var (next, result) := Do(c, s, first);
    DoOk(c, s, first);
    NamesFirstStep(c, s, first);
    OpenedIsIndexed(c, s, first, key);
    OpenKeyStaysInRun(c, next, between, key, result.feed);
    OpenKeyAnswered(c, Exec(c, next, between), second, key);
  }

  /**
   Opening a key ahead of its name does break this, for every name: on a new store, opening by
   the key and then by the name gives two different shared feeds with the same public key.
   */
  lemma {:induction false} KeyAheadOfName(c: Crypto, random: Key, name: Name)
    requires c.CollisionFree() && name in c.names
    ensures var s := OpenStore(map[], random, 0);
            var key := c.KeyOf(random, name);
            var (mid, first) := Do(c, s, ByKey(key));
            var (end, second) := Do(c, mid, ByName(name));
            && first.Opened? && second.Opened?
            && first.feed.publicKey == second.feed.publicKey == key
            && first.feed.token != second.feed.token && !OnePerKey(end.index)
  {
    NewStoreOk(c, random);
    var s := OpenStore(map[], random, 0);
    var key := c.KeyOf(random, name);
    NewStoreNoName(random, c.discovery(key));
    DoOk(c, s, ByKey(key));
    SecondFeedIff(c, s, ByKey(key));
    assert Do(c, s, ByKey(key)) == (Build(c, s, key, None, None), Opened(Handle(0, key, None)));
    SecondFeedIff(c, Do(c, s, ByKey(key)).0, ByName(name));
  }

  lemma {:induction false} NewStoreNoName(random: Key, dkey: Key)
    ensures NameFile(OpenStore(map[], random, 0).files, dkey) == []
  {
  }

  // ---- restarts ----

  /** The disk knows the feed of `name`: its key and its name. */
  ghost predicate Recorded(c: Crypto, master: Key, files: Files, name: Name) {
    var dkey := c.discovery(c.KeyOf(master, name));
    NameFile(files, dkey) == name && AsKey(KeyFile(files, dkey)) == Some(c.KeyOf(master, name))
  }

  /** If the feed of `name` is open, it is open under its name and with its secret key. */
  ghost predicate Restored(c: Crypto, s: Store, name: Name) {
    var key := c.KeyOf(s.master, name);
    key in s.index.keys ==>
      && s.index.keys[key] in s.index.feeds
      && s.index.feeds[s.index.keys[key]].secretKey == Some(c.seed(s.master, name))
      && s.index.keys[key] in s.index.namesRev && s.index.namesRev[s.index.keys[key]] == name
  }

  /** A feed made under a non-empty name is recorded with it. */
  lemma {:induction false} MakeRecords(c: Crypto, s: Store, plan: Plan)
    requires c.CollisionFree() && StoreOk(c, s) && plan.Make? && c.isPublicKey(plan.publicKey)
    requires plan.name.Some? && plan.name.value != [] && plan.name.value in c.names
    requires plan.publicKey == c.KeyOf(s.master, plan.name.value)
    ensures Recorded(c, s.master, BuiltFiles(c, s.files, plan.publicKey, plan.name), plan.name.value)
  {
    BuiltFilesTrue(c, s.master, s.files, plan.publicKey, plan.name);
    if ReadName(s.files, c.discovery(plan.publicKey)).Some? {
      RecoveredName(c, s.master, s.files, plan.publicKey);
    }
  }

  /** Every feed open under a non-empty name is recorded. */
  ghost predicate NamesRecorded(c: Crypto, s: Store) {
    forall n: Name :: n in s.index.names && n != [] ==> Recorded(c, s.master, s.files, n)
  }

  lemma {:induction false} BuildKeepsRecorded(c: Crypto, s: Store, plan: Plan, name: Name)
    requires c.CollisionFree() && StoreOk(c, s) && name != [] && plan.Make? && c.isPublicKey(plan.publicKey)
    requires plan.name.Some? ==> plan.name.value in c.names && plan.publicKey == c.KeyOf(s.master, plan.name.value)
    requires Recorded(c, s.master, s.files, name)
    ensures Recorded(c, s.master, BuiltFiles(c, s.files, plan.publicKey, plan.name), name)
  {
    BuiltFilesTrue(c, s.master, s.files, plan.publicKey, plan.name);
    var key := c.KeyOf(s.master, name);
    if plan.publicKey != key {
      assert c.discovery(plan.publicKey) != c.discovery(key);
    }
  }

  /** A feed made leaves another feed as it was restored, and restores its own. */
  lemma {:induction false} BuildKeepsRestored(c: Crypto, s: Store, plan: Plan, name: Name)
    requires Dense(s.index) && plan.Make? && Restored(c, s, name)
    requires plan.publicKey == c.KeyOf(s.master, name) ==>
               plan.name == Some(name) && plan.secretKey == Some(c.seed(s.master, name))
    ensures Restored(c, Perform(c, s, plan).0, name)
  {
  }

  lemma {:induction false} RecordedKept(c: Crypto, s: Store, op: Op, name: Name)
    requires c.CollisionFree() && StoreOk(c, s) && Allowed(c, op)
    requires name != [] && Recorded(c, s.master, s.files, name)
    ensures Recorded(c, s.master, Do(c, s, op).0.files, name)
    ensures Restored(c, s, name) || op.Reopen? ==> Restored(c, Do(c, s, op).0, name)
  {
    if op.Reopen? {
      ReopenOk(c, s, op.random);
    } else if op.Opens() {
      PlanTrue(c, s, op);
      var plan := PlanFor(c, s, op);
      if plan.Make? {
        BuildKeepsRecorded(c, s, plan, name);
        if plan.publicKey == c.KeyOf(s.master, name) {
          assert plan.name == Some(name);
        }
        if Restored(c, s, name) {
          BuildKeepsRestored(c, s, plan, name);
        }
      }
    }
  }

  lemma {:induction false} NamesRecordedKept(c: Crypto, s: Store, op: Op)
    requires c.CollisionFree() && Allowed(c, op) && StoreOk(c, s) && NamesRecorded(c, s)
    ensures NamesRecorded(c, Do(c, s, op).0)
    ensures op.ByName? && op.name != [] ==> Recorded(c, s.master, Do(c, s, op).0.files, op.name)
  {
    DoOk(c, s, op);
    var next := Do(c, s, op).0;
    if op.Opens() {
      PlanTrue(c, s, op);
    }
    forall n: Name | n != [] && (n in next.index.names || op == ByName(n))
      ensures Recorded(c, s.master, next.files, n)
    {
      if n in s.index.names {
        RecordedKept(c, s, op, n);
      } else {
        MakeRecords(c, s, PlanFor(c, s, op));
      }
    }
  }

  lemma {:induction false} NamesRecordedInRuns(c: Crypto, s: Store, ops: seq<Op>)
    requires c.CollisionFree() && AllAllowed(c, ops) && StoreOk(c, s) && NamesRecorded(c, s)
    ensures NamesRecorded(c, Exec(c, s, ops))
    decreases |ops|
  {
    if ops != [] {
      NamesRecordedKept(c, s, ops[0]);
      DoOk(c, s, ops[0]);
      NamesRecordedInRuns(c, Do(c, s, ops[0]).0, ops[1..]);
    }
  }

  lemma {:induction false} RecordedInRuns(c: Crypto, s: Store, ops: seq<Op>, name: Name)
    requires c.CollisionFree() && AllAllowed(c, ops) && StoreOk(c, s)
    requires name != [] && Recorded(c, s.master, s.files, name)
    ensures Recorded(c, s.master, Exec(c, s, ops).files, name)
    ensures Restored(c, s, name) ==> Restored(c, Exec(c, s, ops), name)
    decreases |ops|
  {
    if ops != [] {
      RecordedKept(c, s, ops[0], name);
      DoOk(c, s, ops[0]);
      RecordedInRuns(c, Do(c, s, ops[0]).0, ops[1..], name);
    }
  }

  lemma {:induction false} ExecConcat(c: Crypto, s: Store, a: seq<Op>, b: seq<Op>)
    ensures Exec(c, s, a + b) == Exec(c, Exec(c, s, a), b)
    decreases |a|
  {
    if a == [] {
      assert a + b == b;
    } else {
      assert (a + b)[1..] == a[1..] + b;
      ExecConcat(c, Do(c, s, a[0]).0, a[1..], b);
    }
  }

  /** Asked for by key or discovery key, the recorded feed comes with its secret and its name. */
  ghost predicate ComesBack(c: Crypto, s: Store, name: Name, ask: Op) {
    var (end, result) := Do(c, s, ask);
    var key := c.KeyOf(s.master, name);
    && result.Opened? && result.feed.publicKey == key && result.feed.secretKey == Some(c.seed(s.master, name))
    && OpenWith(end.index, key, result.feed)
    && end.index.keys[key] in end.index.namesRev && end.index.namesRev[end.index.keys[key]] == name
  }

  lemma {:induction false} AskRestored(c: Crypto, s: Store, name: Name, ask: Op)
    requires c.CollisionFree() && StoreOk(c, s) && name != []
    requires Recorded(c, s.master, s.files, name) && Restored(c, s, name)
    requires !ask.ByName? && Denotes(c, s.master, ask, c.KeyOf(s.master, name))
    ensures ComesBack(c, s, name, ask)
  {
    var key := c.KeyOf(s.master, name);
    assert ReadName(s.files, c.discovery(key)) == Some(name);
    PlanTrue(c, s, ask);
    if ask.ByKey? {
      PlanByKey(c, s, key);
    } else {
      PlanByDkey(c, s, c.discovery(key));
    }
  }

  /**
   Restart round trip: once a feed has been opened by a non-empty name, every later session on
   the directory that asks for it by public key or by discovery key gets it with its secret
   key and under its name, whatever was called before and after the restart.
   */
  lemma {:induction false} RestartRoundTrip(
    c: Crypto, s: Store, name: Name, before: seq<Op>, random: Key, after: seq<Op>, ask: Op)
    requires c.CollisionFree() && StoreOk(c, s) && NamesRecorded(c, s) && name != [] && name in c.names
    requires AllAllowed(c, before) && AllAllowed(c, after)
    requires !ask.ByName? && Denotes(c, s.master, ask, c.KeyOf(s.master, name))
    ensures var later := Exec(c, s, [ByName(name)] + before + [Reopen(random)] + after);
            later.master == s.master && ComesBack(c, later, name, ask)
  {
    NamedSession(c, s, name, before);
    var session := [ByName(name)] + before;
    AfterReopen(c, Exec(c, s, session), name, random, after);
    ExecConcat(c, s, session, [Reopen(random)] + after);
    assert session + [Reopen(random)] + after == session + ([Reopen(random)] + after);
    AskRestored(c, Exec(c, s, session + [Reopen(random)] + after), name, ask);
  }

  lemma {:induction false} NamedSession(c: Crypto, s: Store, name: Name, before: seq<Op>)
    requires c.CollisionFree() && StoreOk(c, s) && NamesRecorded(c, s) && name != [] && name in c.names
    requires AllAllowed(c, before)
    ensures var later := Exec(c, s, [ByName(name)] + before);
            StoreOk(c, later) && later.master == s.master && Recorded(c, later.master, later.files, name)
  {
    var named := Do(c, s, ByName(name)).0;
    assert ([ByName(name)] + before)[1..] == before;
    DoOk(c, s, ByName(name));
    NamesRecordedKept(c, s, ByName(name));
    RunOk(c, named, before);
    RecordedInRuns(c, named, before, name);
  }

  lemma {:induction false} AfterReopen(c: Crypto, s: Store, name: Name, random: Key, after: seq<Op>)
    requires c.CollisionFree() && AllAllowed(c, after) && StoreOk(c, s)
    requires name != [] && Recorded(c, s.master, s.files, name)
    ensures var later := Exec(c, s, [Reopen(random)] + after);
            && StoreOk(c, later) && later.master == s.master
            && Recorded(c, later.master, later.files, name) && Restored(c, later, name)
  {
    assert ([Reopen(random)] + after)[1..] == after;
    var reopened := Do(c, s, Reopen(random)).0;
    RecordedKept(c, s, Reopen(random), name);
    DoOk(c, s, Reopen(random));
    RecordedInRuns(c, reopened, after, name);
    RunOk(c, reopened, after);
  }

  /** Every store reached from a new directory satisfies what the theorems above ask of a store. */
  lemma {:induction false} FromNewDirectory(c: Crypto, random: Key, ops: seq<Op>)
    requires c.CollisionFree() && AllAllowed(c, ops)
    ensures var s := Exec(c, OpenStore(map[], random, 0), ops);
            && StoreOk(c, s) && NamesRecorded(c, s) && s.master == random
            && (NamesFirst(c, OpenStore(map[], random, 0), ops) ==> OnePerKey(s.index) && Named(c, s))
  {
    var empty := OpenStore(map[], random, 0);
    NewStoreOk(c, random);
    RunOk(c, empty, ops);
    NamesRecordedInRuns(c, empty, ops);
    if NamesFirst(c, empty, ops) {
      OnePerKeyInRuns(c, empty, ops);
    }
  }
}
