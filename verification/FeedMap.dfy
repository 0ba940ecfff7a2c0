/** The in-memory index of open feeds (`corestore/src/feed_map.rs`). */
module FeedMaps {
  import opened Common
  import opened Keys

  /**
   A shared feed. `token` tells one shared object from another: every call that makes one
   takes the next number.
   */
  datatype Handle = Handle(token: nat, publicKey: Key, secretKey: Option<Key>)

  /** The five maps. */
  datatype Index = Index(
    feeds: map<nat, Handle>, keys: map<Key, nat>, dkeys: map<Key, nat>, names: map<Name, nat>, namesRev: map<nat, Name>)

  const EMPTY_INDEX: Index := Index(map[], map[], map[], map[], map[])

  function Lookup(feeds: map<nat, Handle>, ids: map<seq<Byte>, nat>, at: seq<Byte>): Option<Handle> {
    if at in ids && ids[at] in feeds then Some(feeds[ids[at]]) else None
  }

  function Inserted(c: Crypto, ix: Index, feed: Handle, name: Option<Name>): Index {
    var id := |ix.feeds|;
    Index(ix.feeds[id := feed], ix.keys[feed.publicKey := id], ix.dkeys[c.discovery(feed.publicKey) := id],
          if name.Some? then ix.names[name.value := id] else ix.names,
          if name.Some? then ix.namesRev[id := name.value] else ix.namesRev)
  }

  /** Ids count the feeds. */
  ghost predicate Dense(ix: Index) {
    forall id: nat :: id in ix.feeds <==> id < |ix.feeds|
  }

  /** Every key leads to a feed with that key, and every open feed's key is there. */
  ghost predicate KeysLead(ix: Index) {
    && (forall k: Key :: k in ix.keys ==> ix.keys[k] in ix.feeds && ix.feeds[ix.keys[k]].publicKey == k)
    && (forall id: nat :: id in ix.feeds ==> ix.feeds[id].publicKey in ix.keys)
  }

  /** Discovery keys lead where their keys lead. */
  ghost predicate DkeysLead(c: Crypto, ix: Index) {
    && (forall k: Key :: k in ix.keys ==> c.discovery(k) in ix.dkeys && ix.dkeys[c.discovery(k)] == ix.keys[k])
    && (forall d: Key :: d in ix.dkeys ==> ix.dkeys[d] in ix.feeds && c.discovery(ix.feeds[ix.dkeys[d]].publicKey) == d)
  }

  ghost predicate NamesLead(ix: Index) {
    forall n: Name :: n in ix.names ==>
      ix.names[n] in ix.feeds && ix.names[n] in ix.namesRev && ix.namesRev[ix.names[n]] == n
  }

  /** The maps agree: every entry leads to a feed it describes. */
  ghost predicate Consistent(c: Crypto, ix: Index) {
    Dense(ix) && KeysLead(ix) && DkeysLead(c, ix) && NamesLead(ix)
  }

  /** Every open feed is the one its key leads to, so no public key is open twice. */
  ghost predicate OnePerKey(ix: Index) {
    forall id: nat :: id in ix.feeds ==> ix.feeds[id].publicKey in ix.keys && ix.keys[ix.feeds[id].publicKey] == id
  }

  lemma {:induction false} OnePerKeyMeansNoTwo(ix: Index)
    requires KeysLead(ix)
    ensures OnePerKey(ix) <==>
              forall i: nat, j: nat ::
                i in ix.feeds && j in ix.feeds && ix.feeds[i].publicKey == ix.feeds[j].publicKey ==> i == j
  {
  }

  lemma {:induction false} InsertedDense(c: Crypto, ix: Index, feed: Handle, name: Option<Name>)
    requires Dense(ix)
    ensures Dense(Inserted(c, ix, feed, name))
  {
  }

  lemma {:induction false} InsertedDkeysLead(c: Crypto, ix: Index, feed: Handle, name: Option<Name>)
    requires c.CollisionFree() && Dense(ix) && DkeysLead(c, ix)
    ensures DkeysLead(c, Inserted(c, ix, feed, name))
  {
  }

  lemma {:induction false} InsertedNamesLead(c: Crypto, ix: Index, feed: Handle, name: Option<Name>)
    requires Dense(ix) && NamesLead(ix)
    ensures NamesLead(Inserted(c, ix, feed, name))
  {
  }

  lemma {:induction false} InsertedConsistent(c: Crypto, ix: Index, feed: Handle, name: Option<Name>)
    requires c.CollisionFree() && Consistent(c, ix)
    ensures Consistent(c, Inserted(c, ix, feed, name))
  {
    InsertedDense(c, ix, feed, name);
    InsertedDkeysLead(c, ix, feed, name);
    InsertedNamesLead(c, ix, feed, name);
    assert |ix.feeds| !in ix.feeds;
  }

  /** The new feed is found under its key, discovery key and name; whatever was found under others still is. */
  lemma {:induction false} InsertedFinds(c: Crypto, ix: Index, feed: Handle, name: Option<Name>, at: seq<Byte>)
    requires Dense(ix)
    ensures var next := Inserted(c, ix, feed, name);
            && Lookup(next.feeds, next.keys, feed.publicKey) == Some(feed)
            && Lookup(next.feeds, next.dkeys, c.discovery(feed.publicKey)) == Some(feed)
            && (name.Some? ==> Lookup(next.feeds, next.names, name.value) == Some(feed))
            && (at in ix.keys && ix.keys[at] in ix.feeds && at != feed.publicKey ==>
                  Lookup(next.feeds, next.keys, at) == Lookup(ix.feeds, ix.keys, at))
            && (at in ix.dkeys && ix.dkeys[at] in ix.feeds && at != c.discovery(feed.publicKey) ==>
                  Lookup(next.feeds, next.dkeys, at) == Lookup(ix.feeds, ix.dkeys, at))
            && (at in ix.names && ix.names[at] in ix.feeds && name != Some(at) ==>
                  Lookup(next.feeds, next.names, at) == Lookup(ix.feeds, ix.names, at))
            && next.namesRev == if name.Some? then ix.namesRev[|ix.feeds| := name.value] else ix.namesRev
  {
    assert |ix.feeds| !in ix.feeds;
  }

  /** Exactly a key that is already open makes the new entry a second one for its key. */
  lemma {:induction false} InsertedOnePerKey(c: Crypto, ix: Index, feed: Handle, name: Option<Name>)
    requires Consistent(c, ix) && OnePerKey(ix)
    ensures OnePerKey(Inserted(c, ix, feed, name)) <==> feed.publicKey !in ix.keys
  {
    var id, next := |ix.feeds|, Inserted(c, ix, feed, name);
    assert id !in ix.feeds;
    if feed.publicKey in ix.keys {
      var other := ix.keys[feed.publicKey];
      assert next.feeds[other].publicKey == feed.publicKey && next.keys[feed.publicKey] != other;
    }
  }

  class FeedMap {
    const crypto: Crypto
    var feeds: map<nat, Handle>
    var keys: map<Key, nat>
    var dkeys: map<Key, nat>
    var names: map<Name, nat>
    var namesRev: map<nat, Name>

    constructor (crypto: Crypto)
      ensures this.crypto == crypto && Value() == EMPTY_INDEX
    {
      this.crypto := crypto;
      feeds, keys, dkeys, names, namesRev := map[], map[], map[], map[], map[];
    }

    ghost function Value(): Index
      reads this
    {
      Index(feeds, keys, dkeys, names, namesRev)
    }

    /** Under `NamesLead` a hit is a feed listed with the name, and a miss means that no feed was filed under it. */
    method GetName(name: Name) returns (feed: Option<Handle>)
      ensures feed == Lookup(Value().feeds, Value().names, name)
      ensures NamesLead(Value()) ==> (feed.Some? <==> name in names)
      ensures NamesLead(Value()) && feed.Some? ==>
                exists id :: id in feeds && feeds[id] == feed.value && id in namesRev && namesRev[id] == name
    {
      feed := if name in names && names[name] in feeds then Some(feeds[names[name]]) else None;
    }

    /** Under `KeysLead` a hit is a feed with that key, and a miss means that no open feed has it. */
    method GetKey(key: Key) returns (feed: Option<Handle>)
      ensures feed == Lookup(Value().feeds, Value().keys, key)
      ensures KeysLead(Value()) && feed.Some? ==> feed.value.publicKey == key
      ensures KeysLead(Value()) && feed.None? ==> forall id :: id in feeds ==> feeds[id].publicKey != key
    {
      feed := if key in keys && keys[key] in feeds then Some(feeds[keys[key]]) else None;
    }

    /** Under `Consistent` a hit is a feed with that discovery key, and a miss means that no open feed has it. */
    method GetDkey(dkey: Key) returns (feed: Option<Handle>)
      ensures feed == Lookup(Value().feeds, Value().dkeys, dkey)
      ensures Consistent(crypto, Value()) && feed.Some? ==> crypto.discovery(feed.value.publicKey) == dkey
      ensures Consistent(crypto, Value()) && feed.None? ==>
                forall id :: id in feeds ==> crypto.discovery(feeds[id].publicKey) != dkey
    {
      feed := if dkey in dkeys && dkeys[dkey] in feeds then Some(feeds[dkeys[dkey]]) else None;
    }

    method Insert(feed: Handle, name: Option<Name>)
      modifies this
      ensures Value() == Inserted(crypto, old(Value()), feed, name)
    {
      var id := |feeds|;
      feeds := feeds[id := feed];
      keys := keys[feed.publicKey := id];
      dkeys := dkeys[crypto.discovery(feed.publicKey) := id];
      if name.Some? {
        names := names[name.value := id];
        namesRev := namesRev[id := name.value];
      }
    }
  }
}
