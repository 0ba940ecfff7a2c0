/**
 The loop that hands the feeds of a corestore to the replicator
 (`corestore/src/replicate.rs`), with the replicator's own map of feeds
 (`add_feed`, `emit` and `subscribe` of `replicator/src/lib.rs`).
 */
module Bridge {
  import opened Common
  import opened Keys
  import opened FeedMaps
  import opened Corestores
  import opened CorestoreRuns

  /**
   The loop's progress: not begun, the feeds listed, subscribed to the store's events (queue
   `queue` of the store), or subscribed to the replicator's events as well and running.
   */
  datatype Phase = Before | Listed | Subscribed(queue: nat) | Running(queue: nat)

  /** A feed was added to the replicator; or a remote peer spoke of a discovery key. */
  datatype ReplicatorEvent = FeedAdded(dkey: Key) | RemoteKey(dkey: Key)

  /**
   `replicated` is the replicator's map, from discovery key to feed, and `remote` the loop's queue
   of replicator events. The rest is history: the feeds handed over, and those opened between the
   listing and the subscription.
   */
  datatype State = State(
    store: Store, phase: Phase, replicated: map<Key, Handle>, remote: seq<ReplicatorEvent>,
    added: set<Handle>, gap: set<Handle>)

  /**
   `Call` is a call by any user of the store, `Announce` a discovery key arriving from a peer; the
   others are the loop's own steps.
   */
  datatype Step =
    | Call(op: Op) | Announce(dkey: Key)
    | List | SubscribeStore | SubscribeReplicator | HandleEvent | HandleRemote

  // ---- the replicator's map ----

  function AddedFeed(c: Crypto, replicated: map<Key, Handle>, feed: Handle): map<Key, Handle> {
    replicated[c.discovery(feed.publicKey) := feed]
  }

  class Replicator {
    const crypto: Crypto
    var feeds: map<Key, Handle>
    var queues: seq<seq<ReplicatorEvent>>

    constructor (crypto: Crypto)
      ensures this.crypto == crypto && feeds == map[] && queues == []
    {
      this.crypto := crypto;
      feeds, queues := map[], [];
    }

    method NewSubscriber() returns (queue: nat)
      modifies this`queues
      ensures queue == |old(queues)| && queues == old(queues) + [[]]
    {
      queue := |queues|;
      queues := queues + [[]];
    }

    /** Tells those who have subscribed by now; a later subscriber never hears of it. */
    method Emit(event: ReplicatorEvent)
      modifies this`queues
      ensures |queues| == |old(queues)|
      ensures forall j :: 0 <= j < |queues| ==> queues[j] == old(queues)[j] + [event]
    {
      for i := 0 to |queues|
        invariant |queues| == |old(queues)|
        invariant forall j :: 0 <= j < i ==> queues[j] == old(queues)[j] + [event]
        invariant forall j :: i <= j < |queues| ==> queues[j] == old(queues)[j]
      {
        queues := queues[i := queues[i] + [event]];
      }
    }

    /** Files the feed under its own discovery key and tells every subscriber. */
    method AddFeed(feed: Handle)
      modifies this
      ensures feeds == AddedFeed(crypto, old(feeds), feed)
      ensures |queues| == |old(queues)|
      ensures var event := FeedAdded(crypto.discovery(feed.publicKey));
              forall j :: 0 <= j < |queues| ==> queues[j] == old(queues)[j] + [event]
    {
      var dkey := crypto.discovery(feed.publicKey);
      feeds := feeds[dkey := feed];
      Emit(FeedAdded(dkey));
    }
  }

  // ---- the transition system ----

  ghost function OpenFeeds(s: Store): set<Handle> {
    set id | id in s.index.feeds :: s.index.feeds[id]
  }

  /** Filing a set of feeds: under each discovery key one of the feeds that have it. */
  ghost predicate AllAdded(c: Crypto, before: map<Key, Handle>, feeds: set<Handle>, after: map<Key, Handle>) {
    && (forall h :: h in feeds ==> c.discovery(h.publicKey) in after)
    && (forall d: Key :: d in after ==>
          (d in before && after[d] == before[d]) || (after[d] in feeds && c.discovery(after[d].publicKey) == d))
    && (forall d: Key :: d in before ==> d in after)
  }

  /** The loop reads the store's events. */
  predicate Listening(s: State) {
    s.phase.Subscribed? || s.phase.Running?
  }

  ghost predicate Enabled(c: Crypto, s: State, step: Step) {
    match step
    case Call(op) => !op.Reopen? && Allowed(c, op)
    case Announce(_) => true
    case List => s.phase.Before?
    case SubscribeStore => s.phase.Listed?
    case SubscribeReplicator => s.phase.Subscribed?
    case HandleEvent => s.phase.Running? && s.phase.queue < |s.store.queues| && s.store.queues[s.phase.queue] != []
    case HandleRemote => s.phase.Running? && s.remote != []
  }

  /** The state after a call, given the store after it. */
  ghost function AfterCall(s: State, store: Store): State {
    s.(store := store, gap := if s.phase.Listed? then s.gap + (OpenFeeds(store) - OpenFeeds(s.store)) else s.gap)
  }

  /** What an event of the replicator adds to the loop's queue: nothing before the loop subscribes. */
  function Heard(s: State, event: ReplicatorEvent): seq<ReplicatorEvent> {
    if s.phase.Running? then s.remote + [event] else s.remote
  }

  /** The listing holds the store's lock, so it is one step; the order in which it files feeds is left open. */
  ghost predicate Next(c: Crypto, s: State, step: Step, t: State)
    requires Enabled(c, s, step)
  {
    match step
    case Call(op) => t == AfterCall(s, Do(c, s.store, op).0)
    case Announce(dkey) => t == s.(remote := Heard(s, RemoteKey(dkey)))
    case List =>
      && AllAdded(c, s.replicated, OpenFeeds(s.store), t.replicated)
      && t == s.(phase := Listed, replicated := t.replicated, added := s.added + OpenFeeds(s.store))
    case SubscribeStore => t == s.(store := Do(c, s.store, Subscribe).0, phase := Subscribed(|s.store.queues|))
    case SubscribeReplicator => t == s.(phase := Running(s.phase.queue))
    case HandleEvent =>
      var q := s.phase.queue;
      var feed := s.store.queues[q][0];
      t == s.(store := s.store.(queues := s.store.queues[q := s.store.queues[q][1..]]),
              replicated := AddedFeed(c, s.replicated, feed), added := s.added + {feed},
              remote := Heard(s, FeedAdded(c.discovery(feed.publicKey))))
    case HandleRemote =>
      var rest := s.(remote := s.remote[1..]);
      t == if s.remote[0].RemoteKey? then AfterCall(rest, Do(c, s.store, ByDkey(s.remote[0].dkey)).0) else rest
  }

  /** States joined by steps. */
  ghost predicate Run(c: Crypto, states: seq<State>, steps: seq<Step>) {
    && |states| == |steps| + 1
    && forall i :: 0 <= i < |steps| ==> Enabled(c, states[i], steps[i]) && Next(c, states[i], steps[i], states[i + 1])
  }

  // ---- coverage ----

  /** Shared feeds are told apart by their tokens, and new ones get new tokens. */
  ghost predicate TokensFresh(s: Store) {
    forall id: nat :: id in s.index.feeds ==> s.index.feeds[id].token < s.made
  }

  /** The events the loop has not handled yet. */
  ghost function Waiting(s: State): seq<Handle> {
    if Listening(s) && s.phase.queue < |s.store.queues| then s.store.queues[s.phase.queue] else []
  }

  ghost predicate NoneTwice(q: seq<Handle>) {
    forall i, j :: 0 <= i < j < |q| ==> q[i] != q[j]
  }

  /**
   Every open feed is in exactly one place once the feeds are listed: handed over, waiting once
   in the queue, or in the gap. Nothing else is in those places.
   */
  ghost predicate Placed(s: State) {
    && s.added !! s.gap
    && NoneTwice(Waiting(s))
    && (forall h :: h in Waiting(s) ==> h !in s.added && h !in s.gap && h in OpenFeeds(s.store))
    && s.added + s.gap <= OpenFeeds(s.store)
    && (!s.phase.Before? ==> forall h :: h in OpenFeeds(s.store) ==> h in s.added || h in s.gap || h in Waiting(s))
    && (s.phase.Before? ==> s.added == {} && s.gap == {})
    && (Listening(s) ==> s.phase.queue < |s.store.queues|)
  }

  /** A feed handed over is in the replicator's map under its discovery key, and the map has no other feeds. */
  ghost predicate FiledTrue(c: Crypto, s: State) {
    && (forall h :: h in s.added ==>
          c.discovery(h.publicKey) in s.replicated && s.replicated[c.discovery(h.publicKey)].publicKey == h.publicKey)
    && (forall d: Key :: d in s.replicated ==>
          c.discovery(s.replicated[d].publicKey) == d && s.replicated[d] in s.added)
  }

  ghost predicate BridgeOk(c: Crypto, s: State) {
    StoreOk(c, s.store) && TokensFresh(s.store) && Placed(s) && FiledTrue(c, s)
  }

  lemma {:induction false} BuildIsOneMore(c: Crypto, s: Store, plan: Plan)
    requires Dense(s.index) && TokensFresh(s) && plan.Make?
    ensures var t := Perform(c, s, plan).0;
            TokensFresh(t) && OneMore(s, t, Handle(s.made, plan.publicKey, plan.secretKey))
  {
    var t, size := Perform(c, s, plan).0, |s.index.feeds|;
    var h := Handle(s.made, plan.publicKey, plan.secretKey);
    assert size !in s.index.feeds;
    assert t.index.feeds == s.index.feeds[size := h];
    assert t.index.feeds[size] == h;
    forall x | x in OpenFeeds(s)
      ensures x in OpenFeeds(t)
    {
      var id :| id in s.index.feeds && s.index.feeds[id] == x;
      assert t.index.feeds[id] == x;
    }
    assert OpenFeeds(t) == OpenFeeds(s) + {h};
  }

  /** What a call does to the feeds: nothing, or one more, with a new token, told to every subscriber. */
  lemma {:induction false} CallAddsAtMostOne(c: Crypto, s: Store, op: Op)
    requires Dense(s.index) && TokensFresh(s) && !op.Reopen?
    ensures var t := Do(c, s, op).0;
            && TokensFresh(t)
            && (|| (OpenFeeds(t) == OpenFeeds(s) && t.made == s.made
                    && t.queues == (if op.Subscribe? then s.queues + [[]] else s.queues))
                || exists h :: OneMore(s, t, h))
  {
    if op.Opens() && PlanFor(c, s, op).Make? {
      BuildIsOneMore(c, s, PlanFor(c, s, op));
    }
  }

  ghost predicate OneMore(s: Store, t: Store, h: Handle) {
    && OpenFeeds(t) == OpenFeeds(s) + {h} && h.token == s.made && t.made == s.made + 1
    && t.queues == Emitted(s.queues, h)
  }

  lemma {:induction false} PlacedWithOneMore(s: State, store: Store, h: Handle)
    requires Placed(s) && h !in OpenFeeds(s.store) && OneMore(s.store, store, h)
    ensures Placed(AfterCall(s, store))
  {
  }

  lemma {:induction false} PlacedWithNoneMore(s: State, store: Store)
    requires Placed(s) && OpenFeeds(store) == OpenFeeds(s.store)
    requires store.queues == s.store.queues || store.queues == s.store.queues + [[]]
    ensures Placed(AfterCall(s, store))
  {
  }

  lemma {:induction false} CallKeepsPlaced(c: Crypto, s: State, op: Op)
    requires c.CollisionFree() && BridgeOk(c, s) && !op.Reopen? && Allowed(c, op)
    ensures TokensFresh(Do(c, s.store, op).0) && Placed(AfterCall(s, Do(c, s.store, op).0))
  {
    CallAddsAtMostOne(c, s.store, op);
    var store := Do(c, s.store, op).0;
    if h :| OneMore(s.store, store, h) {
      PlacedWithOneMore(s, store, h);
    } else {
      PlacedWithNoneMore(s, store);
    }
  }

  lemma {:induction false} ListKeepsPlaced(c: Crypto, s: State, t: State)
    requires TokensFresh(s.store) && Placed(s) && Enabled(c, s, List) && Next(c, s, List, t)
    ensures Placed(t)
  {
  }

  lemma {:induction false} HandleKeepsPlaced(c: Crypto, s: State, t: State)
    requires TokensFresh(s.store) && Placed(s) && Enabled(c, s, HandleEvent) && Next(c, s, HandleEvent, t)
    ensures TokensFresh(t.store) && Placed(t)
  {
  }

  /** After the listing, the feed filed under a discovery key has the key that key belongs to. */
  lemma {:induction false} ListFilesTrue(c: Crypto, s: State, t: State)
    requires c.CollisionFree() && s.added == {} && FiledTrue(c, s) && Enabled(c, s, List) && Next(c, s, List, t)
    ensures FiledTrue(c, t)
  {
  }

  lemma {:induction false} HandleFilesTrue(c: Crypto, s: State, t: State)
    requires c.CollisionFree() && FiledTrue(c, s) && Enabled(c, s, HandleEvent) && Next(c, s, HandleEvent, t)
    ensures FiledTrue(c, t)
  {
  }

  /** Handling the event of a feed makes the map lead to that very feed, and changes nothing else in it. */
  lemma {:induction false} HandledIsFiled(c: Crypto, s: State, t: State)
    requires Enabled(c, s, HandleEvent) && Next(c, s, HandleEvent, t)
    ensures var feed := Waiting(s)[0];
            && c.discovery(feed.publicKey) in t.replicated && t.replicated[c.discovery(feed.publicKey)] == feed
            && Waiting(t) == Waiting(s)[1..] && t.added == s.added + {feed} && t.gap == s.gap
            && t.replicated.Keys == s.replicated.Keys + {c.discovery(feed.publicKey)}
            && forall d: Key :: d in s.replicated && d != c.discovery(feed.publicKey) ==>
                 t.replicated[d] == s.replicated[d]
  {
  }

  lemma {:induction false} HandleRemoteKeeps(c: Crypto, s: State, t: State)
    requires c.CollisionFree() && BridgeOk(c, s) && Enabled(c, s, HandleRemote) && Next(c, s, HandleRemote, t)
    ensures BridgeOk(c, t)
  {
    var rest := s.(remote := s.remote[1..]);
    if s.remote[0].RemoteKey? {
      DoOk(c, s.store, ByDkey(s.remote[0].dkey));
      CallKeepsPlaced(c, rest, ByDkey(s.remote[0].dkey));
    }
  }

  lemma {:induction false} SubscribeStoreKeeps(c: Crypto, s: State, t: State)
    requires Placed(s) && FiledTrue(c, s) && Enabled(c, s, SubscribeStore) && Next(c, s, SubscribeStore, t)
    ensures Placed(t) && FiledTrue(c, t)
  {
    assert OpenFeeds(t.store) == OpenFeeds(s.store);
  }

  /** Every step keeps each feed in exactly one place and the map true. */
  lemma {:induction false} BridgeKept(c: Crypto, s: State, step: Step, t: State)
    requires c.CollisionFree() && BridgeOk(c, s) && Enabled(c, s, step) && Next(c, s, step, t)
    ensures BridgeOk(c, t)
  {
    match step {
      case Call(op) =>
        DoOk(c, s.store, op);
        CallKeepsPlaced(c, s, op);
      case Announce(_) =>
      case List =>
        ListKeepsPlaced(c, s, t);
        ListFilesTrue(c, s, t);
      case SubscribeStore =>
        DoOk(c, s.store, Subscribe);
        SubscribeStoreKeeps(c, s, t);
      case SubscribeReplicator =>
      case HandleEvent =>
        HandleKeepsPlaced(c, s, t);
        HandleFilesTrue(c, s, t);
      case HandleRemote => HandleRemoteKeeps(c, s, t);
    }
  }

  lemma {:induction false} BridgeInRuns(c: Crypto, states: seq<State>, steps: seq<Step>, i: nat)
    requires c.CollisionFree() && Run(c, states, steps) && BridgeOk(c, states[0]) && i < |states|
    ensures BridgeOk(c, states[i])
  {
    if i > 0 {
      BridgeInRuns(c, states, steps, i - 1);
      BridgeKept(c, states[i - 1], steps[i - 1], states[i]);
    }
  }

  lemma {:induction false} FiledOnlyIfHandedOver(c: Crypto, s: State, h: Handle)
    requires c.CollisionFree() && Placed(s) && FiledTrue(c, s) && OnePerKey(s.store.index)
    requires h in OpenFeeds(s.store) && c.discovery(h.publicKey) in s.replicated
    ensures h in s.added
  {
  }

  lemma {:induction false} AtMostOnce(q: seq<Handle>, h: Handle)
    requires NoneTwice(q)
    ensures multiset(q)[h] <= 1
  {
    if q != [] {
      var last := |q| - 1;
      AtMostOnce(q[..last], h);
      assert q == q[..last] + [q[last]];
      if q[last] == h {
        assert h !in q[..last];
      }
    }
  }

  lemma {:induction false} CoveredHere(c: Crypto, s: State, h: Handle)
    requires c.CollisionFree() && BridgeOk(c, s) && !s.phase.Before? && h in OpenFeeds(s.store)
    ensures var d := c.discovery(h.publicKey);
            && ((d in s.replicated && s.replicated[d].publicKey == h.publicKey) || h in Waiting(s) || h in s.gap)
            && multiset(Waiting(s))[h] <= 1
            && (OnePerKey(s.store.index) ==> (d in s.replicated <==> h !in Waiting(s) && h !in s.gap))
  {
    AtMostOnce(Waiting(s), h);
    if OnePerKey(s.store.index) && c.discovery(h.publicKey) in s.replicated {
      FiledOnlyIfHandedOver(c, s, h);
    }
  }

  /**
   Coverage: in every state after the listing each feed of the store is in the replicator's map
   under its own discovery key, or has exactly one event waiting, or was opened between the
   listing and the subscription. With one entry per key these exclude each other, so a feed
   opened in that gap is never handed over.
   */
  lemma {:induction false} Coverage(c: Crypto, states: seq<State>, steps: seq<Step>, i: nat, h: Handle)
    requires c.CollisionFree() && Run(c, states, steps) && BridgeOk(c, states[0]) && i < |states|
    requires !states[i].phase.Before? && h in OpenFeeds(states[i].store)
    ensures var s := states[i];
            var d := c.discovery(h.publicKey);
            && ((d in s.replicated && s.replicated[d].publicKey == h.publicKey) || h in Waiting(s) || h in s.gap)
            && multiset(Waiting(s))[h] <= 1
            && (OnePerKey(s.store.index) ==> (d in s.replicated <==> h !in Waiting(s) && h !in s.gap))
  {
    BridgeInRuns(c, states, steps, i);
    CoveredHere(c, states[i], h);
  }

  // ---- remote discovery keys ----

  /** The store can open the feed of `dkey`: it is open or its key is on disk. */
  ghost predicate Known(s: Store, dkey: Key) {
    dkey in s.index.dkeys || |KeyFile(s.files, dkey)| >= 32
  }

  lemma {:induction false} KnownStays(c: Crypto, s: Store, op: Op, dkey: Key)
    requires c.CollisionFree() && StoreOk(c, s) && Allowed(c, op) && !op.Reopen? && Known(s, dkey)
    ensures Known(Do(c, s, op).0, dkey)
    ensures dkey in s.index.dkeys || op == ByDkey(dkey) ==> dkey in Do(c, s, op).0.index.dkeys
  {
    if op.Opens() {
      PlanTrue(c, s, op);
      var plan := PlanFor(c, s, op);
      if plan.Make? {
        BuiltFilesTrue(c, s.master, s.files, plan.publicKey, plan.name);
      }
      if op == ByDkey(dkey) {
        PlanByDkey(c, s, dkey);
      }
    }
  }

  /** The announced key is open, or known and still to be looked up by the loop. */
  ghost predicate Coming(s: State, dkey: Key) {
    Known(s.store, dkey) && (dkey in s.store.index.dkeys || (s.phase.Running? && RemoteKey(dkey) in s.remote))
  }

  lemma {:induction false} CallKeepsComing(c: Crypto, s: State, op: Op, dkey: Key)
    requires c.CollisionFree() && StoreOk(c, s.store) && Allowed(c, op) && !op.Reopen? && Known(s.store, dkey)
    requires Coming(s, dkey) || op == ByDkey(dkey)
    ensures Coming(AfterCall(s, Do(c, s.store, op).0), dkey)
  {
    KnownStays(c, s.store, op, dkey);
  }

  lemma {:induction false} RemoteKeepsComing(c: Crypto, s: State, t: State, dkey: Key)
    requires c.CollisionFree() && StoreOk(c, s.store) && Coming(s, dkey)
    requires Enabled(c, s, HandleRemote) && Next(c, s, HandleRemote, t)
    ensures Coming(t, dkey)
  {
    var rest := s.(remote := s.remote[1..]);
    assert s.remote == [s.remote[0]] + rest.remote;
    if s.remote[0].RemoteKey? {
      CallKeepsComing(c, rest, ByDkey(s.remote[0].dkey), dkey);
    }
  }

  lemma {:induction false} ComingKept(c: Crypto, s: State, step: Step, t: State, dkey: Key)
    requires c.CollisionFree() && StoreOk(c, s.store) && Enabled(c, s, step) && Next(c, s, step, t) && Coming(s, dkey)
    ensures Coming(t, dkey)
  {
    match step {
      case Call(op) => CallKeepsComing(c, s, op, dkey);
      case HandleRemote => RemoteKeepsComing(c, s, t, dkey);
      case _ => assert t.store.index == s.store.index && t.store.files == s.store.files && s.remote <= t.remote;
    }
  }

  lemma {:induction false} ComingStep(c: Crypto, states: seq<State>, steps: seq<Step>, i: nat, dkey: Key)
    requires c.CollisionFree() && Run(c, states, steps) && BridgeOk(c, states[0])
    requires i < |steps| && Coming(states[i], dkey)
    ensures Coming(states[i + 1], dkey)
  {
    BridgeInRuns(c, states, steps, i);
    ComingKept(c, states[i], steps[i], states[i + 1], dkey);
  }

  lemma {:induction false} ComingInRuns(c: Crypto, states: seq<State>, steps: seq<Step>, i: nat, j: nat, dkey: Key)
    requires c.CollisionFree() && Run(c, states, steps) && BridgeOk(c, states[0])
    requires i <= j < |states| && Coming(states[i], dkey)
    ensures Coming(states[j], dkey)
    decreases j - i
  {
    if i < j {
      ComingStep(c, states, steps, i, dkey);
      ComingInRuns(c, states, steps, i + 1, j, dkey);
    }
  }

  /** The feed of `dkey` is open, and was opened in the gap. */
  ghost predicate InGap(s: State, dkey: Key) {
    && dkey in s.store.index.dkeys && s.store.index.dkeys[dkey] in s.store.index.feeds
    && s.store.index.feeds[s.store.index.dkeys[dkey]] in s.gap
  }

  lemma {:induction false} RunningStays(c: Crypto, states: seq<State>, steps: seq<Step>, i: nat, j: nat)
    requires Run(c, states, steps) && i <= j < |states| && states[i].phase.Running?
    ensures states[j].phase.Running?
    decreases j
  {
    if i < j {
      RunningStays(c, states, steps, i, j - 1);
      assert Next(c, states[j - 1], steps[j - 1], states[j]);
    }
  }

  /** With one entry per key and nothing waiting, the map has exactly the open feeds that are not from the gap. */
  lemma {:induction false} ReplicatedIff(c: Crypto, s: State, dkey: Key)
    requires c.CollisionFree() && BridgeOk(c, s) && !s.phase.Before? && Waiting(s) == [] && OnePerKey(s.store.index)
    ensures dkey in s.replicated <==> dkey in s.store.index.dkeys && !InGap(s, dkey)
  {
  }

  /**
   A remote discovery key: if it is announced while the loop runs and the store knows the feed,
   then whenever both of the loop's queues are empty the feed is in the replicator's map unless it
   was opened in the gap; with one entry per key, exactly then.
   */
  lemma {:induction false} RemoteDkeyCovered(c: Crypto, states: seq<State>, steps: seq<Step>, i: nat, j: nat, dkey: Key)
    requires c.CollisionFree() && Run(c, states, steps) && BridgeOk(c, states[0]) && i < j < |states|
    requires steps[i] == Announce(dkey) && states[i].phase.Running? && Known(states[i].store, dkey)
    requires Waiting(states[j]) == [] && states[j].remote == []
    ensures dkey in states[j].replicated || InGap(states[j], dkey)
    ensures OnePerKey(states[j].store.index) ==> (dkey in states[j].replicated <==> !InGap(states[j], dkey))
  {
    var s, after := states[j], states[i + 1];
    assert Next(c, states[i], steps[i], after);
    assert after.remote[|after.remote| - 1] == RemoteKey(dkey);
    ComingInRuns(c, states, steps, i + 1, j, dkey);
    BridgeInRuns(c, states, steps, j);
    RunningStays(c, states, steps, i, j);
    var h := s.store.index.feeds[s.store.index.dkeys[dkey]];
    assert h in OpenFeeds(s.store) && c.discovery(h.publicKey) == dkey;
    Coverage(c, states, steps, j, h);
  }

  // ---- exactly which announcements are heard ----

  /** The call opens the feed of `dkey`, if it opens one. */
  ghost predicate AsksFor(c: Crypto, master: Key, op: Op, dkey: Key) {
    match op
    case ByKey(key) => c.discovery(key) == dkey
    case ByName(name) => c.discovery(c.KeyOf(master, name)) == dkey
    case ByDkey(d) => d == dkey
    case _ => false
  }

  /** The feed of `dkey` is not open and the loop will not look it up. */
  ghost predicate Unheard(s: State, dkey: Key) {
    dkey !in s.store.index.dkeys && RemoteKey(dkey) !in s.remote
  }

  /** No feed of `dkey` was opened in the gap. */
  ghost predicate GapWithout(c: Crypto, s: State, dkey: Key) {
    forall h :: h in s.gap ==> c.discovery(h.publicKey) != dkey
  }

  lemma {:induction false} OtherCallOpensOther(c: Crypto, s: Store, op: Op, dkey: Key)
    requires c.CollisionFree() && StoreOk(c, s) && Allowed(c, op) && !op.Reopen? && !AsksFor(c, s.master, op, dkey)
    ensures dkey in Do(c, s, op).0.index.dkeys ==> dkey in s.index.dkeys
  {
    if op.Opens() {
      PlanTrue(c, s, op);
    }
  }

  lemma {:induction false} OtherCallGapWithout(c: Crypto, s: State, op: Op, dkey: Key)
    requires c.CollisionFree() && StoreOk(c, s.store) && TokensFresh(s.store) && Allowed(c, op) && !op.Reopen?
    requires GapWithout(c, s, dkey) && (s.phase.Listed? ==> !AsksFor(c, s.store.master, op, dkey))
    ensures GapWithout(c, AfterCall(s, Do(c, s.store, op).0), dkey)
  {
    if op.Opens() {
      PlanTrue(c, s.store, op);
      if PlanFor(c, s.store, op).Make? {
        BuildIsOneMore(c, s.store, PlanFor(c, s.store, op));
      }
    }
  }

  /** The step is neither a call for `dkey` nor its announcement to the running loop. */
  ghost predicate Silent(c: Crypto, s: State, step: Step, dkey: Key) {
    && (step.Call? ==> !AsksFor(c, s.store.master, step.op, dkey))
    && (step == Announce(dkey) ==> !s.phase.Running?)
  }

  lemma {:induction false} UnheardKept(c: Crypto, s: State, step: Step, t: State, dkey: Key)
    requires c.CollisionFree() && StoreOk(c, s.store) && Enabled(c, s, step) && Next(c, s, step, t)
    requires Unheard(s, dkey) && Silent(c, s, step, dkey)
    ensures Unheard(t, dkey)
  {
    match step {
      case Call(op) => OtherCallOpensOther(c, s.store, op, dkey);
      case HandleRemote =>
        assert s.remote[0] in s.remote;
        if s.remote[0].RemoteKey? {
          OtherCallOpensOther(c, s.store, ByDkey(s.remote[0].dkey), dkey);
        }
      case _ =>
    }
  }

  lemma {:induction false} RemoteKeepsKnown(c: Crypto, s: State, t: State, dkey: Key)
    requires c.CollisionFree() && StoreOk(c, s.store) && Known(s.store, dkey)
    requires Enabled(c, s, HandleRemote) && Next(c, s, HandleRemote, t)
    ensures Known(t.store, dkey) && t.gap == s.gap
  {
    if s.remote[0].RemoteKey? {
      KnownStays(c, s.store, ByDkey(s.remote[0].dkey), dkey);
    }
  }

  lemma {:induction false} StoreUntouched(c: Crypto, s: State, step: Step, t: State)
    requires Enabled(c, s, step) && Next(c, s, step, t) && !step.Call? && !step.HandleRemote?
    ensures t.store.index == s.store.index && t.store.files == s.store.files && t.gap == s.gap
  {
  }

  lemma {:induction false} GapWithoutKept(c: Crypto, s: State, step: Step, t: State, dkey: Key)
    requires c.CollisionFree() && BridgeOk(c, s) && Enabled(c, s, step) && Next(c, s, step, t)
    requires GapWithout(c, s, dkey) && Known(s.store, dkey)
    requires step.Call? ==> !AsksFor(c, s.store.master, step.op, dkey)
    ensures GapWithout(c, t, dkey) && Known(t.store, dkey)
  {
    match step {
      case Call(op) =>
        OtherCallGapWithout(c, s, op, dkey);
        KnownStays(c, s.store, op, dkey);
      case HandleRemote => RemoteKeepsKnown(c, s, t, dkey);
      case _ => StoreUntouched(c, s, step, t);
    }
  }

  /** No call of the first `j` steps asks for `dkey`. */
  ghost predicate NoCallFor(c: Crypto, states: seq<State>, steps: seq<Step>, j: nat, dkey: Key)
    requires j <= |steps| && |states| == |steps| + 1
  {
    forall k :: 0 <= k < j && steps[k].Call? ==> !AsksFor(c, states[k].store.master, steps[k].op, dkey)
  }

  /** `dkey` is announced in the first `j` steps while the loop runs. */
  ghost predicate AnnouncedInTime(states: seq<State>, steps: seq<Step>, j: nat, dkey: Key)
    requires j <= |steps| && |states| == |steps| + 1
  {
    exists k :: 0 <= k < j && steps[k] == Announce(dkey) && states[k].phase.Running?
  }

  lemma {:induction false} SilentUpTo(c: Crypto, states: seq<State>, steps: seq<Step>, j: nat, dkey: Key, k: nat)
    requires k < j <= |steps| && |states| == |steps| + 1
    requires NoCallFor(c, states, steps, j, dkey) && !AnnouncedInTime(states, steps, j, dkey)
    ensures Silent(c, states[k], steps[k], dkey)
    ensures NoCallFor(c, states, steps, k, dkey) && !AnnouncedInTime(states, steps, k, dkey)
  {
  }

  lemma {:induction false} UnheardStep(c: Crypto, states: seq<State>, steps: seq<Step>, k: nat, dkey: Key)
    requires c.CollisionFree() && Run(c, states, steps) && BridgeOk(c, states[0]) && k < |steps|
    requires Unheard(states[k], dkey) && Silent(c, states[k], steps[k], dkey)
    ensures Unheard(states[k + 1], dkey)
  {
    BridgeInRuns(c, states, steps, k);
    UnheardKept(c, states[k], steps[k], states[k + 1], dkey);
  }

  lemma {:induction false} UnheardInRuns(c: Crypto, states: seq<State>, steps: seq<Step>, j: nat, dkey: Key)
    requires c.CollisionFree() && Run(c, states, steps) && BridgeOk(c, states[0]) && j < |states|
    requires Unheard(states[0], dkey)
    requires NoCallFor(c, states, steps, j, dkey) && !AnnouncedInTime(states, steps, j, dkey)
    ensures Unheard(states[j], dkey)
  {
    if j > 0 {
      SilentUpTo(c, states, steps, j, dkey, j - 1);
      UnheardInRuns(c, states, steps, j - 1, dkey);
      UnheardStep(c, states, steps, j - 1, dkey);
    }
  }

  lemma {:induction false} GapWithoutStep(c: Crypto, states: seq<State>, steps: seq<Step>, k: nat, dkey: Key)
    requires c.CollisionFree() && Run(c, states, steps) && BridgeOk(c, states[0]) && k < |steps|
    requires GapWithout(c, states[k], dkey) && Known(states[k].store, dkey)
    requires steps[k].Call? ==> !AsksFor(c, states[k].store.master, steps[k].op, dkey)
    ensures GapWithout(c, states[k + 1], dkey) && Known(states[k + 1].store, dkey)
  {
    BridgeInRuns(c, states, steps, k);
    GapWithoutKept(c, states[k], steps[k], states[k + 1], dkey);
  }

  lemma {:induction false} GapWithoutInRuns(c: Crypto, states: seq<State>, steps: seq<Step>, j: nat, dkey: Key)
    requires c.CollisionFree() && Run(c, states, steps) && BridgeOk(c, states[0]) && j < |states|
    requires GapWithout(c, states[0], dkey) && Known(states[0].store, dkey) && NoCallFor(c, states, steps, j, dkey)
    ensures GapWithout(c, states[j], dkey) && Known(states[j].store, dkey)
  {
    if j > 0 {
      assert NoCallFor(c, states, steps, j - 1, dkey);
      GapWithoutInRuns(c, states, steps, j - 1, dkey);
      GapWithoutStep(c, states, steps, j - 1, dkey);
    }
  }

  lemma {:induction false} OnlyOpenFeedsFiled(c: Crypto, s: State, dkey: Key)
    requires BridgeOk(c, s) && dkey !in s.store.index.dkeys
    ensures dkey !in s.replicated && GapWithout(c, s, dkey)
  {
    forall h | h in OpenFeeds(s.store)
      ensures c.discovery(h.publicKey) != dkey
    {
    }
  }

  /** An announcement that the loop is not there to hear has no effect: without a call, the feed is never replicated. */
  lemma {:induction false} LostUnlessRunning(c: Crypto, states: seq<State>, steps: seq<Step>, j: nat, dkey: Key)
    requires c.CollisionFree() && Run(c, states, steps) && BridgeOk(c, states[0]) && j < |states|
    requires Unheard(states[0], dkey)
    requires NoCallFor(c, states, steps, j, dkey) && !AnnouncedInTime(states, steps, j, dkey)
    ensures dkey !in states[j].replicated
  {
    UnheardInRuns(c, states, steps, j, dkey);
    BridgeInRuns(c, states, steps, j);
    OnlyOpenFeedsFiled(c, states[j], dkey);
  }

  /**
   Remote discovery keys, exactly: a feed that is on disk, and that no call asks for, is in the
   replicator's map when both of the loop's queues are empty if and only if a peer has announced it
   while the loop ran.
   */
  lemma {:induction false} HeardIffRunning(c: Crypto, states: seq<State>, steps: seq<Step>, j: nat, dkey: Key)
    requires c.CollisionFree() && Run(c, states, steps) && BridgeOk(c, states[0]) && j < |states|
    requires Unheard(states[0], dkey) && |KeyFile(states[0].store.files, dkey)| >= 32
    requires NoCallFor(c, states, steps, j, dkey)
    requires Waiting(states[j]) == [] && states[j].remote == []
    ensures dkey in states[j].replicated <==> AnnouncedInTime(states, steps, j, dkey)
  {
    if AnnouncedInTime(states, steps, j, dkey) {
      var i :| 0 <= i < j && steps[i] == Announce(dkey) && states[i].phase.Running?;
      OnlyOpenFeedsFiled(c, states[0], dkey);
      GapWithoutInRuns(c, states, steps, i, dkey);
      GapWithoutInRuns(c, states, steps, j, dkey);
      RemoteDkeyCovered(c, states, steps, i, j, dkey);
      BridgeInRuns(c, states, steps, j);
      assert !InGap(states[j], dkey);
    } else {
      LostUnlessRunning(c, states, steps, j, dkey);
    }
  }

  // ---- the loop drains ----

  /** A bound on the steps the loop takes until both of its queues are empty. */
  ghost function RemoteWeight(q: seq<ReplicatorEvent>): nat {
    if q == [] then 0 else RemoteWeight(q[..|q| - 1]) + if q[|q| - 1].RemoteKey? then 3 else 1
  }

  ghost function LoopWeight(s: State): nat {
    RemoteWeight(s.remote) + 2 * |Waiting(s)|
  }

  lemma {:induction false} RemoteWeightFirst(q: seq<ReplicatorEvent>)
    requires q != []
    ensures RemoteWeight(q) == RemoteWeight(q[1..]) + if q[0].RemoteKey? then 3 else 1
  {
    if |q| > 1 {
      var last := |q| - 1;
      RemoteWeightFirst(q[..last]);
      assert q[..last][1..] == q[1..][..last - 1];
    }
  }

  /** Left alone, the loop empties its queues: each of its steps lowers the weight. */
  lemma {:induction false} LoopDrains(c: Crypto, s: State, step: Step, t: State)
    requires Dense(s.store.index) && TokensFresh(s.store) && (step.HandleEvent? || step.HandleRemote?)
    requires Enabled(c, s, step) && Next(c, s, step, t)
    ensures LoopWeight(t) < LoopWeight(s)
  {
    if step.HandleEvent? {
      assert t.remote[..|t.remote| - 1] == s.remote;
    } else {
      RemoteWeightFirst(s.remote);
      if s.remote[0].RemoteKey? {
        CallAddsAtMostOne(c, s.store, ByDkey(s.remote[0].dkey));
      }
    }
  }

  /** While the loop runs it has a step to take exactly until both queues are empty. */
  lemma {:induction false} DrainedIffNoStep(c: Crypto, s: State)
    requires BridgeOk(c, s) && s.phase.Running?
    ensures Waiting(s) == [] && s.remote == [] <==> !Enabled(c, s, HandleEvent) && !Enabled(c, s, HandleRemote)
  {
  }

  lemma {:induction false} TokensFreshKept(c: Crypto, s: Store, op: Op)
    requires Dense(s.index) && TokensFresh(s)
    ensures TokensFresh(Do(c, s, op).0)
  {
  }

  lemma {:induction false} TokensFreshInRuns(c: Crypto, s: Store, ops: seq<Op>)
    requires c.CollisionFree() && AllAllowed(c, ops) && StoreOk(c, s) && TokensFresh(s)
    ensures TokensFresh(Exec(c, s, ops))
    decreases |ops|
  {
    if ops != [] {
      var next := Do(c, s, ops[0]).0;
      DoOk(c, s, ops[0]);
      TokensFreshKept(c, s, ops[0]);
      TokensFreshInRuns(c, next, ops[1..]);
    }
  }

  /** The loop before it begins. */
  ghost function Idle(store: Store): State {
    State(store, Before, map[], [], {}, {})
  }

  /** The loop may start on any store ever reached from a new directory. */
  lemma {:induction false} BridgeStarts(c: Crypto, random: Key, ops: seq<Op>)
    requires c.CollisionFree() && AllAllowed(c, ops)
    ensures BridgeOk(c, Idle(Exec(c, OpenStore(map[], random, 0), ops)))
  {
    NewStoreOk(c, random);
    FromNewDirectory(c, random, ops);
    TokensFreshInRuns(c, OpenStore(map[], random, 0), ops);
  }

  // ---- runs that miss something ----

  lemma {:induction false} Extend(c: Crypto, states: seq<State>, steps: seq<Step>, step: Step, t: State)
    returns (longer: seq<State>, more: seq<Step>)
    requires Run(c, states, steps)
    requires Enabled(c, states[|steps|], step) && Next(c, states[|steps|], step, t)
    ensures Run(c, longer, more) && longer == states + [t] && more == steps + [step]
  {
    longer, more := states + [t], steps + [step];
    forall i | 0 <= i < |more|
      ensures Enabled(c, longer[i], more[i]) && Next(c, longer[i], more[i], longer[i + 1])
    {
      assert i < |steps| ==> longer[i] == states[i] && longer[i + 1] == states[i + 1] && more[i] == steps[i];
    }
  }

  /** After the listing the loop subscribes twice and runs, with nothing to do yet. */
  lemma {:induction false} BothSubscriptions(c: Crypto, states: seq<State>, steps: seq<Step>)
    returns (longer: seq<State>, more: seq<Step>)
    requires Run(c, states, steps) && states[|steps|].phase.Listed?
    ensures Run(c, longer, more) && steps <= more && |longer| > |states| && longer[0] == states[0]
    ensures var s, end := states[|steps|], longer[|longer| - 1];
            && end.phase.Running? && Waiting(end) == [] && end.remote == s.remote
            && end.replicated == s.replicated && end.gap == s.gap && end.store.index == s.store.index
  {
    var s := states[|steps|];
    var mid := s.(store := Do(c, s.store, Subscribe).0, phase := Subscribed(|s.store.queues|));
    longer, more := Extend(c, states, steps, SubscribeStore, mid);
    longer, more := Extend(c, longer, more, SubscribeReplicator, mid.(phase := Running(|s.store.queues|)));
  }

  lemma {:induction false} NothingListed(c: Crypto, s: State)
    requires s.phase.Before? && s.store.index == EMPTY_INDEX && s.replicated == map[] && s.added == {}
    ensures Enabled(c, s, List) && Next(c, s, List, s.(phase := Listed))
  {
  }

  lemma {:induction false} KnownAfterReopen(c: Crypto, s: Store, random: Key, name: Name)
    requires c.CollisionFree() && StoreOk(c, s) && Recorded(c, s.master, s.files, name)
    ensures var store := Exec(c, s, [Reopen(random)]);
            store.index == EMPTY_INDEX && Known(store, c.discovery(c.KeyOf(s.master, name)))
  {
  }

  lemma {:induction false} OnDiskFromBefore(c: Crypto, random: Key, name: Name)
    requires c.CollisionFree() && name in c.names && name != []
    ensures var store := Exec(c, OpenStore(map[], random, 0), [ByName(name), Reopen(random)]);
            store.index == EMPTY_INDEX && Known(store, c.discovery(c.KeyOf(random, name)))
  {
    var empty := OpenStore(map[], random, 0);
    NewStoreOk(c, random);
    FromNewDirectory(c, random, []);
    NamedSession(c, empty, name, []);
    assert [ByName(name)] + [] == [ByName(name)];
    var session := Exec(c, empty, [ByName(name)]);
    ExecConcat(c, empty, [ByName(name)], [Reopen(random)]);
    assert [ByName(name)] + [Reopen(random)] == [ByName(name), Reopen(random)];
    KnownAfterReopen(c, session, random, name);
  }

  /**
   A key announced before the loop subscribes to the replicator is lost: for every name opened in
   an earlier session, its feed is on disk, the loop comes to rest, and the feed is not replicated.
   */
  lemma {:induction false} AnnouncedTooEarly(c: Crypto, random: Key, name: Name)
    returns (states: seq<State>, steps: seq<Step>)
    requires c.CollisionFree() && name in c.names && name != []
    ensures Run(c, states, steps) && BridgeOk(c, states[0])
    ensures var dkey, end := c.discovery(c.KeyOf(random, name)), states[|states| - 1];
            && Announce(dkey) in steps && Known(states[0].store, dkey)
            && end.phase.Running? && Waiting(end) == [] && end.remote == [] && dkey !in end.replicated
  {
    var store := Exec(c, OpenStore(map[], random, 0), [ByName(name), Reopen(random)]);
    var dkey := c.discovery(c.KeyOf(random, name));
    OnDiskFromBefore(c, random, name);
    BridgeStarts(c, random, [ByName(name), Reopen(random)]);
    NothingListed(c, Idle(store));
    states, steps := [Idle(store)], [];
    states, steps := Extend(c, states, steps, Announce(dkey), Idle(store));
    states, steps := Extend(c, states, steps, List, Idle(store).(phase := Listed));
    states, steps := BothSubscriptions(c, states, steps);
    assert steps[0] == Announce(dkey);
  }

  lemma {:induction false} FirstOpen(c: Crypto, random: Key, name: Name)
    requires c.CollisionFree() && name in c.names
    ensures var s := Do(c, OpenStore(map[], random, 0), ByName(name)).0;
            var dkey := c.discovery(c.KeyOf(random, name));
            && dkey in s.index.dkeys && s.index.dkeys[dkey] in s.index.feeds
            && s.index.feeds[s.index.dkeys[dkey]] in OpenFeeds(s)
  {
  }

  /** A feed opened between the listing and the subscription: open, at rest, and not replicated. */
  lemma {:induction false} OpenedInTheGap(c: Crypto, random: Key, name: Name)
    returns (states: seq<State>, steps: seq<Step>)
    requires c.CollisionFree() && name in c.names
    ensures Run(c, states, steps) && BridgeOk(c, states[0])
    ensures var dkey, end := c.discovery(c.KeyOf(random, name)), states[|states| - 1];
            && end.phase.Running? && Waiting(end) == [] && end.remote == []
            && InGap(end, dkey) && dkey !in end.replicated
  {
    var store := OpenStore(map[], random, 0);
    var listed := Idle(store).(phase := Listed);
    NewStoreOk(c, random);
    BridgeStarts(c, random, []);
    NothingListed(c, Idle(store));
    FirstOpen(c, random, name);
    assert OpenFeeds(store) == {};
    states, steps := [Idle(store)], [];
    states, steps := Extend(c, states, steps, List, listed);
    states, steps := Extend(c, states, steps, Call(ByName(name)), AfterCall(listed, Do(c, store, ByName(name)).0));
    states, steps := BothSubscriptions(c, states, steps);
  }
}
