/**
 One end of a replication channel (`replicator/src/peer.rs`).

 The handlers are given twice: as functions from the feed and the peer's fields to the new
 feed, the new fields and the messages sent, and as the methods of class `Peer`, which work
 on fields and loops the way the program does and are proved to compute those functions.
 */
module Peering {
  import opened Common
  import opened Hypercore

  /** Number of blocks one `Want` asks about. */
  const WANT_LENGTH: nat := 1024 * 1024

  datatype Message =
    | Open
    | Want(start: nat, length: Option<nat>)
    | Have(start: nat, length: Option<nat>, bitfield: Option<seq<bool>>)
    | Request(index: nat)
    | Data(index: nat, value: Option<Block>, proof: Proof)
    | OtherMessage

  datatype Stats = Stats(downloadedBlocks: nat, downloadedBytes: nat, uploadedBlocks: nat, uploadedBytes: nat) {
    function AddDownloaded(blocks: nat, bytes: nat): Stats {
      this.(downloadedBlocks := downloadedBlocks + blocks, downloadedBytes := downloadedBytes + bytes)
    }

    function AddUploaded(blocks: nat, bytes: nat): Stats {
      this.(uploadedBlocks := uploadedBlocks + blocks, uploadedBytes := uploadedBytes + bytes)
    }
  }

  datatype PeerState = PeerState(remoteWant: bool, remoteAck: bool, wantBits: set<nat>, stats: Stats)

  const NEW_PEER: PeerState := PeerState(false, false, {}, Stats(0, 0, 0, 0))

  /** What handling one event does. `ok` is false when the handler returns an error, which ends the peer. */
  datatype Outcome = Outcome(feed: Feed, peer: PeerState, sent: seq<Message>, emitted: seq<FeedEvent>, ok: bool)

  /**
   An event of the peer's loop. Whether storing a received block emits `Download` is the
   feed's business, so the choice comes with the event.
   */
  datatype Event = Received(message: Message, notify: bool) | Local(event: FeedEvent)

  /** Number of bytes a message counts for in `Stats`. */
  function ValueBytes(value: Option<Block>): nat {
    if value.Some? then |value.value| else 0
  }

  // ---- the indices a Have speaks of, and those still missing ----

  /** Positions of the set bits, in increasing order. */
  function SetBits(bits: seq<bool>): seq<nat> {
    if bits == [] then [] else
      var n := |bits| - 1;
      SetBits(bits[..n]) + (if bits[n] then [n] else [])
  }

  function Range(start: nat, length: nat): seq<nat> {
    if length == 0 then [] else Range(start, length - 1) + [start + length - 1]
  }

  /** The indices a `Have` announces: its set bits when it has a bitfield, else a range. */
  function Announced(have: Message): seq<nat>
    requires have.Have?
  {
    if have.bitfield.Some? then SetBits(have.bitfield.value)
    else Range(have.start, have.length.GetOr(1))
  }

  /** Those of `ixs` the feed does not hold, in the same order. */
  function Missing(feed: Feed, ixs: seq<nat>): seq<nat> {
    if ixs == [] then [] else
      var n := |ixs| - 1;
      Missing(feed, ixs[..n]) + (if feed.Has(ixs[n]) then [] else [ixs[n]])
  }

  function Requests(ixs: seq<nat>): seq<Message> {
    seq(|ixs|, i requires 0 <= i < |ixs| => Request(ixs[i]))
  }

  /** Strictly increasing: no index twice. */
  ghost predicate Increasing(ixs: seq<nat>) {
    forall i, j :: 0 <= i < j < |ixs| ==> ixs[i] < ixs[j]
  }

  lemma {:induction false} IncreasingSnoc(ixs: seq<nat>, index: nat)
    requires Increasing(ixs) && forall k :: k in ixs ==> k < index
    ensures Increasing(ixs + [index])
  {
    forall i, j | 0 <= i < j < |ixs + [index]|
      ensures (ixs + [index])[i] < (ixs + [index])[j]
    {
      assert ixs[i] in ixs;
    }
  }

  lemma {:induction false} SetBitsMembers(bits: seq<bool>)
    ensures forall k: nat :: k in SetBits(bits) <==> k < |bits| && bits[k]
    ensures Increasing(SetBits(bits))
  {
    if bits != [] {
      var n := |bits| - 1;
      SetBitsMembers(bits[..n]);
      IncreasingSnoc(SetBits(bits[..n]), n);
    }
  }

  lemma {:induction false} RangeMembers(start: nat, length: nat)
    ensures forall k: nat :: k in Range(start, length) <==> start <= k < start + length
    ensures Increasing(Range(start, length))
  {
    if length > 0 {
      RangeMembers(start, length - 1);
      IncreasingSnoc(Range(start, length - 1), start + length - 1);
    }
  }

  lemma {:induction false} MissingMembers(feed: Feed, ixs: seq<nat>)
    ensures forall k: nat :: k in Missing(feed, ixs) <==> k in ixs && !feed.Has(k)
    ensures Increasing(ixs) ==> Increasing(Missing(feed, ixs))
  {
    if ixs != [] {
      var n := |ixs| - 1;
      MissingMembers(feed, ixs[..n]);
      assert ixs == ixs[..n] + [ixs[n]];
      if Increasing(ixs) {
        IncreasingSnoc(Missing(feed, ixs[..n]), ixs[n]);
      }
    }
  }

  lemma {:induction false} MissingSnoc(feed: Feed, ixs: seq<nat>, index: nat)
    ensures Missing(feed, ixs + [index]) == Missing(feed, ixs) + (if feed.Has(index) then [] else [index])
  {
    assert (ixs + [index])[..|ixs|] == ixs;
  }

  /** An announcement is answered with one request for each announced index not held, in order, and no other. */
  lemma {:induction false} AnsweredByRequests(feed: Feed, peer: PeerState, have: Message)
    requires have.Have?
    ensures forall k: nat :: Request(k) in OnHave(feed, peer, have).sent <==> k in Announced(have) && !feed.Has(k)
    ensures forall m :: m in OnHave(feed, peer, have).sent ==> m.Request?
    ensures forall i, j :: 0 <= i < j < |OnHave(feed, peer, have).sent| ==>
              OnHave(feed, peer, have).sent[i].index < OnHave(feed, peer, have).sent[j].index
    ensures var outcome := OnHave(feed, peer, have);
            outcome.ok && outcome.feed == feed && outcome.peer == peer && outcome.emitted == []
  {
    var wants := Missing(feed, Announced(have));
    AnnouncedIncreasing(have);
    MissingMembers(feed, Announced(have));
    forall k: nat | k in wants
      ensures Request(k) in Requests(wants)
    {
      var i :| 0 <= i < |wants| && wants[i] == k;
      assert Requests(wants)[i] == Request(k);
    }
  }

  lemma {:induction false} AnnouncedIncreasing(have: Message)
    requires have.Have?
    ensures Increasing(Announced(have))
    ensures forall k: nat :: k in Announced(have) <==>
              if have.bitfield.Some? then k < |have.bitfield.value| && have.bitfield.value[k]
              else have.start <= k < have.start + have.length.GetOr(1)
  {
    if have.bitfield.Some? {
      SetBitsMembers(have.bitfield.value);
    } else {
      RangeMembers(have.start, have.length.GetOr(1));
    }
  }

  // ---- the handlers as functions ----

  function SendWants(feed: Feed, peer: PeerState, index: nat): Outcome {
    var j := index / WANT_LENGTH;
    Outcome(feed, peer.(wantBits := peer.wantBits + {j}), [Want(j * WANT_LENGTH, Some(WANT_LENGTH))], [], true)
  }

  function OnOpen(feed: Feed, peer: PeerState): Outcome {
    SendWants(feed, peer, 0)
  }

  function OnHave(feed: Feed, peer: PeerState, have: Message): Outcome
    requires have.Have?
  {
    Outcome(feed, peer, Requests(Missing(feed, Announced(have))), [], true)
  }

  function OnWant(feed: Feed, peer: PeerState, want: Message): Outcome
    requires want.Want?
  {
    var newest := if !peer.remoteWant && feed.Len() > 0 then [Have(feed.Len() - 1, None, None)] else [];
    var length := want.length.GetOr(feed.Len());
    var window := Have(want.start, Some(length), Some(feed.Window(want.start, length)));
    Outcome(feed, peer.(remoteWant := true), newest + [window], [], true)
  }

  function OnData(feed: Feed, peer: PeerState, data: Message, notify: bool): Outcome
    requires data.Data?
  {
    if !feed.Accepts(data.index, data.value, data.proof) then
      Outcome(feed, peer, [], [], false)
    else
      Outcome(feed.Put(data.index, data.value, data.proof),
              peer.(stats := peer.stats.AddDownloaded(1, ValueBytes(data.value))),
              if peer.remoteAck then [Have(data.index, Some(1), None)] else [],
              if notify && data.value.Some? then [Download(data.index)] else [],
              true)
  }

  function OnRequest(feed: Feed, peer: PeerState, request: Message): Outcome
    requires request.Request?
  {
    var proof := feed.ProofOf(request.index);
    if proof.None? then
      Outcome(feed, peer, [], [], false)
    else
      var value := feed.Get(request.index);
      Outcome(feed, peer.(stats := peer.stats.AddUploaded(1, ValueBytes(value))),
              [Data(request.index, value, proof.value)], [], true)
  }

  /** A feed event is announced as a one-entry `Have`; `len - 1` has no value on an empty feed. */
  function OnFeedEvent(feed: Feed, peer: PeerState, event: FeedEvent): Outcome {
    match event
    case Download(index) => Outcome(feed, peer, [Have(index, None, None)], [], true)
    case Append =>
      if feed.Len() == 0 then Outcome(feed, peer, [], [], false)
      else Outcome(feed, peer, [Have(feed.Len() - 1, None, None)], [], true)
    case OtherEvent => Outcome(feed, peer, [], [], true)
  }

  function Handle(feed: Feed, peer: PeerState, event: Event): Outcome {
    match event
    case Local(e) => OnFeedEvent(feed, peer, e)
    case Received(message, notify) =>
      match message
      case Open => OnOpen(feed, peer)
      case Want(_, _) => OnWant(feed, peer, message)
      case Have(_, _, _) => OnHave(feed, peer, message)
      case Request(_) => OnRequest(feed, peer, message)
      case Data(_, _, _) => OnData(feed, peer, message, notify)
      case OtherMessage => Outcome(feed, peer, [], [], true)
  }

  /** Two stretches of work one after the other. */
  function Then(first: Outcome, second: Outcome): Outcome {
    second.(sent := first.sent + second.sent, emitted := first.emitted + second.emitted)
  }

  /** The whole loop over a merged sequence of events: after a failing handler nothing more is handled. */
  function Loop(feed: Feed, peer: PeerState, events: seq<Event>): Outcome
    decreases |events|
  {
    if events == [] then Outcome(feed, peer, [], [], true) else
      var before := Loop(feed, peer, events[..|events| - 1]);
      if !before.ok then before else
        Then(before, Handle(before.feed, before.peer, events[|events| - 1]))
  }

  lemma {:induction false} LoopSnoc(feed: Feed, peer: PeerState, events: seq<Event>, n: nat)
    requires n < |events| && Loop(feed, peer, events[..n]).ok
    ensures var before := Loop(feed, peer, events[..n]);
            Loop(feed, peer, events[..n + 1]) == Then(before, Handle(before.feed, before.peer, events[n]))
  {
    assert events[..n + 1][..n] == events[..n];
  }

  lemma {:induction false} LoopStopsAtFailure(feed: Feed, peer: PeerState, events: seq<Event>, n: nat)
    requires n <= |events| && !Loop(feed, peer, events[..n]).ok
    ensures Loop(feed, peer, events) == Loop(feed, peer, events[..n])
    decreases |events|
  {
    if n == |events| {
      assert events[..n] == events;
    } else {
      var init := events[..|events| - 1];
      assert init[..n] == events[..n];
      LoopStopsAtFailure(feed, peer, init, n);
    }
  }

  // ---- the program's own form ----

  /** The feed as it is shared between a peer and the rest of the program. */
  class SharedFeed {
    var value: Feed
    var emitted: seq<FeedEvent>

    constructor (value: Feed)
      ensures this.value == value && emitted == []
    {
      this.value := value;
      emitted := [];
    }

    method Put(index: nat, value: Option<Block>, proof: Proof, notify: bool) returns (ok: bool)
      modifies this
      ensures ok == old(this.value.Accepts(index, value, proof))
      ensures ok ==> this.value == old(this.value).Put(index, value, proof)
      ensures ok ==> emitted == old(emitted) + (if notify && value.Some? then [Download(index)] else [])
      ensures !ok ==> this.value == old(this.value) && emitted == old(emitted)
    {
      ok := this.value.Accepts(index, value, proof);
      if ok {
        this.value := this.value.Put(index, value, proof);
        if notify && value.Some? {
          emitted := emitted + [Download(index)];
        }
      }
    }
  }

  class Peer {
    const feed: SharedFeed
    var remoteWant: bool
    var remoteAck: bool
    var wantBits: set<nat>
    var stats: Stats
    var sent: seq<Message>

    constructor (feed: SharedFeed)
      ensures this.feed == feed && State() == NEW_PEER && sent == []
    {
      this.feed := feed;
      remoteWant, remoteAck, wantBits, stats := false, false, {}, Stats(0, 0, 0, 0);
      sent := [];
    }

    ghost function State(): PeerState
      reads this
    {
      PeerState(remoteWant, remoteAck, wantBits, stats)
    }

    /** The feed, the fields and the logs are what `outcome` says, starting from the given logs. */
    ghost predicate Reached(outcome: Outcome, sentBefore: seq<Message>, emittedBefore: seq<FeedEvent>)
      reads this, feed
    {
      && feed.value == outcome.feed
      && State() == outcome.peer
      && sent == sentBefore + outcome.sent
      && feed.emitted == emittedBefore + outcome.emitted
    }

    method Send(message: Message)
      modifies this`sent
      ensures sent == old(sent) + [message]
    {
      sent := sent + [message];
    }

    method SendWantsTo(index: nat)
      modifies this
      ensures Reached(SendWants(feed.value, old(State()), index), old(sent), feed.emitted)
    {
      var j := index / WANT_LENGTH;
      wantBits := wantBits + {j};
      Send(Want(j * WANT_LENGTH, Some(WANT_LENGTH)));
    }

    method WantsOfBits(bits: seq<bool>) returns (wants: seq<nat>)
      ensures wants == Missing(feed.value, SetBits(bits))
    {
      wants := [];
      for i := 0 to |bits|
        invariant wants == Missing(feed.value, SetBits(bits[..i]))
      {
        assert bits[..i + 1][..i] == bits[..i];
        if !bits[i] {
          assert SetBits(bits[..i + 1]) == SetBits(bits[..i]);
        } else {
          MissingSnoc(feed.value, SetBits(bits[..i]), i);
          if !feed.value.Has(i) {
            wants := wants + [i];
          }
        }
      }
      assert bits[..|bits|] == bits;
    }

    method WantsOfRange(start: nat, length: nat) returns (wants: seq<nat>)
      ensures wants == Missing(feed.value, Range(start, length))
    {
      wants := [];
      for i := start to start + length
        invariant wants == Missing(feed.value, Range(start, i - start))
      {
        MissingSnoc(feed.value, Range(start, i - start), i);
        if !feed.value.Has(i) {
          wants := wants + [i];
        }
      }
    }

    /** Collects the missing ones of the announced indices, then requests each of them. */
    method ReceiveHave(have: Message)
      requires have.Have?
      modifies this
      ensures Reached(OnHave(feed.value, old(State()), have), old(sent), feed.emitted)
    {
      var wants;
      if have.bitfield.Some? {
        wants := WantsOfBits(have.bitfield.value);
      } else {
        wants := WantsOfRange(have.start, have.length.GetOr(1));
      }
      for n := 0 to |wants|
        invariant sent == old(sent) + Requests(wants)[..n]
        invariant State() == old(State())
      {
        Send(Request(wants[n]));
      }
    }

    method ReceiveWant(want: Message)
      requires want.Want?
      modifies this
      ensures Reached(OnWant(feed.value, old(State()), want), old(sent), feed.emitted)
    {
      var len := feed.value.Len();
      if !remoteWant {
        if len > 0 {
          Send(Have(len - 1, None, None));
        }
      }
      remoteWant := true;
      var length := want.length.GetOr(len);
      Send(Have(want.start, Some(length), Some(feed.value.Window(want.start, length))));
    }

    method ReceiveData(data: Message, notify: bool) returns (ok: bool)
      requires data.Data?
      modifies this, feed
      ensures var outcome := OnData(old(feed.value), old(State()), data, notify);
              ok == outcome.ok && Reached(outcome, old(sent), old(feed.emitted))
    {
      ok := feed.Put(data.index, data.value, data.proof, notify);
      if !ok {
        return;
      }
      stats := stats.AddDownloaded(1, ValueBytes(data.value));
      if remoteAck {
        Send(Have(data.index, Some(1), None));
      }
    }

    method ReceiveRequest(request: Message) returns (ok: bool)
      requires request.Request?
      modifies this
      ensures var outcome := OnRequest(feed.value, old(State()), request);
              ok == outcome.ok && Reached(outcome, old(sent), feed.emitted)
    {
      var index := request.index;
      var value := feed.value.Get(index);
      var proof := feed.value.ProofOf(index);
      if proof.None? {
        return false;
      }
      Send(Data(index, value, proof.value));
      stats := stats.AddUploaded(1, ValueBytes(value));
      ok := true;
    }

    method Dispatch(event: Event) returns (ok: bool)
      modifies this, feed
      ensures var outcome := Handle(old(feed.value), old(State()), event);
              ok == outcome.ok && Reached(outcome, old(sent), old(feed.emitted))
    {
      ok := true;
      match event {
        case Local(Download(index)) => Send(Have(index, None, None));
        case Local(Append) =>
          var len := feed.value.Len();
          if len == 0 {
            return false;
          }
          Send(Have(len - 1, None, None));
        case Local(OtherEvent) =>
        case Received(message, notify) =>
          match message {
            case Open => SendWantsTo(0);
            case Want(_, _) => ReceiveWant(message);
            case Have(_, _, _) => ReceiveHave(message);
            case Request(_) => ok := ReceiveRequest(message);
            case Data(_, _, _) => ok := ReceiveData(message, notify);
            case OtherMessage =>
          }
      }
    }

    /** One turn of the loop, after the work `before`. */
    method Turn(event: Event, ghost before: Outcome, ghost sent0: seq<Message>, ghost emitted0: seq<FeedEvent>)
      returns (ok: bool)
      requires Reached(before, sent0, emitted0)
      modifies this, feed
      ensures ok == Handle(before.feed, before.peer, event).ok
      ensures Reached(Then(before, Handle(before.feed, before.peer, event)), sent0, emitted0)
    {
      ghost var outcome := Handle(before.feed, before.peer, event);
      ok := Dispatch(event);
      assert sent0 + before.sent + outcome.sent == sent0 + (before.sent + outcome.sent);
      assert emitted0 + before.emitted + outcome.emitted == emitted0 + (before.emitted + outcome.emitted);
    }

    /** The event loop: open the channel, then handle events until one fails or none is left. */
    method Run(events: seq<Event>) returns (ok: bool)
      modifies this, feed
      ensures var outcome := Loop(old(feed.value), old(State()), [Received(Open, false)] + events);
              ok == outcome.ok && Reached(outcome, old(sent), old(feed.emitted))
    {
      ghost var feed0, state0 := feed.value, State();
      ghost var all := [Received(Open, false)] + events;
      assert all[..0] == [];
      LoopSnoc(feed0, state0, all, 0);
      ok := Turn(Received(Open, false), Loop(feed0, state0, []), sent, feed.emitted);
      var i := 0;
      while i < |events|
        invariant i <= |events| && ok && Loop(feed0, state0, all[..i + 1]).ok
        invariant Reached(Loop(feed0, state0, all[..i + 1]), old(sent), old(feed.emitted))
      {
        LoopSnoc(feed0, state0, all, i + 1);
        ok := Turn(events[i], Loop(feed0, state0, all[..i + 1]), old(sent), old(feed.emitted));
        i := i + 1;
        if !ok {
          LoopStopsAtFailure(feed0, state0, all, i + 1);
          return;
        }
      }
      assert all[..|events| + 1] == all;
    }
  }
}
