/**
 What each event makes a peer do, one by one, and what the peers of a link do for each other
 over a whole run: what they count as transferred, and how a reader reports what it has stored.
 */
module Accounts {
  import opened Common
  import opened Hypercore
  import opened Peering
  import opened Replication
  import opened Convergence

  // ---- one event at a time ----

  /** Asking for an index asks for the window of 2^20 entries that it lies in, and marks that window. */
  lemma {:induction false} AskedWindow(feed: Feed, peer: PeerState, index: nat)
    ensures var outcome := SendWants(feed, peer, index);
            && outcome.ok && outcome.feed == feed && outcome.emitted == [] && |outcome.sent| == 1
            && var want := outcome.sent[0];
               && want.Want? && want.length == Some(1048576) && want.start % 1048576 == 0
               && want.start <= index < want.start + 1048576
               && outcome.peer == peer.(wantBits := peer.wantBits + {want.start / 1048576})
  {
    assert index == (index / 1048576) * 1048576 + index % 1048576;
  }

  /** A channel that opens is asked for the first 2^20 entries. */
  lemma {:induction false} OpenAsks(feed: Feed, peer: PeerState, notify: bool)
    ensures Handle(feed, peer, Received(Open, notify)).sent == [Want(0, Some(1048576))]
    ensures Handle(feed, peer, Received(Open, notify)).peer == peer.(wantBits := peer.wantBits + {0})
  {
  }

  /**
   A `Want` of any start and length is answered with bit `i` for entry `start + i`, for as many
   entries as it asks for, or as many as the feed has; before that, the first time, with the newest
   entry if there is one. It is marked as received.
   */
  lemma {:induction false} WantAnswered(feed: Feed, peer: PeerState, want: Message, notify: bool)
    requires want.Want?
    ensures var outcome := Handle(feed, peer, Received(want, notify));
            var n := if want.length.Some? then want.length.value else feed.Len();
            && outcome.ok && outcome.feed == feed && outcome.emitted == []
            && outcome.peer == peer.(remoteWant := true)
            && |outcome.sent| == (if peer.remoteWant || feed.Len() == 0 then 1 else 2)
            && (|outcome.sent| == 2 ==> outcome.sent[0] == Have(feed.Len() - 1, None, None))
            && var window := outcome.sent[|outcome.sent| - 1];
               && window.Have? && window.start == want.start && window.length == Some(n)
               && window.bitfield.Some? && |window.bitfield.value| == n
               && forall i :: 0 <= i < n ==> (window.bitfield.value[i] <==> want.start + i in feed.blocks)
  {
  }

  /**
   A request is answered, for every entry the feed knows of, with the block if the feed holds it,
   and what is counted as uploaded is one block and the bytes of that block.
   */
  lemma {:induction false} RequestAnswered(feed: Feed, peer: PeerState, k: nat, notify: bool)
    ensures var outcome := Handle(feed, peer, Received(Request(k), notify));
            && outcome.feed == feed && outcome.emitted == []
            && (outcome.ok <==> k < |feed.signed|)
            && (!outcome.ok ==> outcome.peer == peer && outcome.sent == [])
            && (outcome.ok ==>
                  var value := if k in feed.blocks then Some(feed.blocks[k]) else None;
                  var stats := peer.stats;
                  && outcome.sent == [Data(k, value, Proof(feed.signed))]
                  && outcome.peer == peer.(stats := stats.(
                       uploadedBlocks := stats.uploadedBlocks + 1,
                       uploadedBytes := stats.uploadedBytes + if k in feed.blocks then |feed.blocks[k]| else 0)))
  {
  }

  /**
   A block that its proof commits to is stored under its index and counted as downloaded, one block
   and its bytes; the feed is then known to be as long as the proof says. Anything else is refused
   and changes nothing.
   */
  lemma {:induction false} DataHandled(feed: Feed, peer: PeerState, k: nat, block: Block, proof: Proof, notify: bool)
    ensures var outcome := Handle(feed, peer, Received(Data(k, Some(block), proof), notify));
            var fits := proof.signed <= feed.signed || feed.signed <= proof.signed;
            && (outcome.ok <==> k < |proof.signed| && proof.signed[k] == block && fits)
            && (!outcome.ok ==> outcome == Outcome(feed, peer, [], [], false))
            && (outcome.ok ==>
                  var stats := peer.stats;
                  && outcome.feed.blocks == feed.blocks[k := block]
                  && feed.signed <= outcome.feed.signed && proof.signed <= outcome.feed.signed
                  && (outcome.feed.signed == feed.signed || outcome.feed.signed == proof.signed)
                  && outcome.peer == peer.(stats := stats.(
                       downloadedBlocks := stats.downloadedBlocks + 1,
                       downloadedBytes := stats.downloadedBytes + |block|))
                  && outcome.emitted == (if notify then [Download(k)] else [])
                  && outcome.sent == if peer.remoteAck then [Have(k, Some(1), None)] else [])
  {
  }

  /** A proof without a block stores none and reports none, but counts as one block of no bytes. */
  lemma {:induction false} ProofOnlyHandled(feed: Feed, peer: PeerState, k: nat, proof: Proof, notify: bool)
    ensures var outcome := Handle(feed, peer, Received(Data(k, None, proof), notify));
            && (outcome.ok ==>
                  && outcome.feed.blocks == feed.blocks && outcome.emitted == []
                  && outcome.peer.stats.downloadedBlocks == peer.stats.downloadedBlocks + 1
                  && outcome.peer.stats.downloadedBytes == peer.stats.downloadedBytes)
            && (!outcome.ok ==> outcome == Outcome(feed, peer, [], [], false))
  {
  }

  /** A feed event announces exactly the block it is about: the downloaded one, or the newest after an append. */
  lemma {:induction false} FeedEventAnnounced(feed: Feed, peer: PeerState, event: FeedEvent)
    ensures var outcome := Handle(feed, peer, Local(event));
            && outcome.feed == feed && outcome.peer == peer && outcome.emitted == []
            && (outcome.ok <==> !(event.Append? && feed.Len() == 0))
            && AnnouncedBy(outcome.sent) == (
                 if event.Download? then {event.index}
                 else if event.Append? && feed.Len() > 0 then {feed.Len() - 1} else {})
            && |outcome.sent| == if event.OtherEvent? || !outcome.ok then 0 else 1
  {
    var sent := Handle(feed, peer, Local(event)).sent;
    if sent != [] {
      AnnouncedByOne(sent[0]);
      SingleAnnounced(sent[0].start);
    }
  }

  /** Nothing but requests and data is counted. */
  lemma {:induction false} OtherEventsNotCounted(feed: Feed, peer: PeerState, event: Event)
    requires event.Received? ==> !event.message.Request? && !event.message.Data?
    ensures Handle(feed, peer, event).peer.stats == peer.stats
  {
  }

  /** An append makes the log one block longer and tells exactly the peers that have subscribed, once each. */
  lemma {:induction false} AppendTells(s: System, block: Block, i: nat)
    requires i < |s.links|
    ensures var next := Next(s, AppendBlock(block));
            && next.feed.signed == s.feed.signed + [block] && next.feed.blocks == s.feed.blocks[s.feed.Len() := block]
            && |next.links| == |s.links|
            && next.links[i].writer.events == s.links[i].writer.events + (
                 if s.links[i].writer.started then [Append] else [])
            && next.links[i] == s.links[i].(writer := s.links[i].writer.(events := next.links[i].writer.events))
  {
    assert s.links[i].writer.events + [] == s.links[i].writer.events;
  }

  // ---- what is counted over a run ----

  /** The bytes of the blocks that the `Data` messages of a queue are about. */
  ghost function BytesCarried(log: seq<Block>, q: seq<Message>): nat {
    if q == [] then 0 else
      BytesCarried(log, q[1..]) + if q[0].Data? && q[0].index < |log| then |log[q[0].index]| else 0
  }

  lemma {:induction false} CarriedAreLogs(log: seq<Block>, q: seq<Message>)
    requires forall m :: m in q ==> ToReaderOk(log, m)
    ensures DataBytes(q) == BytesCarried(log, q)
  {
    if q != [] {
      assert ToReaderOk(log, q[0]);
      CarriedAreLogs(log, q[1..]);
    }
  }

  lemma {:induction false} WriterCounts(feed: Feed, peer: PeerState, event: Event)
    requires feed.Complete() && WriterTriggerOk(feed.signed, event)
    ensures var up := peer.stats;
            Handle(feed, peer, event).peer.stats ==
              if event.Received? && event.message.Request?
              then up.(uploadedBlocks := up.uploadedBlocks + 1,
                       uploadedBytes := up.uploadedBytes + |feed.signed[event.message.index]|)
              else up
  {
    if event.Received? && event.message.Request? {
      RequestAnswered(feed, peer, event.message.index, event.notify);
    } else {
      OtherEventsNotCounted(feed, peer, event);
    }
  }

  lemma {:induction false} ReaderCounts(log: seq<Block>, replica: Feed, peer: PeerState, event: Event)
    requires replica.CopyOf(log) && !peer.remoteAck && ReaderTriggerOk(log, event)
    ensures var down := peer.stats;
            Handle(replica, peer, event).peer.stats ==
              if event.Received? && event.message.Data?
              then down.(downloadedBlocks := down.downloadedBlocks + 1,
                         downloadedBytes := down.downloadedBytes + |log[event.message.index]|)
              else down
  {
    if event.Received? && event.message.Data? {
      var m := event.message;
      DataHandled(replica, peer, m.index, m.value.value, m.proof, event.notify);
      ReaderHandles(log, replica, peer, event);
    } else {
      OtherEventsNotCounted(replica, peer, event);
    }
  }

  lemma {:induction false} PeersAfter(feed: Feed, link: Link, step: LinkStep)
    requires LinkEnabled(link, step)
    ensures var next, peer := LinkNext(feed, link, step), Answer(feed, link, step).peer;
            && next.writer.peer == (if ByWriter(step) then peer else link.writer.peer)
            && next.reader.peer == if ByWriter(step) then link.reader.peer else peer
  {
  }

  /**
   What a step adds to the counts of a link: a request handled by the writer adds one block and the
   bytes of that block of the log to its uploads, data handled by the reader the same to its
   downloads, and no other step adds anything.
   */
  lemma {:induction false} StepCounts(feed: Feed, link: Link, step: LinkStep)
    requires feed.Complete() && LinkInv(feed.signed, link) && LinkEnabled(link, step)
    ensures var up, down := link.writer.peer.stats, link.reader.peer.stats;
            var next := LinkNext(feed, link, step);
            var event := Trigger(link, step);
            && next.writer.peer.stats == (
                 if ByWriter(step) && event.Received? && event.message.Request?
                 then up.(uploadedBlocks := up.uploadedBlocks + 1,
                          uploadedBytes := up.uploadedBytes + |feed.signed[event.message.index]|)
                 else up)
            && next.reader.peer.stats == (
                 if !ByWriter(step) && event.Received? && event.message.Data?
                 then down.(downloadedBlocks := down.downloadedBlocks + 1,
                            downloadedBytes := down.downloadedBytes + |feed.signed[event.message.index]|)
                 else down)
  {
    TriggerOk(feed.signed, link, step);
    PeersAfter(feed, link, step);
    if ByWriter(step) {
      WriterCounts(feed, link.writer.peer, Trigger(link, step));
    } else {
      ReaderCounts(feed.signed, link.replica, link.reader.peer, Trigger(link, step));
    }
  }

  /** Conservation in the blocks of the log: uploaded bytes are downloaded ones plus those of the blocks on the way. */
  lemma {:induction false} LogBytesConserved(s: System, steps: seq<Step>, i: nat)
    requires Init(s) && Legal(s, steps) && i < |Exec(s, steps).links|
    ensures var log, link := Exec(s, steps).feed.signed, Exec(s, steps).links[i];
            link.writer.peer.stats.uploadedBytes
            == link.reader.peer.stats.downloadedBytes + BytesCarried(log, link.toReader)
  {
    TransfersConserved(s, steps, i);
    Reachable(s, steps);
    var log, link := Exec(s, steps).feed.signed, Exec(s, steps).links[i];
    assert LinkInv(log, link);
    CarriedAreLogs(log, link.toReader);
  }

  // ---- what a reader reports ----

  /** Every block reported as downloaded is held, and announced or about to be. */
  ghost predicate Echoed(link: Link) {
    && link.stored <= link.reported + DownloadsIn(link.reader.events)
    && link.reported == link.noted + AnnouncedBy(link.toWriter)
    && link.stored <= link.replica.blocks.Keys
  }

  lemma {:induction false} DownloadsConcat(a: seq<FeedEvent>, b: seq<FeedEvent>)
    ensures DownloadsIn(a + b) == DownloadsIn(a) + DownloadsIn(b)
  {
  }

  lemma {:induction false} DownloadsFirst(events: seq<FeedEvent>)
    requires events != []
    ensures DownloadsIn(events) == (if events[0].Download? then {events[0].index} else {}) + DownloadsIn(events[1..])
  {
    assert events == [events[0]] + events[1..];
  }

  lemma {:induction false} AnnouncedFirst(q: seq<Message>)
    requires q != []
    ensures AnnouncedBy(q) == SpokenOf(q[0]) + AnnouncedBy(q[1..])
  {
    assert q == [q[0]] + q[1..];
    AnnouncedByConcat([q[0]], q[1..]);
    AnnouncedByOne(q[0]);
  }

  /** What the reader's handler announces and what its feed reports. */
  ghost predicate Reports(event: Event, outcome: Outcome) {
    && (event.Local? && event.event.Download? ==> event.event.index in AnnouncedBy(outcome.sent))
    && DownloadsIn(outcome.emitted) <= outcome.feed.blocks.Keys
  }

  lemma {:induction false} ReaderReports(log: seq<Block>, replica: Feed, peer: PeerState, event: Event)
    requires replica.CopyOf(log) && !peer.remoteAck && ReaderTriggerOk(log, event)
    ensures Reports(event, Handle(replica, peer, event))
    ensures replica.blocks.Keys <= Handle(replica, peer, event).feed.blocks.Keys
  {
    ReaderSends(log, replica, peer, event);
    if event.Local? {
      FeedEventAnnounced(replica, peer, event.event);
    }
  }

  lemma {:induction false} EchoedByReader(link: Link, step: LinkStep, outcome: Outcome)
    requires Echoed(link) && LinkEnabled(link, step) && !ByWriter(step)
    requires Reports(Trigger(link, step), outcome) && link.replica.blocks.Keys <= outcome.feed.blocks.Keys
    ensures Echoed(ReaderDid(Taken(link, step), outcome))
  {
    var taken := Taken(link, step);
    AnnouncedByConcat(taken.toWriter, outcome.sent);
    DownloadsConcat(taken.reader.events, outcome.emitted);
    if step.ReaderEvent? {
      DownloadsFirst(link.reader.events);
    }
  }

  lemma {:induction false} EchoedKept(feed: Feed, link: Link, step: LinkStep)
    requires feed.Complete() && Sound(feed.signed, link) && Echoed(link) && LinkEnabled(link, step)
    ensures Echoed(LinkNext(feed, link, step))
  {
    if ByWriter(step) {
      if step.WriterReceives? {
        AnnouncedFirst(link.toWriter);
      }
    } else {
      TriggerOk(feed.signed, link, step);
      ReaderReports(feed.signed, link.replica, link.reader.peer, Trigger(link, step));
      EchoedByReader(link, step, Answer(feed, link, step));
    }
  }

  lemma {:induction false} EchoedInRuns(s: System, steps: seq<Step>, i: nat)
    requires Inv(s) && Legal(s, steps) && i < |s.links| && Echoed(s.links[i])
    ensures i < |Exec(s, steps).links| && Echoed(Exec(s, steps).links[i])
    decreases |steps|
  {
    if steps != [] {
      InvKept(s, steps[0]);
      LogGrows(s, steps[0]);
      EchoedStep(s, steps[0], i);
      EchoedInRuns(Next(s, steps[0]), steps[1..], i);
    }
  }

  lemma {:induction false} EchoedStep(s: System, step: Step, i: nat)
    requires Inv(s) && Enabled(s, step) && i < |s.links| && Echoed(s.links[i])
    ensures i < |Next(s, step).links| && Echoed(Next(s, step).links[i])
  {
    if step.At? {
      NextUnchangedFeed(s, step);
      assert LinkInv(s.feed.signed, s.links[i]);
      if step.link == i {
        EchoedKept(s.feed, s.links[i], step.step);
      }
    }
  }

  lemma {:induction false} InitEchoed(log: seq<Block>, link: Link)
    requires InitLink(log, link)
    ensures Echoed(link)
  {
    assert AnnouncedBy(link.toWriter) == {} && DownloadsIn(link.reader.events) == {};
  }

  lemma {:induction false} QuietEchoed(link: Link)
    requires Echoed(link) && Quiet(link)
    ensures link.stored <= link.noted == link.reported
  {
    assert AnnouncedBy(link.toWriter) == {} && DownloadsIn(link.reader.events) == {};
  }

  /**
   Reports: in every reachable state, each block that the reader's feed reported as downloaded is
   held and has been announced to the writer, or its event still waits; and each announcement has
   been handled or is on the way. So at rest the writer has been told of all these blocks.
   */
  lemma {:induction false} DownloadsReported(s: System, steps: seq<Step>, i: nat)
    requires Init(s) && Legal(s, steps) && i < |s.links|
    ensures |Exec(s, steps).links| == |s.links|
    ensures Echoed(Exec(s, steps).links[i])
    ensures var link := Exec(s, steps).links[i];
            Quiet(link) ==> link.stored <= link.noted == link.reported && link.stored <= link.replica.blocks.Keys
  {
    InitInv(s);
    LinksStay(s, steps);
    InitEchoed(s.feed.signed, s.links[i]);
    EchoedInRuns(s, steps, i);
    if Quiet(Exec(s, steps).links[i]) {
      QuietEchoed(Exec(s, steps).links[i]);
    }
  }
}
