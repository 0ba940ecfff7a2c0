/**
 Replication of one feed from its writer to any number of readers.

 Every reader is connected to the writer by its own channel. On each channel a `Peer` runs
 at both ends (`replicator/src/peer.rs`); the two directions are FIFO queues, and each peer
 has a queue of events of the feed it serves. The steps of the system are the writer
 appending a block and the peers' handlers, in any interleaving.

 A handler takes one step, sending included. Its peer's task is the only one that sends on the
 channel in its direction, so nothing comes between its messages, and a message may stay in its
 queue for any time. What it sends is settled when it reads the feed, under the feed's lock; the
 `Append` handler gives the lock up before it sends, which only delays the message.
 */
module Replication {
  import opened Common
  import opened Hypercore
  import opened Peering

  /** A peer's task: its fields, whether its loop has begun, and whether no handler of it has failed. */
  datatype Task = Task(started: bool, alive: bool, peer: PeerState, events: seq<FeedEvent>)

  const NEW_TASK: Task := Task(false, true, NEW_PEER, [])

  /**
   One connection. The other fields record history: the blocks the reader began with, the
   indices the writer has announced, and those of the announcements the reader has handled; and
   the other way round the indices the reader's feed has reported as downloaded, those the reader
   has announced, and those of the announcements the writer has handled.
   */
  datatype Link = Link(
    writer: Task, reader: Task, replica: Feed,
    toReader: seq<Message>, toWriter: seq<Message>,
    initial: set<nat>, told: set<nat>, heard: set<nat>,
    stored: set<nat>, reported: set<nat>, noted: set<nat>)

  datatype System = System(feed: Feed, links: seq<Link>)

  datatype LinkStep =
    | StartWriter | StartReader
    | WriterReceives(notify: bool) | ReaderReceives(notify: bool)
    | WriterEvent | ReaderEvent

  datatype Step = AppendBlock(block: Block) | At(link: nat, step: LinkStep)

  // ---- the transition system ----

  ghost function AnnouncedBy(messages: seq<Message>): set<nat> {
    set m, k | m in messages && m.Have? && k in Announced(m) :: k
  }

  function SpokenOf(m: Message): set<nat> {
    if m.Have? then set k | k in Announced(m) else {}
  }

  ghost function DownloadsIn(events: seq<FeedEvent>): set<nat> {
    set e | e in events && e.Download? :: e.index
  }

  function Done(task: Task, outcome: Outcome): Task {
    task.(peer := outcome.peer, alive := outcome.ok)
  }

  ghost function WriterDid(link: Link, outcome: Outcome): Link {
    link.(writer := Done(link.writer, outcome),
          toReader := link.toReader + outcome.sent,
          told := link.told + AnnouncedBy(outcome.sent))
  }

  ghost function ReaderDid(link: Link, outcome: Outcome): Link {
    link.(reader := Done(link.reader, outcome).(events := link.reader.events + outcome.emitted),
          replica := outcome.feed,
          toWriter := link.toWriter + outcome.sent,
          stored := link.stored + DownloadsIn(outcome.emitted),
          reported := link.reported + AnnouncedBy(outcome.sent))
  }

  predicate LinkEnabled(link: Link, step: LinkStep) {
    match step
    case StartWriter => !link.writer.started
    case StartReader => !link.reader.started
    case WriterReceives(_) => link.writer.started && link.writer.alive && link.toWriter != []
    case ReaderReceives(_) => link.reader.started && link.reader.alive && link.toReader != []
    case WriterEvent => link.writer.started && link.writer.alive && link.writer.events != []
    case ReaderEvent => link.reader.started && link.reader.alive && link.reader.events != []
  }

  predicate ByWriter(step: LinkStep) {
    step.StartWriter? || step.WriterReceives? || step.WriterEvent?
  }

  /** The event the step hands to the peer. */
  function Trigger(link: Link, step: LinkStep): Event
    requires LinkEnabled(link, step)
  {
    match step
    case StartWriter => Received(Open, false)
    case StartReader => Received(Open, false)
    case WriterReceives(notify) => Received(link.toWriter[0], notify)
    case ReaderReceives(notify) => Received(link.toReader[0], notify)
    case WriterEvent => Local(link.writer.events[0])
    case ReaderEvent => Local(link.reader.events[0])
  }

  /** The link with that event taken from where it waited. */
  function Taken(link: Link, step: LinkStep): Link
    requires LinkEnabled(link, step)
  {
    match step
    case StartWriter => link.(writer := link.writer.(started := true))
    case StartReader => link.(reader := link.reader.(started := true))
    case WriterReceives(_) =>
      link.(toWriter := link.toWriter[1..], noted := link.noted + SpokenOf(link.toWriter[0]))
    case ReaderReceives(_) =>
      link.(toReader := link.toReader[1..], heard := link.heard + SpokenOf(link.toReader[0]))
    case WriterEvent => link.(writer := link.writer.(events := link.writer.events[1..]))
    case ReaderEvent => link.(reader := link.reader.(events := link.reader.events[1..]))
  }

  function Answer(feed: Feed, link: Link, step: LinkStep): Outcome
    requires LinkEnabled(link, step)
  {
    if ByWriter(step) then Handle(feed, link.writer.peer, Trigger(link, step))
    else Handle(link.replica, link.reader.peer, Trigger(link, step))
  }

  ghost function LinkNext(feed: Feed, link: Link, step: LinkStep): Link
    requires LinkEnabled(link, step)
  {
    if ByWriter(step) then WriterDid(Taken(link, step), Answer(feed, link, step))
    else ReaderDid(Taken(link, step), Answer(feed, link, step))
  }

  /** Events of the writer's feed reach every peer of the writer that has subscribed. */
  function Notified(link: Link, events: seq<FeedEvent>): Link {
    if link.writer.started then link.(writer := link.writer.(events := link.writer.events + events)) else link
  }

  function Broadcast(links: seq<Link>, events: seq<FeedEvent>): (result: seq<Link>)
    ensures |result| == |links|
    ensures forall i :: 0 <= i < |links| ==> result[i] == Notified(links[i], events)
  {
    seq(|links|, i requires 0 <= i < |links| => Notified(links[i], events))
  }

  predicate Enabled(s: System, step: Step) {
    step.At? ==> step.link < |s.links| && LinkEnabled(s.links[step.link], step.step)
  }

  ghost function Next(s: System, step: Step): System
    requires Enabled(s, step)
  {
    match step
    case AppendBlock(block) => System(s.feed.Extend(block), Broadcast(s.links, [Append]))
    case At(i, move) =>
      var links := s.links[i := LinkNext(s.feed, s.links[i], move)];
      if ByWriter(move) then
        var answer := Answer(s.feed, s.links[i], move);
        System(answer.feed, Broadcast(links, answer.emitted))
      else
        s.(links := links)
  }

  ghost predicate Legal(s: System, steps: seq<Step>)
    decreases |steps|
  {
    steps == [] || (Enabled(s, steps[0]) && Legal(Next(s, steps[0]), steps[1..]))
  }

  ghost function Exec(s: System, steps: seq<Step>): System
    requires Legal(s, steps)
    decreases |steps|
  {
    if steps == [] then s else Exec(Next(s, steps[0]), steps[1..])
  }

  /** Before any peer runs: readers may already hold blocks; the channels hold at most `Open`s. */
  ghost predicate InitLink(log: seq<Block>, link: Link) {
    && link.writer == NEW_TASK && link.reader == NEW_TASK
    && link.replica.CopyOf(log)
    && (forall m :: m in link.toReader ==> m.Open?)
    && (forall m :: m in link.toWriter ==> m.Open?)
    && link.initial == link.replica.blocks.Keys && link.told == {} && link.heard == {}
    && link.stored == {} && link.reported == {} && link.noted == {}
  }

  ghost predicate Init(s: System) {
    && s.feed.Complete()
    && forall i :: 0 <= i < |s.links| ==> InitLink(s.feed.signed, s.links[i])
  }

  // ---- the invariant ----

  /** A truthful announcement: only blocks the writer holds, and bit `i` stands for block `i`. */
  ghost predicate Truthful(log: seq<Block>, have: Message)
    requires have.Have?
  {
    && (have.bitfield.Some? ==> have.start == 0)
    && (forall k :: k in Announced(have) ==> k < |log|)
  }

  ghost predicate WholeWant(want: Message)
    requires want.Want?
  {
    want.start == 0 && want.length == Some(WANT_LENGTH)
  }

  ghost predicate GenuineData(log: seq<Block>, data: Message)
    requires data.Data?
  {
    && data.proof.signed <= log
    && data.index < |data.proof.signed|
    && data.value == Some(log[data.index])
  }

  ghost predicate ToReaderOk(log: seq<Block>, m: Message) {
    && !m.Request?
    && (m.Want? ==> WholeWant(m))
    && (m.Have? ==> Truthful(log, m))
    && (m.Data? ==> GenuineData(log, m))
  }

  ghost predicate ToWriterOk(log: seq<Block>, m: Message) {
    && !m.Data?
    && (m.Want? ==> WholeWant(m))
    && (m.Have? ==> Truthful(log, m))
    && (m.Request? ==> m.index < |log|)
  }

  ghost predicate WriterEventOk(log: seq<Block>, e: FeedEvent) {
    !e.Download? && (e.Append? ==> |log| > 0)
  }

  ghost predicate ReaderEventOk(log: seq<Block>, e: FeedEvent) {
    !e.Append? && (e.Download? ==> e.index < |log|)
  }

  /** Agreement and truthfulness: what is stored and what is on the wire comes from the writer's log. */
  ghost predicate Sound(log: seq<Block>, link: Link) {
    && link.writer.alive && link.reader.alive
    && !link.writer.peer.remoteAck && !link.reader.peer.remoteAck
    && link.replica.CopyOf(log)
    && (forall m :: m in link.toReader ==> ToReaderOk(log, m))
    && (forall m :: m in link.toWriter ==> ToWriterOk(log, m))
    && (forall e :: e in link.writer.events ==> WriterEventOk(log, e))
    && (forall e :: e in link.reader.events ==> ReaderEventOk(log, e))
  }

  ghost function Requested(q: seq<Message>): set<nat> {
    set m | m in q && m.Request? :: m.index
  }

  ghost function Carried(q: seq<Message>): set<nat> {
    set m | m in q && m.Data? :: m.index
  }

  /**
   Where every announced index is, given what is announced, carried and requested on the wire:
   no announcement is lost, and nothing else is ever fetched.
   */
  ghost predicate Accounted(
    told: set<nat>, heard: set<nat>, held: set<nat>, initial: set<nat>,
    announced: set<nat>, carried: set<nat>, requested: set<nat>)
  {
    && told == heard + announced
    && heard <= held + requested + carried
    && requested <= heard && carried <= heard
    && initial <= held <= initial + heard
  }

  ghost predicate Tracked(link: Link) {
    Accounted(link.told, link.heard, link.replica.blocks.Keys, link.initial,
              AnnouncedBy(link.toReader), Carried(link.toReader), Requested(link.toWriter))
  }

  /** How many blocks, and how many bytes of blocks, the `Data` messages of a queue carry. */
  function DataBlocks(q: seq<Message>): nat {
    if q == [] then 0 else DataBlocks(q[1..]) + (if q[0].Data? then 1 else 0)
  }

  function DataBytes(q: seq<Message>): nat {
    if q == [] then 0 else DataBytes(q[1..]) + (if q[0].Data? && q[0].value.Some? then |q[0].value.value| else 0)
  }

  /** What was sent on a direction is what was received from it plus what is in it. */
  predicate Balanced(sender: Stats, q: seq<Message>, receiver: Stats) {
    && sender.uploadedBlocks == receiver.downloadedBlocks + DataBlocks(q)
    && sender.uploadedBytes == receiver.downloadedBytes + DataBytes(q)
  }

  /** Transfer conservation on both directions. */
  predicate Conserved(link: Link) {
    && Balanced(link.writer.peer.stats, link.toReader, link.reader.peer.stats)
    && Balanced(link.reader.peer.stats, link.toWriter, link.writer.peer.stats)
  }

  /** A peer that runs has asked for the first window and for no other. */
  ghost predicate WantMarked(task: Task) {
    task.peer.wantBits == if task.started then {0} else {}
  }

  /** Once the reader runs, its first `Want` is on the way or has been answered. */
  ghost predicate Asked(link: Link) {
    && WantMarked(link.writer) && WantMarked(link.reader)
    && (link.reader.started ==> link.writer.peer.remoteWant || exists m :: m in link.toWriter && m.Want?)
  }

  ghost predicate LinkInv(log: seq<Block>, link: Link) {
    Sound(log, link) && Tracked(link) && Conserved(link) && Asked(link)
  }

  ghost predicate Inv(s: System) {
    && s.feed.Complete()
    && forall i :: 0 <= i < |s.links| ==> LinkInv(s.feed.signed, s.links[i])
  }

  // ---- what a handler does on events the invariant allows ----

  ghost predicate WriterTriggerOk(log: seq<Block>, event: Event) {
    match event
    case Received(m, _) => ToWriterOk(log, m)
    case Local(e) => WriterEventOk(log, e)
  }

  ghost predicate ReaderTriggerOk(log: seq<Block>, event: Event) {
    match event
    case Received(m, _) => ToReaderOk(log, m)
    case Local(e) => ReaderEventOk(log, e)
  }

  lemma {:induction false} WindowTruthful(log: seq<Block>, feed: Feed, length: nat)
    requires forall k :: k in feed.blocks ==> k < |log|
    ensures Truthful(log, Have(0, Some(length), Some(feed.Window(0, length))))
  {
    AnnouncedIncreasing(Have(0, Some(length), Some(feed.Window(0, length))));
  }

  lemma {:induction false} SingleAnnounced(index: nat)
    ensures forall k: nat :: k in Announced(Have(index, None, None)) <==> k == index
  {
    AnnouncedIncreasing(Have(index, None, None));
  }

  lemma {:induction false} WriterHandles(feed: Feed, peer: PeerState, event: Event)
    requires feed.Complete() && !peer.remoteAck && WriterTriggerOk(feed.signed, event)
    ensures var outcome := Handle(feed, peer, event);
            && outcome.ok && outcome.feed == feed && outcome.emitted == [] && !outcome.peer.remoteAck
            && (forall m :: m in outcome.sent ==> ToReaderOk(feed.signed, m))
  {
    match event {
      case Received(Want(_, _), _) => WantAnsweredTruthfully(feed.signed, feed, peer, event.message);
      case Received(Have(_, _, _), _) => NothingMissing(feed, event.message);
      case Local(Append) => SingleAnnounced(feed.Len() - 1);
      case _ =>
    }
  }

  lemma {:induction false} WantAnsweredTruthfully(log: seq<Block>, feed: Feed, peer: PeerState, want: Message)
    requires want.Want? && WholeWant(want)
    requires (forall k :: k in feed.blocks ==> k < |log|) && |feed.signed| <= |log|
    ensures forall m :: m in OnWant(feed, peer, want).sent ==> m.Have? && Truthful(log, m)
  {
    WindowTruthful(log, feed, WANT_LENGTH);
    if feed.Len() > 0 {
      SingleAnnounced(feed.Len() - 1);
    }
  }

  /** The writer never asks: it holds whatever a truthful `Have` announces. */
  lemma {:induction false} NothingMissing(feed: Feed, have: Message)
    requires have.Have? && feed.Complete() && Truthful(feed.signed, have)
    ensures Missing(feed, Announced(have)) == []
  {
    var missing := Missing(feed, Announced(have));
    assert missing != [] ==> missing[0] in missing;
    MissingMembers(feed, Announced(have));
  }

  lemma {:induction false} PrefixesComparable(a: seq<Block>, b: seq<Block>, log: seq<Block>)
    requires a <= log && b <= log
    ensures a <= b || b <= a
  {
  }

  lemma {:induction false} ReaderHandles(log: seq<Block>, replica: Feed, peer: PeerState, event: Event)
    requires replica.CopyOf(log) && !peer.remoteAck && ReaderTriggerOk(log, event)
    ensures var outcome := Handle(replica, peer, event);
            && outcome.ok && outcome.feed.CopyOf(log) && !outcome.peer.remoteAck
            && (forall m :: m in outcome.sent ==> ToWriterOk(log, m))
            && (forall e :: e in outcome.emitted ==> ReaderEventOk(log, e))
  {
    match event {
      case Received(Want(_, _), _) => WantAnsweredTruthfully(log, replica, peer, event.message);
      case Received(Have(_, _, _), _) => AnsweredByRequests(replica, peer, event.message);
      case Received(Data(_, _, _), _) => PrefixesComparable(replica.signed, event.message.proof.signed, log);
      case Local(Download(index)) => SingleAnnounced(index);
      case _ =>
    }
  }

  // ---- every step keeps the invariant ----

  lemma {:induction false} TriggerOk(log: seq<Block>, link: Link, step: LinkStep)
    requires Sound(log, link) && LinkEnabled(link, step)
    ensures ByWriter(step) ==> WriterTriggerOk(log, Trigger(link, step))
    ensures !ByWriter(step) ==> ReaderTriggerOk(log, Trigger(link, step))
  {
  }

  /** A step at the writer's end leaves the feed as it is and emits nothing. */
  lemma {:induction false} WriterKeepsFeed(feed: Feed, link: Link, step: LinkStep)
    requires feed.Complete() && Sound(feed.signed, link) && LinkEnabled(link, step) && ByWriter(step)
    ensures Answer(feed, link, step).feed == feed && Answer(feed, link, step).emitted == []
  {
    TriggerOk(feed.signed, link, step);
    WriterHandles(feed, link.writer.peer, Trigger(link, step));
  }

  lemma {:induction false} SoundKept(feed: Feed, link: Link, step: LinkStep)
    requires feed.Complete() && Sound(feed.signed, link) && LinkEnabled(link, step)
    ensures Sound(feed.signed, LinkNext(feed, link, step))
  {
    TriggerOk(feed.signed, link, step);
    if ByWriter(step) {
      WriterHandles(feed, link.writer.peer, Trigger(link, step));
    } else {
      ReaderHandles(feed.signed, link.replica, link.reader.peer, Trigger(link, step));
    }
  }

  lemma {:induction false} AnnouncedByConcat(a: seq<Message>, b: seq<Message>)
    ensures AnnouncedBy(a + b) == AnnouncedBy(a) + AnnouncedBy(b)
    ensures Requested(a + b) == Requested(a) + Requested(b)
    ensures Carried(a + b) == Carried(a) + Carried(b)
  {
  }

  lemma {:induction false} AnnouncedByOne(m: Message)
    ensures AnnouncedBy([m]) == SpokenOf(m)
    ensures Requested([m]) == if m.Request? then {m.index} else {}
    ensures Carried([m]) == if m.Data? then {m.index} else {}
  {
  }

  /** The message of an event, as a queue. */
  function MessageOf(event: Event): seq<Message> {
    if event.Received? then [event.message] else []
  }

  /** What the writer's handler puts on the wire: block data exactly for a request. */
  ghost predicate AnswersRequests(event: Event, outcome: Outcome) {
    && Requested(outcome.sent) == {}
    && (forall m :: m in outcome.sent && m.Data? ==> event.Received? && event.message.Request?)
    && Carried(outcome.sent) == Requested(MessageOf(event))
  }

  lemma {:induction false} WriterSends(feed: Feed, peer: PeerState, event: Event)
    requires feed.Complete() && !peer.remoteAck && WriterTriggerOk(feed.signed, event)
    ensures AnswersRequests(event, Handle(feed, peer, event))
  {
    WriterHandles(feed, peer, event);
    if event.Received? {
      AnnouncedByOne(event.message);
      if event.message.Request? {
        AnnouncedByOne(Handle(feed, peer, event).sent[0]);
      } else if event.message.Have? {
        NothingMissing(feed, event.message);
      }
    }
  }

  /** What the reader's handler asks for, what is announced and missing, and stores, what is carried. */
  ghost predicate AsksAndStores(replica: Feed, event: Event, outcome: Outcome) {
    && Carried(outcome.sent) == {}
    && Requested(outcome.sent) == AnnouncedBy(MessageOf(event)) - replica.blocks.Keys
    && outcome.feed.blocks.Keys == replica.blocks.Keys + Carried(MessageOf(event))
  }

  lemma {:induction false} ReaderSends(log: seq<Block>, replica: Feed, peer: PeerState, event: Event)
    requires replica.CopyOf(log) && !peer.remoteAck && ReaderTriggerOk(log, event)
    ensures AsksAndStores(replica, event, Handle(replica, peer, event))
  {
    ReaderHandles(log, replica, peer, event);
    if event.Received? {
      AnnouncedByOne(event.message);
      if event.message.Have? {
        RequestsAskedFor(replica, peer, event.message);
      }
    }
  }

  lemma {:induction false} RequestsAskedFor(replica: Feed, peer: PeerState, have: Message)
    requires have.Have?
    ensures Requested(OnHave(replica, peer, have).sent) == (set k | k in Announced(have)) - replica.blocks.Keys
  {
    var sent := OnHave(replica, peer, have).sent;
    AnsweredByRequests(replica, peer, have);
    forall k: nat | k in Announced(have) && !replica.Has(k)
      ensures k in Requested(sent)
    {
      assert Request(k) in sent && Request(k).index == k;
    }
  }

  /** Taking an event from where it waited moves its message, if any, out of a queue. */
  lemma {:induction false} TakenByWriter(link: Link, step: LinkStep)
    requires LinkEnabled(link, step) && ByWriter(step)
    ensures var taken, message := Taken(link, step), MessageOf(Trigger(link, step));
            && taken == link.(writer := taken.writer, toWriter := taken.toWriter, noted := taken.noted)
            && Requested(link.toWriter) == Requested(message) + Requested(taken.toWriter)
  {
  }

  lemma {:induction false} TakenByReader(link: Link, step: LinkStep)
    requires LinkEnabled(link, step) && !ByWriter(step)
    ensures var taken, message := Taken(link, step), MessageOf(Trigger(link, step));
            && taken == link.(reader := taken.reader, toReader := taken.toReader, heard := taken.heard)
            && taken.heard == link.heard + AnnouncedBy(message)
            && AnnouncedBy(link.toReader) == AnnouncedBy(message) + AnnouncedBy(taken.toReader)
            && Carried(link.toReader) == Carried(message) + Carried(taken.toReader)
  {
  }

  /** The writer takes requests for `req`, sends the data for them and announces `ann`. */
  lemma {:induction false} AccountedByWriter(
    told: set<nat>, heard: set<nat>, held: set<nat>, initial: set<nat>,
    announced: set<nat>, carried: set<nat>, requested: set<nat>, req: set<nat>, ann: set<nat>)
    requires Accounted(told, heard, held, initial, announced, carried, req + requested)
    ensures Accounted(told + ann, heard, held, initial, announced + ann, carried + req, requested)
  {
  }

  /** The reader takes a message that announces `ann` and carries `car`, asks for what it lacks and stores. */
  lemma {:induction false} AccountedByReader(
    told: set<nat>, heard: set<nat>, held: set<nat>, initial: set<nat>,
    announced: set<nat>, carried: set<nat>, requested: set<nat>, ann: set<nat>, car: set<nat>)
    requires Accounted(told, heard, held, initial, ann + announced, car + carried, requested)
    ensures Accounted(told, heard + ann, held + car, initial, announced, carried, requested + (ann - held))
  {
  }

  lemma {:induction false} TrackedByWriter(link: Link, step: LinkStep, outcome: Outcome)
    requires Tracked(link) && LinkEnabled(link, step) && ByWriter(step)
    requires AnswersRequests(Trigger(link, step), outcome)
    ensures Tracked(WriterDid(Taken(link, step), outcome))
  {
    var taken, message := Taken(link, step), MessageOf(Trigger(link, step));
    TakenByWriter(link, step);
    AnnouncedByConcat(link.toReader, outcome.sent);
    AccountedByWriter(link.told, link.heard, link.replica.blocks.Keys, link.initial,
                      AnnouncedBy(link.toReader), Carried(link.toReader), Requested(taken.toWriter),
                      Requested(message), AnnouncedBy(outcome.sent));
  }

  lemma {:induction false} TrackedByReader(link: Link, step: LinkStep, outcome: Outcome)
    requires Tracked(link) && LinkEnabled(link, step) && !ByWriter(step)
    requires AsksAndStores(link.replica, Trigger(link, step), outcome)
    ensures Tracked(ReaderDid(Taken(link, step), outcome))
  {
    var taken, message := Taken(link, step), MessageOf(Trigger(link, step));
    TakenByReader(link, step);
    AnnouncedByConcat(link.toWriter, outcome.sent);
    AccountedByReader(link.told, link.heard, link.replica.blocks.Keys, link.initial,
                      AnnouncedBy(taken.toReader), Carried(taken.toReader), Requested(link.toWriter),
                      AnnouncedBy(message), Carried(message));
  }

  lemma {:induction false} TrackedKept(feed: Feed, link: Link, step: LinkStep)
    requires feed.Complete() && Sound(feed.signed, link) && Tracked(link) && LinkEnabled(link, step)
    ensures Tracked(LinkNext(feed, link, step))
  {
    TriggerOk(feed.signed, link, step);
    if ByWriter(step) {
      WriterSends(feed, link.writer.peer, Trigger(link, step));
      TrackedByWriter(link, step, Answer(feed, link, step));
    } else {
      ReaderSends(feed.signed, link.replica, link.reader.peer, Trigger(link, step));
      TrackedByReader(link, step, Answer(feed, link, step));
    }
  }

  lemma {:induction false} DataConcat(a: seq<Message>, b: seq<Message>)
    ensures DataBlocks(a + b) == DataBlocks(a) + DataBlocks(b)
    ensures DataBytes(a + b) == DataBytes(a) + DataBytes(b)
  {
    if a == [] {
      assert a + b == b;
    } else {
      assert (a + b)[1..] == a[1..] + b;
      DataConcat(a[1..], b);
    }
  }

  lemma {:induction false} NoData(q: seq<Message>)
    requires forall m :: m in q ==> !m.Data?
    ensures DataBlocks(q) == 0 && DataBytes(q) == 0
  {
    if q != [] {
      NoData(q[1..]);
    }
  }

  lemma {:induction false} ConservedKept(feed: Feed, link: Link, step: LinkStep)
    requires feed.Complete() && Sound(feed.signed, link) && Conserved(link) && LinkEnabled(link, step)
    ensures Conserved(LinkNext(feed, link, step))
  {
    TriggerOk(feed.signed, link, step);
    var event, answer := Trigger(link, step), Answer(feed, link, step);
    if ByWriter(step) {
      WriterHandles(feed, link.writer.peer, event);
      DataConcat(link.toReader, answer.sent);
      if event.Received? && event.message.Request? {
        assert DataBlocks(answer.sent) == 1;
      } else {
        WriterSends(feed, link.writer.peer, event);
        NoData(answer.sent);
      }
    } else {
      ReaderHandles(feed.signed, link.replica, link.reader.peer, event);
      DataConcat(link.toWriter, answer.sent);
      NoData(answer.sent);
    }
  }

  lemma {:induction false} AskedKept(feed: Feed, link: Link, step: LinkStep)
    requires Asked(link) && LinkEnabled(link, step)
    ensures Asked(LinkNext(feed, link, step))
  {
    var next := LinkNext(feed, link, step);
    if next.reader.started && !next.writer.peer.remoteWant {
      if step.StartReader? {
        var first := Want(0, Some(WANT_LENGTH));
        assert first in Answer(feed, link, step).sent;
        assert first in next.toWriter && first.Want?;
      } else {
        var m :| m in link.toWriter && m.Want?;
        if step.WriterReceives? {
          assert link.toWriter[0] != m;
        }
        assert m in next.toWriter;
      }
    }
  }

  lemma {:induction false} LinkInvKept(feed: Feed, link: Link, step: LinkStep)
    requires feed.Complete() && LinkInv(feed.signed, link) && LinkEnabled(link, step)
    ensures LinkInv(feed.signed, LinkNext(feed, link, step))
  {
    SoundKept(feed, link, step);
    TrackedKept(feed, link, step);
    ConservedKept(feed, link, step);
    AskedKept(feed, link, step);
  }

  /** Appending only makes more of the log known, so everything true of it stays true. */
  lemma {:induction false} LinkInvKeptByAppend(log: seq<Block>, block: Block, link: Link)
    requires LinkInv(log, link)
    ensures LinkInv(log + [block], Notified(link, [Append]))
  {
  }

  lemma {:induction false} NextUnchangedFeed(s: System, step: Step)
    requires Inv(s) && Enabled(s, step) && step.At?
    ensures Next(s, step) == s.(links := s.links[step.link := LinkNext(s.feed, s.links[step.link], step.step)])
  {
    var links := s.links[step.link := LinkNext(s.feed, s.links[step.link], step.step)];
    if ByWriter(step.step) {
      WriterKeepsFeed(s.feed, s.links[step.link], step.step);
      assert Broadcast(links, []) == links by {
        forall i | 0 <= i < |links|
          ensures Notified(links[i], []) == links[i]
        {
          assert links[i].writer.events + [] == links[i].writer.events;
        }
      }
    }
  }

  lemma {:induction false} InvKept(s: System, step: Step)
    requires Inv(s) && Enabled(s, step)
    ensures Inv(Next(s, step))
  {
    match step {
      case AppendBlock(block) =>
        forall i | 0 <= i < |s.links|
          ensures LinkInv(s.feed.signed + [block], Broadcast(s.links, [Append])[i])
        {
          LinkInvKeptByAppend(s.feed.signed, block, s.links[i]);
        }
      case At(i, move) =>
        NextUnchangedFeed(s, step);
        LinkInvKept(s.feed, s.links[i], move);
    }
  }

  lemma {:induction false} InitInv(s: System)
    requires Init(s)
    ensures Inv(s)
  {
    forall i | 0 <= i < |s.links|
      ensures LinkInv(s.feed.signed, s.links[i])
    {
      NoData(s.links[i].toReader);
      NoData(s.links[i].toWriter);
    }
  }

  lemma {:induction false} InvKeptByRun(s: System, steps: seq<Step>)
    requires Inv(s) && Legal(s, steps)
    ensures Inv(Exec(s, steps))
    ensures |Exec(s, steps).links| == |s.links| && s.feed.signed <= Exec(s, steps).feed.signed
    decreases |steps|
  {
    if steps != [] {
      InvKept(s, steps[0]);
      if steps[0].At? {
        NextUnchangedFeed(s, steps[0]);
      }
      InvKeptByRun(Next(s, steps[0]), steps[1..]);
    }
  }

  /** Safety: the invariant holds in every state of every run. */
  lemma {:induction false} Reachable(s: System, steps: seq<Step>)
    requires Init(s) && Legal(s, steps)
    ensures Inv(Exec(s, steps))
  {
    InitInv(s);
    InvKeptByRun(s, steps);
  }
}
