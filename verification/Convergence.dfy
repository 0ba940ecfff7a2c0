/**
 What the replication system achieves: it is safe in every state, it falls silent when the
 writer stops appending, and what a silent reader holds is exactly what it began with plus
 what was announced to it.
 */
module Convergence {
  import opened Common
  import opened Hypercore
  import opened Peering
  import opened Replication

  // ---- safety, spelled out ----

  /** Agreement: every stored block and every block on the wire is the writer's, and no handler has failed. */
  lemma {:induction false} Agreement(s: System, steps: seq<Step>, i: nat)
    requires Init(s) && Legal(s, steps) && i < |Exec(s, steps).links|
    ensures var log, link := Exec(s, steps).feed.signed, Exec(s, steps).links[i];
            && link.writer.alive && link.reader.alive
            && (forall k: nat :: k in link.replica.blocks ==> k < |log| && link.replica.blocks[k] == log[k])
            && (forall m :: m in link.toReader && m.Data? ==> m.index < |log| && m.value == Some(log[m.index]))
            && (forall m :: m in link.toWriter ==> !m.Data?)
  {
    Reachable(s, steps);
    assert LinkInv(Exec(s, steps).feed.signed, Exec(s, steps).links[i]);
  }

  /**
   Truthfulness and alignment: every `Want` ever in flight asks for the first window, every
   bitfield starts at 0 so that its bit `k` is about block `k`, every announced block is one
   the writer holds, and an `Append` event never meets an empty feed.
   */
  ghost predicate AnnouncesTruthfully(feed: Feed, link: Link) {
    && (forall m :: (m in link.toReader || m in link.toWriter) && m.Want? ==> m.start == 0)
    && (forall m :: (m in link.toReader || m in link.toWriter) && m.Have? && m.bitfield.Some? ==> m.start == 0)
    && (forall m, k :: m in link.toReader && m.Have? && k in Announced(m) ==> feed.Has(k))
    && (Append in link.writer.events ==> feed.Len() > 0)
    && Append !in link.reader.events
  }

  lemma {:induction false} LinkAnnouncesTruthfully(feed: Feed, link: Link)
    requires feed.Complete() && Sound(feed.signed, link)
    ensures AnnouncesTruthfully(feed, link)
  {
  }

  lemma {:induction false} AnnouncementsTruthful(s: System, steps: seq<Step>, i: nat)
    requires Init(s) && Legal(s, steps) && i < |Exec(s, steps).links|
    ensures AnnouncesTruthfully(Exec(s, steps).feed, Exec(s, steps).links[i])
  {
    Reachable(s, steps);
    LinkAnnouncesTruthfully(Exec(s, steps).feed, Exec(s, steps).links[i]);
  }

  /** No announced block is lost: it is stored, or asked for, or on its way with the writer's value. */
  lemma {:induction false} NothingAnnouncedIsLost(s: System, steps: seq<Step>, i: nat, k: nat)
    requires Init(s) && Legal(s, steps) && i < |Exec(s, steps).links|
    requires k in Exec(s, steps).links[i].heard
    ensures var log, link := Exec(s, steps).feed.signed, Exec(s, steps).links[i];
            && k < |log|
            && (|| (k in link.replica.blocks && link.replica.blocks[k] == log[k])
                || Request(k) in link.toWriter
                || exists m :: m in link.toReader && m.Data? && m.index == k && m.value == Some(log[k]))
  {
    Reachable(s, steps);
    var log, link := Exec(s, steps).feed.signed, Exec(s, steps).links[i];
    assert LinkInv(log, link);
    if k !in link.replica.blocks {
      if k in Requested(link.toWriter) {
        assert Request(k) in link.toWriter;
      } else {
        var m :| m in link.toReader && m.Data? && m.index == k;
        assert ToReaderOk(log, m);
      }
    }
  }

  /** Conservation: uploads equal downloads plus what is in flight, in blocks and in bytes. */
  lemma {:induction false} TransfersConserved(s: System, steps: seq<Step>, i: nat)
    requires Init(s) && Legal(s, steps) && i < |Exec(s, steps).links|
    ensures var link := Exec(s, steps).links[i];
            var up, down := link.writer.peer.stats, link.reader.peer.stats;
            && up.uploadedBlocks == down.downloadedBlocks + DataBlocks(link.toReader)
            && up.uploadedBytes == down.downloadedBytes + DataBytes(link.toReader)
            && down.uploadedBlocks == up.downloadedBlocks && down.uploadedBytes == up.downloadedBytes
  {
    Reachable(s, steps);
    var link := Exec(s, steps).links[i];
    assert LinkInv(Exec(s, steps).feed.signed, link);
    NoData(link.toWriter);
  }

  // ---- termination ----

  datatype Direction = TowardReader | TowardWriter

  /**
   How many more steps a message can cause, itself included, on a log of `n` blocks: a `Have`
   read by the reader is answered with at most `n` requests, and each request with data, a
   `Download` event and a `Have` that the writer ignores.
   */
  function Weight(n: nat, d: Direction, m: Message): nat {
    match m
    case Open => if d.TowardReader? then 8 * n + 4 else 4
    case Want(_, _) => if d.TowardReader? then 3 else 8 * n + 3
    case Have(_, _, _) => if d.TowardReader? then 4 * n + 1 else 1
    case Request(_) => 4
    case Data(_, _, _) => 3
    case OtherMessage => 1
  }

  function EventWeight(n: nat, d: Direction, e: FeedEvent): nat {
    match e
    case Append => if d.TowardReader? then 4 * n + 2 else 2
    case Download(_) => if d.TowardReader? then 4 * n + 2 else 2
    case OtherEvent => 1
  }

  function QueueWeight(n: nat, d: Direction, q: seq<Message>): nat {
    if q == [] then 0 else Weight(n, d, q[0]) + QueueWeight(n, d, q[1..])
  }

  function EventsWeight(n: nat, d: Direction, q: seq<FeedEvent>): nat {
    if q == [] then 0 else EventWeight(n, d, q[0]) + EventsWeight(n, d, q[1..])
  }

  /** A bound on the steps a link can still take when nothing is appended. */
  function LinkWeight(n: nat, link: Link): nat {
    QueueWeight(n, TowardReader, link.toReader) + QueueWeight(n, TowardWriter, link.toWriter)
    + EventsWeight(n, TowardReader, link.writer.events) + EventsWeight(n, TowardWriter, link.reader.events)
    + (if link.writer.started then 0 else 4) + (if link.reader.started then 0 else 8 * n + 4)
  }

  function LinksWeight(n: nat, links: seq<Link>): nat {
    if links == [] then 0 else LinkWeight(n, links[0]) + LinksWeight(n, links[1..])
  }

  function SystemWeight(s: System): nat {
    LinksWeight(s.feed.Len(), s.links)
  }

  lemma {:induction false} QueueWeightConcat(n: nat, d: Direction, a: seq<Message>, b: seq<Message>)
    ensures QueueWeight(n, d, a + b) == QueueWeight(n, d, a) + QueueWeight(n, d, b)
  {
    if a == [] {
      assert a + b == b;
    } else {
      assert (a + b)[1..] == a[1..] + b;
      QueueWeightConcat(n, d, a[1..], b);
    }
  }

  lemma {:induction false} EventsWeightConcat(n: nat, d: Direction, a: seq<FeedEvent>, b: seq<FeedEvent>)
    ensures EventsWeight(n, d, a + b) == EventsWeight(n, d, a) + EventsWeight(n, d, b)
  {
    if a == [] {
      assert a + b == b;
    } else {
      assert (a + b)[1..] == a[1..] + b;
      EventsWeightConcat(n, d, a[1..], b);
    }
  }

  /** At most `n` different indices below `n`. */
  lemma {:induction false} IncreasingBound(ixs: seq<nat>, n: nat)
    requires Increasing(ixs) && forall k :: k in ixs ==> k < n
    ensures |ixs| <= n
    decreases n
  {
    if ixs != [] {
      var last := |ixs| - 1;
      assert ixs[last] in ixs;
      forall k | k in ixs[..last]
        ensures k < n - 1
      {
        var i :| 0 <= i < last && ixs[i] == k;
        assert ixs[i] < ixs[last];
      }
      IncreasingBound(ixs[..last], n - 1);
    }
  }

  lemma {:induction false} RequestsWeight(n: nat, ixs: seq<nat>)
    ensures QueueWeight(n, TowardWriter, Requests(ixs)) == 4 * |ixs|
  {
    if ixs != [] {
      assert Requests(ixs)[1..] == Requests(ixs[1..]);
      RequestsWeight(n, ixs[1..]);
    }
  }

  /** A truthful announcement is answered with at most one request per block of the log. */
  lemma {:induction false} HaveWeight(log: seq<Block>, replica: Feed, have: Message)
    requires have.Have? && Truthful(log, have)
    ensures QueueWeight(|log|, TowardWriter, Requests(Missing(replica, Announced(have)))) <= 4 * |log|
  {
    var missing := Missing(replica, Announced(have));
    AnnouncedIncreasing(have);
    MissingMembers(replica, Announced(have));
    IncreasingBound(missing, |log|);
    RequestsWeight(|log|, missing);
  }

  lemma {:induction false} WriterWeight(feed: Feed, peer: PeerState, event: Event)
    requires feed.Complete() && WriterTriggerOk(feed.signed, event)
    ensures var n := feed.Len();
            QueueWeight(n, TowardReader, Handle(feed, peer, event).sent)
            < match event
              case Received(m, _) => Weight(n, TowardWriter, m)
              case Local(e) => EventWeight(n, TowardReader, e)
  {
    var sent := Handle(feed, peer, event).sent;
    if event.Received? && event.message.Have? {
      NothingMissing(feed, event.message);
    } else if |sent| == 2 {
      assert sent == [sent[0]] + [sent[1]];
      QueueWeightConcat(feed.Len(), TowardReader, [sent[0]], [sent[1]]);
    }
  }

  lemma {:induction false} ReaderWeight(log: seq<Block>, replica: Feed, peer: PeerState, event: Event)
    requires replica.CopyOf(log) && !peer.remoteAck && ReaderTriggerOk(log, event)
    ensures var outcome, n := Handle(replica, peer, event), |log|;
            QueueWeight(n, TowardWriter, outcome.sent) + EventsWeight(n, TowardWriter, outcome.emitted)
            < match event
              case Received(m, _) => Weight(n, TowardReader, m)
              case Local(e) => EventWeight(n, TowardWriter, e)
  {
    var sent := Handle(replica, peer, event).sent;
    if event.Received? && event.message.Have? {
      HaveWeight(log, replica, event.message);
    } else if |sent| == 2 {
      assert sent == [sent[0]] + [sent[1]];
      QueueWeightConcat(|log|, TowardWriter, [sent[0]], [sent[1]]);
    }
  }

  lemma {:induction false} LinkWeightDecreases(feed: Feed, link: Link, step: LinkStep)
    requires feed.Complete() && Sound(feed.signed, link) && LinkEnabled(link, step)
    ensures LinkWeight(feed.Len(), LinkNext(feed, link, step)) < LinkWeight(feed.Len(), link)
  {
    var n, event, answer := feed.Len(), Trigger(link, step), Answer(feed, link, step);
    TriggerOk(feed.signed, link, step);
    if ByWriter(step) {
      WriterWeight(feed, link.writer.peer, event);
      QueueWeightConcat(n, TowardReader, link.toReader, answer.sent);
    } else {
      ReaderWeight(feed.signed, link.replica, link.reader.peer, event);
      QueueWeightConcat(n, TowardWriter, link.toWriter, answer.sent);
      EventsWeightConcat(n, TowardWriter, Taken(link, step).reader.events, answer.emitted);
    }
  }

  lemma {:induction false} LinksWeightUpdate(n: nat, links: seq<Link>, i: nat, link: Link)
    requires i < |links|
    ensures LinksWeight(n, links[i := link]) == LinksWeight(n, links) - LinkWeight(n, links[i]) + LinkWeight(n, link)
  {
    if i > 0 {
      assert links[i := link][1..] == links[1..][i - 1 := link];
      LinksWeightUpdate(n, links[1..], i - 1, link);
    } else {
      assert links[i := link][1..] == links[1..];
    }
  }

  ghost predicate AppendFree(steps: seq<Step>) {
    forall i :: 0 <= i < |steps| ==> steps[i].At?
  }

  lemma {:induction false} StepWeight(s: System, step: Step)
    requires Inv(s) && step.At? && Enabled(s, step)
    ensures SystemWeight(Next(s, step)) < SystemWeight(s) && Next(s, step).feed == s.feed
  {
    NextUnchangedFeed(s, step);
    LinkWeightDecreases(s.feed, s.links[step.link], step.step);
    LinksWeightUpdate(s.feed.Len(), s.links, step.link, LinkNext(s.feed, s.links[step.link], step.step));
  }

  /** Termination: a run in which nothing is appended takes at most `SystemWeight` steps. */
  lemma {:induction false} RunsTerminate(s: System, steps: seq<Step>)
    requires Inv(s) && Legal(s, steps) && AppendFree(steps)
    ensures |steps| + SystemWeight(Exec(s, steps)) <= SystemWeight(s)
    ensures Exec(s, steps).feed == s.feed
    decreases |steps|
  {
    if steps != [] {
      StepWeight(s, steps[0]);
      InvKept(s, steps[0]);
      RunsTerminate(Next(s, steps[0]), steps[1..]);
    }
  }

  // ---- silence ----

  /** Both peers run and nothing waits anywhere on the link. */
  predicate Quiet(link: Link) {
    && link.writer.started && link.reader.started
    && link.toReader == [] && link.toWriter == []
    && link.writer.events == [] && link.reader.events == []
  }

  predicate Silent(s: System) {
    forall i :: 0 <= i < |s.links| ==> Quiet(s.links[i])
  }

  /** A step that a link which is not quiet can take. */
  function Pending(link: Link): LinkStep {
    if !link.writer.started then StartWriter
    else if !link.reader.started then StartReader
    else if link.toWriter != [] then WriterReceives(true)
    else if link.toReader != [] then ReaderReceives(true)
    else if link.writer.events != [] then WriterEvent
    else ReaderEvent
  }

  /** Nothing is ever stuck: the system is silent exactly when no peer has a step to take. */
  lemma {:induction false} SilentIffNoStep(s: System)
    requires Inv(s)
    ensures Silent(s) <==> forall i, move :: 0 <= i < |s.links| ==> !LinkEnabled(s.links[i], move)
  {
    if !Silent(s) {
      var i :| 0 <= i < |s.links| && !Quiet(s.links[i]);
      NextPending(s, i);
    }
  }

  lemma {:induction false} ExecConcat(s: System, a: seq<Step>, b: seq<Step>)
    requires Legal(s, a) && Legal(Exec(s, a), b)
    ensures Legal(s, a + b) && Exec(s, a + b) == Exec(Exec(s, a), b)
    decreases |a|
  {
    if a == [] {
      assert a + b == b;
    } else {
      assert (a + b)[1..] == a[1..] + b;
      ExecConcat(Next(s, a[0]), a[1..], b);
    }
  }

  lemma {:induction false} Prepend(s: System, step: Step, rest: seq<Step>)
    requires Enabled(s, step) && Legal(Next(s, step), rest)
    ensures Legal(s, [step] + rest) && Exec(s, [step] + rest) == Exec(Next(s, step), rest)
  {
    assert ([step] + rest)[1..] == rest;
  }

  lemma {:induction false} NextPending(s: System, i: nat)
    requires Inv(s) && i < |s.links| && !Quiet(s.links[i])
    ensures Enabled(s, At(i, Pending(s.links[i])))
  {
  }

  lemma {:induction false} Progress(s: System) returns (step: Step)
    requires Inv(s) && !Silent(s)
    ensures step.At? && Enabled(s, step)
    ensures Inv(Next(s, step)) && SystemWeight(Next(s, step)) < SystemWeight(s)
  {
    var i :| 0 <= i < |s.links| && !Quiet(s.links[i]);
    NextPending(s, i);
    step := At(i, Pending(s.links[i]));
    StepWeight(s, step);
    InvKept(s, step);
  }

  ghost predicate LeadsToSilence(s: System, steps: seq<Step>) {
    Legal(s, steps) && AppendFree(steps) && Silent(Exec(s, steps))
  }

  lemma {:induction false} PrependToSilence(s: System, step: Step, rest: seq<Step>)
    requires step.At? && Enabled(s, step) && LeadsToSilence(Next(s, step), rest)
    ensures LeadsToSilence(s, [step] + rest)
  {
    Prepend(s, step, rest);
  }

  /** From every state of every run the peers alone can bring the system to silence. */
  lemma {:induction false} CanFallSilent(s: System) returns (steps: seq<Step>)
    requires Inv(s)
    ensures LeadsToSilence(s, steps)
    decreases SystemWeight(s)
  {
    if Silent(s) {
      steps := [];
    } else {
      var step := Progress(s);
      var rest := CanFallSilent(Next(s, step));
      PrependToSilence(s, step, rest);
      steps := [step] + rest;
    }
  }

  /** What a quiet reader holds: what it began with and what was announced to it, no more and no less. */
  lemma {:induction false} QuietHoldings(log: seq<Block>, link: Link)
    requires LinkInv(log, link) && Quiet(link)
    ensures link.replica.blocks.Keys == link.initial + link.told
    ensures link.writer.peer.remoteWant
    ensures Balanced(link.writer.peer.stats, [], link.reader.peer.stats)
  {
  }

  // ---- convergence ----

  ghost predicate HoldsAll(log: seq<Block>, link: Link) {
    forall k: nat :: k < |log| ==> k in link.replica.blocks && link.replica.blocks[k] == log[k]
  }

  /** The first answer to a `Want` speaks of the first window and of the newest block. */
  lemma {:induction false} FirstAnswerAnnounces(feed: Feed, peer: PeerState, want: Message)
    requires feed.Complete() && want.Want? && WholeWant(want)
    ensures forall k: nat :: k in AnnouncedBy(OnWant(feed, peer, want).sent) <==>
              k < feed.Len() && (k < WANT_LENGTH || (!peer.remoteWant && k == feed.Len() - 1))
  {
    var sent := OnWant(feed, peer, want).sent;
    var window := Have(0, Some(WANT_LENGTH), Some(feed.Window(0, WANT_LENGTH)));
    WindowAnnounces(feed, WANT_LENGTH);
    if !peer.remoteWant && feed.Len() > 0 {
      var newest := Have(feed.Len() - 1, None, None);
      SingleAnnounced(feed.Len() - 1);
      AnnouncedByOne(newest);
      AnnouncedByConcat([newest], [window]);
      assert sent == [newest] + [window];
    } else {
      assert sent == [window];
    }
  }

  lemma {:induction false} WindowAnnounces(feed: Feed, length: nat)
    ensures forall k: nat :: k in AnnouncedBy([Have(0, Some(length), Some(feed.Window(0, length)))]) <==>
              k < length && feed.Has(k)
  {
    var window := Have(0, Some(length), Some(feed.Window(0, length)));
    AnnouncedIncreasing(window);
    AnnouncedByOne(window);
    forall k: nat
      ensures k in Announced(window) <==> k < length && feed.Has(k)
    {
      assert k < length ==> (window.bitfield.value[k] <==> feed.Has(0 + k));
    }
  }

  /** It covers the whole log if and only if the log has at most one block more than a window. */
  lemma {:induction false} FirstAnswerCovers(feed: Feed, peer: PeerState, want: Message)
    requires feed.Complete() && want.Want? && WholeWant(want) && !peer.remoteWant
    ensures (forall k: nat :: k < feed.Len() ==> k in AnnouncedBy(OnWant(feed, peer, want).sent))
            <==> feed.Len() <= WANT_LENGTH + 1
  {
    FirstAnswerAnnounces(feed, peer, want);
    if feed.Len() > WANT_LENGTH + 1 {
      var skipped: nat := WANT_LENGTH;
      assert skipped !in AnnouncedBy(OnWant(feed, peer, want).sent);
    }
  }

  /**
   Once a `Want` has been answered, every block is known or announced, except that the newest
   may still wait for its `Append` event.
   */
  ghost predicate Covered(log: seq<Block>, link: Link) {
    link.writer.peer.remoteWant ==>
      && link.writer.started
      && forall k: nat :: k < |log| ==>
           k in link.initial || k in link.told || (k == |log| - 1 && Append in link.writer.events)
  }

  ghost predicate AllCovered(s: System) {
    forall i :: 0 <= i < |s.links| ==> Covered(s.feed.signed, s.links[i])
  }

  /**
   A step taken in time: an append waits until each peer that has answered a `Want` has
   handled the previous `Append`, and a first `Want` is answered while the log is short.
   */
  ghost predicate InTime(s: System, step: Step)
    requires Enabled(s, step)
  {
    match step
    case AppendBlock(_) =>
      forall i :: 0 <= i < |s.links| && s.links[i].writer.peer.remoteWant ==> Append !in s.links[i].writer.events
    case At(i, move) =>
      move.WriterReceives? && s.links[i].toWriter[0].Want? && !s.links[i].writer.peer.remoteWant ==>
        s.feed.Len() <= WANT_LENGTH + 1
  }

  ghost predicate RunInTime(s: System, steps: seq<Step>)
    requires Legal(s, steps)
    decreases |steps|
  {
    steps == [] || (InTime(s, steps[0]) && RunInTime(Next(s, steps[0]), steps[1..]))
  }

  lemma {:induction false} CoveredKept(feed: Feed, link: Link, step: LinkStep)
    requires feed.Complete() && Sound(feed.signed, link) && LinkEnabled(link, step) && Covered(feed.signed, link)
    requires step.WriterReceives? && link.toWriter[0].Want? && !link.writer.peer.remoteWant ==>
               feed.Len() <= WANT_LENGTH + 1
    ensures Covered(feed.signed, LinkNext(feed, link, step))
  {
    TriggerOk(feed.signed, link, step);
    var event, answer := Trigger(link, step), Answer(feed, link, step);
    if step.WriterReceives? && event.message.Want? {
      if !link.writer.peer.remoteWant {
        FirstAnswerCovers(feed, link.writer.peer, event.message);
      }
    } else if step.WriterEvent? && event == Local(Append) {
      SingleAnnounced(feed.Len() - 1);
      AnnouncedByOne(Have(feed.Len() - 1, None, None));
    } else if step.WriterEvent? {
      assert link.writer.events == [link.writer.events[0]] + link.writer.events[1..];
    }
  }

  lemma {:induction false} CoveredKeptByAppend(log: seq<Block>, block: Block, link: Link)
    requires Covered(log, link) && (link.writer.peer.remoteWant ==> Append !in link.writer.events)
    ensures Covered(log + [block], Notified(link, [Append]))
  {
  }

  lemma {:induction false} AllCoveredKept(s: System, step: Step)
    requires Inv(s) && AllCovered(s) && Enabled(s, step) && InTime(s, step)
    ensures AllCovered(Next(s, step))
  {
    match step {
      case AppendBlock(block) =>
        forall i | 0 <= i < |s.links|
          ensures Covered(s.feed.signed + [block], Broadcast(s.links, [Append])[i])
        {
          CoveredKeptByAppend(s.feed.signed, block, s.links[i]);
        }
      case At(i, move) =>
        NextUnchangedFeed(s, step);
        assert LinkInv(s.feed.signed, s.links[i]);
        CoveredKept(s.feed, s.links[i], move);
    }
  }

  lemma {:induction false} AllCoveredByRun(s: System, steps: seq<Step>)
    requires Inv(s) && AllCovered(s) && Legal(s, steps) && RunInTime(s, steps)
    ensures AllCovered(Exec(s, steps))
    decreases |steps|
  {
    if steps != [] {
      AllCoveredKept(s, steps[0]);
      InvKept(s, steps[0]);
      AllCoveredByRun(Next(s, steps[0]), steps[1..]);
    }
  }

  lemma {:induction false} SilentHoldsAll(s: System)
    requires Inv(s) && AllCovered(s) && Silent(s)
    ensures forall i :: 0 <= i < |s.links| ==> HoldsAll(s.feed.signed, s.links[i])
  {
  }

  /** Convergence: after a run in time, silence means that every reader holds the whole log. */
  lemma {:induction false} Converges(s: System, steps: seq<Step>)
    requires Init(s) && Legal(s, steps) && RunInTime(s, steps) && Silent(Exec(s, steps))
    ensures var end := Exec(s, steps);
            forall i :: 0 <= i < |end.links| ==> HoldsAll(end.feed.signed, end.links[i])
  {
    InitInv(s);
    InvKeptByRun(s, steps);
    AllCoveredByRun(s, steps);
    SilentHoldsAll(Exec(s, steps));
  }

  lemma {:induction false} ShortLogInTime(s: System, steps: seq<Step>)
    requires Inv(s) && Legal(s, steps) && AppendFree(steps) && s.feed.Len() <= WANT_LENGTH + 1
    ensures RunInTime(s, steps)
    decreases |steps|
  {
    if steps != [] {
      StepWeight(s, steps[0]);
      InvKept(s, steps[0]);
      ShortLogInTime(Next(s, steps[0]), steps[1..]);
    }
  }

  /**
   Delivery: when the writer stops after a run in time, with a log of at most one block more
   than a window, the peers take a bounded number of steps, and once none of them has a step
   left every reader holds the whole log.
   */
  lemma {:induction false} StoppingDeliversAll(s: System, steps: seq<Step>, more: seq<Step>)
    requires Init(s) && Legal(s, steps) && RunInTime(s, steps) && Exec(s, steps).feed.Len() <= WANT_LENGTH + 1
    requires Legal(Exec(s, steps), more) && AppendFree(more)
    ensures |more| <= SystemWeight(Exec(s, steps))
    ensures var end := Exec(Exec(s, steps), more);
            (forall i, move :: 0 <= i < |end.links| ==> !LinkEnabled(end.links[i], move)) ==>
              forall i :: 0 <= i < |end.links| ==> HoldsAll(end.feed.signed, end.links[i])
  {
    var mid := Exec(s, steps);
    InitInv(s);
    InvKeptByRun(s, steps);
    AllCoveredByRun(s, steps);
    RunsTerminate(mid, more);
    ShortLogInTime(mid, more);
    AllCoveredByRun(mid, more);
    InvKeptByRun(mid, more);
    SilentIffNoStep(Exec(mid, more));
    if Silent(Exec(mid, more)) {
      SilentHoldsAll(Exec(mid, more));
    }
  }

  // ---- exactly when a block is overtaken ----

  /** No `Want` is on its way to the writer and none will be sent. */
  ghost predicate NoWantAhead(link: Link) {
    && link.reader.started
    && (forall m :: m in link.toReader ==> !m.Open?)
    && (forall m :: m in link.toWriter ==> !m.Want?)
  }

  /** No later answer to a `Want` can speak of block `k`. */
  ghost predicate OutOfWindow(link: Link, k: nat) {
    k >= WANT_LENGTH || NoWantAhead(link)
  }

  lemma {:induction false} OutOfWindowKept(feed: Feed, link: Link, step: LinkStep, k: nat)
    requires feed.Complete() && Sound(feed.signed, link) && LinkEnabled(link, step) && OutOfWindow(link, k)
    ensures OutOfWindow(LinkNext(feed, link, step), k)
  {
  }

  /** What the writer announces, apart from the first window, is the newest block. */
  lemma {:induction false} WriterAnnounces(feed: Feed, peer: PeerState, event: Event, k: nat)
    requires feed.Complete() && WriterTriggerOk(feed.signed, event) && k + 1 < feed.Len()
    requires event.Received? && event.message.Want? ==> k >= WANT_LENGTH
    ensures k !in AnnouncedBy(Handle(feed, peer, event).sent)
  {
    if event.Received? && event.message.Want? {
      FirstAnswerAnnounces(feed, peer, event.message);
    } else if event.Received? && event.message.Have? {
      NothingMissing(feed, event.message);
    } else if event == Local(Append) {
      SingleAnnounced(feed.Len() - 1);
    }
  }

  /** A block that is no longer the newest, and out of every window to come, is not announced any more. */
  lemma {:induction false} NotAnnouncedAgain(feed: Feed, link: Link, step: LinkStep, k: nat)
    requires feed.Complete() && Sound(feed.signed, link) && LinkEnabled(link, step)
    requires k + 1 < feed.Len() && OutOfWindow(link, k) && k !in link.told
    ensures k !in LinkNext(feed, link, step).told
  {
    TriggerOk(feed.signed, link, step);
    if ByWriter(step) {
      assert step.WriterReceives? ==> link.toWriter[0] in link.toWriter;
      WriterAnnounces(feed, link.writer.peer, Trigger(link, step), k);
    }
  }

  lemma {:induction false} HistoryGrows(feed: Feed, link: Link, step: LinkStep)
    requires LinkEnabled(link, step)
    ensures link.told <= LinkNext(feed, link, step).told && link.initial == LinkNext(feed, link, step).initial
  {
  }

  /** Block `k` reaches the reader: it was there from the start, is announced, or a window will speak of it. */
  ghost predicate Secured(link: Link, k: nat) {
    k in link.initial + link.told || !OutOfWindow(link, k)
  }

  /** A handled `Want` for the first window announces every block of it that the log has. */
  lemma {:induction false} WantAhead(feed: Feed, link: Link, step: LinkStep, k: nat)
    requires feed.Complete() && Sound(feed.signed, link) && LinkEnabled(link, step)
    requires k < feed.Len() && k < WANT_LENGTH && !NoWantAhead(link)
    ensures k in LinkNext(feed, link, step).told || !NoWantAhead(LinkNext(feed, link, step))
  {
    TriggerOk(feed.signed, link, step);
    var next := LinkNext(feed, link, step);
    var event, answer := Trigger(link, step), Answer(feed, link, step);
    if event.Received? && event.message.Want? && ByWriter(step) {
      FirstAnswerAnnounces(feed, link.writer.peer, event.message);
    } else if event.Received? && event.message.Open? && !ByWriter(step) {
      assert answer.sent == [Want(0, Some(WANT_LENGTH))];
      assert next.toWriter[|next.toWriter| - 1].Want?;
    } else if link.reader.started {
      assert Taken(link, step).toReader + (if ByWriter(step) then answer.sent else []) == next.toReader;
      assert Taken(link, step).toWriter + (if ByWriter(step) then [] else answer.sent) == next.toWriter;
      WantOrOpenStays(link, step);
    }
  }

  lemma {:induction false} WantOrOpenStays(link: Link, step: LinkStep)
    requires LinkEnabled(link, step) && link.reader.started && !NoWantAhead(link)
    requires step.WriterReceives? ==> !link.toWriter[0].Want?
    requires step.ReaderReceives? ==> !link.toReader[0].Open?
    ensures !NoWantAhead(Taken(link, step))
  {
  }

  /** Every step of a link decides nothing new about a block that is no longer the newest. */
  lemma {:induction false} SecuredKept(feed: Feed, link: Link, step: LinkStep, k: nat)
    requires feed.Complete() && Sound(feed.signed, link) && LinkEnabled(link, step) && k + 1 < feed.Len()
    ensures Secured(LinkNext(feed, link, step), k) <==> Secured(link, k)
  {
    HistoryGrows(feed, link, step);
    if k !in link.initial + link.told {
      if OutOfWindow(link, k) {
        NotAnnouncedAgain(feed, link, step, k);
        OutOfWindowKept(feed, link, step, k);
      } else {
        WantAhead(feed, link, step, k);
      }
    }
  }

  lemma {:induction false} AppendKeepsHistory(s: System, block: Block, i: nat)
    requires i < |s.links|
    ensures var next := Next(s, AppendBlock(block));
            && |next.links| == |s.links| && next.feed.signed == s.feed.signed + [block]
            && next.links[i].told == s.links[i].told && next.links[i].initial == s.links[i].initial
            && (NoWantAhead(s.links[i]) <==> NoWantAhead(next.links[i]))
  {
  }

  lemma {:induction false} LogGrows(s: System, step: Step)
    requires Inv(s) && Enabled(s, step)
    ensures |Next(s, step).links| == |s.links|
    ensures Next(s, step).feed.signed == if step.AppendBlock? then s.feed.signed + [step.block] else s.feed.signed
  {
    if step.At? {
      NextUnchangedFeed(s, step);
    }
  }

  lemma {:induction false} SecuredKeptBySystem(s: System, step: Step, i: nat, k: nat)
    requires Inv(s) && Enabled(s, step) && i < |s.links| && k + 1 < s.feed.Len()
    ensures i < |Next(s, step).links| && (Secured(Next(s, step).links[i], k) <==> Secured(s.links[i], k))
  {
    assert LinkInv(s.feed.signed, s.links[i]);
    match step {
      case AppendBlock(block) => AppendKeepsHistory(s, block, i);
      case At(j, move) =>
        NextUnchangedFeed(s, step);
        if j == i {
          SecuredKept(s.feed, s.links[i], move, k);
        }
    }
  }

  /** Once a block is not the newest any more, its fate is settled for every continuation of the run. */
  lemma {:induction false} FateSettled(s: System, steps: seq<Step>, i: nat, k: nat)
    requires Inv(s) && Legal(s, steps) && i < |s.links| && k + 1 < s.feed.Len()
    ensures i < |Exec(s, steps).links| && (Secured(Exec(s, steps).links[i], k) <==> Secured(s.links[i], k))
    decreases |steps|
  {
    if steps != [] {
      InvKept(s, steps[0]);
      SecuredKeptBySystem(s, steps[0], i, k);
      LogGrows(s, steps[0]);
      FateSettled(Next(s, steps[0]), steps[1..], i, k);
    }
  }

  lemma {:induction false} LinksStay(s: System, steps: seq<Step>)
    requires Inv(s) && Legal(s, steps)
    ensures |Exec(s, steps).links| == |s.links|
    decreases |steps|
  {
    if steps != [] {
      InvKept(s, steps[0]);
      LogGrows(s, steps[0]);
      LinksStay(Next(s, steps[0]), steps[1..]);
    }
  }

  lemma {:induction false} SecuredAtRest(log: seq<Block>, link: Link, k: nat)
    requires LinkInv(log, link)
    ensures k in link.replica.blocks ==> Secured(link, k)
    ensures Quiet(link) ==> (k in link.replica.blocks <==> Secured(link, k))
  {
  }

  /**
   An append overtakes the newest block `k` exactly when `k` was not there from the start, has
   not been announced, and no window that speaks of it is still to come: then no continuation of
   the run ever brings `k` to the reader, and otherwise every one that falls quiet has brought it.
   */
  lemma {:induction false} Overtaken(s: System, block: Block, rest: seq<Step>, i: nat)
    requires Inv(s) && s.feed.Len() > 0 && i < |s.links|
    requires Legal(s, [AppendBlock(block)] + rest)
    ensures i < |Exec(s, [AppendBlock(block)] + rest).links|
    ensures var k, link, end := s.feed.Len() - 1, s.links[i], Exec(s, [AppendBlock(block)] + rest).links[i];
            && (k in end.replica.blocks ==> k in link.initial + link.told || !OutOfWindow(link, k))
            && (Quiet(end) ==> (k in end.replica.blocks <==> k in link.initial + link.told || !OutOfWindow(link, k)))
  {
    var steps := [AppendBlock(block)] + rest;
    var k, next := s.feed.Len() - 1, Next(s, steps[0]);
    assert steps[1..] == rest;
    InvKept(s, steps[0]);
    AppendKeepsHistory(s, block, i);
    InvKeptByRun(next, rest);
    FateSettled(next, rest, i, k);
    var end := Exec(s, steps);
    assert LinkInv(end.feed.signed, end.links[i]);
    SecuredAtRest(end.feed.signed, end.links[i], k);
  }

  // ---- exactly when a run delivers the whole log ----

  /** The newest block is announced, or its `Append` event still waits, once a `Want` has been answered. */
  ghost predicate NewestDue(log: seq<Block>, link: Link) {
    link.writer.peer.remoteWant ==>
      && link.writer.started
      && (|log| > 0 ==> |log| - 1 in link.told || Append in link.writer.events)
  }

  lemma {:induction false} NewestDueKept(feed: Feed, link: Link, step: LinkStep)
    requires feed.Complete() && Sound(feed.signed, link) && LinkEnabled(link, step) && NewestDue(feed.signed, link)
    ensures NewestDue(feed.signed, LinkNext(feed, link, step))
  {
    TriggerOk(feed.signed, link, step);
    var event, answer := Trigger(link, step), Answer(feed, link, step);
    if step.WriterReceives? && event.message.Want? {
      FirstAnswerAnnounces(feed, link.writer.peer, event.message);
    } else if step.WriterEvent? && event == Local(Append) {
      SingleAnnounced(feed.Len() - 1);
      AnnouncedByOne(Have(feed.Len() - 1, None, None));
    } else if step.WriterEvent? {
      assert link.writer.events == [link.writer.events[0]] + link.writer.events[1..];
    }
  }

  lemma {:induction false} NewestDueKeptBySystem(s: System, step: Step, i: nat)
    requires Inv(s) && Enabled(s, step) && i < |s.links| && NewestDue(s.feed.signed, s.links[i])
    ensures |Next(s, step).links| == |s.links| && NewestDue(Next(s, step).feed.signed, Next(s, step).links[i])
  {
    LogGrows(s, step);
    if step.At? {
      NextUnchangedFeed(s, step);
      assert LinkInv(s.feed.signed, s.links[i]);
      if step.link == i {
        NewestDueKept(s.feed, s.links[i], step.step);
      }
    }
  }

  /** The step is not an append that overtakes the newest block on link `i`. */
  ghost predicate OvertakesNone(s: System, step: Step, i: nat) {
    i < |s.links| && (step.AppendBlock? && s.feed.Len() > 0 ==> Secured(s.links[i], s.feed.Len() - 1))
  }

  /** No append of the run overtakes the newest block on link `i`. */
  ghost predicate NoneOvertaken(s: System, steps: seq<Step>, i: nat)
    requires Legal(s, steps)
    decreases |steps|
  {
    steps == [] || (OvertakesNone(s, steps[0], i) && NoneOvertaken(Next(s, steps[0]), steps[1..], i))
  }

  /** Of a log of `n` blocks all but the newest are secured. */
  ghost predicate OlderSecured(n: nat, link: Link) {
    forall k: nat :: k + 1 < n ==> Secured(link, k)
  }

  lemma {:induction false} QuietHoldsAllIff(s: System, i: nat)
    requires Inv(s) && i < |s.links| && NewestDue(s.feed.signed, s.links[i]) && Quiet(s.links[i])
    ensures HoldsAll(s.feed.signed, s.links[i]) <==> OlderSecured(s.feed.Len(), s.links[i])
  {
    var log, link := s.feed.signed, s.links[i];
    assert LinkInv(log, link);
    QuietHoldings(log, link);
    forall k: nat
      ensures k in link.replica.blocks <==> Secured(link, k)
    {
      SecuredAtRest(log, link, k);
    }
    assert |log| > 0 ==> |log| - 1 in link.told;
  }

  lemma {:induction false} OlderSecuredKept(n: nat, link: Link, next: Link)
    requires forall k: nat :: k + 1 < n ==> (Secured(next, k) <==> Secured(link, k))
    ensures OlderSecured(n, next) <==> OlderSecured(n, link)
  {
  }

  lemma {:induction false} OlderSecuredByAppend(n: nat, link: Link, next: Link)
    requires forall k: nat :: k < n ==> (Secured(next, k) <==> Secured(link, k))
    ensures OlderSecured(n + 1, next) <==> OlderSecured(n, link) && (n > 0 ==> Secured(link, n - 1))
  {
  }

  lemma {:induction false} OlderSecuredStep(s: System, step: Step, i: nat)
    requires Inv(s) && Enabled(s, step) && i < |s.links|
    ensures i < |Next(s, step).links|
    ensures OlderSecured(Next(s, step).feed.Len(), Next(s, step).links[i])
            <==> OlderSecured(s.feed.Len(), s.links[i]) && OvertakesNone(s, step, i)
  {
    LogGrows(s, step);
    var n, link, next := s.feed.Len(), s.links[i], Next(s, step).links[i];
    match step {
      case AppendBlock(block) =>
        AppendKeepsHistory(s, block, i);
        OlderSecuredByAppend(n, link, next);
      case At(_, _) =>
        forall k: nat | k + 1 < n
          ensures Secured(next, k) <==> Secured(link, k)
        {
          SecuredKeptBySystem(s, step, i, k);
        }
        OlderSecuredKept(n, link, next);
    }
  }

  lemma {:induction false} HoldsAllIff(s: System, steps: seq<Step>, i: nat)
    requires Inv(s) && Legal(s, steps) && i < |s.links| && NewestDue(s.feed.signed, s.links[i])
    requires i < |Exec(s, steps).links| && Quiet(Exec(s, steps).links[i])
    ensures HoldsAll(Exec(s, steps).feed.signed, Exec(s, steps).links[i])
            <==> OlderSecured(s.feed.Len(), s.links[i]) && NoneOvertaken(s, steps, i)
    decreases |steps|
  {
    if steps == [] {
      QuietHoldsAllIff(s, i);
    } else {
      InvKept(s, steps[0]);
      NewestDueKeptBySystem(s, steps[0], i);
      OlderSecuredStep(s, steps[0], i);
      HoldsAllIff(Next(s, steps[0]), steps[1..], i);
    }
  }

  /** What the reader of link `i` lacks of the log at the start lies in the first window, or is the newest block. */
  ghost predicate StartsInWindow(s: System, i: nat)
    requires i < |s.links|
  {
    forall k: nat :: k + 1 < s.feed.Len() ==> k < WANT_LENGTH || k in s.links[i].initial
  }

  lemma {:induction false} InitSecured(log: seq<Block>, link: Link)
    requires InitLink(log, link)
    ensures NewestDue(log, link)
    ensures OlderSecured(|log|, link) <==> forall k: nat :: k + 1 < |log| ==> k < WANT_LENGTH || k in link.initial
  {
    forall k: nat
      ensures Secured(link, k) <==> k < WANT_LENGTH || k in link.initial
    {
    }
  }

  /**
   Convergence, exactly: a reader at rest holds the whole log if and only if what it lacked of
   the older blocks at the start was in the first window, and every append of the run found the
   newest block announced, there from the start, or with a window still ahead.
   */
  lemma {:induction false} ConvergesIff(s: System, steps: seq<Step>, i: nat)
    requires Init(s) && Legal(s, steps) && i < |s.links|
    ensures |Exec(s, steps).links| == |s.links|
    ensures Quiet(Exec(s, steps).links[i]) ==>
              (HoldsAll(Exec(s, steps).feed.signed, Exec(s, steps).links[i])
               <==> StartsInWindow(s, i) && NoneOvertaken(s, steps, i))
  {
    InitInv(s);
    LinksStay(s, steps);
    if Quiet(Exec(s, steps).links[i]) {
      InitSecured(s.feed.signed, s.links[i]);
      HoldsAllIff(s, steps, i);
    }
  }

  lemma {:induction false} NoAppendNoneOvertaken(s: System, steps: seq<Step>, i: nat)
    requires Inv(s) && Legal(s, steps) && AppendFree(steps) && i < |s.links|
    ensures NoneOvertaken(s, steps, i)
    decreases |steps|
  {
    if steps != [] {
      InvKept(s, steps[0]);
      LogGrows(s, steps[0]);
      NoAppendNoneOvertaken(Next(s, steps[0]), steps[1..], i);
    }
  }

  lemma {:induction false} NoneOvertakenFirst(s: System, step: Step, rest: seq<Step>, i: nat)
    requires Enabled(s, step) && Legal(Next(s, step), rest)
    ensures Legal(s, [step] + rest)
    ensures NoneOvertaken(s, [step] + rest, i) <==> OvertakesNone(s, step, i) && NoneOvertaken(Next(s, step), rest, i)
  {
  }

  lemma {:induction false} NoneOvertakenConcat(s: System, a: seq<Step>, b: seq<Step>, i: nat)
    requires Legal(s, a) && Legal(Exec(s, a), b) && Legal(s, a + b)
    requires NoneOvertaken(Exec(s, a), b, i)
    ensures NoneOvertaken(s, a + b, i) <==> NoneOvertaken(s, a, i)
    decreases |a|
  {
    if a == [] {
      assert a + b == b;
    } else {
      assert (a + b)[1..] == a[1..] + b;
      NoneOvertakenConcat(Next(s, a[0]), a[1..], b, i);
      NoneOvertakenFirst(s, a[0], a[1..] + b, i);
      NoneOvertakenFirst(s, a[0], a[1..], i);
      assert [a[0]] + (a[1..] + b) == a + b && [a[0]] + a[1..] == a;
    }
  }

  /**
   Delivery, exactly: when the writer stops, the peers take a bounded number of steps, and once
   none of them has a step left a reader holds the whole log if and only if the run up to the
   stop met the condition of `ConvergesIff`.
   */
  lemma {:induction false} StoppingDeliversIff(s: System, steps: seq<Step>, more: seq<Step>, i: nat)
    requires Init(s) && Legal(s, steps) && Legal(Exec(s, steps), more) && AppendFree(more)
    requires i < |s.links|
    ensures |more| <= SystemWeight(Exec(s, steps)) && |Exec(Exec(s, steps), more).links| == |s.links|
    ensures var end := Exec(Exec(s, steps), more);
            (forall move :: !LinkEnabled(end.links[i], move)) ==>
              (HoldsAll(end.feed.signed, end.links[i]) <==> StartsInWindow(s, i) && NoneOvertaken(s, steps, i))
  {
    InitInv(s);
    InvKeptByRun(s, steps);
    RunsTerminate(Exec(s, steps), more);
    InvKeptByRun(Exec(s, steps), more);
    LinksStay(s, steps);
    LinksStay(Exec(s, steps), more);
    var end := Exec(Exec(s, steps), more);
    if Quiet(end.links[i]) {
      ExecConcat(s, steps, more);
      NoAppendNoneOvertaken(Exec(s, steps), more, i);
      NoneOvertakenConcat(s, steps, more, i);
      ConvergesIff(s, steps + more, i);
    } else {
      NextPending(end, i);
    }
  }

  const EMPTY_FEED: Feed := Feed(map[], [])
  const NEW_LINK: Link := Link(NEW_TASK, NEW_TASK, EMPTY_FEED, [], [], {}, {}, {}, {}, {}, {})

  /** The three steps that get the reader's `Want` answered on an empty feed. */
  lemma {:induction false} AnsweredLink() returns (l1: Link, l2: Link, l3: Link)
    ensures LinkEnabled(NEW_LINK, StartReader) && l1 == LinkNext(EMPTY_FEED, NEW_LINK, StartReader)
    ensures LinkEnabled(l1, StartWriter) && l2 == LinkNext(EMPTY_FEED, l1, StartWriter)
    ensures LinkEnabled(l2, WriterReceives(false)) && l3 == LinkNext(EMPTY_FEED, l2, WriterReceives(false))
    ensures l3.told == {} && l3.initial == {} && NoWantAhead(l3)
  {
    var want := Want(0, Some(WANT_LENGTH));
    l1 := LinkNext(EMPTY_FEED, NEW_LINK, StartReader);
    assert l1.toWriter == [want];
    l2 := LinkNext(EMPTY_FEED, l1, StartWriter);
    AnnouncedByOne(want);
    assert l2.toWriter == [want] && l2.toReader == [want] && l2.told == {};
    l3 := LinkNext(EMPTY_FEED, l2, WriterReceives(false));
    FirstAnswerAnnounces(EMPTY_FEED, l2.writer.peer, want);
  }

  /** A move of the only link, on an empty feed, put in front of a run. */
  lemma {:induction false} PrependMove(link: Link, move: LinkStep, rest: seq<Step>, end: System)
    requires LinkInv([], link) && LinkEnabled(link, move)
    requires Legal(System(EMPTY_FEED, [LinkNext(EMPTY_FEED, link, move)]), rest)
    requires Exec(System(EMPTY_FEED, [LinkNext(EMPTY_FEED, link, move)]), rest) == end
    ensures Legal(System(EMPTY_FEED, [link]), [At(0, move)] + rest)
    ensures Exec(System(EMPTY_FEED, [link]), [At(0, move)] + rest) == end
  {
    var s := System(EMPTY_FEED, [link]);
    NextUnchangedFeed(s, At(0, move));
    assert [link][0 := LinkNext(EMPTY_FEED, link, move)] == [LinkNext(EMPTY_FEED, link, move)];
    Prepend(s, At(0, move), rest);
  }

  lemma {:induction false} ThreeMoves(l0: Link, m1: LinkStep, m2: LinkStep, m3: LinkStep, l1: Link, l2: Link, l3: Link)
    requires LinkInv([], l0)
    requires LinkEnabled(l0, m1) && l1 == LinkNext(EMPTY_FEED, l0, m1)
    requires LinkEnabled(l1, m2) && l2 == LinkNext(EMPTY_FEED, l1, m2)
    requires LinkEnabled(l2, m3) && l3 == LinkNext(EMPTY_FEED, l2, m3)
    ensures var steps := [At(0, m1)] + ([At(0, m2)] + ([At(0, m3)] + []));
            && Legal(System(EMPTY_FEED, [l0]), steps)
            && Exec(System(EMPTY_FEED, [l0]), steps) == System(EMPTY_FEED, [l3])
  {
    LinkInvKept(EMPTY_FEED, l0, m1);
    LinkInvKept(EMPTY_FEED, l1, m2);
    var end := System(EMPTY_FEED, [l3]);
    PrependMove(l2, m3, [], end);
    PrependMove(l1, m2, [At(0, m3)] + [], end);
    PrependMove(l0, m1, [At(0, m2)] + ([At(0, m3)] + []), end);
  }

  lemma {:induction false} NewLinkInv()
    ensures Init(System(EMPTY_FEED, [NEW_LINK])) && LinkInv([], NEW_LINK)
  {
  }

  lemma {:induction false} AnsweredOnEmptyFeed() returns (steps: seq<Step>, answered: Link)
    ensures Init(System(EMPTY_FEED, [NEW_LINK])) && Legal(System(EMPTY_FEED, [NEW_LINK]), steps)
    ensures Exec(System(EMPTY_FEED, [NEW_LINK]), steps) == System(EMPTY_FEED, [answered])
    ensures answered.told == {} && answered.initial == {} && NoWantAhead(answered)
  {
    var l1, l2;
    l1, l2, answered := AnsweredLink();
    NewLinkInv();
    ThreeMoves(NEW_LINK, StartReader, StartWriter, WriterReceives(false), l1, l2, answered);
    steps := [At(0, StartReader)] + ([At(0, StartWriter)] + ([At(0, WriterReceives(false))] + []));
  }

  /** With the newest block not announced, one more append and silence leave it behind. */
  lemma {:induction false} AfterAppend(s: System, block: Block) returns (steps: seq<Step>)
    requires Inv(s) && s.feed.Len() > 0 && |s.links| == 1
    requires s.links[0].told == {} && s.links[0].initial == {} && NoWantAhead(s.links[0])
    ensures Legal(s, steps)
    ensures var end := Exec(s, steps);
            && Silent(end) && end.feed.signed == s.feed.signed + [block]
            && |end.links| == 1 && s.feed.Len() - 1 !in end.links[0].replica.blocks
  {
    AppendKeepsHistory(s, block, 0);
    InvKept(s, AppendBlock(block));
    var next := Next(s, AppendBlock(block));
    var rest := CanFallSilent(next);
    RunsTerminate(next, rest);
    InvKeptByRun(next, rest);
    Prepend(s, AppendBlock(block), rest);
    Overtaken(s, block, rest, 0);
    steps := [AppendBlock(block)] + rest;
  }

  lemma {:induction false} AfterTwoAppends(s: System, a: Block, b: Block) returns (steps: seq<Step>)
    requires Inv(s) && |s.links| == 1
    requires s.links[0].told == {} && s.links[0].initial == {} && NoWantAhead(s.links[0])
    ensures Legal(s, steps)
    ensures var end := Exec(s, steps);
            && Silent(end) && end.feed.signed == s.feed.signed + [a] + [b]
            && |end.links| == 1 && s.feed.Len() !in end.links[0].replica.blocks
  {
    AppendKeepsHistory(s, a, 0);
    InvKept(s, AppendBlock(a));
    var rest := AfterAppend(Next(s, AppendBlock(a)), b);
    Prepend(s, AppendBlock(a), rest);
    steps := [AppendBlock(a)] + rest;
  }

  /**
   Being overtaken does happen: with one reader that has had its `Want` answered while the log
   was empty, two appends in a row leave the reader without the first block for ever.
   */
  lemma {:induction false} TwoQuickAppends(a: Block, b: Block) returns (s: System, steps: seq<Step>)
    ensures Init(s) && Legal(s, steps)
    ensures var end := Exec(s, steps);
            Silent(end) && end.feed.signed == [a, b] && |end.links| == 1 && 0 !in end.links[0].replica.blocks
  {
    s := System(EMPTY_FEED, [NEW_LINK]);
    var first, answered := AnsweredOnEmptyFeed();
    Reachable(s, first);
    var rest := AfterTwoAppends(Exec(s, first), a, b);
    assert [] + [a] + [b] == [a, b];
    ExecConcat(s, first, rest);
    steps := first + rest;
  }
}
