/**
 The client's copy of a feed's length and byte length (`client/src/session.rs`), kept up to
 date by the server's responses and notifications (`server/src/rpc/session.rs`).

 One feed on the server, any number of sessions on it. Runs have appends only; what a
 download notification does to the copy is stated at the end.
 */
module Mirror {
  import opened Common

  datatype Lengths = Lengths(length: nat, byteLength: nat)

  /** What the server reads off the feed when it answers or notifies. */
  function Reading(log: seq<Block>): Lengths {
    Lengths(|log|, ByteLength(log))
  }

  /**
   A session: whether the server has filed it and spawned its notify loop, whether the loop has
   subscribed, how many `Append` events wait for the loop, what is on the way to the client, and
   the client's copy. `sent` records that something has been sent to the client, and `missed` that
   blocks were appended while the loop had not subscribed and nothing has been sent since.
   */
  datatype Session = Session(
    filed: bool, subscribed: bool, events: nat, inFlight: seq<Lengths>, copy: Lengths, sent: bool, missed: bool)

  const NEW_SESSION: Session := Session(false, false, 0, [], Lengths(0, 0), false, false)

  datatype World = World(log: seq<Block>, sessions: seq<Session>)

  /**
   An `open` request is two steps, filing the session and answering; between them the notify loop
   may subscribe and even notify. `Deliver` takes the `j`-th message in flight, so all reorderings
   are covered; delivery in order is `j == 0`. An append is handled for a session, which gets a
   response, or comes from elsewhere.
   */
  datatype Step =
    | File(i: nat) | Respond(i: nat) | Subscribe(i: nat)
    | AppendFor(i: nat, blocks: seq<Block>) | AppendElsewhere(blocks: seq<Block>)
    | Notify(i: nat) | Deliver(i: nat, j: nat)

  predicate Enabled(w: World, step: Step) {
    match step
    case File(i) => i < |w.sessions|
    case Respond(i) => i < |w.sessions| && w.sessions[i].filed
    case Subscribe(i) => i < |w.sessions| && w.sessions[i].filed && !w.sessions[i].subscribed
    case AppendFor(i, _) => i < |w.sessions| && w.sessions[i].filed
    case AppendElsewhere(_) => true
    case Notify(i) => i < |w.sessions| && w.sessions[i].subscribed && w.sessions[i].events > 0
    case Deliver(i, j) => i < |w.sessions| && j < |w.sessions[i].inFlight|
  }

  /** The server sends the session what it reads now. */
  function Sent(log: seq<Block>, s: Session): Session {
    s.(inFlight := s.inFlight + [Reading(log)], sent := true, missed := false)
  }

  /** An append of `n` blocks, as a session learns of it: one event a block, if it is subscribed. */
  function Told(s: Session, n: nat): Session {
    if s.subscribed then s.(events := s.events + n) else s.(missed := s.missed || n > 0)
  }

  function AllTold(sessions: seq<Session>, n: nat): (result: seq<Session>)
    ensures |result| == |sessions|
    ensures forall i :: 0 <= i < |sessions| ==> result[i] == Told(sessions[i], n)
  {
    seq(|sessions|, i requires 0 <= i < |sessions| => Told(sessions[i], n))
  }

  function Next(w: World, step: Step): World
    requires Enabled(w, step)
  {
    match step
    case File(i) => w.(sessions := w.sessions[i := w.sessions[i].(filed := true)])
    case Respond(i) => w.(sessions := w.sessions[i := Sent(w.log, w.sessions[i])])
    case Subscribe(i) => w.(sessions := w.sessions[i := w.sessions[i].(subscribed := true)])
    case AppendFor(i, blocks) =>
      var told := AllTold(w.sessions, |blocks|);
      World(w.log + blocks, told[i := Sent(w.log + blocks, told[i])])
    case AppendElsewhere(blocks) => World(w.log + blocks, AllTold(w.sessions, |blocks|))
    case Notify(i) => w.(sessions := w.sessions[i := Sent(w.log, w.sessions[i].(events := w.sessions[i].events - 1))])
    case Deliver(i, j) =>
      var s := w.sessions[i];
      w.(sessions := w.sessions[i := s.(copy := s.inFlight[j], inFlight := s.inFlight[..j] + s.inFlight[j + 1..])])
  }

  ghost predicate Legal(w: World, steps: seq<Step>)
    decreases |steps|
  {
    steps == [] || (Enabled(w, steps[0]) && Legal(Next(w, steps[0]), steps[1..]))
  }

  ghost function Exec(w: World, steps: seq<Step>): World
    requires Legal(w, steps)
    decreases |steps|
  {
    if steps == [] then w else Exec(Next(w, steps[0]), steps[1..])
  }

  ghost predicate Init(w: World) {
    forall i :: 0 <= i < |w.sessions| ==> w.sessions[i] == NEW_SESSION
  }

  // ---- snapshots ----

  /** The feed had these lengths at some moment: the byte length is that of the first `length` blocks. */
  ghost predicate Snapshot(log: seq<Block>, l: Lengths) {
    l.length <= |log| && l.byteLength == ByteLength(log[..l.length])
  }

  ghost predicate SnapshotsOnly(log: seq<Block>, s: Session) {
    Snapshot(log, s.copy) && forall l :: l in s.inFlight ==> Snapshot(log, l)
  }

  ghost predicate AllSnapshots(w: World) {
    forall i :: 0 <= i < |w.sessions| ==> SnapshotsOnly(w.log, w.sessions[i])
  }

  lemma {:induction false} SnapshotStays(log: seq<Block>, blocks: seq<Block>, l: Lengths)
    requires Snapshot(log, l)
    ensures Snapshot(log + blocks, l)
  {
    assert (log + blocks)[..l.length] == log[..l.length];
  }

  lemma {:induction false} ReadingIsSnapshot(log: seq<Block>)
    ensures Snapshot(log, Reading(log))
  {
    assert log[..|log|] == log;
  }

  lemma {:induction false} SnapshotsKeptByAppend(log: seq<Block>, blocks: seq<Block>, s: Session)
    requires SnapshotsOnly(log, s)
    ensures SnapshotsOnly(log + blocks, Told(s, |blocks|))
    ensures SnapshotsOnly(log + blocks, Sent(log + blocks, Told(s, |blocks|)))
  {
    SnapshotStays(log, blocks, s.copy);
    ReadingIsSnapshot(log + blocks);
    forall l | l in s.inFlight
      ensures Snapshot(log + blocks, l)
    {
      SnapshotStays(log, blocks, l);
    }
  }

  lemma {:induction false} SnapshotsKept(w: World, step: Step)
    requires Enabled(w, step) && AllSnapshots(w)
    ensures AllSnapshots(Next(w, step))
  {
    ReadingIsSnapshot(w.log);
    if step.AppendFor? || step.AppendElsewhere? {
      forall i | 0 <= i < |w.sessions|
        ensures SnapshotsOnly(w.log + step.blocks, Told(w.sessions[i], |step.blocks|))
        ensures SnapshotsOnly(w.log + step.blocks, Sent(w.log + step.blocks, Told(w.sessions[i], |step.blocks|)))
      {
        SnapshotsKeptByAppend(w.log, step.blocks, w.sessions[i]);
      }
    }
  }

  lemma {:induction false} SnapshotsInRuns(w: World, steps: seq<Step>)
    requires Legal(w, steps) && AllSnapshots(w)
    ensures AllSnapshots(Exec(w, steps))
    decreases |steps|
  {
    if steps != [] {
      SnapshotsKept(w, steps[0]);
      SnapshotsInRuns(Next(w, steps[0]), steps[1..]);
    }
  }

  /**
   Snapshot consistency: however responses and notifications are reordered, every client always
   shows a pair of lengths the feed really had.
   */
  lemma {:induction false} CopiesAreSnapshots(w: World, steps: seq<Step>, i: nat)
    requires Init(w) && Legal(w, steps) && i < |Exec(w, steps).sessions|
    ensures var end, copy := Exec(w, steps), Exec(w, steps).sessions[i].copy;
            Snapshot(end.log, copy) && copy.length <= |end.log| && copy.byteLength <= ByteLength(end.log)
  {
    SnapshotsInRuns(w, steps);
    var end := Exec(w, steps);
    assert SnapshotsOnly(end.log, end.sessions[i]);
    FlattenPrefix(end.log, end.sessions[i].copy.length);
  }

  // ---- agreement at rest ----

  /** The last lengths the client will show if nothing more is sent. */
  function Latest(s: Session): Lengths {
    if s.inFlight == [] then s.copy else s.inFlight[|s.inFlight| - 1]
  }

  /** With in-order delivery, what the client will end up with is current unless an event waits or one was missed. */
  ghost predicate OnTrack(log: seq<Block>, s: Session) {
    && (s.events > 0 ==> s.subscribed)
    && Latest(s).length <= |log|
    && (s.sent && s.events == 0 ==> (Latest(s) == Reading(log) <==> !s.missed))
    && (s.sent && s.missed ==> Latest(s).length < |log|)
  }

  ghost predicate AllOnTrack(w: World) {
    forall i :: 0 <= i < |w.sessions| ==> OnTrack(w.log, w.sessions[i])
  }

  predicate InOrder(steps: seq<Step>) {
    forall k :: 0 <= k < |steps| && steps[k].Deliver? ==> steps[k].j == 0
  }

  lemma {:induction false} OnTrackByAppend(log: seq<Block>, blocks: seq<Block>, s: Session)
    requires OnTrack(log, s)
    ensures OnTrack(log + blocks, Told(s, |blocks|))
    ensures OnTrack(log + blocks, Sent(log + blocks, Told(s, |blocks|)))
  {
    if blocks == [] {
      assert log + blocks == log;
    }
  }

  lemma {:induction false} OnTrackDelivered(log: seq<Block>, s: Session)
    requires OnTrack(log, s) && s.inFlight != []
    ensures OnTrack(log, s.(copy := s.inFlight[0], inFlight := s.inFlight[..0] + s.inFlight[1..]))
  {
  }

  lemma {:induction false} OnTrackSent(log: seq<Block>, s: Session)
    requires s.subscribed || s.events == 0
    ensures OnTrack(log, Sent(log, s))
  {
  }

  lemma {:induction false} OnTrackKept(w: World, step: Step)
    requires Enabled(w, step) && (step.Deliver? ==> step.j == 0) && AllOnTrack(w)
    ensures AllOnTrack(Next(w, step))
  {
    match step {
      case File(_) =>
      case Respond(i) => OnTrackSent(w.log, w.sessions[i]);
      case Subscribe(_) =>
      case Notify(i) => OnTrackSent(w.log, w.sessions[i].(events := w.sessions[i].events - 1));
      case Deliver(i, _) => OnTrackDelivered(w.log, w.sessions[i]);
      case AppendFor(_, blocks) => AppendKeepsTrack(w, blocks);
      case AppendElsewhere(blocks) => AppendKeepsTrack(w, blocks);
    }
  }

  lemma {:induction false} AppendKeepsTrack(w: World, blocks: seq<Block>)
    requires AllOnTrack(w)
    ensures forall i :: 0 <= i < |w.sessions| ==>
              && OnTrack(w.log + blocks, Told(w.sessions[i], |blocks|))
              && OnTrack(w.log + blocks, Sent(w.log + blocks, Told(w.sessions[i], |blocks|)))
  {
    forall i | 0 <= i < |w.sessions|
      ensures OnTrack(w.log + blocks, Told(w.sessions[i], |blocks|))
      ensures OnTrack(w.log + blocks, Sent(w.log + blocks, Told(w.sessions[i], |blocks|)))
    {
      OnTrackByAppend(w.log, blocks, w.sessions[i]);
    }
  }

  lemma {:induction false} OnTrackInRuns(w: World, steps: seq<Step>)
    requires Legal(w, steps) && InOrder(steps) && AllOnTrack(w)
    ensures AllOnTrack(Exec(w, steps))
    decreases |steps|
  {
    if steps != [] {
      OnTrackKept(w, steps[0]);
      OnTrackInRuns(Next(w, steps[0]), steps[1..]);
    }
  }

  /**
   Agreement at rest: with delivery in order, a session that has been sent anything, and for which
   nothing waits and nothing is in flight, shows exactly the feed's lengths, unless blocks were
   appended before its notify loop subscribed and nothing was sent since; then it is behind.
   */
  lemma {:induction false} AgreesAtRestIff(w: World, steps: seq<Step>, i: nat)
    requires Init(w) && Legal(w, steps) && InOrder(steps) && i < |Exec(w, steps).sessions|
    ensures var end := Exec(w, steps);
            var s := end.sessions[i];
            s.sent && s.events == 0 && s.inFlight == [] ==>
              && (s.copy == Reading(end.log) <==> !s.missed)
              && (s.missed ==> s.copy.length < |end.log|)
  {
    OnTrackInRuns(w, steps);
    assert OnTrack(Exec(w, steps).log, Exec(w, steps).sessions[i]);
  }

  /** Subscribed, and current or about to be notified: kept by every step, and true after every append. */
  ghost predicate Pledged(s: Session) {
    s.subscribed && (s.events > 0 || (s.sent && !s.missed))
  }

  lemma {:induction false} PledgedInRuns(w: World, steps: seq<Step>, i: nat)
    requires Legal(w, steps) && i < |w.sessions| && Pledged(w.sessions[i])
    ensures i < |Exec(w, steps).sessions| && Pledged(Exec(w, steps).sessions[i])
    decreases |steps|
  {
    if steps != [] {
      PledgedInRuns(Next(w, steps[0]), steps[1..], i);
    }
  }

  /**
   So a session whose notify loop had subscribed before some append, by whichever session or from
   elsewhere, shows the feed's lengths whenever nothing waits and nothing is in flight after it.
   */
  lemma {:induction false} AgreesOnceNotified(w: World, before: seq<Step>, append: Step, after: seq<Step>, i: nat)
    requires Init(w) && Legal(w, before) && i < |Exec(w, before).sessions| && Exec(w, before).sessions[i].subscribed
    requires (append.AppendFor? || append.AppendElsewhere?) && append.blocks != []
    requires Enabled(Exec(w, before), append) && Legal(Next(Exec(w, before), append), after)
    requires InOrder(before) && InOrder(after)
    ensures var end := Exec(Next(Exec(w, before), append), after);
            && i < |end.sessions|
            && var s := end.sessions[i];
               s.events == 0 && s.inFlight == [] ==> s.copy == Reading(end.log)
  {
    var mid := Exec(w, before);
    OnTrackInRuns(w, before);
    OnTrackKept(mid, append);
    var next := Next(mid, append);
    OnTrackInRuns(next, after);
    PledgedInRuns(next, after, i);
    assert OnTrack(Exec(next, after).log, Exec(next, after).sessions[i]);
  }

  lemma {:induction false} Prepend(w: World, step: Step, rest: seq<Step>)
    requires Enabled(w, step) && Legal(Next(w, step), rest)
    ensures Legal(w, [step] + rest) && Exec(w, [step] + rest) == Exec(Next(w, step), rest)
  {
    assert ([step] + rest)[1..] == rest;
  }

  /** A session can be left behind: an append right after opening, before the notify loop subscribes. */
  lemma {:induction false} LeftBehind(block: Block) returns (w: World, steps: seq<Step>)
    ensures Init(w) && Legal(w, steps) && InOrder(steps) && |Exec(w, steps).sessions| == 1
    ensures var end := Exec(w, steps);
            var s := end.sessions[0];
            s.filed && s.subscribed && s.sent && s.events == 0 && s.inFlight == [] && s.copy != Reading(end.log)
  {
    w := World([], [NEW_SESSION]);
    var filed := Next(w, File(0));
    var answered := Next(filed, Respond(0));
    var appended := Next(answered, AppendElsewhere([block]));
    var subscribed := Next(appended, Subscribe(0));
    steps := [Deliver(0, 0)] + [];
    Prepend(subscribed, Deliver(0, 0), []);
    Prepend(appended, Subscribe(0), steps);
    steps := [Subscribe(0)] + steps;
    Prepend(answered, AppendElsewhere([block]), steps);
    steps := [AppendElsewhere([block])] + steps;
    Prepend(filed, Respond(0), steps);
    steps := [Respond(0)] + steps;
    Prepend(w, File(0), steps);
    steps := [File(0)] + steps;
  }

  /** With a response in flight: an append, its notification, and the two delivered the wrong way round. */
  lemma {:induction false} NewestFirst(subscribed: World, block: Block) returns (steps: seq<Step>)
    requires subscribed.log == [] && |subscribed.sessions| == 1
    requires subscribed.sessions[0] == Session(true, true, 0, [Lengths(0, 0)], Lengths(0, 0), true, false)
    ensures Legal(subscribed, steps)
    ensures var end := Exec(subscribed, steps);
            && end.log == [block] && |end.sessions| == 1
            && end.sessions[0] == Session(true, true, 0, [], Lengths(0, 0), true, false)
  {
    var appended := Next(subscribed, AppendElsewhere([block]));
    var notified := Next(appended, Notify(0));
    var newest := Next(notified, Deliver(0, 1));
    steps := [Deliver(0, 0)] + [];
    Prepend(newest, Deliver(0, 0), []);
    Prepend(notified, Deliver(0, 1), steps);
    steps := [Deliver(0, 1)] + steps;
    Prepend(appended, Notify(0), steps);
    steps := [Notify(0)] + steps;
    Prepend(subscribed, AppendElsewhere([block]), steps);
    steps := [AppendElsewhere([block])] + steps;
  }

  /** Out of order, a response that is overtaken by a notification leaves the client with the older lengths. */
  lemma {:induction false} ResponseOvertaken(block: Block) returns (w: World, steps: seq<Step>)
    ensures Init(w) && Legal(w, steps) && |Exec(w, steps).sessions| == 1
    ensures var end := Exec(w, steps);
            var s := end.sessions[0];
            s.subscribed && s.sent && !s.missed && s.events == 0 && s.inFlight == [] && s.copy != Reading(end.log)
  {
    w := World([], [NEW_SESSION]);
    var filed := Next(w, File(0));
    var answered := Next(filed, Respond(0));
    var subscribed := Next(answered, Subscribe(0));
    assert subscribed.sessions[0] == Session(true, true, 0, [Lengths(0, 0)], Lengths(0, 0), true, false);
    steps := NewestFirst(subscribed, block);
    Prepend(answered, Subscribe(0), steps);
    steps := [Subscribe(0)] + steps;
    Prepend(filed, Respond(0), steps);
    steps := [Respond(0)] + steps;
    Prepend(w, File(0), steps);
    steps := [File(0)] + steps;
  }

  // ---- downloads ----

  /** The client's copy after a download notification: the byte length is replaced, the length only raised. */
  function Downloaded(copy: Lengths, index: nat, byteLength: Option<nat>): Lengths {
    Lengths(if index >= copy.length then index + 1 else copy.length, byteLength.GetOr(copy.byteLength))
  }

  /** The length is raised to take in the block, never lowered; without a byte length the old one stays. */
  lemma {:induction false} DownloadedMeans(copy: Lengths, index: nat, byteLength: Option<nat>)
    ensures var after := Downloaded(copy, index, byteLength);
            && copy.length <= after.length && index < after.length
            && (after.length == copy.length || after.length == index + 1)
            && (byteLength.None? ==> after.byteLength == copy.byteLength)
            && (byteLength.Some? ==> after.byteLength == byteLength.value)
  {
  }

  /** Blocks with bytes in them: a longer prefix has more bytes. */
  lemma {:induction false} MoreBlocksMoreBytes(log: seq<Block>, n: nat)
    requires n < |log| && forall k :: 0 <= k < |log| ==> log[k] != []
    ensures ByteLength(log[..n]) < ByteLength(log)
    decreases |log|
  {
    var init := log[..|log| - 1];
    if n == |log| - 1 {
      assert log[..n] == init;
    } else {
      assert init[..n] == log[..n];
      MoreBlocksMoreBytes(init, n);
    }
  }

  /**
   Downloads can break the pairing: a notification for block `index`, with the byte length of the
   whole feed, leaves a snapshot exactly when the copy then reaches the feed's full length.
   */
  lemma {:induction false} DownloadSnapshotIff(log: seq<Block>, copy: Lengths, index: nat)
    requires Snapshot(log, copy) && index < |log| && forall k :: 0 <= k < |log| ==> log[k] != []
    ensures Snapshot(log, Downloaded(copy, index, Some(ByteLength(log))))
            <==> copy.length == |log| || index == |log| - 1
  {
    var after := Downloaded(copy, index, Some(ByteLength(log)));
    if after.length < |log| {
      MoreBlocksMoreBytes(log, after.length);
    } else {
      assert log[..|log|] == log;
    }
  }

  /** A client that has seen nothing of two blocks is notified of the first: one block, but the bytes of both. */
  lemma {:induction false} DownloadBreaksPair(a: Block, b: Block)
    requires a != [] && b != []
    ensures Snapshot([a, b], Lengths(0, 0))
    ensures var copy := Downloaded(Lengths(0, 0), 0, Some(ByteLength([a, b])));
            copy.length == 1 && !Snapshot([a, b], copy)
  {
  }

  // ---- the program's own form ----

  datatype ClientEvent = Appended | DownloadedBlock(index: nat)

  /** The answer to an `open` request. */
  datatype Response = Response(key: seq<Byte>, lengths: Lengths, writable: bool)

  /**
   The client's record of a feed, as responses and notifications assign it, and its listeners'
   queues. A `Deliver` step is the arrival of such a message: `OnResponse` or `OnAppend` makes the
   lengths it carries the copy.
   */
  class RemoteHypercore {
    var key: Option<seq<Byte>>
    var length: nat
    var byteLength: nat
    var writable: bool
    var open: bool
    var listeners: seq<seq<ClientEvent>>

    constructor (key: Option<seq<Byte>>)
      ensures this.key == key && Copy() == Lengths(0, 0) && !open && !writable && listeners == []
    {
      this.key := key;
      length, byteLength, writable, open, listeners := 0, 0, false, false, [];
    }

    ghost function Copy(): Lengths
      reads this
    {
      Lengths(length, byteLength)
    }

    /** Every listener so far gets the event once. */
    method Emit(event: ClientEvent)
      modifies this`listeners
      ensures |listeners| == |old(listeners)|
      ensures forall j :: 0 <= j < |listeners| ==> listeners[j] == old(listeners)[j] + [event]
    {
      for i := 0 to |listeners|
        invariant |listeners| == |old(listeners)|
        invariant forall j :: 0 <= j < i ==> listeners[j] == old(listeners)[j] + [event]
        invariant forall j :: i <= j < |listeners| ==> listeners[j] == old(listeners)[j]
      {
        listeners := listeners[i := listeners[i] + [event]];
      }
    }

    method OnResponse(response: Response)
      modifies this
      ensures key == Some(response.key) && writable == response.writable
      ensures Copy() == response.lengths && open && listeners == old(listeners)
    {
      key := Some(response.key);
      open := true;
      length := response.lengths.length;
      byteLength := response.lengths.byteLength;
      writable := response.writable;
    }

    method OnAppend(newLength: nat, newByteLength: nat)
      modifies this
      ensures Copy() == Lengths(newLength, newByteLength)
      ensures open == old(open) && key == old(key) && writable == old(writable)
      ensures |listeners| == |old(listeners)|
      ensures forall j :: 0 <= j < |listeners| ==> listeners[j] == old(listeners)[j] + [Appended]
    {
      length := newLength;
      byteLength := newByteLength;
      Emit(Appended);
    }

    method OnDownload(index: nat, newByteLength: Option<nat>)
      modifies this
      ensures Copy() == Downloaded(old(Copy()), index, newByteLength)
      ensures open == old(open) && key == old(key) && writable == old(writable)
      ensures |listeners| == |old(listeners)|
      ensures forall j :: 0 <= j < |listeners| ==> listeners[j] == old(listeners)[j] + [DownloadedBlock(index)]
    {
      if newByteLength.Some? {
        byteLength := newByteLength.value;
      }
      if index >= length {
        length := index + 1;
      }
      Emit(DownloadedBlock(index));
    }
  }

  /** The feed on the server with the event queues of the notify loops that have subscribed. */
  class ServerFeed {
    var log: seq<Block>
    var queues: seq<nat>

    constructor ()
      ensures log == [] && queues == []
    {
      log, queues := [], [];
    }

    method AppendBlock(block: Block)
      modifies this
      ensures log == old(log) + [block] && |queues| == |old(queues)|
      ensures forall i :: 0 <= i < |queues| ==> queues[i] == old(queues)[i] + 1
    {
      log := log + [block];
      queues := seq(|queues|, i requires 0 <= i < |queues| reads this => queues[i] + 1);
    }

    /** The `append` request: every block in turn, then the lengths as they are now. */
    method AppendAll(blocks: seq<Block>) returns (response: Lengths)
      modifies this
      ensures log == old(log) + blocks && response == Reading(log)
      ensures |queues| == |old(queues)|
      ensures forall i :: 0 <= i < |queues| ==> queues[i] == old(queues)[i] + |blocks|
    {
      for k := 0 to |blocks|
        invariant log == old(log) + blocks[..k] && |queues| == |old(queues)|
        invariant forall i :: 0 <= i < |queues| ==> queues[i] == old(queues)[i] + k
      {
        AppendBlock(blocks[k]);
        assert blocks[..k + 1] == blocks[..k] + [blocks[k]];
      }
      response := Lengths(|log|, ByteLength(log));
    }

    method SubscribeLoop() returns (queue: nat)
      modifies this
      ensures queue == |old(queues)| && queues == old(queues) + [0] && log == old(log)
    {
      queue := |queues|;
      queues := queues + [0];
    }

    /** One turn of the notify loop on an `Append` event: the lengths as they are now, not as they were at the event. */
    method NotifyTurn(queue: nat) returns (notification: Lengths)
      requires queue < |queues| && queues[queue] > 0
      modifies this
      ensures log == old(log) && queues == old(queues)[queue := old(queues)[queue] - 1]
      ensures notification == Reading(log)
    {
      queues := queues[queue := queues[queue] - 1];
      notification := Lengths(|log|, ByteLength(log));
    }
  }

  // ---- the methods against the steps ----

  /** `queueOf` tells which queue of the feed belongs to the notify loop of which session. */
  ghost predicate Represents(log: seq<Block>, queues: seq<nat>, queueOf: map<nat, nat>, w: World) {
    && log == w.log
    && (forall i :: 0 <= i < |w.sessions| ==>
          if w.sessions[i].subscribed
          then i in queueOf && queueOf[i] < |queues| && queues[queueOf[i]] == w.sessions[i].events
          else w.sessions[i].events == 0)
    && (forall i, j :: i in queueOf && j in queueOf && i != j ==> queueOf[i] != queueOf[j])
    && (forall i :: i in queueOf ==> queueOf[i] < |queues|)
  }

  /** What `AppendAll` does to the feed and answers is what the append steps do. */
  lemma {:induction false} AppendAllIsAppend(
    log: seq<Block>, queues: seq<nat>, after: seq<nat>, queueOf: map<nat, nat>, w: World, step: Step)
    requires Represents(log, queues, queueOf, w) && (step.AppendFor? || step.AppendElsewhere?) && Enabled(w, step)
    requires |after| == |queues| && forall q :: 0 <= q < |queues| ==> after[q] == queues[q] + |step.blocks|
    ensures Represents(log + step.blocks, after, queueOf, Next(w, step))
    ensures step.AppendFor? ==>
              Next(w, step).sessions[step.i].inFlight == w.sessions[step.i].inFlight + [Reading(log + step.blocks)]
  {
  }

  /** The same for `SubscribeLoop`, which gives the session's loop a new queue. */
  lemma {:induction false} SubscribeLoopIsSubscribe(
    log: seq<Block>, queues: seq<nat>, queueOf: map<nat, nat>, w: World, i: nat)
    requires Represents(log, queues, queueOf, w) && Enabled(w, Subscribe(i))
    ensures Represents(log, queues + [0], queueOf[i := |queues|], Next(w, Subscribe(i)))
  {
  }

  /** The same for `NotifyTurn`. */
  lemma {:induction false} NotifyTurnIsNotify(
    log: seq<Block>, queues: seq<nat>, queueOf: map<nat, nat>, w: World, i: nat)
    requires Represents(log, queues, queueOf, w) && Enabled(w, Notify(i))
    ensures var q := queueOf[i];
            && queues[q] > 0 && Represents(log, queues[q := queues[q] - 1], queueOf, Next(w, Notify(i)))
            && Next(w, Notify(i)).sessions[i].inFlight == w.sessions[i].inFlight + [Reading(log)]
  {
  }
}
