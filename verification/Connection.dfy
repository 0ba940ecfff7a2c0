/**
 Remote sessions with everything that takes part in an open left to interleave: tasks of the
 client that open sessions at the same time, the server's handlers and notify loops, and the
 messages between them, delivered in any order (`client/src/session.rs`,
 `server/src/rpc/session.rs`).
 */
module Connections {
  import opened Common
  import Keys
  import NM = NamedMaps
  import opened Sessions

  /** An `open` request on the wire: the session it is for, the id it carries, and what it asks with. */
  datatype Request = Request(session: nat, id: nat, name: Option<string>, key: Option<Bytes>)

  /** The answer to a request for a session; refusals change nothing and are left out. */
  datatype Reply = Reply(session: nat, feed: Bytes)

  /** A notification: the id it carries and the feed it speaks of; also a notify loop, which sends such. */
  datatype Notice = Notice(id: nat, feed: Bytes)

  /**
   `numbered` has the sessions whose record knows its own id; a record is made with id 0 and is told
   its id after it has been filed. A notify loop runs on even if its id is filed again.
   */
  datatype Wire = Wire(
    net: Net, numbered: set<nat>, requests: seq<Request>, replies: seq<Reply>,
    loops: seq<Notice>, notices: seq<Notice>)

  const NEW_WIRE: Wire := Wire(NEW_NET, {}, [], [], [], [])

  /**
   The parts of an open: a session is inserted, told its id, and asked for; the server files the
   feed and starts a notify loop, or refuses; the client settles the answer and files the session
   under the text of its key. Then notifications are sent and delivered. Each part comes whenever
   its data is there, which includes every order in which the tasks of the program come to it: a
   lookup that misses may be followed by an insert after another task has filed the same text, and
   a session may be asked for by a task that found it before it was told its id.
   */
  datatype Step =
    | Insert(op: Op) | Number(session: nat) | Ask(session: nat)
    | Serve(index: nat, served: bool) | Settle(index: nat) | Rename(session: nat)
    | Notify(index: nat) | Deliver(index: nat)

  predicate Enabled(w: Wire, step: Step) {
    var values := w.net.sessions.values;
    match step
    case Insert(_) => true
    case Number(session) => session in values
    case Ask(session) => session in values
    case Serve(index, _) => index < |w.requests|
    case Settle(index) => index < |w.replies| && w.replies[index].session in values
    case Rename(session) => session in values && values[session].key.Some?
    case Notify(index) => index < |w.loops|
    case Deliver(index) => index < |w.notices|
  }

  function Without<T>(s: seq<T>, index: nat): seq<T>
    requires index < |s|
  {
    s[..index] + s[index + 1..]
  }

  /** The id a request for the session carries, in 32 bits. */
  function WireId(w: Wire, session: nat): nat {
    if session in w.numbered then session % U32 else 0
  }

  function Asking(w: Wire, session: nat): Request
    requires session in w.net.sessions.values
  {
    var core := w.net.sessions.values[session];
    Request(session, WireId(w, session), core.name, core.key)
  }

  function Served(keyOf: string -> Bytes, w: Wire, r: Request, served: bool): Wire {
    var asked := Core(r.name, r.key, false);
    if !served || !Servable(asked) then w
    else
      var feed := FeedOf(keyOf, asked);
      w.(net := w.net.(cores := w.net.cores[r.id := feed]),
         loops := w.loops + [Notice(r.id, feed)], replies := w.replies + [Reply(r.session, feed)])
  }

  function Settled(n: Net, reply: Reply): Net
    requires reply.session in n.sessions.values
  {
    var core := n.sessions.values[reply.session].(key := Some(reply.feed), open := true);
    n.(sessions := n.sessions.(values := n.sessions.values[reply.session := core]))
  }

  function Next(keyOf: string -> Bytes, w: Wire, step: Step): Wire
    requires Enabled(w, step)
  {
    match step
    case Insert(op) => w.(net := Added(w.net, NewCore(op), TextOf(op)))
    case Number(session) => w.(numbered := w.numbered + {session})
    case Ask(session) => w.(requests := w.requests + [Asking(w, session)])
    case Serve(index, served) =>
      Served(keyOf, w, w.requests[index], served).(requests := Without(w.requests, index))
    case Settle(index) => w.(net := Settled(w.net, w.replies[index]), replies := Without(w.replies, index))
    case Rename(session) =>
      var text := Keys.Hex(w.net.sessions.values[session].key.value);
      w.(net := w.net.(sessions := NM.Renamed(w.net.sessions, session, text)))
    case Notify(index) => w.(notices := w.notices + [w.loops[index]])
    case Deliver(index) => w.(notices := Without(w.notices, index))
  }

  ghost predicate Legal(keyOf: string -> Bytes, w: Wire, steps: seq<Step>)
    decreases |steps|
  {
    steps == [] || (Enabled(w, steps[0]) && Legal(keyOf, Next(keyOf, w, steps[0]), steps[1..]))
  }

  ghost function Exec(keyOf: string -> Bytes, w: Wire, steps: seq<Step>): Wire
    requires Legal(keyOf, w, steps)
    decreases |steps|
  {
    if steps == [] then w else Exec(keyOf, Next(keyOf, w, steps[0]), steps[1..])
  }

  /** How many sessions the steps make. */
  function Inserts(steps: seq<Step>): nat {
    if steps == [] then 0 else Inserts(steps[1..]) + if steps[0].Insert? then 1 else 0
  }

  // ---- the invariant ----

  /** The session with this id is on this feed, open or not. */
  ghost predicate OnFeed(keyOf: string -> Bytes, n: Net, id: nat, feed: Bytes) {
    id in n.sessions.values && FeedOf(keyOf, n.sessions.values[id]) == feed
  }

  /** Sessions stay, each on its feed. */
  ghost predicate FeedsStay(keyOf: string -> Bytes, n: Net, next: Net) {
    forall id :: id in n.sessions.values ==> OnFeed(keyOf, next, id, FeedOf(keyOf, n.sessions.values[id]))
  }

  ghost predicate RequestOk(keyOf: string -> Bytes, n: Net, r: Request) {
    (r.id == 0 || r.id == r.session) && OnFeed(keyOf, n, r.session, FeedOf(keyOf, Core(r.name, r.key, false)))
  }

  /** A notification, or a loop that sends it, carries the id of a session on its feed, or 0. */
  ghost predicate NoticeOk(keyOf: string -> Bytes, n: Net, notice: Notice) {
    notice.id == 0 || OnFeed(keyOf, n, notice.id, notice.feed)
  }

  ghost predicate WireOk(keyOf: string -> Bytes, w: Wire) {
    && TableOk(keyOf, w.net.sessions) && |w.net.sessions.values| < U32
    && (forall i :: 0 <= i < |w.requests| ==> RequestOk(keyOf, w.net, w.requests[i]))
    && (forall i :: 0 <= i < |w.replies| ==> OnFeed(keyOf, w.net, w.replies[i].session, w.replies[i].feed))
    && (forall i :: 0 <= i < |w.loops| ==> NoticeOk(keyOf, w.net, w.loops[i]))
    && (forall i :: 0 <= i < |w.notices| ==> NoticeOk(keyOf, w.net, w.notices[i]))
    && (forall id: nat :: id in w.net.cores ==> NoticeOk(keyOf, w.net, Notice(id, w.net.cores[id])))
  }

  lemma {:induction false} InsertStays(keyOf: string -> Bytes, n: Net, op: Op)
    requires TableOk(keyOf, n.sessions)
    ensures var next := Added(n, NewCore(op), TextOf(op));
            && TableOk(keyOf, next.sessions) && |next.sessions.values| == |n.sessions.values| + 1
            && FeedsStay(keyOf, n, next) && OnFeed(keyOf, next, NM.NextId(n.sessions), Asked(keyOf, op))
            && NM.NextId(n.sessions) !in n.sessions.values
  {
    AddedTableOk(keyOf, n, NewCore(op), TextOf(op));
  }

  lemma {:induction false} SettleStays(keyOf: string -> Bytes, n: Net, reply: Reply)
    requires TableOk(keyOf, n.sessions) && OnFeed(keyOf, n, reply.session, reply.feed)
    ensures TableOk(keyOf, Settled(n, reply).sessions) && FeedsStay(keyOf, n, Settled(n, reply))
    ensures |Settled(n, reply).sessions.values| == |n.sessions.values|
  {
    assert CoreOk(keyOf, n.sessions.values[reply.session]);
  }

  lemma {:induction false} RenameStays(keyOf: string -> Bytes, n: Net, session: nat)
    requires TableOk(keyOf, n.sessions) && session in n.sessions.values && n.sessions.values[session].key.Some?
    ensures var text := Keys.Hex(n.sessions.values[session].key.value);
            TableOk(keyOf, NM.Renamed(n.sessions, session, text))
  {
  }

  /** The sessions may change in a way that keeps them on their feeds. */
  lemma {:induction false} WireOkOnNet(keyOf: string -> Bytes, w: Wire, net: Net)
    requires WireOk(keyOf, w) && FeedsStay(keyOf, w.net, net) && net.cores == w.net.cores
    requires TableOk(keyOf, net.sessions) && |net.sessions.values| < U32
    ensures WireOk(keyOf, w.(net := net))
  {
  }

  lemma {:induction false} AskOk(keyOf: string -> Bytes, w: Wire, session: nat)
    requires WireOk(keyOf, w) && session in w.net.sessions.values
    ensures RequestOk(keyOf, w.net, Asking(w, session))
    ensures session in w.numbered ==> Asking(w, session).id == session
  {
    assert 1 <= session <= |w.net.sessions.values|;
  }

  lemma {:induction false} ServeOk(keyOf: string -> Bytes, w: Wire, index: nat, served: bool)
    requires WireOk(keyOf, w) && index < |w.requests|
    ensures WireOk(keyOf, Next(keyOf, w, Serve(index, served)))
  {
    assert RequestOk(keyOf, w.net, w.requests[index]);
  }

  lemma {:induction false} AskKept(keyOf: string -> Bytes, w: Wire, session: nat)
    requires WireOk(keyOf, w) && session in w.net.sessions.values
    ensures WireOk(keyOf, Next(keyOf, w, Ask(session)))
  {
    AskOk(keyOf, w, session);
  }

  lemma {:induction false} SettleKept(keyOf: string -> Bytes, w: Wire, index: nat)
    requires WireOk(keyOf, w) && Enabled(w, Settle(index))
    ensures var next := Next(keyOf, w, Settle(index));
            && WireOk(keyOf, next) && FeedsStay(keyOf, w.net, next.net)
            && |next.net.sessions.values| == |w.net.sessions.values|
  {
    SettleStays(keyOf, w.net, w.replies[index]);
    WireOkOnNet(keyOf, w, Settled(w.net, w.replies[index]));
  }

  lemma {:induction false} NoticesKept(keyOf: string -> Bytes, w: Wire, step: Step)
    requires WireOk(keyOf, w) && Enabled(w, step) && (step.Notify? || step.Deliver?)
    ensures WireOk(keyOf, Next(keyOf, w, step))
  {
  }

  /** Every step keeps what the parts of an open need of each other, and every session on its feed. */
  lemma {:induction false} WireKept(keyOf: string -> Bytes, w: Wire, step: Step)
    requires WireOk(keyOf, w) && Enabled(w, step)
    requires step.Insert? ==> |w.net.sessions.values| + 1 < U32
    ensures var next := Next(keyOf, w, step);
            && WireOk(keyOf, next) && FeedsStay(keyOf, w.net, next.net)
            && |next.net.sessions.values| == |w.net.sessions.values| + if step.Insert? then 1 else 0
  {
    match step {
      case Insert(op) =>
        InsertStays(keyOf, w.net, op);
        WireOkOnNet(keyOf, w, Next(keyOf, w, step).net);
      case Number(_) =>
      case Ask(session) => AskKept(keyOf, w, session);
      case Serve(index, served) => ServeOk(keyOf, w, index, served);
      case Settle(index) => SettleKept(keyOf, w, index);
      case Rename(session) =>
        RenameStays(keyOf, w.net, session);
        WireOkOnNet(keyOf, w, Next(keyOf, w, step).net);
      case Notify(_) => NoticesKept(keyOf, w, step);
      case Deliver(_) => NoticesKept(keyOf, w, step);
    }
  }

  lemma {:induction false} WireKeptByRun(keyOf: string -> Bytes, w: Wire, steps: seq<Step>)
    requires WireOk(keyOf, w) && Legal(keyOf, w, steps) && |w.net.sessions.values| + Inserts(steps) < U32
    ensures WireOk(keyOf, Exec(keyOf, w, steps)) && FeedsStay(keyOf, w.net, Exec(keyOf, w, steps).net)
    ensures |Exec(keyOf, w, steps).net.sessions.values| == |w.net.sessions.values| + Inserts(steps)
    decreases |steps|
  {
    if steps != [] {
      WireKept(keyOf, w, steps[0]);
      WireKeptByRun(keyOf, Next(keyOf, w, steps[0]), steps[1..]);
    }
  }

  // ---- notifications ----

  /** The session a notification is handed to on arrival. */
  function Receiver(w: Wire, notice: Notice): Option<Core> {
    if notice.id in w.net.sessions.values then Some(w.net.sessions.values[notice.id]) else None
  }

  /** Arriving now, the notification reaches a session on the feed it speaks of. */
  ghost predicate Reaches(keyOf: string -> Bytes, w: Wire, notice: Notice) {
    Receiver(w, notice).Some? && FeedOf(keyOf, Receiver(w, notice).value) == notice.feed
  }

  lemma {:induction false} NoSessionZero(t: NM.Table<Core>)
    requires NM.IdsPartition(t)
    ensures 0 !in t.values
  {
  }

  /**
   Routing: in every run that makes fewer than 2^32 sessions, however late and in whatever order
   things arrive, a notification reaches a session on the feed whose loop sent it, unless it carries
   id 0; then it reaches none. It never reaches a session on another feed.
   */
  lemma {:induction false} NotificationsReachTheirSession(keyOf: string -> Bytes, steps: seq<Step>, i: nat)
    requires Legal(keyOf, NEW_WIRE, steps) && i < |Exec(keyOf, NEW_WIRE, steps).notices|
    ensures var w := Exec(keyOf, NEW_WIRE, steps);
            Inserts(steps) < U32 ==>
              && (Reaches(keyOf, w, w.notices[i]) <==> w.notices[i].id != 0)
              && (Receiver(w, w.notices[i]).None? <==> w.notices[i].id == 0)
  {
    if Inserts(steps) < U32 {
      WireKeptByRun(keyOf, NEW_WIRE, steps);
      var w := Exec(keyOf, NEW_WIRE, steps);
      assert NoticeOk(keyOf, w.net, w.notices[i]);
      NoSessionZero(w.net.sessions);
    }
  }

  /** Every session is told its id before it is asked for. */
  ghost predicate NumberedFirst(keyOf: string -> Bytes, w: Wire, steps: seq<Step>)
    requires Legal(keyOf, w, steps)
    decreases |steps|
  {
    steps == [] || (
      && (steps[0].Ask? ==> steps[0].session in w.numbered)
      && NumberedFirst(keyOf, Next(keyOf, w, steps[0]), steps[1..]))
  }

  /** Requests, loops and notifications carry real ids, and every session that is answered is filed at the server. */
  ghost predicate Addressed(w: Wire) {
    && (forall i :: 0 <= i < |w.requests| ==> w.requests[i].id == w.requests[i].session != 0)
    && (forall i :: 0 <= i < |w.replies| ==> w.replies[i].session in w.net.cores)
    && (forall id: nat :: id in w.net.cores ==> Notice(id, w.net.cores[id]) in w.loops)
    && (forall i :: 0 <= i < |w.loops| ==> w.loops[i].id != 0)
    && (forall i :: 0 <= i < |w.notices| ==> w.notices[i].id != 0)
    && (forall id: nat :: id in w.net.sessions.values && w.net.sessions.values[id].open ==> id in w.net.cores)
  }

  lemma {:induction false} AddressedInsert(keyOf: string -> Bytes, w: Wire, op: Op)
    requires WireOk(keyOf, w) && Addressed(w)
    ensures Addressed(Next(keyOf, w, Insert(op)))
  {
    InsertStays(keyOf, w.net, op);
  }

  lemma {:induction false} AddressedAsk(keyOf: string -> Bytes, w: Wire, session: nat)
    requires WireOk(keyOf, w) && Addressed(w) && session in w.net.sessions.values && session in w.numbered
    ensures Addressed(Next(keyOf, w, Ask(session)))
  {
    AskOk(keyOf, w, session);
    NoSessionZero(w.net.sessions);
  }

  lemma {:induction false} AddressedServe(keyOf: string -> Bytes, w: Wire, index: nat, served: bool)
    requires Addressed(w) && index < |w.requests|
    ensures Addressed(Next(keyOf, w, Serve(index, served)))
  {
  }

  lemma {:induction false} AddressedSettle(keyOf: string -> Bytes, w: Wire, index: nat)
    requires Addressed(w) && Enabled(w, Settle(index))
    ensures Addressed(Next(keyOf, w, Settle(index)))
  {
  }

  lemma {:induction false} AddressedKept(keyOf: string -> Bytes, w: Wire, step: Step)
    requires WireOk(keyOf, w) && Addressed(w) && Enabled(w, step)
    requires step.Ask? ==> step.session in w.numbered
    ensures Addressed(Next(keyOf, w, step))
  {
    match step {
      case Insert(op) => AddressedInsert(keyOf, w, op);
      case Ask(session) => AddressedAsk(keyOf, w, session);
      case Serve(index, served) => AddressedServe(keyOf, w, index, served);
      case Settle(index) => AddressedSettle(keyOf, w, index);
      case _ =>
    }
  }

  lemma {:induction false} AddressedInRuns(keyOf: string -> Bytes, w: Wire, steps: seq<Step>)
    requires WireOk(keyOf, w) && Addressed(w) && Legal(keyOf, w, steps) && NumberedFirst(keyOf, w, steps)
    requires |w.net.sessions.values| + Inserts(steps) < U32
    ensures WireOk(keyOf, Exec(keyOf, w, steps)) && Addressed(Exec(keyOf, w, steps))
    decreases |steps|
  {
    if steps != [] {
      WireKept(keyOf, w, steps[0]);
      AddressedKept(keyOf, w, steps[0]);
      AddressedInRuns(keyOf, Next(keyOf, w, steps[0]), steps[1..]);
    }
  }

  /**
   If every session is told its id before it is asked for, every notification reaches a session on
   its feed, and the server has the feed of every open session under the session's id, with a notify
   loop that sends its notifications.
   */
  lemma {:induction false} NumberedSessionsWork(keyOf: string -> Bytes, steps: seq<Step>)
    requires Legal(keyOf, NEW_WIRE, steps) && NumberedFirst(keyOf, NEW_WIRE, steps)
    ensures var w := Exec(keyOf, NEW_WIRE, steps);
            Inserts(steps) < U32 ==>
              && (forall i :: 0 <= i < |w.notices| ==> Reaches(keyOf, w, w.notices[i]))
              && (forall id: nat :: id in w.net.sessions.values && w.net.sessions.values[id].open ==>
                    && id in w.net.cores && w.net.cores[id] == FeedOf(keyOf, w.net.sessions.values[id])
                    && Notice(id, w.net.cores[id]) in w.loops)
  {
    if Inserts(steps) < U32 {
      AddressedInRuns(keyOf, NEW_WIRE, steps);
      var w := Exec(keyOf, NEW_WIRE, steps);
      NoSessionZero(w.net.sessions);
      forall i | 0 <= i < |w.notices|
        ensures Reaches(keyOf, w, w.notices[i])
      {
        assert NoticeOk(keyOf, w.net, w.notices[i]);
      }
    }
  }

  lemma {:induction false} Prepend(keyOf: string -> Bytes, w: Wire, step: Step, rest: seq<Step>)
    requires Enabled(w, step) && Legal(keyOf, Next(keyOf, w, step), rest)
    ensures Legal(keyOf, w, [step] + rest)
    ensures Exec(keyOf, w, [step] + rest) == Exec(keyOf, Next(keyOf, w, step), rest)
  {
    assert ([step] + rest)[1..] == rest;
  }

  /** A request without an id is served and settled, and only then the session is told its id. */
  lemma {:induction false} AnsweredUnderZero(keyOf: string -> Bytes, asked: Wire, name: string)
    returns (steps: seq<Step>)
    requires asked.net.cores == map[] && asked.loops == [] && asked.notices == [] && asked.replies == []
    requires 1 in asked.net.sessions.values && asked.net.sessions.values.Keys == {1}
    requires asked.requests == [Request(1, 0, Some(name), None)]
    ensures Legal(keyOf, asked, steps)
    ensures var w := Exec(keyOf, asked, steps);
            && 1 in w.net.sessions.values && w.net.sessions.values[1].open
            && w.notices == [Notice(0, keyOf(name))] && Receiver(w, w.notices[0]).None?
            && WireId(w, 1) !in w.net.cores
  {
    var served := Next(keyOf, asked, Serve(0, true));
    assert served.replies == [Reply(1, keyOf(name))] && served.loops == [Notice(0, keyOf(name))];
    var settled := Next(keyOf, served, Settle(0));
    var numbered := Next(keyOf, settled, Number(1));
    steps := [Notify(0)] + [];
    Prepend(keyOf, numbered, Notify(0), []);
    Prepend(keyOf, settled, Number(1), steps);
    steps := [Number(1)] + steps;
    Prepend(keyOf, served, Settle(0), steps);
    steps := [Settle(0)] + steps;
    Prepend(keyOf, asked, Serve(0, true), steps);
    steps := [Serve(0, true)] + steps;
  }

  /**
   Otherwise not: a session that a second task finds and asks for before the first has told it its
   id is filed under 0. It opens, but no notification reaches it, and the server does not know the
   id that it goes on to use.
   */
  lemma {:induction false} AskedTooEarly(keyOf: string -> Bytes, name: string) returns (steps: seq<Step>)
    ensures Legal(keyOf, NEW_WIRE, steps)
    ensures var w := Exec(keyOf, NEW_WIRE, steps);
            && 1 in w.net.sessions.values && w.net.sessions.values[1].open
            && w.notices == [Notice(0, keyOf(name))] && Receiver(w, w.notices[0]).None?
            && WireId(w, 1) !in w.net.cores
  {
    var inserted := Next(keyOf, NEW_WIRE, Insert(ByName(name, true)));
    var asked := Next(keyOf, inserted, Ask(1));
    steps := AnsweredUnderZero(keyOf, asked, name);
    Prepend(keyOf, inserted, Ask(1), steps);
    steps := [Ask(1)] + steps;
    Prepend(keyOf, NEW_WIRE, Insert(ByName(name, true)), steps);
    steps := [Insert(ByName(name, true))] + steps;
  }

  // ---- one open at a time ----

  /** No open is under way. */
  ghost predicate Calm(w: Wire) {
    w.requests == [] && w.replies == [] && w.net.sessions.values.Keys <= w.numbered
  }

  /** The wire after a session was found, or made and told its id. */
  ghost function AfterLocated(w: Wire, op: Op): Wire {
    var (n1, id) := Located(w.net, NewCore(op), TextOf(op));
    if Filed(w.net, TextOf(op)) then w else w.(net := n1, numbered := w.numbered + {id})
  }

  /** The wire after a session was asked for, served and settled, or refused, or open already. */
  ghost function AfterEnsured(keyOf: string -> Bytes, w: Wire, id: nat, served: bool): Wire
    requires id in w.net.sessions.values
  {
    var core := w.net.sessions.values[id];
    if core.open || !served || !Servable(core) then w
    else w.(net := Ensured(keyOf, w.net, id, served), loops := w.loops + [Notice(id, FeedOf(keyOf, core))])
  }

  /** Asking, being served and settling are what `Ensured` does. */
  lemma {:induction false} EnsuredIsARun(keyOf: string -> Bytes, w: Wire, id: nat, served: bool, rest: seq<Step>)
    returns (steps: seq<Step>)
    requires Calm(w) && id in w.net.sessions.values && id < U32
    requires Legal(keyOf, AfterEnsured(keyOf, w, id, served), rest)
    ensures Legal(keyOf, w, steps)
    ensures Exec(keyOf, w, steps) == Exec(keyOf, AfterEnsured(keyOf, w, id, served), rest)
  {
    var core := w.net.sessions.values[id];
    if core.open {
      steps := rest;
    } else {
      var asked := Next(keyOf, w, Ask(id));
      var answered := Next(keyOf, asked, Serve(0, served));
      if served && Servable(core) {
        assert Next(keyOf, answered, Settle(0)) == AfterEnsured(keyOf, w, id, served);
        Prepend(keyOf, answered, Settle(0), rest);
        steps := [Settle(0)] + rest;
      } else {
        assert answered == w;
        steps := rest;
      }
      Prepend(keyOf, asked, Serve(0, served), steps);
      steps := [Serve(0, served)] + steps;
      Prepend(keyOf, w, Ask(id), steps);
      steps := [Ask(id)] + steps;
    }
  }

  /** Finding a session is no step; making one is two. */
  lemma {:induction false} LocatedIsARun(keyOf: string -> Bytes, w: Wire, op: Op, rest: seq<Step>)
    returns (steps: seq<Step>)
    requires Legal(keyOf, AfterLocated(w, op), rest)
    ensures Legal(keyOf, w, steps) && Exec(keyOf, w, steps) == Exec(keyOf, AfterLocated(w, op), rest)
  {
    if Filed(w.net, TextOf(op)) {
      steps := rest;
    } else {
      var id, inserted := NM.NextId(w.net.sessions), Next(keyOf, w, Insert(op));
      assert Next(keyOf, inserted, Number(id)) == AfterLocated(w, op);
      Prepend(keyOf, inserted, Number(id), rest);
      steps := [Number(id)] + rest;
      Prepend(keyOf, w, Insert(op), steps);
      steps := [Insert(op)] + steps;
    }
  }

  lemma {:induction false} LocatedId(keyOf: string -> Bytes, n: Net, op: Op)
    requires NetOk(keyOf, n) && |n.sessions.values| + 1 < U32
    ensures var (n1, id) := Located(n, NewCore(op), TextOf(op));
            id in n1.sessions.values && id < U32
  {
    LocatedOk(keyOf, n, NewCore(op), TextOf(op));
    assert 1 <= Located(n, NewCore(op), TextOf(op)).1;
  }

  /** The session an open makes is filed under the text of its key as well, once it is open. */
  predicate Renames(n: Net, op: Op, core: Core) {
    op.ByName? && !Filed(n, op.name) && core.open && core.key.Some?
  }

  /** The wire after all parts of an open, one after the other. */
  ghost function AfterOpen(keyOf: string -> Bytes, w: Wire, op: Op): Wire
    requires var (n1, id) := Located(w.net, NewCore(op), TextOf(op)); id in n1.sessions.values
  {
    var id := Located(w.net, NewCore(op), TextOf(op)).1;
    var ensured := AfterEnsured(keyOf, AfterLocated(w, op), id, op.served);
    if Renames(w.net, op, ensured.net.sessions.values[id]) then Next(keyOf, ensured, Rename(id)) else ensured
  }

  lemma {:induction false} AfterOpenIsDo(keyOf: string -> Bytes, w: Wire, op: Op)
    requires Calm(w)
    requires var (n1, id) := Located(w.net, NewCore(op), TextOf(op)); id in n1.sessions.values && id < U32
    ensures AfterOpen(keyOf, w, op).net == Do(keyOf, w.net, op).0 && Calm(AfterOpen(keyOf, w, op))
  {
  }

  lemma {:induction false} AfterOpenIsARun(keyOf: string -> Bytes, w: Wire, op: Op) returns (steps: seq<Step>)
    requires Calm(w)
    requires var (n1, id) := Located(w.net, NewCore(op), TextOf(op)); id in n1.sessions.values && id < U32
    ensures Legal(keyOf, w, steps) && Exec(keyOf, w, steps) == AfterOpen(keyOf, w, op)
  {
    var id, located := Located(w.net, NewCore(op), TextOf(op)).1, AfterLocated(w, op);
    var ensured := AfterEnsured(keyOf, located, id, op.served);
    steps := [];
    if Renames(w.net, op, ensured.net.sessions.values[id]) {
      Prepend(keyOf, ensured, Rename(id), []);
      steps := [Rename(id)] + [];
    }
    steps := EnsuredIsARun(keyOf, located, id, op.served, steps);
    steps := LocatedIsARun(keyOf, w, op, steps);
  }

  /** Refinement: an open taken as a whole, as in `Sessions`, is a run of its parts. */
  lemma {:induction false} OpenIsARun(keyOf: string -> Bytes, w: Wire, op: Op) returns (steps: seq<Step>)
    requires NetOk(keyOf, w.net) && Calm(w) && |w.net.sessions.values| + 1 < U32
    ensures Legal(keyOf, w, steps) && Calm(Exec(keyOf, w, steps))
    ensures Exec(keyOf, w, steps).net == Do(keyOf, w.net, op).0
  {
    LocatedId(keyOf, w.net, op);
    AfterOpenIsDo(keyOf, w, op);
    steps := AfterOpenIsARun(keyOf, w, op);
  }

  // ---- which session an open returns ----

  /** The lookup finds a session, and one that is filed under what it is looked for with. */
  ghost predicate FoundOk(keyOf: string -> Bytes, n: Net, op: Op) {
    && Filed(n, TextOf(op))
    && CoreOk(keyOf, n.sessions.values[n.sessions.nameId[TextOf(op)]])
    && FiledUnder(n.sessions.values[n.sessions.nameId[TextOf(op)]], TextOf(op))
  }

  /** The session a lookup finds is on the feed asked for exactly when nothing stood in the way at the lookup. */
  lemma {:induction false} FoundIntendedIff(keyOf: string -> Bytes, n: Net, op: Op)
    requires FoundOk(keyOf, n, op)
    ensures OnFeed(keyOf, n, n.sessions.nameId[TextOf(op)], Asked(keyOf, op)) <==> !InTheWay(keyOf, n, op)
  {
    var found := n.sessions.values[n.sessions.nameId[TextOf(op)]];
    if Keys.Hex(FeedOf(keyOf, found)) == Keys.Hex(Asked(keyOf, op)) {
      Keys.HexInjective(FeedOf(keyOf, found), Asked(keyOf, op));
    }
  }

  /** If the session of `id` comes to be open, it is known to be on `feed`, or known not to be. */
  ghost predicate Returns(n: Net, id: nat, feed: Bytes, intended: bool) {
    && id in n.sessions.values
    && (n.sessions.values[id].open ==> (n.sessions.values[id].key == Some(feed) <==> intended))
  }

  /** A session on a feed, if it is open, has that feed's key. */
  lemma {:induction false} OpenKnowsFeed(keyOf: string -> Bytes, n: Net, id: nat, feed: Bytes, asked: Bytes)
    requires OnFeed(keyOf, n, id, feed) && CoreOk(keyOf, n.sessions.values[id])
    ensures Returns(n, id, asked, feed == asked)
  {
  }

  /**
   With opens at the same time: an open that finds a session at some moment of a run, and returns it
   open at a later one, returns the feed it asked for if and only if nothing stood in the way at the
   lookup, whatever came between.
   */
  lemma {:induction false} FoundThenOpen(keyOf: string -> Bytes, steps: seq<Step>, op: Op, more: seq<Step>)
    requires Legal(keyOf, NEW_WIRE, steps) && Legal(keyOf, Exec(keyOf, NEW_WIRE, steps), more)
    requires Filed(Exec(keyOf, NEW_WIRE, steps).net, TextOf(op))
    ensures var n, end := Exec(keyOf, NEW_WIRE, steps).net, Exec(keyOf, Exec(keyOf, NEW_WIRE, steps), more).net;
            Inserts(steps) + Inserts(more) < U32 ==>
              Returns(end, n.sessions.nameId[TextOf(op)], Asked(keyOf, op), !InTheWay(keyOf, n, op))
  {
    if Inserts(steps) + Inserts(more) < U32 {
      var w := Exec(keyOf, NEW_WIRE, steps);
      WireKeptByRun(keyOf, NEW_WIRE, steps);
      WireKeptByRun(keyOf, w, more);
      var id, end := w.net.sessions.nameId[TextOf(op)], Exec(keyOf, w, more).net;
      var feed := FeedOf(keyOf, w.net.sessions.values[id]);
      FoundIntendedIff(keyOf, w.net, op);
      assert OnFeed(keyOf, end, id, feed);
      OpenKnowsFeed(keyOf, end, id, feed, Asked(keyOf, op));
    }
  }

  lemma {:induction false} InsertReturns(keyOf: string -> Bytes, w: Wire, op: Op, more: seq<Step>)
    requires WireOk(keyOf, w) && |w.net.sessions.values| + 1 + Inserts(more) < U32
    requires Legal(keyOf, Next(keyOf, w, Insert(op)), more)
    ensures var end := Exec(keyOf, Next(keyOf, w, Insert(op)), more).net;
            Returns(end, NM.NextId(w.net.sessions), Asked(keyOf, op), true)
  {
    var next := Next(keyOf, w, Insert(op));
    InsertStays(keyOf, w.net, op);
    WireKept(keyOf, w, Insert(op));
    WireKeptByRun(keyOf, next, more);
    var id, end := NM.NextId(w.net.sessions), Exec(keyOf, next, more).net;
    assert OnFeed(keyOf, end, id, Asked(keyOf, op));
    OpenKnowsFeed(keyOf, end, id, Asked(keyOf, op), Asked(keyOf, op));
  }

  /** An open that inserts a session always returns the feed it asked for. */
  lemma {:induction false} InsertedThenOpen(keyOf: string -> Bytes, steps: seq<Step>, op: Op, more: seq<Step>)
    requires Legal(keyOf, NEW_WIRE, steps)
    requires Legal(keyOf, Next(keyOf, Exec(keyOf, NEW_WIRE, steps), Insert(op)), more)
    ensures var w := Exec(keyOf, NEW_WIRE, steps);
            var id, end := NM.NextId(w.net.sessions), Exec(keyOf, Next(keyOf, w, Insert(op)), more).net;
            Inserts(steps) + Inserts(more) + 1 < U32 ==> Returns(end, id, Asked(keyOf, op), true)
  {
    if Inserts(steps) + Inserts(more) + 1 < U32 {
      WireKeptByRun(keyOf, NEW_WIRE, steps);
      InsertReturns(keyOf, Exec(keyOf, NEW_WIRE, steps), op, more);
    }
  }

  /** The opens that made a session, in order. */
  function InsertedOps(steps: seq<Step>): seq<Op> {
    if steps == [] then [] else (if steps[0].Insert? then [steps[0].op] else []) + InsertedOps(steps[1..])
  }

  lemma {:induction false} DrawnKept(keyOf: string -> Bytes, w: Wire, step: Step, names: set<string>, keys: set<Bytes>)
    requires WireOk(keyOf, w) && Enabled(w, step) && DrawnFrom(w.net, names, keys)
    requires step.Insert? ==> OpAmong(keyOf, step.op, names, keys)
    requires forall name :: name in names ==> keyOf(name) in keys
    ensures DrawnFrom(Next(keyOf, w, step).net, names, keys)
  {
    if step.Settle? {
      var reply := w.replies[step.index];
      assert OnFeed(keyOf, w.net, reply.session, reply.feed);
      assert CoreOk(keyOf, w.net.sessions.values[reply.session]);
    }
  }

  lemma {:induction false} DrawnInRuns(
    keyOf: string -> Bytes, w: Wire, steps: seq<Step>, names: set<string>, keys: set<Bytes>)
    requires WireOk(keyOf, w) && Legal(keyOf, w, steps) && |w.net.sessions.values| + Inserts(steps) < U32
    requires DrawnFrom(w.net, names, keys)
    requires forall op :: op in InsertedOps(steps) ==> OpAmong(keyOf, op, names, keys)
    requires forall name :: name in names ==> keyOf(name) in keys
    ensures DrawnFrom(Exec(keyOf, w, steps).net, names, keys)
    decreases |steps|
  {
    if steps != [] {
      WireKept(keyOf, w, steps[0]);
      assert steps[0].Insert? ==> steps[0].op == InsertedOps(steps)[0];
      assert forall op :: op in InsertedOps(steps[1..]) ==> op in InsertedOps(steps);
      DrawnKept(keyOf, w, steps[0], names, keys);
      DrawnInRuns(keyOf, Next(keyOf, w, steps[0]), steps[1..], names, keys);
    }
  }

  lemma {:induction false} AmongAll(keyOf: string -> Bytes, ops: seq<Op>, op: Op)
    ensures var names, keys := NamesOf(ops + [op]), KeysOf(keyOf, ops + [op]);
            && OpAmong(keyOf, op, names, keys)
            && (forall other :: other in ops ==> OpAmong(keyOf, other, names, keys))
            && (forall name :: name in names ==> keyOf(name) in keys)
  {
    var all := ops + [op];
    AllAmong(keyOf, all);
    assert all[|ops|] == op;
    forall other | other in ops
      ensures OpAmong(keyOf, other, NamesOf(all), KeysOf(keyOf, all))
    {
      var i :| 0 <= i < |ops| && ops[i] == other;
      assert all[i] == other;
    }
  }

  lemma {:induction false} NothingInTheWayInRuns(
    keyOf: string -> Bytes, steps: seq<Step>, op: Op, names: set<string>, keys: set<Bytes>)
    requires Legal(keyOf, NEW_WIRE, steps) && Inserts(steps) < U32
    requires Unambiguous(keyOf, names, keys) && OpAmong(keyOf, op, names, keys)
    requires forall other :: other in InsertedOps(steps) ==> OpAmong(keyOf, other, names, keys)
    requires forall name :: name in names ==> keyOf(name) in keys
    ensures !InTheWay(keyOf, Exec(keyOf, NEW_WIRE, steps).net, op)
  {
    WireKeptByRun(keyOf, NEW_WIRE, steps);
    DrawnInRuns(keyOf, NEW_WIRE, steps, names, keys);
    NothingInTheWay(keyOf, Exec(keyOf, NEW_WIRE, steps).net, op, names, keys);
  }

  /**
   So when no name spells the key of another feed that is asked for, opens at the same time return
   the feeds they asked for, in whatever order their parts come.
   */
  lemma {:induction false} ConcurrentOpensAreIntended(keyOf: string -> Bytes, steps: seq<Step>, op: Op, more: seq<Step>)
    requires Legal(keyOf, NEW_WIRE, steps) && Legal(keyOf, Exec(keyOf, NEW_WIRE, steps), more)
    requires var ops := InsertedOps(steps) + [op]; Unambiguous(keyOf, NamesOf(ops), KeysOf(keyOf, ops))
    ensures var n, end := Exec(keyOf, NEW_WIRE, steps).net, Exec(keyOf, Exec(keyOf, NEW_WIRE, steps), more).net;
            Filed(n, TextOf(op)) && Inserts(steps) + Inserts(more) < U32 ==>
              Returns(end, n.sessions.nameId[TextOf(op)], Asked(keyOf, op), true)
  {
    var ops := InsertedOps(steps);
    if Filed(Exec(keyOf, NEW_WIRE, steps).net, TextOf(op)) && Inserts(steps) + Inserts(more) < U32 {
      AmongAll(keyOf, ops, op);
      NothingInTheWayInRuns(keyOf, steps, op, NamesOf(ops + [op]), KeysOf(keyOf, ops + [op]));
      FoundThenOpen(keyOf, steps, op, more);
    }
  }

  // ---- one session under name and key ----

  /** The text leads to the session. */
  predicate FiledAs(n: Net, text: string, session: nat) {
    text in n.sessions.nameId && n.sessions.nameId[text] == session
  }

  /** The step files a session other than this one under the text. */
  predicate FilesOther(w: Wire, step: Step, text: string, session: nat)
    requires Enabled(w, step)
  {
    match step
    case Insert(op) => TextOf(op) == text
    case Rename(other) => other != session && Keys.Hex(w.net.sessions.values[other].key.value) == text
    case _ => false
  }

  /** Renaming files the session under the text of its key and of nothing else. */
  lemma {:induction false} RenameFiles(keyOf: string -> Bytes, w: Wire, session: nat)
    requires Enabled(w, Rename(session))
    ensures var next := Next(keyOf, w, Rename(session)).net;
            var text := Keys.Hex(w.net.sessions.values[session].key.value);
            && FiledAs(next, text, session)
            && (forall other :: other in w.net.sessions.nameId && other != text ==>
                  FiledAs(next, other, w.net.sessions.nameId[other]))
  {
  }

  lemma {:induction false} FiledAsStays(keyOf: string -> Bytes, w: Wire, step: Step, text: string, session: nat)
    requires Enabled(w, step) && FiledAs(w.net, text, session) && !FilesOther(w, step, text, session)
    ensures FiledAs(Next(keyOf, w, step).net, text, session)
  {
  }

  /** No step of the run files another session under the text. */
  ghost predicate NoneFilesOther(keyOf: string -> Bytes, w: Wire, steps: seq<Step>, text: string, session: nat)
    requires Legal(keyOf, w, steps)
    decreases |steps|
  {
    steps == [] || (
      && !FilesOther(w, steps[0], text, session)
      && NoneFilesOther(keyOf, Next(keyOf, w, steps[0]), steps[1..], text, session))
  }

  lemma {:induction false} FiledAsInRuns(
    keyOf: string -> Bytes, w: Wire, steps: seq<Step>, text: string, session: nat)
    requires Legal(keyOf, w, steps) && FiledAs(w.net, text, session)
    requires NoneFilesOther(keyOf, w, steps, text, session)
    ensures FiledAs(Exec(keyOf, w, steps).net, text, session)
    decreases |steps|
  {
    if steps != [] {
      FiledAsStays(keyOf, w, steps[0], text, session);
      FiledAsInRuns(keyOf, Next(keyOf, w, steps[0]), steps[1..], text, session);
    }
  }

  /**
   With opens at the same time: once a session has been renamed, a by-key open of its key finds that
   very session, through every interleaving in which none other is filed under the text of the key.
   */
  lemma {:induction false} RenamedIsShared(keyOf: string -> Bytes, w: Wire, session: nat, steps: seq<Step>)
    requires Enabled(w, Rename(session)) && WireOk(keyOf, w)
    requires |w.net.sessions.values| + Inserts(steps) < U32
    requires Legal(keyOf, Next(keyOf, w, Rename(session)), steps)
    requires var text := Keys.Hex(w.net.sessions.values[session].key.value);
             NoneFilesOther(keyOf, Next(keyOf, w, Rename(session)), steps, text, session)
    ensures var key := w.net.sessions.values[session].key.value;
            var end := Exec(keyOf, Next(keyOf, w, Rename(session)), steps).net;
            forall served :: Located(end, NewCore(ByKey(key, served)), TextOf(ByKey(key, served))) == (end, session)
  {
    var key, next := w.net.sessions.values[session].key.value, Next(keyOf, w, Rename(session));
    RenameFiles(keyOf, w, session);
    FiledAsInRuns(keyOf, next, steps, Keys.Hex(key), session);
    WireKept(keyOf, w, Rename(session));
    WireKeptByRun(keyOf, next, steps);
    var end := Exec(keyOf, next, steps).net;
    assert OnFeed(keyOf, end, session, FeedOf(keyOf, next.net.sessions.values[session]));
  }
}
