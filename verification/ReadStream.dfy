/**
 Reading a remote feed block by block (`ReadStream` in `client/src/stream.rs`).

 As for byte streams, a future is represented by the index it fetches and the outcome of
 polling it is a parameter of the call, together with the length the session reports then.
 */
module ReadStreams {
  import opened Common

  datatype FeedUpdate = Appended | Downloaded(index: nat)

  /** A fetch, or a fetch that first waits for the feed to change. */
  datatype Future = Get(index: nat) | OnAppendGet(index: nat)

  /** What a completed fetch brings. */
  datatype Fetched = ABlock(block: Block) | NoBlock | Failed

  datatype FetchPoll = FetchPending | FetchDone(fetched: Fetched)

  /** What `poll_next` answers; an item carries what was fetched, also when that is no block. */
  datatype Answer = NotReady | Item(fetched: Fetched) | End

  datatype Stream = Stream(future: Future, index: nat, end: Option<nat>, live: bool, finished: bool)

  function NewStream(start: nat, end: Option<nat>, live: bool): Stream {
    Stream(Get(start), start, end, live, false)
  }

  function NextStep(s: Stream, poll: FetchPoll, coreLen: nat): (Stream, Answer) {
    if s.finished then (s, End)
    else if poll.FetchPending? then (s, NotReady)
    else
      var len, index := s.end.GetOr(coreLen), s.index + 1;
      var moved := s.(index := index);
      (if len == index && !s.live then moved.(finished := true)
       else if len == index then moved.(future := OnAppendGet(index))
       else moved.(future := Get(index)),
       Item(poll.fetched))
  }

  /** The updates that make a stream waiting for block `index` fetch it. */
  predicate Wakes(update: FeedUpdate, index: nat) {
    update == Appended || update == Downloaded(index)
  }

  // ---- the program's own form ----

  /**
   The waiting part of `onappend_get`: how many updates pass before it fetches. It fetches at
   the first append, or at the first download of the block itself; if the updates end before
   that it gives up without a block.
   */
  method AwaitUpdate(updates: seq<FeedUpdate>, index: nat) returns (passed: nat)
    ensures passed <= |updates|
    ensures forall i :: 0 <= i < passed ==> updates[i].Downloaded? && updates[i].index != index
    ensures passed < |updates| ==> Wakes(updates[passed], index)
    ensures passed < |updates| <==> exists i :: 0 <= i < |updates| && Wakes(updates[i], index)
  {
    passed := 0;
    while passed < |updates|
      invariant passed <= |updates|
      invariant forall i :: 0 <= i < passed ==> updates[i].Downloaded? && updates[i].index != index
    {
      match updates[passed] {
        case Appended => return;
        case Downloaded(downloaded) =>
          if downloaded == index {
            return;
          }
      }
      passed := passed + 1;
    }
  }

  class ReadStream {
    var future: Future
    var index: nat
    const end: Option<nat>
    const live: bool
    var finished: bool

    constructor (start: nat, end: Option<nat>, live: bool)
      ensures Value() == NewStream(start, end, live)
    {
      this.future, this.index, this.end, this.live, this.finished := Get(start), start, end, live, false;
    }

    ghost function Value(): Stream
      reads this
    {
      Stream(future, index, end, live, finished)
    }

    method PollNext(poll: FetchPoll, coreLen: nat) returns (answer: Answer)
      modifies this
      ensures (Value(), answer) == NextStep(old(Value()), poll, coreLen)
    {
      if finished {
        return End;
      }
      if poll.FetchPending? {
        return NotReady;
      }
      var len := end.GetOr(coreLen);
      index := index + 1;
      if len == index && !live {
        finished := true;
      } else if len == index {
        future := OnAppendGet(index);
      } else {
        future := Get(index);
      }
      answer := Item(poll.fetched);
    }
  }

  // ---- whole runs ----

  /** One poll: its outcome, the length the session reports, and the feed at that moment. */
  datatype Call = Call(poll: FetchPoll, coreLen: nat, log: seq<Block>)

  /** The feed only grows, and a fetched block is the feed's block at the index fetched. */
  ghost predicate CallsOk(log: seq<Block>, s: Stream, calls: seq<Call>)
    decreases |calls|
  {
    calls == [] || (
      && log <= calls[0].log
      && (calls[0].poll.FetchDone? && calls[0].poll.fetched.ABlock? ==>
            s.future.index < |calls[0].log| && calls[0].poll.fetched.block == calls[0].log[s.future.index])
      && CallsOk(calls[0].log, NextStep(s, calls[0].poll, calls[0].coreLen).0, calls[1..]))
  }

  /** What the items carry, in order. */
  function Items(s: Stream, calls: seq<Call>): seq<Fetched>
    decreases |calls|
  {
    if calls == [] then [] else
      var (next, answer) := NextStep(s, calls[0].poll, calls[0].coreLen);
      (if answer.Item? then [answer.fetched] else []) + Items(next, calls[1..])
  }

  function After(s: Stream, calls: seq<Call>): Stream
    decreases |calls|
  {
    if calls == [] then s else After(NextStep(s, calls[0].poll, calls[0].coreLen).0, calls[1..])
  }

  function LastLog(log: seq<Block>, calls: seq<Call>): seq<Block> {
    if calls == [] then log else calls[|calls| - 1].log
  }

  /** The future of a running stream fetches the block the stream is at. */
  predicate Aligned(s: Stream) {
    !s.finished ==> s.future.index == s.index
  }

  /** Item `j`, if it is a block, is block `start + j` of the feed. */
  ghost predicate InPlace(log: seq<Block>, start: nat, items: seq<Fetched>) {
    forall j :: 0 <= j < |items| && items[j].ABlock? ==> start + j < |log| && items[j].block == log[start + j]
  }

  lemma {:induction false} InPlaceCons(log: seq<Block>, start: nat, first: Fetched, rest: seq<Fetched>)
    requires first.ABlock? ==> start < |log| && first.block == log[start]
    requires InPlace(log, start + 1, rest)
    ensures InPlace(log, start, [first] + rest)
  {
  }

  /**
   Order: under any appends and any pending polls, item `j` is the outcome of fetching block
   `start + j`; nothing is skipped or repeated, and a fetch without a block takes one place.
   */
  lemma {:induction false} ItemsInOrder(log: seq<Block>, s: Stream, calls: seq<Call>)
    requires Aligned(s) && CallsOk(log, s, calls)
    ensures log <= LastLog(log, calls)
    ensures Aligned(After(s, calls)) && After(s, calls).index == s.index + |Items(s, calls)|
    ensures InPlace(LastLog(log, calls), s.index, Items(s, calls))
    decreases |calls|
  {
    if calls != [] {
      var (next, answer) := NextStep(s, calls[0].poll, calls[0].coreLen);
      ItemsInOrder(calls[0].log, next, calls[1..]);
      assert LastLog(calls[0].log, calls[1..]) == LastLog(log, calls);
      if answer.Item? {
        InPlaceCons(LastLog(log, calls), s.index, answer.fetched, Items(next, calls[1..]));
      } else {
        assert Items(s, calls) == Items(next, calls[1..]);
      }
    }
  }

  lemma {:induction false} OverStaysOver(s: Stream, calls: seq<Call>)
    requires s.finished
    ensures After(s, calls) == s && Items(s, calls) == []
    decreases |calls|
  {
    if calls != [] {
      OverStaysOver(s, calls[1..]);
    }
  }

  /** How many of the polls complete a fetch. */
  function Completed(calls: seq<Call>): nat {
    if calls == [] then 0 else Completed(calls[1..]) + if calls[0].poll.FetchDone? then 1 else 0
  }

  /** Poll `k` completes a fetch, and the end it sees is the index that the stream has then reached. */
  predicate MeetsEnd(s: Stream, calls: seq<Call>, k: nat)
    requires k < |calls|
  {
    calls[k].poll.FetchDone? && s.end.GetOr(calls[k].coreLen) == s.index + Completed(calls[..k + 1])
  }

  ghost predicate EverMeetsEnd(s: Stream, calls: seq<Call>) {
    exists k :: 0 <= k < |calls| && MeetsEnd(s, calls, k)
  }

  lemma {:induction false} MeetsEndLater(s: Stream, calls: seq<Call>)
    requires calls != []
    ensures var next := s.(index := s.index + if calls[0].poll.FetchDone? then 1 else 0);
            EverMeetsEnd(s, calls) <==> MeetsEnd(s, calls, 0) || EverMeetsEnd(next, calls[1..])
  {
    var next := s.(index := s.index + if calls[0].poll.FetchDone? then 1 else 0);
    forall k | 1 <= k < |calls|
      ensures MeetsEnd(s, calls, k) <==> MeetsEnd(next, calls[1..], k - 1)
    {
      assert calls[..k + 1][1..] == calls[1..][..k];
    }
    if EverMeetsEnd(next, calls[1..]) {
      var k :| 0 <= k < |calls| - 1 && MeetsEnd(next, calls[1..], k);
      assert MeetsEnd(s, calls, k + 1);
    }
  }

  /** Whether the end is met does not depend on the future or on being live. */
  lemma {:induction false} MeetsEndOf(s: Stream, t: Stream, calls: seq<Call>)
    requires s.index == t.index && s.end == t.end
    ensures EverMeetsEnd(s, calls) <==> EverMeetsEnd(t, calls)
  {
    forall k | 0 <= k < |calls|
      ensures MeetsEnd(s, calls, k) <==> MeetsEnd(t, calls, k)
    {
    }
  }

  /**
   When a stream is over, whatever lengths the session reports: exactly if it is not live and some
   poll that completed a fetch saw an end equal to the index reached. An end that is passed over,
   because it is never equal at the moment of such a poll, does not stop the stream.
   */
  lemma {:induction false} OverIffEndMet(s: Stream, calls: seq<Call>)
    requires !s.finished
    ensures After(s, calls).finished <==> !s.live && EverMeetsEnd(s, calls)
    decreases |calls|
  {
    if calls != [] {
      var next := NextStep(s, calls[0].poll, calls[0].coreLen).0;
      MeetsEndLater(s, calls);
      assert calls[..1][1..] == [] && Completed(calls[..1]) == if calls[0].poll.FetchDone? then 1 else 0;
      if next.finished {
        OverStaysOver(next, calls[1..]);
      } else {
        OverIffEndMet(next, calls[1..]);
        MeetsEndOf(next, s.(index := next.index), calls[1..]);
      }
    }
  }

  lemma {:induction false} PendingKeeps(s: Stream, calls: seq<Call>)
    requires forall i :: 0 <= i < |calls| ==> calls[i].poll.FetchPending?
    ensures After(s, calls) == s && Items(s, calls) == [] && Completed(calls) == 0
    decreases |calls|
  {
    if calls != [] {
      PendingKeeps(s, calls[1..]);
    }
  }

  /** What a poll answers: the end exactly if the stream is over, an item exactly if its fetch completed. */
  lemma {:induction false} AnswerTells(s: Stream, poll: FetchPoll, coreLen: nat)
    ensures var (next, answer) := NextStep(s, poll, coreLen);
            && (answer == End <==> s.finished)
            && (answer == NotReady <==> !s.finished && poll.FetchPending?)
            && (answer.Item? ==> answer.fetched == poll.fetched)
            && (!answer.Item? ==> next == s)
  {
  }

  /** Poll `k` is the last that completes a fetch. */
  ghost predicate LastDone(calls: seq<Call>, k: nat) {
    && k < |calls| && calls[k].poll.FetchDone?
    && forall i :: k < i < |calls| ==> calls[i].poll.FetchPending?
  }

  lemma {:induction false} MeetsEndShift(s: Stream, calls: seq<Call>, k: nat)
    requires 1 <= k < |calls|
    ensures var next := s.(index := s.index + if calls[0].poll.FetchDone? then 1 else 0);
            MeetsEnd(s, calls, k) <==> MeetsEnd(next, calls[1..], k - 1)
  {
    assert calls[..k + 1][1..] == calls[1..][..k];
  }

  /**
   What a stream that is not over does next: after the last completed fetch it waits for the feed to
   change exactly if that poll saw an end equal to the index reached, and otherwise fetches the next
   block at once.
   */
  lemma {:induction false} NextFuture(s: Stream, calls: seq<Call>, k: nat)
    requires !s.finished && !After(s, calls).finished && LastDone(calls, k)
    ensures var index := s.index + Completed(calls);
            && After(s, calls).index == index
            && After(s, calls).future == if MeetsEnd(s, calls, k) then OnAppendGet(index) else Get(index)
    decreases |calls|
  {
    var next := NextStep(s, calls[0].poll, calls[0].coreLen).0;
    if next.finished {
      OverStaysOver(next, calls[1..]);
    } else if k == 0 {
      assert calls[..1][1..] == [] && Completed(calls[..1]) == 1;
      PendingKeeps(next, calls[1..]);
    } else {
      MeetsEndShift(s, calls, k);
      NextFuture(next, calls[1..], k - 1);
    }
  }

  /** A stream up to the end of the feed that sees lengths 3, 1 and 1 gives three items and is not over. */
  lemma {:induction false} LengthStepsBack(item: Fetched, log: seq<Block>)
    ensures var poll, s := FetchDone(item), NewStream(0, None, false);
            var calls := [Call(poll, 3, log), Call(poll, 1, log), Call(poll, 1, log)];
            |Items(s, calls)| == 3 && !After(s, calls).finished
  {
    var poll, s := FetchDone(item), NewStream(0, None, false);
    var calls := [Call(poll, 3, log), Call(poll, 1, log), Call(poll, 1, log)];
    var s1 := NextStep(s, poll, 3).0;
    var s2 := NextStep(s1, poll, 1).0;
    var one := [Call(poll, 1, log)];
    assert calls[1..] == one + one && (one + one)[1..] == one && one[1..] == [];
    assert After(s2, one) == s2.(index := 3, future := Get(3));
    assert After(s1, one + one) == After(s2, one);
    assert Items(s2, one) == [item] + [];
    assert Items(s1, one + one) == [item] + Items(s2, one);
  }

  /** The end the stream works towards is the same at every poll. */
  predicate FixedEnd(s: Stream, calls: seq<Call>, end: nat) {
    forall i :: 0 <= i < |calls| ==> s.end.GetOr(calls[i].coreLen) == end
  }

  /**
   A stream that is not live and begins before its end gives at most that many items, and is
   over exactly when it has given them all; one that begins at or after its end, or is live,
   is never over.
   */
  lemma {:induction false} OverExactlyAtEnd(s: Stream, calls: seq<Call>, end: nat)
    requires !s.finished && FixedEnd(s, calls, end)
    ensures After(s, calls).finished <==> !s.live && s.index < end && |Items(s, calls)| == end - s.index
    ensures !s.live && s.index < end ==> |Items(s, calls)| <= end - s.index
    decreases |calls|
  {
    if calls != [] {
      var (next, answer) := NextStep(s, calls[0].poll, calls[0].coreLen);
      assert s.end.GetOr(calls[0].coreLen) == end;
      assert FixedEnd(next, calls[1..], end) by {
        forall i | 0 <= i < |calls| - 1
          ensures s.end.GetOr(calls[1..][i].coreLen) == end
        {
          assert calls[1..][i] == calls[i + 1];
        }
      }
      if next.finished {
        OverStaysOver(next, calls[1..]);
      } else {
        OverExactlyAtEnd(next, calls[1..], end);
      }
    }
  }

  /** On a feed that has the range, with every fetch successful, an ended stream has given exactly the range. */
  lemma {:induction false} RangeExactly(log: seq<Block>, start: nat, end: nat, calls: seq<Call>)
    requires start < end <= |log|
    requires CallsOk(log, NewStream(start, Some(end), false), calls) && LastLog(log, calls) == log
    requires After(NewStream(start, Some(end), false), calls).finished
    requires forall i :: 0 <= i < |calls| ==> calls[i].poll.FetchDone? ==> calls[i].poll.fetched.ABlock?
    ensures var items := Items(NewStream(start, Some(end), false), calls);
            |items| == end - start && forall j :: 0 <= j < end - start ==> items[j] == ABlock(log[start + j])
  {
    var s := NewStream(start, Some(end), false);
    ItemsInOrder(log, s, calls);
    OverExactlyAtEnd(s, calls, end);
    AllBlocks(s, calls);
  }

  lemma {:induction false} AllBlocks(s: Stream, calls: seq<Call>)
    requires forall i :: 0 <= i < |calls| ==> calls[i].poll.FetchDone? ==> calls[i].poll.fetched.ABlock?
    ensures forall j :: 0 <= j < |Items(s, calls)| ==> Items(s, calls)[j].ABlock?
    decreases |calls|
  {
    if calls != [] {
      AllBlocks(NextStep(s, calls[0].poll, calls[0].coreLen).0, calls[1..]);
    }
  }

  // ---- waiting for the feed to change ----

  /** What happens around a future that waits: it is polled, or the session tells its listeners of an update. */
  datatype Moment = PollFuture | Update(update: FeedUpdate)

  /** It subscribes when it is first polled, and has begun the fetch once a poll finds an update that wakes it. */
  datatype Waiter = Unpolled | Subscribed(queue: seq<FeedUpdate>) | Fetching

  ghost function Waited(moments: seq<Moment>, index: nat): Waiter {
    if moments == [] then Unpolled else
      var last := |moments| - 1;
      var before := Waited(moments[..last], index);
      match moments[last]
      case Update(update) => if before.Subscribed? then Subscribed(before.queue + [update]) else before
      case PollFuture =>
        if before.Unpolled? then Subscribed([])
        else if before.Subscribed? && !HasWake(before.queue, index) then Subscribed([])
        else Fetching
  }

  ghost predicate HasWake(queue: seq<FeedUpdate>, index: nat) {
    exists i :: 0 <= i < |queue| && Wakes(queue[i], index)
  }

  /** `moments[j]` is an update that wakes, after the future was first polled. */
  ghost predicate WakeHeard(moments: seq<Moment>, index: nat, j: nat) {
    && j < |moments| && moments[j].Update? && Wakes(moments[j].update, index)
    && PollFuture in moments[..j]
  }

  ghost predicate Woken(moments: seq<Moment>, index: nat) {
    exists j :: 0 <= j < |moments| && WakeHeard(moments, index, j)
  }

  /** A poll comes after such an update. */
  ghost predicate WokenAndPolled(moments: seq<Moment>, index: nat) {
    exists k :: 0 <= k < |moments| && moments[k] == PollFuture && Woken(moments[..k], index)
  }

  lemma {:induction false} WokenSnoc(moments: seq<Moment>, index: nat)
    requires moments != []
    ensures var last := |moments| - 1;
            Woken(moments, index) <==> Woken(moments[..last], index) || WakeHeard(moments, index, last)
  {
    var last := |moments| - 1;
    forall j: nat | j < last
      ensures WakeHeard(moments, index, j) <==> WakeHeard(moments[..last], index, j)
    {
      assert moments[..last][..j] == moments[..j];
    }
    if Woken(moments[..last], index) {
      var j: nat :| j < last && WakeHeard(moments[..last], index, j);
      assert WakeHeard(moments, index, j);
    }
  }

  lemma {:induction false} WokenAndPolledSnoc(moments: seq<Moment>, index: nat)
    requires moments != []
    ensures var last := |moments| - 1;
            WokenAndPolled(moments, index) <==>
              || WokenAndPolled(moments[..last], index)
              || (moments[last] == PollFuture && Woken(moments[..last], index))
  {
    var last := |moments| - 1;
    if WokenAndPolled(moments[..last], index) {
      var k :| 0 <= k < last && moments[..last][k] == PollFuture && Woken(moments[..last][..k], index);
      assert moments[..last][..k] == moments[..k];
      assert moments[k] == PollFuture && Woken(moments[..k], index);
    }
    if WokenAndPolled(moments, index) {
      var k :| 0 <= k < |moments| && moments[k] == PollFuture && Woken(moments[..k], index);
      if k < last {
        assert moments[..last][..k] == moments[..k];
        assert moments[..last][k] == PollFuture && Woken(moments[..last][..k], index);
      }
    }
  }

  lemma {:induction false} HasWakeSnoc(queue: seq<FeedUpdate>, update: FeedUpdate, index: nat)
    ensures HasWake(queue + [update], index) <==> HasWake(queue, index) || Wakes(update, index)
  {
    var longer := queue + [update];
    assert longer[|queue|] == update;
    forall i | 0 <= i < |queue|
      ensures longer[i] == queue[i]
    {
    }
    if HasWake(queue, index) {
      var i :| 0 <= i < |queue| && Wakes(queue[i], index);
      assert Wakes(longer[i], index);
    }
  }

  /**
   When a waiting stream fetches: exactly if, after its future was first polled, an append or the
   download of the block itself was reported, and the future was polled again. What was reported
   before the first poll does not count.
   */
  lemma {:induction false} FetchesIffWokenAndPolled(moments: seq<Moment>, index: nat)
    ensures Waited(moments, index).Fetching? <==> WokenAndPolled(moments, index)
    ensures Waited(moments, index).Unpolled? <==> PollFuture !in moments
    ensures Waited(moments, index).Subscribed? ==>
              (HasWake(Waited(moments, index).queue, index) <==> Woken(moments, index))
    decreases |moments|
  {
    if moments != [] {
      var last := |moments| - 1;
      FetchesIffWokenAndPolled(moments[..last], index);
      WokenSnoc(moments, index);
      WokenAndPolledSnoc(moments, index);
      assert moments == moments[..last] + [moments[last]];
      var before := Waited(moments[..last], index);
      if moments[last].Update? && before.Subscribed? {
        HasWakeSnoc(before.queue, moments[last].update, index);
      }
    }
  }

  /**
   A lost wake-up: the append that brings block `index` is reported before the future is first
   polled, and however often it is polled then, the stream does not fetch the block.
   */
  lemma {:induction false} AppendMissed(index: nat, polls: nat)
    ensures !Waited([Update(Appended)] + seq(polls, _ => PollFuture), index).Fetching?
  {
    var moments := [Update(Appended)] + seq(polls, _ => PollFuture);
    FetchesIffWokenAndPolled(moments, index);
    forall k: nat, j: nat | k < |moments| && j < k
      ensures !WakeHeard(moments[..k], index, j)
    {
      assert moments[..k][j] == moments[j];
      assert j == 0 ==> moments[..k][..j] == [];
    }
  }

  /** A future has begun to fetch, given what happened around it since it was made: a plain fetch begins at once. */
  ghost predicate FetchBegun(future: Future, moments: seq<Moment>) {
    match future
    case Get(_) => PollFuture in moments
    case OnAppendGet(index) => Waited(moments, index).Fetching?
  }

  /** A new stream fetches its first block as soon as it is polled. */
  lemma {:induction false} FirstBlockFetchedIff(
    start: nat, end: Option<nat>, live: bool, calls: seq<Call>, moments: seq<Moment>)
    requires forall i :: 0 <= i < |calls| ==> calls[i].poll.FetchPending?
    ensures var s := After(NewStream(start, end, live), calls);
            && s.future.index == s.index == start && !s.finished
            && (FetchBegun(s.future, moments) <==> PollFuture in moments)
  {
    PendingKeeps(NewStream(start, end, live), calls);
  }

  /**
   When a stream that is not over fetches its next block: as soon as it is polled, unless its last
   completed fetch met the end; then exactly if it is woken after its first poll there, and polled again.
   */
  lemma {:induction false} NextBlockFetchedIff(s: Stream, calls: seq<Call>, k: nat, moments: seq<Moment>)
    requires !s.finished && !After(s, calls).finished && LastDone(calls, k)
    ensures var index := s.index + Completed(calls);
            && After(s, calls).future.index == index
            && (FetchBegun(After(s, calls).future, moments) <==>
                  if MeetsEnd(s, calls, k) then WokenAndPolled(moments, index) else PollFuture in moments)
  {
    NextFuture(s, calls, k);
    FetchesIffWokenAndPolled(moments, s.index + Completed(calls));
  }
}
