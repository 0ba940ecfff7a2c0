/**
 Reading a remote feed as a string of bytes (`ByteStream` in `client/src/stream.rs`).

 A future is represented by what it will fetch or look up; the outcome of polling it is a
 parameter of the call, so every pattern of pending results is covered. `poll_read` and
 `poll_seek` poll at most one future per call.
 */
module ByteStreams {
  import opened Common

  datatype State = Idle | Seeking(target: nat) | Reading(index: nat) | Ready(block: Block) | Finished

  /** The fields of a stream; `current` counts blocks, `blockOffset` bytes inside the current one. */
  datatype Cursor = Cursor(current: nat, blockOffset: nat, byteOffset: nat, state: State)

  const START: Cursor := Cursor(0, 0, 0, Idle)

  /** Polling the fetch of a block: not there yet, the block, or an error. */
  datatype GetPoll = GetPending | Got(block: Block) | GetFailed

  /** Polling a seek: not there yet, or the block and the offset in it. */
  datatype SeekPoll = SeekPending | Found(index: nat, offset: nat)

  datatype SeekFrom = FromStart(start: nat) | FromCurrent(delta: int)

  datatype Poll<+T> = Pending | Complete(value: T)

  const U64: int := 0x1_0000_0000_0000_0000

  // ---- one call as a function ----

  /** Hands out what fits of the current block, and moves on when it is used up. */
  function Copy(c: Cursor, block: Block, room: nat): (Cursor, Poll<seq<Byte>>)
    requires c.blockOffset <= |block|
  {
    var left := |block| - c.blockOffset;
    var n := if room < left then room else left;
    var next := if n == left then c.(current := c.current + 1, blockOffset := 0, state := Idle)
                else c.(blockOffset := c.blockOffset + n, state := Ready(block));
    (next, Complete(block[c.blockOffset..c.blockOffset + n]))
  }

  /** No panic: no seek is outstanding, and the block at hand or about to arrive reaches the offset. */
  predicate CanRead(c: Cursor, poll: GetPoll) {
    && !c.state.Seeking?
    && (c.state.Ready? ==> c.blockOffset <= |c.state.block|)
    && ((c.state.Idle? || c.state.Reading?) && poll.Got? ==> c.blockOffset <= |poll.block|)
  }

  function ReadStep(c: Cursor, room: nat, poll: GetPoll): (Cursor, Poll<seq<Byte>>)
    requires CanRead(c, poll)
  {
    if c.state.Finished? then (c, Complete([]))
    else if c.state.Ready? then Copy(c, c.state.block, room)
    else
      match poll
      case GetPending => (c.(state := if c.state.Idle? then Reading(c.current) else c.state), Pending)
      case GetFailed => (c.(state := Finished), Complete([]))
      case Got(block) => Copy(c, block, room)
  }

  /** Where a seek is headed; the sum for a relative one is taken in 64 bits. */
  function SeekTarget(c: Cursor, pos: SeekFrom): nat {
    match pos
    case FromStart(start) => start
    case FromCurrent(delta) => (c.byteOffset + delta) % U64
  }

  function SeekStep(c: Cursor, pos: SeekFrom, poll: SeekPoll): (Cursor, Poll<nat>) {
    var begun := if c.state.Seeking? then c
                 else c.(byteOffset := SeekTarget(c, pos), state := Seeking(SeekTarget(c, pos)));
    match poll
    case SeekPending => (begun, Pending)
    case Found(index, offset) => (Cursor(index, offset, begun.byteOffset, Idle), Complete(begun.byteOffset))
  }

  // ---- the program's own form ----

  class ByteStream {
    var current: nat
    var blockOffset: nat
    var byteOffset: nat
    var state: State

    constructor ()
      ensures Value() == START
    {
      current, blockOffset, byteOffset, state := 0, 0, 0, Idle;
    }

    ghost function Value(): Cursor
      reads this
    {
      Cursor(current, blockOffset, byteOffset, state)
    }

    /** Copies what fits of the rest of `block` to the front of `buf`. */
    method CopyFrom(block: Block, buf: array<Byte>) returns (len: nat)
      requires blockOffset <= |block|
      modifies buf
      ensures len <= buf.Length && len == |Copy(Value(), block, buf.Length).1.value|
      ensures buf[..len] == Copy(Value(), block, buf.Length).1.value && buf[len..] == old(buf[len..])
    {
      var left := |block| - blockOffset;
      len := if buf.Length < left then buf.Length else left;
      for i := 0 to len
        invariant forall j :: 0 <= j < i ==> buf[j] == block[blockOffset + j]
        invariant forall j :: i <= j < buf.Length ==> buf[j] == old(buf[j])
      {
        buf[i] := block[blockOffset + i];
      }
    }

    /** The step in state `Ready`: hand out bytes and stay in the block or leave it. */
    method TakeFrom(block: Block, buf: array<Byte>) returns (len: nat)
      requires state == Ready(block) && blockOffset <= |block|
      modifies this, buf
      ensures Value() == Copy(old(Value()), block, buf.Length).0
      ensures len <= buf.Length && buf[..len] == Copy(old(Value()), block, buf.Length).1.value
      ensures buf[len..] == old(buf[len..])
    {
      len := CopyFrom(block, buf);
      if blockOffset + len == |block| {
        blockOffset := 0;
        current := current + 1;
        state := Idle;
      } else {
        blockOffset := blockOffset + len;
      }
    }

    /** Fills the front of `buf` and leaves the rest of it alone. */
    method PollRead(buf: array<Byte>, poll: GetPoll) returns (result: Poll<nat>)
      requires CanRead(Value(), poll)
      modifies this, buf
      ensures Value() == ReadStep(old(Value()), buf.Length, poll).0
      ensures result.Pending? == ReadStep(old(Value()), buf.Length, poll).1.Pending?
      ensures result.Pending? ==> forall j :: 0 <= j < buf.Length ==> buf[j] == old(buf[j])
      ensures result.Complete? ==>
                && result.value <= buf.Length
                && buf[..result.value] == ReadStep(old(Value()), buf.Length, poll).1.value
                && buf[result.value..] == old(buf[result.value..])
    {
      ghost var (next, bytes) := ReadStep(Value(), buf.Length, poll);
      var finished := false;
      var pos: nat := 0;
      while !finished
        invariant finished ==> Value() == next && bytes.Complete? && pos <= buf.Length
        invariant finished ==> buf[..pos] == bytes.value && buf[pos..] == old(buf[pos..])
        invariant !finished ==> CanRead(Value(), poll) && ReadStep(Value(), buf.Length, poll) == (next, bytes)
        invariant !finished ==> forall j :: 0 <= j < buf.Length ==> buf[j] == old(buf[j])
        decreases !finished, match state case Idle => 2 case Reading(_) => 1 case _ => 0
      {
        match state {
          case Seeking(_) => assert false;
          case Finished => return Complete(0);
          case Idle => state := Reading(current);
          case Reading(_) =>
            match poll {
              case GetPending => return Pending;
              case GetFailed => state := Finished;
              case Got(block) => state := Ready(block);
            }
          case Ready(block) =>
            pos := TakeFrom(block, buf);
            finished := true;
        }
      }
      result := Complete(pos);
    }

    method PollSeek(from: SeekFrom, poll: SeekPoll) returns (result: Poll<nat>)
      modifies this
      ensures (Value(), result) == SeekStep(old(Value()), from, poll)
    {
      var finished := false;
      while !finished
        invariant !finished ==> SeekStep(Value(), from, poll) == SeekStep(old(Value()), from, poll)
        invariant finished ==> (Value(), Complete(byteOffset)) == SeekStep(old(Value()), from, poll)
        decreases !finished, !state.Seeking?
      {
        match state {
          case Seeking(_) =>
            match poll {
              case SeekPending => return Pending;
              case Found(foundIndex, offset) =>
                current := foundIndex;
                blockOffset := offset;
                finished := true;
                state := Idle;
            }
          case _ =>
            var next := match from case FromStart(start) => start case FromCurrent(delta) => (byteOffset + delta) % U64;
            state := Seeking(next);
            byteOffset := next;
        }
      }
      result := Complete(byteOffset);
    }
  }

  // ---- the stream against the flattened feed ----

  /** How many bytes of the feed lie before the cursor. */
  ghost function Position(store: seq<Block>, c: Cursor): nat {
    if c.current <= |store| then ByteLength(store[..c.current]) + c.blockOffset else 0
  }

  /** The cursor stands inside the feed, and a block at hand is the one it stands in. */
  ghost predicate Placed(store: seq<Block>, c: Cursor) {
    && c.current <= |store|
    && (c.current == |store| ==> c.blockOffset == 0)
    && (c.current < |store| ==> c.blockOffset == 0 || c.blockOffset < |store[c.current]|)
    && !c.state.Seeking?
    && (c.state.Reading? ==> c.state.index == c.current)
    && (c.state.Ready? ==> c.current < |store| && c.state.block == store[c.current])
  }

  /** A fetched block is the feed's block at that index. */
  ghost predicate Faithful(store: seq<Block>, index: nat, poll: GetPoll) {
    poll.Got? ==> index < |store| && poll.block == store[index]
  }

  /** The service also fails only for a block the feed does not have. */
  ghost predicate Honest(store: seq<Block>, index: nat, poll: GetPoll) {
    Faithful(store, index, poll) && (poll.GetFailed? ==> index >= |store|)
  }

  lemma {:induction false} CopyMoves(store: seq<Block>, c: Cursor, room: nat)
    requires Placed(store, c) && c.current < |store|
    ensures var (next, result) := Copy(c, store[c.current], room);
            && Placed(store, next) && |result.value| <= room
            && Position(store, next) == Position(store, c) + |result.value|
  {
    FlattenAt(store, c.current);
  }

  lemma {:induction false} CopyBytes(bytes: seq<Byte>, from: nat, block: Block, c: Cursor, room: nat)
    requires Stretch(bytes, from, block) && c.blockOffset <= |block|
    ensures Stretch(bytes, from + c.blockOffset, Copy(c, block, room).1.value)
  {
  }

  /** From `c` to `next` the bytes `out` have been read: they are the next ones of the feed. */
  ghost predicate Moved(store: seq<Block>, c: Cursor, next: Cursor, out: seq<Byte>) {
    && Placed(store, next) && next.byteOffset == c.byteOffset
    && Stretch(Flatten(store), Position(store, c), out)
    && Position(store, next) == Position(store, c) + |out|
  }

  lemma {:induction false} MovedTwice(
    store: seq<Block>, c: Cursor, mid: Cursor, next: Cursor, a: seq<Byte>, b: seq<Byte>)
    requires Moved(store, c, mid, a) && Moved(store, mid, next, b)
    ensures Moved(store, c, next, a + b)
  {
  }

  lemma {:induction false} MovedOnGrowth(store: seq<Block>, larger: seq<Block>, c: Cursor, next: Cursor, out: seq<Byte>)
    requires store <= larger && Placed(store, c) && Moved(store, c, next, out)
    ensures Moved(larger, c, next, out)
  {
    PlacedOnGrowth(store, larger, c);
    PlacedOnGrowth(store, larger, next);
    assert larger[..|store|] == store;
    FlattenPrefix(larger, |store|);
  }

  lemma {:induction false} PlacedOnGrowth(store: seq<Block>, larger: seq<Block>, c: Cursor)
    requires Placed(store, c) && store <= larger
    ensures Placed(larger, c) && Position(larger, c) == Position(store, c)
  {
    assert larger[..c.current] == store[..c.current];
  }

  /** What a read returns; a pending one returns nothing. */
  function BytesOf(result: Poll<seq<Byte>>): seq<Byte> {
    if result.Complete? then result.value else []
  }

  lemma {:induction false} CopyCorrect(store: seq<Block>, c: Cursor, room: nat)
    requires Placed(store, c) && c.current < |store|
    ensures var (next, result) := Copy(c, store[c.current], room);
            Moved(store, c, next, result.value) && |result.value| <= room
  {
    CopyMoves(store, c, room);
    FlattenAt(store, c.current);
    CopyBytes(Flatten(store), ByteLength(store[..c.current]), store[c.current], c, room);
  }

  /** The block a completed read takes from: the one at hand, or the one that has just been fetched. */
  predicate TakesFrom(c: Cursor, poll: GetPoll) {
    c.state.Ready? || (poll.Got? && !c.state.Finished?)
  }

  /** One read: the bytes are the next ones of the feed, and a pending read moves nothing. */
  lemma {:induction false} ReadStepCorrect(store: seq<Block>, c: Cursor, room: nat, poll: GetPoll)
    requires Placed(store, c) && Faithful(store, c.current, poll)
    ensures CanRead(c, poll)
    ensures var (next, result) := ReadStep(c, room, poll);
            Moved(store, c, next, BytesOf(result)) && |BytesOf(result)| <= room
  {
    InsideFeed(store, c);
    if TakesFrom(c, poll) {
      CopyCorrect(store, c, room);
    }
  }

  /**
   How much one read returns: as much as fits of what is left of the current block. A read that
   leaves room in its buffer has used the block up, and the stream stands at the next one; a read
   that does not keeps the rest of the block for the next.
   */
  lemma {:induction false} ReadLength(store: seq<Block>, c: Cursor, room: nat, poll: GetPoll)
    requires Placed(store, c) && Faithful(store, c.current, poll) && TakesFrom(c, poll)
    ensures CanRead(c, poll) && c.current < |store| && c.blockOffset <= |store[c.current]|
    ensures var (next, result) := ReadStep(c, room, poll);
            var left := |store[c.current]| - c.blockOffset;
            && result.Complete? && |result.value| == (if room <= left then room else left)
            && (if |result.value| == left
                then next.current == c.current + 1 && next.blockOffset == 0 && next.state == Idle
                else next.current == c.current && next.state == Ready(store[c.current]))
  {
  }

  /** Without a block a read is pending and waits for the current block, or comes back empty and ends the stream. */
  lemma {:induction false} ReadWithoutBlock(c: Cursor, room: nat, poll: GetPoll)
    requires CanRead(c, poll) && !TakesFrom(c, poll)
    requires c.state.Reading? ==> c.state.index == c.current
    ensures var (next, result) := ReadStep(c, room, poll);
            && next.current == c.current && next.blockOffset == c.blockOffset && next.byteOffset == c.byteOffset
            && (result == Pending <==> !c.state.Finished? && poll.GetPending?)
            && (result == Pending ==> next.state == Reading(c.current))
            && (result != Pending ==> result == Complete([]) && next.state == Finished)
  {
  }

  lemma {:induction false} InsideFeed(store: seq<Block>, c: Cursor)
    requires Placed(store, c)
    ensures Position(store, c) <= |Flatten(store)|
  {
    FlattenLength(store);
    FlattenPrefix(store, c.current);
    if c.current < |store| {
      FlattenAt(store, c.current);
    }
  }

  /** On a fixed feed, an ended stream is one that has passed every block. */
  ghost predicate EndedAtEnd(store: seq<Block>, c: Cursor) {
    c.state.Finished? ==> c.current == |store|
  }

  /** On a fixed feed of non-empty blocks a read into a non-empty buffer yields nothing exactly at the end. */
  lemma {:induction false} EmptyReadIffEnd(store: seq<Block>, c: Cursor, room: nat, poll: GetPoll)
    requires Placed(store, c) && EndedAtEnd(store, c) && Honest(store, c.current, poll) && room > 0
    requires forall i :: 0 <= i < |store| ==> store[i] != []
    ensures CanRead(c, poll)
    ensures var (next, result) := ReadStep(c, room, poll);
            && EndedAtEnd(store, next)
            && (result.Complete? ==> (result.value == [] <==> Position(store, c) == |Flatten(store)|))
  {
    ReadStepCorrect(store, c, room, poll);
    FlattenLength(store);
    if c.current < |store| {
      FlattenAt(store, c.current);
    } else {
      assert store[..c.current] == store;
    }
  }

  /** A read: the room in the buffer, the outcome of polling, and the feed at that moment. */
  datatype Call = Call(room: nat, poll: GetPoll, store: seq<Block>)

  /** The feed only grows from one call to the next, and fetched blocks are its blocks. */
  ghost predicate CallsOk(store: seq<Block>, c: Cursor, calls: seq<Call>)
    decreases |calls|
  {
    calls == [] || (
      && store <= calls[0].store
      && Faithful(calls[0].store, c.current, calls[0].poll)
      && CanRead(c, calls[0].poll)
      && CallsOk(calls[0].store, ReadStep(c, calls[0].room, calls[0].poll).0, calls[1..]))
  }

  /** Everything the calls return, laid end to end. */
  ghost function Output(store: seq<Block>, c: Cursor, calls: seq<Call>): seq<Byte>
    requires CallsOk(store, c, calls)
    decreases |calls|
  {
    if calls == [] then [] else
      var (next, result) := ReadStep(c, calls[0].room, calls[0].poll);
      BytesOf(result) + Output(calls[0].store, next, calls[1..])
  }

  function LastStore(store: seq<Block>, calls: seq<Call>): seq<Block> {
    if calls == [] then store else calls[|calls| - 1].store
  }

  ghost function CursorAfter(store: seq<Block>, c: Cursor, calls: seq<Call>): Cursor
    requires CallsOk(store, c, calls)
    decreases |calls|
  {
    if calls == [] then c else
      CursorAfter(calls[0].store, ReadStep(c, calls[0].room, calls[0].poll).0, calls[1..])
  }

  /**
   Refinement: whatever the buffer sizes, the pending results and the growth of the feed, what
   the calls return together is the stretch of the flattened feed that begins at the cursor.
   */
  lemma {:induction false} ReadsAreTheBytes(store: seq<Block>, c: Cursor, calls: seq<Call>)
    requires Placed(store, c) && CallsOk(store, c, calls)
    ensures store <= LastStore(store, calls)
    ensures Moved(LastStore(store, calls), c, CursorAfter(store, c, calls), Output(store, c, calls))
    decreases |calls|
  {
    if calls == [] {
      InsideFeed(store, c);
    } else {
      var call, last := calls[0], LastStore(store, calls);
      var (next, result) := ReadStep(c, call.room, call.poll);
      PlacedOnGrowth(store, call.store, c);
      ReadStepCorrect(call.store, c, call.room, call.poll);
      ReadsAreTheBytes(call.store, next, calls[1..]);
      assert LastStore(call.store, calls[1..]) == last;
      MovedOnGrowth(call.store, last, c, next, BytesOf(result));
      MovedTwice(last, c, next, CursorAfter(call.store, next, calls[1..]),
                 BytesOf(result), Output(call.store, next, calls[1..]));
    }
  }

  /** Reads of a feed that does not change, from a service that fails only past its end. */
  ghost predicate FixedCalls(store: seq<Block>, c: Cursor, calls: seq<Call>)
    decreases |calls|
  {
    calls == [] || (
      && calls[0].store == store
      && Honest(store, c.current, calls[0].poll)
      && CanRead(c, calls[0].poll)
      && FixedCalls(store, ReadStep(c, calls[0].room, calls[0].poll).0, calls[1..]))
  }

  lemma {:induction false} FixedCallsKeepEnd(store: seq<Block>, c: Cursor, calls: seq<Call>)
    requires Placed(store, c) && EndedAtEnd(store, c) && FixedCalls(store, c, calls)
    ensures CallsOk(store, c, calls) && EndedAtEnd(store, CursorAfter(store, c, calls))
    ensures LastStore(store, calls) == store
    decreases |calls|
  {
    if calls != [] {
      ReadStepCorrect(store, c, calls[0].room, calls[0].poll);
      FixedCallsKeepEnd(store, ReadStep(c, calls[0].room, calls[0].poll).0, calls[1..]);
    }
  }

  /**
   End of stream: after any reads of a fixed feed of non-empty blocks, a further read into a
   non-empty buffer returns nothing exactly when all bytes have been returned.
   */
  lemma {:induction false} EndOnlyAfterAllBytes(store: seq<Block>, calls: seq<Call>, room: nat, poll: GetPoll)
    requires FixedCalls(store, START, calls) && room > 0
    requires forall i :: 0 <= i < |store| ==> store[i] != []
    requires CallsOk(store, START, calls) && Honest(store, CursorAfter(store, START, calls).current, poll)
    ensures CanRead(CursorAfter(store, START, calls), poll)
    ensures var result := ReadStep(CursorAfter(store, START, calls), room, poll).1;
            result.Complete? ==> (result.value == [] <==> Output(store, START, calls) == Flatten(store))
  {
    FixedCallsKeepEnd(store, START, calls);
    ReadsAreTheBytes(store, START, calls);
    EmptyReadIffEnd(store, CursorAfter(store, START, calls), room, poll);
    StretchIsSlice(Flatten(store), 0, Output(store, START, calls));
  }

  /**
   A failed fetch ends the stream: every later read returns nothing, whatever is fetched and however
   the feed has grown, until a seek.
   */
  lemma {:induction false} NothingAfterFailure(store: seq<Block>, c: Cursor, calls: seq<Call>)
    requires c.state.Finished? && CallsOk(store, c, calls)
    ensures Output(store, c, calls) == [] && CursorAfter(store, c, calls) == c
    decreases |calls|
  {
    if calls != [] {
      NothingAfterFailure(calls[0].store, c, calls[1..]);
    }
  }

  // ---- seeking ----

  /** `(block, offset)` is the place of byte `at`: inside a block, or at the end of the feed. */
  ghost predicate Splits(store: seq<Block>, at: nat, block: nat, offset: nat) {
    && block <= |store|
    && (block < |store| ==> offset < |store[block]|)
    && (block == |store| ==> offset == 0)
    && ByteLength(store[..block]) + offset == at
  }

  /** A relative seek counts from the last byte sought, in 64 bits; a seek ends in no other state than `Idle`. */
  lemma {:induction false} SeekTargets(c: Cursor, start: nat, delta: int)
    ensures SeekTarget(c, FromStart(start)) == start
    ensures 0 <= c.byteOffset + delta < U64 ==> SeekTarget(c, FromCurrent(delta)) == c.byteOffset + delta
    ensures c.byteOffset < U64 && -U64 <= delta && c.byteOffset + delta < 0 ==>
              SeekTarget(c, FromCurrent(delta)) == c.byteOffset + delta + U64
  {
  }

  /**
   A seek looks up the very byte it will report: it is begun with its target, goes on with the same
   target however it is polled, and reports that target when the lookup completes.
   */
  lemma {:induction false} SeekLooksUpItsTarget(c: Cursor, pos: SeekFrom, again: SeekFrom, index: nat, offset: nat)
    ensures var target := if c.state.Seeking? then c.byteOffset else SeekTarget(c, pos);
            var (begun, result) := SeekStep(c, pos, SeekPending);
            && result == Pending && begun.byteOffset == target
            && begun.current == c.current && begun.blockOffset == c.blockOffset
            && begun.state == (if c.state.Seeking? then c.state else Seeking(target))
            && SeekStep(begun, again, SeekPending) == (begun, Pending)
            && SeekStep(begun, again, Found(index, offset)) == (Cursor(index, offset, target, Idle), Complete(target))
  {
  }

  /** The same seek polled again until it completes; every result before that is pending. */
  function SeekUntil(c: Cursor, at: nat, pendings: nat, index: nat, offset: nat): (Cursor, Poll<nat>)
    decreases pendings
  {
    if pendings == 0 then SeekStep(c, FromStart(at), Found(index, offset))
    else SeekUntil(SeekStep(c, FromStart(at), SeekPending).0, at, pendings - 1, index, offset)
  }

  /** Where a seek to `at` really goes: an outstanding seek is continued and the new target ignored. */
  function Goal(c: Cursor, at: nat): nat {
    if c.state.Seeking? then c.byteOffset else at
  }

  /**
   From every state a seek completes at its goal. It reports the byte asked for exactly when no
   seek to another byte was outstanding.
   */
  lemma {:induction false} SeekUntilCompletes(c: Cursor, at: nat, pendings: nat, index: nat, offset: nat)
    ensures SeekUntil(c, at, pendings, index, offset)
            == (Cursor(index, offset, Goal(c, at), Idle), Complete(Goal(c, at)))
    ensures SeekUntil(c, at, pendings, index, offset).1 == Complete(at)
            <==> !c.state.Seeking? || c.byteOffset == at
    decreases pendings
  {
    if pendings > 0 {
      SeekUntilCompletes(SeekStep(c, FromStart(at), SeekPending).0, at, pendings - 1, index, offset);
    }
  }

  /**
   Seek then read: from every state, also after the end was reached and also with a seek
   outstanding, the reads after a completed seek return the bytes of the feed from the byte that
   the seek reported.
   */
  lemma {:induction false} SeekThenRead(
    c: Cursor, at: nat, pendings: nat, store: seq<Block>, index: nat, offset: nat, calls: seq<Call>)
    requires Splits(store, Goal(c, at), index, offset)
    requires CallsOk(store, SeekUntil(c, at, pendings, index, offset).0, calls)
    ensures var (sought, result) := SeekUntil(c, at, pendings, index, offset);
            && result == Complete(Goal(c, at))
            && Stretch(Flatten(LastStore(store, calls)), Goal(c, at), Output(store, sought, calls))
  {
    SeekUntilCompletes(c, at, pendings, index, offset);
    ReadFrom(store, Cursor(index, offset, Goal(c, at), Idle), Goal(c, at), calls);
  }

  /** A seek to `a` that is dropped while pending makes the next seek, to `b`, arrive at `a`. */
  lemma {:induction false} DroppedSeek(a: nat, b: nat, index: nat, offset: nat)
    requires a != b
    ensures var (dropped, first) := SeekStep(START, FromStart(a), SeekPending);
            && first == Pending
            && SeekUntil(dropped, b, 0, index, offset) == (Cursor(index, offset, a, Idle), Complete(a))
            && SeekUntil(dropped, b, 0, index, offset).1 != Complete(b)
  {
  }

  lemma {:induction false} ReadFrom(store: seq<Block>, c: Cursor, at: nat, calls: seq<Call>)
    requires Placed(store, c) && Position(store, c) == at && CallsOk(store, c, calls)
    ensures Stretch(Flatten(LastStore(store, calls)), at, Output(store, c, calls))
  {
    ReadsAreTheBytes(store, c, calls);
    PlacedOnGrowth(store, LastStore(store, calls), c);
  }

  /**
   Reading does not advance the offset that relative seeks count from: after a seek to `at` and
   some reads, a relative seek goes where it says, from the reading position, exactly when the
   reads returned nothing.
   */
  lemma {:induction false} RelativeSeekIffNothingRead(store: seq<Block>, sought: Cursor, calls: seq<Call>, delta: int)
    requires Placed(store, sought) && sought.byteOffset == Position(store, sought) && CallsOk(store, sought, calls)
    requires 0 <= sought.byteOffset + delta
    requires Position(LastStore(store, calls), CursorAfter(store, sought, calls)) + delta < U64
    ensures var after := CursorAfter(store, sought, calls);
            SeekTarget(after, FromCurrent(delta)) == Position(LastStore(store, calls), after) + delta
            <==> Output(store, sought, calls) == []
  {
    ReadsAreTheBytes(store, sought, calls);
    PlacedOnGrowth(store, LastStore(store, calls), sought);
  }

  /** One read of a block, then a seek by nothing: it goes back to the start of the feed. */
  lemma {:induction false} RelativeSeekAfterReading(block: Block)
    requires block != []
    ensures var store, calls := [block], [Call(|block|, Got(block), [block])];
            && CallsOk(store, START, calls) && Output(store, START, calls) == block
            && Position(store, CursorAfter(store, START, calls)) == |block|
            && SeekTarget(CursorAfter(store, START, calls), FromCurrent(0)) == 0
  {
    var store, calls := [block], [Call(|block|, Got(block), [block])];
    assert CallsOk(store, Cursor(1, 0, 0, Idle), calls[1..]);
    assert store[..1] == store && store[..0] == [];
    assert CursorAfter(store, START, calls) == CursorAfter(store, Cursor(1, 0, 0, Idle), calls[1..]);
    FlattenAt(store, 0);
  }
}
