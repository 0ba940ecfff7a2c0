/** Values shared by every component: bytes, blocks, optional values and byte sums. */
module Common {

  newtype Byte = x: int | 0 <= x < 256

  /** One entry of a feed. */
  type Block = seq<Byte>

  datatype Option<+T> = None | Some(value: T) {
    function GetOr(default: T): T {
      if Some? then value else default
    }
  }

  /** The bytes of the first blocks of a feed laid end to end. */
  ghost function Flatten(blocks: seq<Block>): seq<Byte> {
    if blocks == [] then [] else Flatten(blocks[..|blocks| - 1]) + blocks[|blocks| - 1]
  }

  /** Number of bytes in a sequence of blocks: what a feed reports as its byte length. */
  function ByteLength(blocks: seq<Block>): nat {
    if blocks == [] then 0 else ByteLength(blocks[..|blocks| - 1]) + |blocks[|blocks| - 1]|
  }

  lemma {:induction false} FlattenLength(blocks: seq<Block>)
    ensures |Flatten(blocks)| == ByteLength(blocks)
  {
    if blocks != [] {
      FlattenLength(blocks[..|blocks| - 1]);
    }
  }

  /** Flattening a prefix of the blocks gives a prefix of the bytes. */
  lemma {:induction false} FlattenPrefix(blocks: seq<Block>, n: nat)
    requires n <= |blocks|
    ensures Flatten(blocks[..n]) <= Flatten(blocks)
    ensures ByteLength(blocks[..n]) <= ByteLength(blocks)
    decreases |blocks|
  {
    if n == |blocks| {
      assert blocks[..n] == blocks;
    } else {
      var init := blocks[..|blocks| - 1];
      FlattenPrefix(init, n);
      assert init[..n] == blocks[..n];
    }
  }

  /** `part` is what follows the first `from` bytes of `bytes`. */
  ghost predicate Stretch(bytes: seq<Byte>, from: nat, part: seq<Byte>) {
    from + |part| <= |bytes| && forall i :: 0 <= i < |part| ==> part[i] == bytes[from + i]
  }

  lemma {:induction false} StretchIsSlice(bytes: seq<Byte>, from: nat, part: seq<Byte>)
    ensures Stretch(bytes, from, part) <==> from + |part| <= |bytes| && bytes[from..from + |part|] == part
  {
  }

  /** Block `n` sits in the flattened bytes right after the blocks before it. */
  lemma {:induction false} FlattenAt(blocks: seq<Block>, n: nat)
    requires n < |blocks|
    ensures ByteLength(blocks[..n]) + |blocks[n]| == ByteLength(blocks[..n + 1]) <= |Flatten(blocks)|
    ensures Stretch(Flatten(blocks), ByteLength(blocks[..n]), blocks[n])
  {
    var upTo := blocks[..n + 1];
    assert upTo[..n] == blocks[..n];
    FlattenPrefix(blocks, n + 1);
    FlattenLength(upTo);
    FlattenLength(blocks[..n]);
    assert Flatten(upTo) == Flatten(blocks[..n]) + blocks[n];
  }
}
