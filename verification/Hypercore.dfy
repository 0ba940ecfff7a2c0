/**
 The part of a hypercore feed that the replicator relies on.

 A Merkle proof with its signature is represented by the sequence of blocks it commits
 to: accepting a block against a proof means that the block is the one committed to at
 that index. Everything about hashing and signing is hidden behind this one rule.
 */
module Hypercore {
  import opened Common

  datatype Proof = Proof(signed: seq<Block>)

  datatype FeedEvent = Append | Download(index: nat) | OtherEvent

  /**
   A feed holds some of its blocks, and knows how long the signed log is. The writer's
   copy holds every block; a replica may be sparse.
   */
  datatype Feed = Feed(blocks: map<nat, Block>, signed: seq<Block>) {

    function Len(): nat {
      |signed|
    }

    predicate Has(index: nat) {
      index in blocks
    }

    function Get(index: nat): Option<Block> {
      if index in blocks then Some(blocks[index]) else None
    }

    /** A proof exists for every index below the known length. */
    function ProofOf(index: nat): Option<Proof> {
      if index < |signed| then Some(Proof(signed)) else None
    }

    /** The bits a `Want` for `length` entries from `start` asks about. */
    function Window(start: nat, length: nat): (bits: seq<bool>)
      ensures |bits| == length
      ensures forall i :: 0 <= i < length ==> (bits[i] <==> Has(start + i))
    {
      seq(length, i requires 0 <= i < length => start + i in blocks)
    }

    /** Whether `Put` accepts the block: it is the one the proof commits to, and the proof is for this log. */
    predicate Accepts(index: nat, value: Option<Block>, proof: Proof) {
      && index < |proof.signed|
      && (value.Some? ==> value.value == proof.signed[index])
      && (proof.signed <= signed || signed <= proof.signed)
    }

    /** Stores an accepted block and learns the length the proof attests to. */
    function Put(index: nat, value: Option<Block>, proof: Proof): Feed
      requires Accepts(index, value, proof)
    {
      Feed(if value.Some? then blocks[index := value.value] else blocks,
           if |signed| < |proof.signed| then proof.signed else signed)
    }

    /** The feed with one more block, as its writer extends it. */
    function Extend(block: Block): Feed {
      Feed(blocks[|signed| := block], signed + [block])
    }

    /** A copy that holds every block of its log: the writer's. */
    ghost predicate Complete() {
      && (forall k: nat :: k in blocks <==> k < |signed|)
      && (forall k: nat :: k < |signed| ==> blocks[k] == signed[k])
    }

    /** A copy whose blocks and length are taken from `log`. */
    ghost predicate CopyOf(log: seq<Block>) {
      && signed <= log
      && (forall k: nat :: k in blocks ==> k < |log| && blocks[k] == log[k])
    }
  }
}
