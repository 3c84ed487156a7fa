/**
 * What a generated sequence of blocks is good for: GetSequenceParent names the
 * hash a following block must carry as its parent, and a second GenSequence
 * started from that hash and the next height continues the first one.
 */
module SequenceFacts {
  import opened GoTypes
  import opened Proto
  import opened LogsBloom
  import opened Fixtures
  import opened TestEntity

  /**
   * Appending a block to a non-empty chained sequence keeps it chained exactly
   * when the block's parent hash is GetSequenceParent of the sequence.
   */
  lemma AppendKeepsChain(blocks: seq<Block>, b: Block)
    requires |blocks| > 0 && Chained(blocks)
    ensures Chained(blocks + [b]) <==> b.header.parentHash == GetSequenceParent(blocks)
  {
    var s := blocks + [b];
    assert s[|blocks|] == b && s[|blocks| - 1] == blocks[|blocks| - 1];
    if b.header.parentHash == GetSequenceParent(blocks) {
      forall i | 1 <= i < |s|
        ensures s[i].header.parentHash == s[i - 1].header.blockHash
      {
        if i < |blocks| {
          assert s[i] == blocks[i] && s[i - 1] == blocks[i - 1];
        }
      }
    }
  }

  /** Two chained sequences joined where the second names the first's last hash form one chain. */
  lemma ConcatKeepsChain(s1: seq<Block>, s2: seq<Block>)
    requires Chained(s1) && Chained(s2)
    requires |s1| > 0 && |s2| > 0 ==> s2[0].header.parentHash == GetSequenceParent(s1)
    ensures Chained(s1 + s2)
  {
    var s := s1 + s2;
    forall i | 1 <= i < |s|
      ensures s[i].header.parentHash == s[i - 1].header.blockHash
    {
      if i < |s1| {
        assert s[i] == s1[i] && s[i - 1] == s1[i - 1];
      } else if i == |s1| {
        assert s[i] == s2[0] && s[i - 1] == s1[|s1| - 1];
      } else {
        assert s[i] == s2[i - |s1|] && s[i - 1] == s2[i - 1 - |s1|];
      }
    }
  }

  /** Heights keep counting across the join, even past the uint64 wrap-around. */
  lemma WrapShift(h: uint64, n: nat, k: nat)
    ensures WrapUint64(WrapUint64(h + n) + k) == WrapUint64(h + n + k)
  {
    var m := TWO_TO_THE_64;
    var q := (h + n) / m;
    assert h + n == q * m + WrapUint64(h + n);
    assert WrapUint64(h + n) + k == (h + n + k) - q * m;
  }

  /** In a generated sequence each block sits one above its predecessor, as a uint64. */
  lemma HeightsStepByOne(blocks: seq<Block>, blocksCount: int, blockchainName: string,
                         blockHeight: uint64, blockHash: Bytes, parentHash: Bytes,
                         txsCount: int, add: BloomAdd)
    requires IsGeneratedSequence(blocks, blocksCount, blockchainName, blockHeight, blockHash,
                                 parentHash, txsCount, add)
    ensures forall i :: 1 <= i < |blocks| ==>
              blocks[i].header.blockHeight == WrapUint64(blocks[i - 1].header.blockHeight + 1)
  {
    forall i | 1 <= i < |blocks|
      ensures blocks[i].header.blockHeight == WrapUint64(blocks[i - 1].header.blockHeight + 1)
    {
      assert blocks[i - 1].header.blockHeight == WrapUint64(blockHeight + (i - 1));
      WrapShift(blockHeight, i - 1, 1);
    }
  }

  /**
   * Extending a sequence: a GenSequence of n1 > 0 blocks followed by a
   * GenSequence of n2 >= 0 blocks at height `blockHeight + n1`, started from a
   * fresh 32-byte hash and GetSequenceParent of the first, is a GenSequence of
   * n1 + n2 blocks.
   */
  lemma ExtendSequence(s1: seq<Block>, n1: int, s2: seq<Block>, n2: int, blockchainName: string,
                       blockHeight: uint64, blockHash: Bytes, parentHash: Bytes,
                       nextHash: Bytes, txsCount: int, add: BloomAdd)
    requires n1 > 0 && n2 >= 0 && IsHash(nextHash)
    requires IsGeneratedSequence(s1, n1, blockchainName, blockHeight, blockHash, parentHash, txsCount, add)
    requires IsGeneratedSequence(s2, n2, blockchainName, WrapUint64(blockHeight + n1), nextHash,
                                 GetSequenceParent(s1), txsCount, add)
    ensures IsGeneratedSequence(s1 + s2, n1 + n2, blockchainName, blockHeight, blockHash,
                                parentHash, txsCount, add)
  {
    var s := s1 + s2;
    ConcatKeepsChain(s1, s2);
    forall i | 0 <= i < |s|
      ensures IsBlockWithTxs(s[i], blockchainName, WrapUint64(blockHeight + i),
                             s[i].header.blockHash, s[i].header.parentHash,
                             txsCount, TX_INPUT_SIZE, add)
      ensures i >= 1 ==> IsHash(s[i].header.blockHash)
    {
      if i < |s1| {
        assert s[i] == s1[i];
      } else {
        var k := i - |s1|;
        assert s[i] == s2[k];
        assert blockHeight + n1 + k == blockHeight + i;
        WrapShift(blockHeight, n1, k);
        assert IsBlockWithTxs(s2[k], blockchainName, WrapUint64(WrapUint64(blockHeight + n1) + k),
                              s2[k].header.blockHash, s2[k].header.parentHash,
                              txsCount, TX_INPUT_SIZE, add);
      }
    }
    assert s[0] == s1[0];
  }
}
