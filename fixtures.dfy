/**
 * The shapes the fixture generators promise: which fields they copy from their
 * arguments, which counts and sizes are fixed, and how a generated sequence of
 * blocks is chained. Random values appear here only through their lengths and
 * ranges.
 */
module Fixtures {
  import opened GoTypes
  import opened Proto
  import opened LogsBloom

  const ADDRESS_LENGTH: nat := 20
  const HASH_LENGTH: nat := 32

  /** Every log GenLog builds has two topics; every block GenBlock builds has two uncles. */
  const LOG_TOPICS_COUNT: nat := 2
  const BLOCK_UNCLES_COUNT: nat := 2

  /** The fixed arguments GenBlockWithTxs passes to GenTx. */
  const TX_INPUT_SIZE: int64 := 500
  const TX_LOGS_COUNT: int64 := 10
  const TX_LOG_DATA_SIZE: int64 := 40

  /** The receipt status GenTxWithLogs always sets: success. */
  const TX_STATUS_SUCCESS: uint64 := 1

  predicate IsAddress(b: Bytes) { |b| == ADDRESS_LENGTH }

  predicate IsHash(b: Bytes) { |b| == HASH_LENGTH }

  /** A log as GenLog builds it for payloads of `dataSize` bytes. */
  ghost predicate IsGeneratedLog(log: EthLog, dataSize: int)
  {
    && IsAddress(log.address)
    && |log.topics| == LOG_TOPICS_COUNT
    && (forall t :: 0 <= t < |log.topics| ==> IsHash(log.topics[t]))
    && |log.data| == dataSize
    && !log.removed
  }

  /** A transaction as GenTxWithLogs builds it from these arguments and `logs`. */
  ghost predicate IsTxWithLogs(tx: Transaction, blockchainName: string, blockHeight: uint64,
                               blockHash: Bytes, transactionHash: Bytes, transactionIndex: uint64,
                               inputSize: int, logs: seq<EthLog>)
  {
    && tx.blockchainName == blockchainName
    && tx.blockHeight == blockHeight
    && tx.blockHash == blockHash
    && tx.transactionHash == transactionHash
    && tx.transactionIndex == transactionIndex
    && tx.specific.EthTx?
    && var eth := tx.specific.ethTx;
    && IsAddress(eth.from)
    && IsAddress(eth.to)
    && IsHash(eth.value)
    && IsHash(eth.gasPrice)
    && |eth.input| == inputSize
    && IsAddress(eth.contractAddress)
    && eth.status == TX_STATUS_SUCCESS
    && eth.logs == logs
  }

  /** A transaction as GenTx builds it: `logsCount` fresh logs of `logsDataSize` bytes each. */
  ghost predicate IsGeneratedTx(tx: Transaction, blockchainName: string, blockHeight: uint64,
                                blockHash: Bytes, transactionHash: Bytes, transactionIndex: uint64,
                                inputSize: int, logsCount: int, logsDataSize: int)
  {
    && tx.specific.EthTx?
    && var logs := tx.specific.ethTx.logs;
    && IsTxWithLogs(tx, blockchainName, blockHeight, blockHash, transactionHash, transactionIndex,
                    inputSize, logs)
    && |logs| == Iterations(logsCount)
    && forall k :: 0 <= k < |logs| ==> IsGeneratedLog(logs[k], logsDataSize)
  }

  /** The chain-specific header fields GenBlock draws at random, by their sizes. */
  ghost predicate IsGeneratedEthBlock(e: EthBlock)
  {
    && IsAddress(e.nonce)
    && IsHash(e.sha3Uncles)
    && IsHash(e.transactionsRoot)
    && IsHash(e.stateRoot)
    && IsAddress(e.miner)
    && IsHash(e.difficulty)
    && IsHash(e.totalDifficulty)
    && IsHash(e.extraData)
    && |e.uncles| == BLOCK_UNCLES_COUNT
    && forall u :: 0 <= u < |e.uncles| ==> IsHash(e.uncles[u])
  }

  /** A block as GenBlock builds it around `transactions`. */
  ghost predicate IsGeneratedBlock(b: Block, blockchainName: string, blockHeight: uint64,
                                   blockHash: Bytes, parentHash: Bytes,
                                   transactions: seq<Transaction>, add: BloomAdd)
  {
    && AllEth(transactions)
    && b.header.blockchainName == blockchainName
    && b.header.blockHeight == blockHeight
    && b.header.blockHash == blockHash
    && b.header.parentHash == parentHash
    && b.header.transactionsCount == |transactions|
    && b.transactions == transactions
    && IsGeneratedEthBlock(b.header.ethBlock)
    && b.header.ethBlock.logsBloom == LogsBloomOf(add, transactions)
  }

  /**
   * A block as GenBlockWithTxs builds it: `txsCount` transactions (none when
   * negative), the i-th at index i, each with 10 logs of 40 bytes, an input of
   * `inputSize` bytes, a 32-byte hash and the block's name, height and hash.
   */
  ghost predicate IsBlockWithTxs(b: Block, blockchainName: string, blockHeight: uint64,
                                 blockHash: Bytes, parentHash: Bytes, txsCount: int,
                                 inputSize: int, add: BloomAdd)
  {
    && IsGeneratedBlock(b, blockchainName, blockHeight, blockHash, parentHash, b.transactions, add)
    && |b.transactions| == Iterations(txsCount)
    && forall i :: 0 <= i < |b.transactions| ==>
         && IsHash(b.transactions[i].transactionHash)
         && IsGeneratedTx(b.transactions[i], blockchainName, blockHeight, blockHash,
                          b.transactions[i].transactionHash, i, inputSize,
                          TX_LOGS_COUNT, TX_LOG_DATA_SIZE)
  }

  /** Each block's parent hash is the previous block's hash. */
  ghost predicate Chained(blocks: seq<Block>)
  {
    forall i :: 1 <= i < |blocks| ==> blocks[i].header.parentHash == blocks[i - 1].header.blockHash
  }

  /**
   * Blocks as GenSequence builds them, however many: named `blockchainName`,
   * the i-th at height `blockHeight + i` (wrapping as uint64), each a
   * GenBlockWithTxs block with `txsCount` transactions; the first keeps the
   * given hash and parent hash, every later one has a fresh 32-byte hash and
   * its predecessor's hash as parent.
   */
  ghost predicate IsSequenceFrom(blocks: seq<Block>, blockchainName: string, blockHeight: uint64,
                                 blockHash: Bytes, parentHash: Bytes, txsCount: int, add: BloomAdd)
  {
    && (forall i :: 0 <= i < |blocks| ==>
          IsBlockWithTxs(blocks[i], blockchainName, WrapUint64(blockHeight + i),
                         blocks[i].header.blockHash, blocks[i].header.parentHash,
                         txsCount, TX_INPUT_SIZE, add))
    && (|blocks| > 0 ==> blocks[0].header.blockHash == blockHash && blocks[0].header.parentHash == parentHash)
    && Chained(blocks)
    && forall i :: 1 <= i < |blocks| ==> IsHash(blocks[i].header.blockHash)
  }

  /** A sequence as GenSequence builds it: `blocksCount` blocks, none when not positive. */
  ghost predicate IsGeneratedSequence(blocks: seq<Block>, blocksCount: int, blockchainName: string,
                                      blockHeight: uint64, blockHash: Bytes, parentHash: Bytes,
                                      txsCount: int, add: BloomAdd)
  {
    && |blocks| == Iterations(blocksCount)
    && IsSequenceFrom(blocks, blockchainName, blockHeight, blockHash, parentHash, txsCount, add)
  }

  /**
   * One more block keeps a sequence generated: the block at the next height,
   * with the given hash and parent hash if it is the first, else with a
   * 32-byte hash and the last block's hash as its parent.
   */
  lemma SequenceFromSnoc(blocks: seq<Block>, b: Block, blockchainName: string, blockHeight: uint64,
                         blockHash: Bytes, parentHash: Bytes, txsCount: int, add: BloomAdd)
    requires IsSequenceFrom(blocks, blockchainName, blockHeight, blockHash, parentHash, txsCount, add)
    requires IsBlockWithTxs(b, blockchainName, WrapUint64(blockHeight + |blocks|),
                            b.header.blockHash, b.header.parentHash, txsCount, TX_INPUT_SIZE, add)
    requires |blocks| == 0 ==> b.header.blockHash == blockHash && b.header.parentHash == parentHash
    requires |blocks| > 0 ==> b.header.parentHash == blocks[|blocks| - 1].header.blockHash && IsHash(b.header.blockHash)
    ensures IsSequenceFrom(blocks + [b], blockchainName, blockHeight, blockHash, parentHash, txsCount, add)
  {
    var s := blocks + [b];
    forall i | 0 <= i < |s|
      ensures IsBlockWithTxs(s[i], blockchainName, WrapUint64(blockHeight + i),
                             s[i].header.blockHash, s[i].header.parentHash,
                             txsCount, TX_INPUT_SIZE, add)
      ensures i >= 1 ==> s[i].header.parentHash == s[i - 1].header.blockHash && IsHash(s[i].header.blockHash)
    {
      if i < |blocks| {
        assert s[i] == blocks[i];
        if i >= 1 {
          assert s[i - 1] == blocks[i - 1];
        }
      } else {
        assert s[i] == b;
        if i >= 1 {
          assert s[i - 1] == blocks[|blocks| - 1];
        }
      }
    }
  }

  /** A name as the name generators build it: `letters` letters A-Z, then `suffix`. */
  predicate IsRandomName(name: string, letters: nat, suffix: string)
  {
    && |name| == letters + |suffix|
    && (forall i :: 0 <= i < letters ==> 'A' <= name[i] <= 'Z')
    && name[letters..] == suffix
  }
}
