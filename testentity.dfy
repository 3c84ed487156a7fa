/**
 * The fixture generators of testentity/entity.go. Each random draw is a call
 * into GoRand, so only the shape of what is built is determined: the fields
 * copied from the arguments, the counts, the sizes and the chaining of block
 * hashes. go-ethereum's bloom Add is the parameter `add` throughout.
 */
module TestEntity {
  import opened GoTypes
  import opened Proto
  import opened LogsBloom
  import opened Fixtures
  import GoRand
  import Hex

  const LETTERS: string := "ABCDEFGHIJKLMNOPQRSTUVWXYZ"
  const BLOCKCHAIN_NAME_LETTERS: nat := 10
  const CURRENCY_NAME_LETTERS: nat := 3
  const CONSUMER_NAME: string := "test-consumer"

  /** `size` random bytes; Go's make panics on a negative size. */
  method GenBytes(size: int64) returns (token: Bytes)
    requires size >= 0
    ensures |token| == size
  {
    var buf := new byte[size];
    GoRand.Read(buf);
    token := buf[..];
  }

  method GenAddress() returns (token: Bytes)
    ensures IsAddress(token)
  {
    token := GenBytes(ADDRESS_LENGTH as int64);
  }

  method GenHash() returns (token: Bytes)
    ensures IsHash(token)
  {
    token := GenBytes(HASH_LENGTH as int64);
  }

  /** A random height that fits in 32 bits, widened to uint64. */
  method GenBlockHeight() returns (height: uint64)
    ensures height < TWO_TO_THE_32
  {
    var h := GoRand.Uint32();
    height := h;
  }

  /** The hash a block appended to `blocks` must name as its parent; Go panics on an empty slice. */
  function GetSequenceParent(blocks: seq<Block>): Bytes
    requires |blocks| > 0
  {
    blocks[|blocks| - 1].header.blockHash
  }

  /**
   * `blocksCount` chained blocks starting at `blockHeight`. The first block gets
   * `blockHash` and `parentHash`; then the parent becomes the last hash and the
   * hash a fresh one.
   */
  method GenSequence(blocksCount: int64, blockchainName: string, blockHeight: uint64,
                     blockHash: Bytes, parentHash: Bytes, txsCount: int64, add: BloomAdd)
    returns (blocks: seq<Block>)
    ensures IsGeneratedSequence(blocks, blocksCount, blockchainName, blockHeight, blockHash,
                                parentHash, txsCount, add)
  {
    blocks := [];
    var hash, parent := blockHash, parentHash;
    var i: int64 := 0;
    while i < blocksCount
      invariant 0 <= i as int == |blocks| <= Iterations(blocksCount)
      invariant IsSequenceFrom(blocks, blockchainName, blockHeight, blockHash, parentHash, txsCount, add)
      invariant i == 0 ==> hash == blockHash && parent == parentHash
      invariant i > 0 ==> parent == blocks[i - 1].header.blockHash && IsHash(hash)
    {
      var block := GenBlockWithTxs(blockchainName, WrapUint64(blockHeight + i), hash, parent, txsCount, add);
      SequenceFromSnoc(blocks, block, blockchainName, blockHeight, blockHash, parentHash, txsCount, add);
      blocks := blocks + [block];
      parent := hash;
      hash := GenHash();
      i := i + 1;
    }
  }

  /** A block of `txsCount` transactions, each with 10 logs of 40 bytes and a 500-byte input. */
  method GenBlockWithTxs(blockchainName: string, blockHeight: uint64, blockHash: Bytes,
                         parentHash: Bytes, txsCount: int64, add: BloomAdd)
    returns (block: Block)
    ensures IsBlockWithTxs(block, blockchainName, blockHeight, blockHash, parentHash, txsCount,
                           TX_INPUT_SIZE, add)
  {
    var transactions := GenTxs(blockchainName, blockHeight, blockHash, txsCount, TX_INPUT_SIZE);
    block := GenBlock(blockchainName, blockHeight, blockHash, parentHash, transactions, add);
  }

  /**
   * Like GenBlockWithTxs, but each input is `inputSize` bytes and the parent
   * hash is a fresh random hash.
   */
  method GenBlockWithLargeTxs(blockchainName: string, blockHeight: uint64, blockHash: Bytes,
                              txsCount: int64, inputSize: int64, add: BloomAdd)
    returns (block: Block)
    requires txsCount > 0 ==> inputSize >= 0
    ensures IsHash(block.header.parentHash)
    ensures IsBlockWithTxs(block, blockchainName, blockHeight, blockHash, block.header.parentHash,
                           txsCount, inputSize, add)
  {
    var transactions := GenTxs(blockchainName, blockHeight, blockHash, txsCount, inputSize);
    var parentHash := GenHash();
    block := GenBlock(blockchainName, blockHeight, blockHash, parentHash, transactions, add);
  }

  /**
   * The loop GenBlockWithTxs and GenBlockWithLargeTxs share: transaction i gets
   * a fresh hash and index i.
   */
  method GenTxs(blockchainName: string, blockHeight: uint64, blockHash: Bytes,
                txsCount: int64, inputSize: int64)
    returns (transactions: seq<Transaction>)
    requires txsCount > 0 ==> inputSize >= 0
    ensures |transactions| == Iterations(txsCount)
    ensures forall i :: 0 <= i < |transactions| ==>
              && IsHash(transactions[i].transactionHash)
              && IsGeneratedTx(transactions[i], blockchainName, blockHeight, blockHash,
                               transactions[i].transactionHash, i, inputSize,
                               TX_LOGS_COUNT, TX_LOG_DATA_SIZE)
  {
    transactions := [];
    var i: int64 := 0;
    while i < txsCount
      invariant 0 <= i as int == |transactions| <= Iterations(txsCount)
      invariant forall k :: 0 <= k < |transactions| ==>
                  && IsHash(transactions[k].transactionHash)
                  && IsGeneratedTx(transactions[k], blockchainName, blockHeight, blockHash,
                                   transactions[k].transactionHash, k, inputSize,
                                   TX_LOGS_COUNT, TX_LOG_DATA_SIZE)
    {
      var transactionHash := GenHash();
      var tx := GenTx(blockchainName, blockHeight, blockHash, transactionHash, i as uint64,
                      inputSize, TX_LOGS_COUNT, TX_LOG_DATA_SIZE);
      transactions := transactions + [tx];
      i := i + 1;
    }
  }

  /**
   * A block around `transactions`, with random header fields. The bloom is
   * computed from the transactions' logs, which requires every transaction to
   * be an Ethereum one; the count is `len(transactions)` and cannot wrap since
   * a Go slice's length is an int.
   */
  method GenBlock(blockchainName: string, blockHeight: uint64, blockHash: Bytes, parentHash: Bytes,
                  transactions: seq<Transaction>, add: BloomAdd)
    returns (block: Block)
    requires AllEth(transactions)
    requires |transactions| < TWO_TO_THE_63
    ensures IsGeneratedBlock(block, blockchainName, blockHeight, blockHash, parentHash,
                             transactions, add)
  {
    var timestamp := GoRand.Uint64();
    var nonce := GenAddress();
    var sha3Uncles := GenHash();
    var transactionsRoot := GenHash();
    var stateRoot := GenHash();
    var miner := GenAddress();
    var difficulty := GenHash();
    var totalDifficulty := GenHash();
    var extraData := GenHash();
    var size := GoRand.Uint64();
    var gasLimit := GoRand.Uint64();
    var gasUsed := GoRand.Uint64();
    var uncle0 := GenHash();
    var uncle1 := GenHash();
    var logsBloom := GenLogsBloom(transactions, add);
    var ethBlock := EthBlock(nonce, sha3Uncles, transactionsRoot, stateRoot, miner, difficulty,
                             totalDifficulty, extraData, size, gasLimit, gasUsed,
                             [uncle0, uncle1], logsBloom);
    var header := BlockHeader(blockchainName, blockHeight, blockHash, parentHash, timestamp,
                              |transactions|, ethBlock);
    block := Block(header, transactions);
  }

  /** A transaction carrying `logs` unchanged, with random Ethereum fields and status 1. */
  method GenTxWithLogs(blockchainName: string, blockHeight: uint64, blockHash: Bytes,
                       transactionHash: Bytes, transactionIndex: uint64, inputSize: int64,
                       logs: seq<EthLog>)
    returns (tx: Transaction)
    requires inputSize >= 0
    ensures IsTxWithLogs(tx, blockchainName, blockHeight, blockHash, transactionHash,
                         transactionIndex, inputSize, logs)
  {
    var timestamp := GoRand.Uint64();
    var nonce := GoRand.Uint64();
    var from := GenAddress();
    var to := GenAddress();
    var value := GenHash();
    var gas := GoRand.Uint64();
    var gasPrice := GenHash();
    var input := GenBytes(inputSize);
    var contractAddress := GenAddress();
    var cumulativeGasUsed := GoRand.Uint64();
    var gasUsed := GoRand.Uint64();
    var eth := EthTransaction(nonce, from, to, value, gas, gasPrice, input, contractAddress,
                              cumulativeGasUsed, gasUsed, TX_STATUS_SUCCESS, logs);
    tx := Transaction(blockchainName, transactionHash, blockHash, blockHeight, transactionIndex,
                      timestamp, EthTx(eth));
  }

  /** A transaction with `logsCount` fresh logs of `logsDataSize` bytes each. */
  method GenTx(blockchainName: string, blockHeight: uint64, blockHash: Bytes,
               transactionHash: Bytes, transactionIndex: uint64, inputSize: int64,
               logsCount: int64, logsDataSize: int64)
    returns (tx: Transaction)
    requires inputSize >= 0
    requires logsCount > 0 ==> logsDataSize >= 0
    ensures IsGeneratedTx(tx, blockchainName, blockHeight, blockHash, transactionHash,
                          transactionIndex, inputSize, logsCount, logsDataSize)
  {
    var logs: seq<EthLog> := [];
    var i: int64 := 0;
    while i < logsCount
      invariant 0 <= i as int == |logs| <= Iterations(logsCount)
      invariant forall k :: 0 <= k < |logs| ==> IsGeneratedLog(logs[k], logsDataSize)
    {
      // uint32(i): the index is truncated, and GenLog does not store it.
      var log := GenLog(i as int % TWO_TO_THE_32, logsDataSize);
      logs := logs + [log];
      i := i + 1;
    }
    tx := GenTxWithLogs(blockchainName, blockHeight, blockHash, transactionHash, transactionIndex,
                        inputSize, logs);
  }

  /** A log with a random address, two random topics and `dataSize` random bytes of data. */
  method GenLog(logIndex: uint32, dataSize: int64) returns (log: EthLog)
    requires dataSize >= 0
    ensures IsGeneratedLog(log, dataSize)
  {
    var address := GenAddress();
    var topic0 := GenHash();
    var topic1 := GenHash();
    var data := GenBytes(dataSize);
    log := EthLog(address, [topic0, topic1], data, false);
  }

  /**
   * The logs bloom of `transactions`: every log's address and then its topics
   * are added, log by log and transaction by transaction. The loop over one
   * transaction's logs is AddLogs, and the work on one log is AddLog.
   */
  method GenLogsBloom(transactions: seq<Transaction>, add: BloomAdd) returns (bloom: Bloom)
    requires AllEth(transactions)
    ensures bloom == LogsBloomOf(add, transactions)
  {
    var bin := EmptyBloom();
    for i := 0 to |transactions|
      invariant AllEth(transactions[..i])
      invariant bin == AddAll(add, EmptyBloom(), BloomItems(transactions[..i]))
    {
      var logs := transactions[i].specific.ethTx.logs;
      AddAllAppend(add, EmptyBloom(), BloomItems(transactions[..i]), LogsItems(logs));
      bin := AddLogs(bin, logs, add);
      BloomItemsSnoc(transactions, i);
    }
    assert transactions[..|transactions|] == transactions;
    bloom := bin;
  }

  /** GenLogsBloom's loop over the logs of one transaction. */
  method AddLogs(bin: Bloom, logs: seq<EthLog>, add: BloomAdd) returns (bin': Bloom)
    ensures bin' == AddAll(add, bin, LogsItems(logs))
  {
    bin' := bin;
    for j := 0 to |logs|
      invariant bin' == AddAll(add, bin, LogsItems(logs[..j]))
    {
      AddAllAppend(add, bin, LogsItems(logs[..j]), LogItems(logs[j]));
      bin' := AddLog(bin', logs[j], add);
      LogsItemsSnoc(logs, j);
    }
    assert logs[..|logs|] == logs;
  }

  /** GenLogsBloom's work on one log: its address, then each of its topics. */
  method AddLog(bin: Bloom, log: EthLog, add: BloomAdd) returns (bin': Bloom)
    ensures bin' == AddAll(add, bin, LogItems(log))
  {
    AddAllSnoc(add, bin, [], log.address);
    bin' := add(bin, log.address);
    assert [log.address] + log.topics[..0] == [log.address];
    for k := 0 to |log.topics|
      invariant bin' == AddAll(add, bin, [log.address] + log.topics[..k])
    {
      AddAllSnoc(add, bin, [log.address] + log.topics[..k], log.topics[k]);
      assert [log.address] + log.topics[..k + 1] == [log.address] + log.topics[..k] + [log.topics[k]];
      bin' := add(bin', log.topics[k]);
    }
    assert log.topics[..|log.topics|] == log.topics;
  }

  /** Ten random letters A-Z followed by "chain". */
  method GenBlockchainName() returns (name: string)
    ensures IsRandomName(name, BLOCKCHAIN_NAME_LETTERS, "chain")
  {
    var letters := LETTERS;
    var b := new char[BLOCKCHAIN_NAME_LETTERS];
    for i := 0 to b.Length
      invariant forall k :: 0 <= k < i ==> 'A' <= b[k] <= 'Z'
    {
      var r := GoRand.Intn(|letters|);
      b[i] := letters[r];
    }
    name := b[..] + "chain";
  }

  /** Three random letters A-Z followed by "currency". */
  method GenCurrencyName() returns (name: string)
    ensures IsRandomName(name, CURRENCY_NAME_LETTERS, "currency")
  {
    var letters := LETTERS;
    var b := new char[CURRENCY_NAME_LETTERS];
    for i := 0 to b.Length
      invariant forall k :: 0 <= k < i ==> 'A' <= b[k] <= 'Z'
    {
      var r := GoRand.Intn(|letters|);
      b[i] := letters[r];
    }
    name := b[..] + "currency";
  }

  /** Currency details with the given chain, address and decimals and random name and symbol. */
  method GenCurrency(blockchainName: string, address: Bytes, decimals: uint64)
    returns (currency: CurrencyDetails)
    ensures currency.blockchainName == blockchainName
    ensures currency.address == address
    ensures currency.decimals == decimals
    ensures IsRandomName(currency.name, CURRENCY_NAME_LETTERS, "currency")
    ensures IsRandomName(currency.symbol, CURRENCY_NAME_LETTERS, "currency")
  {
    var name := GenCurrencyName();
    var symbol := GenCurrencyName();
    currency := CurrencyDetails(blockchainName, address, name, decimals, symbol);
  }

  /** The consumer "test-consumer" of the given chain, whose user id is a random hash in hex. */
  method GenConsumer(blockchainName: string) returns (consumer: BlockConsumer)
    ensures consumer.blockchainName == blockchainName
    ensures consumer.consumerName == CONSUMER_NAME
    ensures |consumer.userId| == 2 * HASH_LENGTH
    ensures exists h :: IsHash(h) && consumer.userId == Hex.EncodeToString(h)
  {
    var h := GenHash();
    consumer := BlockConsumer(blockchainName, CONSUMER_NAME, Hex.EncodeToString(h));
  }
}
