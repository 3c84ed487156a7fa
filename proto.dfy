/**
 * The protobuf messages the generators build, holding only the fields the
 * generators set. Go builds them behind pointers; here they are values.
 */
module Proto {
  import opened GoTypes

  /** types.Bloom: a 2048-bit logs bloom, 256 bytes. */
  const BLOOM_BYTE_LENGTH: nat := 256

  type Bloom = b: Bytes | |b| == BLOOM_BYTE_LENGTH witness seq(256, _ => 0)

  /** The zero value of types.Bloom: every bit clear. */
  function EmptyBloom(): (b: Bloom)
    ensures forall i :: 0 <= i < |b| ==> b[i] == 0
  {
    seq(BLOOM_BYTE_LENGTH, _ => 0)
  }

  datatype EthLog = EthLog(
    address: Bytes,
    topics: seq<Bytes>,
    data: Bytes,
    removed: bool)

  datatype EthTransaction = EthTransaction(
    nonce: uint64,
    from: Bytes,
    to: Bytes,
    value: Bytes,
    gas: uint64,
    gasPrice: Bytes,
    input: Bytes,
    contractAddress: Bytes,
    cumulativeGasUsed: uint64,
    gasUsed: uint64,
    status: uint64,
    logs: seq<EthLog>)

  /**
   * The chain-specific oneof of a Transaction. The generators only ever build
   * EthTx, but a caller may hand GenBlock a transaction of another chain.
   */
  datatype TransactionSpecific =
    | EthTx(ethTx: EthTransaction)
    | OtherChainTx

  datatype Transaction = Transaction(
    blockchainName: string,
    transactionHash: Bytes,
    blockHash: Bytes,
    blockHeight: uint64,
    transactionIndex: uint64,
    timestamp: uint64,
    specific: TransactionSpecific)

  datatype EthBlock = EthBlock(
    nonce: Bytes,
    sha3Uncles: Bytes,
    transactionsRoot: Bytes,
    stateRoot: Bytes,
    miner: Bytes,
    difficulty: Bytes,
    totalDifficulty: Bytes,
    extraData: Bytes,
    size: uint64,
    gasLimit: uint64,
    gasUsed: uint64,
    uncles: seq<Bytes>,
    logsBloom: Bloom)

  datatype BlockHeader = BlockHeader(
    blockchainName: string,
    blockHeight: uint64,
    blockHash: Bytes,
    parentHash: Bytes,
    timestamp: uint64,
    transactionsCount: uint64,
    ethBlock: EthBlock)

  datatype Block = Block(header: BlockHeader, transactions: seq<Transaction>)

  datatype CurrencyDetails = CurrencyDetails(
    blockchainName: string,
    address: Bytes,
    name: string,
    decimals: uint64,
    symbol: string)

  datatype BlockConsumer = BlockConsumer(
    blockchainName: string,
    consumerName: string,
    userId: string)

  /** Every transaction carries an Ethereum payload (the type assertion GenLogsBloom makes). */
  predicate AllEth(txs: seq<Transaction>)
  {
    forall i :: 0 <= i < |txs| ==> txs[i].specific.EthTx?
  }
}
