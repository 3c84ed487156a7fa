# testentity fixture generators, modelled in Dafny

This project models `testentity/entity.go`, the package that builds randomized
blockchain test fixtures (blocks, transactions, logs, currencies, consumers)
for the ankrscan tests. The random values themselves are not modelled. What is
modelled is the structure that every call produces, whatever values are drawn:

- which arguments are copied into the result unchanged;
- how many blocks, transactions, logs, topics and uncles are built;
- how long every address (20 bytes), hash (32 bytes) and payload is;
- how `GenSequence` chains its blocks: block *i* is at height
  `blockHeight + i` (as a wrapping uint64), block 0 keeps the caller's hash
  and parent hash, and each later block has a fresh 32-byte hash and its
  predecessor's hash as its parent;
- which byte strings `GenLogsBloom` folds into a block's logs bloom.

Layout:

- `go_types.dfy` (`GoTypes`): Go's `byte`, `uint32`, `uint64` and `int`
  (64-bit) as subset types. `WrapUint64` is the uint64 wrap-around of
  `blockHeight+uint64(i)`, and `Iterations` counts the runs of `for i := 0; i < n; i++`.
- `go_rand.dfy` (`GoRand`): `math/rand`'s `Read`, `Uint32`, `Uint64` and
  `Intn` as methods with arbitrary (havocked) results. Callers know only the
  ranges these methods promise.
- `proto.dfy` (`Proto`): the protobuf messages as datatypes, holding only the
  fields the generators set.
- `logs_bloom.dfy` (`LogsBloom`): the list of byte strings a set of
  transactions feeds into the bloom, and the fold of the bloom's `Add` over
  that list.
- `fixtures.dfy` (`Fixtures`): predicates stating the shape each generator
  promises.
- `testentity.dfy` (`TestEntity`): the generators, as methods with the
  source's loops. The transaction loop that `GenBlockWithTxs` and
  `GenBlockWithLargeTxs` both contain is written once, as `GenTxs`. The three
  nested loops of `GenLogsBloom` are split one method per level:
  `GenLogsBloom` (transactions), `AddLogs` (logs) and `AddLog` (topics).
- `hex.dfy` (`Hex`): Go's `hex.EncodeToString`, which `GenConsumer` uses.
- `sequence_facts.dfy` (`SequenceFacts`): lemmas about extending a generated
  sequence with `GetSequenceParent`.

go-ethereum's `types.Bloom.Add` hashes with Keccak-256, which is not visible
here. Every generator that fills `LogsBloom` therefore takes it as a parameter
`add: (Bloom, Bytes) -> Bloom`. The bloom a block carries is
`LogsBloomOf(add, transactions)`: the zero bloom, with `add` applied to every
log's address and then to each of its topics, log by log and transaction by
transaction.

## Model

| member | source | states |
|---|---|---|
| `TestEntity.GenBytes` | testentity/entity.go:41-45 | returns exactly `size` bytes; a negative size is excluded because `make` panics on it |
| `TestEntity.GenAddress` | testentity/entity.go:25-29 | every address is 20 bytes |
| `TestEntity.GenHash` | testentity/entity.go:31-35 | every hash is 32 bytes |
| `TestEntity.GenBlockHeight` | testentity/entity.go:37-39 | the height is a uint64 below 2^32, because it is a widened uint32 |
| `TestEntity.GenSequence` | testentity/entity.go:51-58 | returns `max(blocksCount, 0)` blocks. Block i is a GenBlockWithTxs block named `blockchainName` at height `blockHeight + i` (mod 2^64) with `txsCount` transactions. Block 0 has the given hash and parent hash. Every later block has a 32-byte hash, and its parent hash is its predecessor's hash |
| `Fixtures.SequenceFromSnoc` | testentity/entity.go:53-57 | one loop step of GenSequence keeps the sequence well formed: a block at the next height, carrying the given hash and parent hash if it is the first block, or else a 32-byte hash and the last block's hash as its parent |
| `SequenceFacts.AppendKeepsChain` | testentity/entity.go:47-49 | a block appended to a chained non-empty sequence keeps it chained if and only if its parent hash is `GetSequenceParent` of the sequence, which is the last block's hash |
| `SequenceFacts.ConcatKeepsChain` | testentity/entity.go:47-58 | two chained sequences joined where the second starts from `GetSequenceParent` of the first form one chain |
| `SequenceFacts.HeightsStepByOne` | testentity/entity.go:51-58 | in a generated sequence each block's height is its predecessor's plus one, as a wrapping uint64 |
| `SequenceFacts.ExtendSequence` | testentity/entity.go:47-58 | a generated sequence of n1 > 0 blocks, followed by one of n2 >= 0 blocks started at height `blockHeight + n1` from a fresh 32-byte hash and `GetSequenceParent` of the first, is a generated sequence of n1 + n2 blocks |
| `TestEntity.GenBlockWithTxs` | testentity/entity.go:61-67 | the block has `max(txsCount, 0)` transactions. Transaction i has index i, a 32-byte hash, the block's name, height and hash, a 500-byte input and 10 logs of 40 data bytes. The block wraps them as GenBlock does, with the given hash and parent hash |
| `TestEntity.GenBlockWithLargeTxs` | testentity/entity.go:69-75 | the same as GenBlockWithTxs, with `inputSize`-byte inputs and a fresh 32-byte parent hash. A negative `inputSize` is excluded only when some transaction is built |
| `TestEntity.GenTxs` | testentity/entity.go:61-75 | the transaction loop shared by the two functions above: `max(txsCount, 0)` transactions, transaction i at index i with a 32-byte hash and the shape GenTx promises |
| `TestEntity.GenBlock` | testentity/entity.go:77-107 | copies the name, height, hash and parent hash into the header. Sets `TransactionsCount` to the number of transactions and stores the transactions unchanged and in order. Builds exactly 2 uncles of 32 bytes, gives every Ethereum header field its 20- or 32-byte size, and sets the bloom to the fold of `add` over the transactions' logs. Every transaction must be an Ethereum one |
| `TestEntity.GenTxWithLogs` | testentity/entity.go:109-134 | copies the name, height, block hash, transaction hash and index, passes `logs` through unchanged and sets status 1. `Input` has exactly `inputSize` bytes, `From`, `To` and `ContractAddress` 20 bytes, and `Value` and `GasPrice` 32 bytes |
| `TestEntity.GenTx` | testentity/entity.go:136-142 | builds a GenTxWithLogs transaction with exactly `max(logsCount, 0)` logs, each a GenLog log with `logsDataSize` data bytes |
| `TestEntity.GenLog` | testentity/entity.go:144-151 | the log has a 20-byte address, exactly 2 topics of 32 bytes, `dataSize` bytes of data (0 included) and `Removed == false`. `logIndex` is not stored |
| `TestEntity.GenLogsBloom` | testentity/entity.go:153-164 | the result is the zero bloom with `add` applied to every log's address and then to its topics, log by log and transaction by transaction. Every transaction must be an Ethereum one, because of the type assertion |
| `TestEntity.AddLogs` | testentity/entity.go:156-161 | the loop over one transaction's logs: the bloom after adding, log by log, each log's address and then its topics |
| `TestEntity.AddLog` | testentity/entity.go:157-160 | the work on one log: the bloom after adding the log's address and then each of its topics in order |
| `LogsBloom.AddAllAppend` | testentity/entity.go:155-162 | adding two lists of items to a bloom is adding the first and then the second, which is why the loops can be split by transaction and by log |
| `LogsBloom.LogsItemsMembers` | testentity/entity.go:156-161 | a byte string is fed to the bloom by a list of logs if and only if it is the address or a topic of one of those logs |
| `LogsBloom.BloomItemsMembers` | testentity/entity.go:153-164 | a byte string is fed to a block's bloom if and only if it is the address or a topic of some log of some transaction of the block |
| `Proto.EmptyBloom` | testentity/entity.go:154 | the bloom starts as 256 zero bytes |
| `TestEntity.GenBlockchainName` | testentity/entity.go:166-173 | 15 characters: 10 letters A-Z, then "chain" |
| `TestEntity.GenCurrencyName` | testentity/entity.go:175-182 | 11 characters: 3 letters A-Z, then "currency" |
| `TestEntity.GenCurrency` | testentity/entity.go:195-203 | copies the chain name, address and decimals. The name and the symbol are each 3 letters A-Z followed by "currency" |
| `TestEntity.GenConsumer` | testentity/entity.go:205-211 | copies the chain name and sets the consumer name to "test-consumer". The user id is the hex encoding of a 32-byte hash, so it has 64 characters |
| `Hex.EncodeToString` | testentity/entity.go:209 | the encoding has two characters per byte, each a lower-case hexadecimal digit |
| `Hex.EncodeToStringInjective` | testentity/entity.go:209 | different byte strings encode to different strings, so the user id determines the hash it was made from |

## Left out

- `ProtoEqual` and `CheckBlocks` (lines 16-23 and 184-193) are not modelled. They depend on protobuf wire encoding, go-ethereum's `common.BytesToHash` and testify's `require`, none of which is part of this model.
- `types.Bloom.Add` (go-ethereum, Keccak-256) is not part of this model. It is the parameter `add`, so nothing is stated about which bits a bloom sets.
- The values drawn from `math/rand` are arbitrary. Only their lengths and ranges are stated. The process-wide random source and its state are not modelled.
- `GoRand.Read` has no contract on the bytes it writes, because `rand.Read` promises none.
- Go builds the messages behind pointers, and `GenSequence` passes the same hash slice to one block as its hash and to the next as its parent. The model uses values, so this sharing (aliasing) is not modelled.
- Go's `int` is taken to be 64 bits wide.
- `GenBlock` requires that a slice has fewer than 2^63 transactions, which every Go slice satisfies. With that, `uint64(len(transactions))` cannot wrap.
- `hex.EncodeToString` comes from Go's standard library and is not part of this model. `Hex.EncodeToString` follows its documented behaviour: two lower-case digits per byte, high nibble first.
- The order in which the Go code draws random values is not modelled, since every draw is arbitrary.
