/**
 * What GenLogsBloom folds into a block's logs bloom. The filter itself,
 * go-ethereum's types.Bloom.Add (Keccak-256 based), is not part of this model:
 * it is a parameter `add`, and a block's bloom is the left fold of `add` over
 * the byte strings the generator feeds it, starting from the zero bloom.
 */
module LogsBloom {
  import opened GoTypes
  import opened Proto

  /** types.Bloom.Add, applied to a copy of the bloom. */
  type BloomAdd = (Bloom, Bytes) -> Bloom

  /** A log mentions `x` when `x` is its address or one of its topics. */
  predicate Mentions(log: EthLog, x: Bytes)
  {
    x == log.address || x in log.topics
  }

  /** What one log feeds the bloom: its address, then its topics in order. */
  function LogItems(log: EthLog): seq<Bytes>
  {
    [log.address] + log.topics
  }

  /** What a list of logs feeds the bloom, log by log. */
  function LogsItems(logs: seq<EthLog>): seq<Bytes>
  {
    if logs == [] then [] else LogsItems(logs[..|logs| - 1]) + LogItems(logs[|logs| - 1])
  }

  /** What a list of Ethereum transactions feeds the bloom, transaction by transaction. */
  function BloomItems(txs: seq<Transaction>): seq<Bytes>
    requires AllEth(txs)
  {
    if txs == [] then []
    else BloomItems(txs[..|txs| - 1]) + LogsItems(txs[|txs| - 1].specific.ethTx.logs)
  }

  /** `add` applied to `bloom` with each of `items` in turn. */
  function AddAll(add: BloomAdd, bloom: Bloom, items: seq<Bytes>): Bloom
  {
    if items == [] then bloom
    else add(AddAll(add, bloom, items[..|items| - 1]), items[|items| - 1])
  }

  /** The logs bloom GenLogsBloom computes for `txs`. */
  function LogsBloomOf(add: BloomAdd, txs: seq<Transaction>): Bloom
    requires AllEth(txs)
  {
    AddAll(add, EmptyBloom(), BloomItems(txs))
  }

  /** One more item extends the fold by one application of `add`. */
  lemma AddAllSnoc(add: BloomAdd, bloom: Bloom, items: seq<Bytes>, x: Bytes)
    ensures AddAll(add, bloom, items + [x]) == add(AddAll(add, bloom, items), x)
  {
    assert (items + [x])[..|items|] == items;
  }

  /** Adding two lists of items is adding the first, then the second. */
  lemma {:induction false} AddAllAppend(add: BloomAdd, bloom: Bloom, xs: seq<Bytes>, ys: seq<Bytes>)
    ensures AddAll(add, bloom, xs + ys) == AddAll(add, AddAll(add, bloom, xs), ys)
  {
    if ys == [] {
      assert xs + ys == xs;
    } else {
      var n := |ys| - 1;
      AddAllAppend(add, bloom, xs, ys[..n]);
      assert (xs + ys)[..|xs + ys| - 1] == xs + ys[..n];
    }
  }

  /** The items of one more log follow those of the logs before it. */
  lemma LogsItemsSnoc(logs: seq<EthLog>, j: nat)
    requires j < |logs|
    ensures LogsItems(logs[..j + 1]) == LogsItems(logs[..j]) + LogItems(logs[j])
  {
    assert logs[..j + 1][..j] == logs[..j];
  }

  /** The items of one more transaction follow those of the transactions before it. */
  lemma BloomItemsSnoc(txs: seq<Transaction>, i: nat)
    requires AllEth(txs) && i < |txs|
    ensures AllEth(txs[..i]) && AllEth(txs[..i + 1])
    ensures BloomItems(txs[..i + 1]) == BloomItems(txs[..i]) + LogsItems(txs[i].specific.ethTx.logs)
  {
    assert txs[..i + 1][..i] == txs[..i];
  }

  /** Some log of `logs` mentions `x`. */
  predicate LogsMention(logs: seq<EthLog>, x: Bytes)
  {
    exists j :: 0 <= j < |logs| && Mentions(logs[j], x)
  }

  /** A list of logs feeds the bloom exactly the addresses and topics of its logs. */
  lemma {:induction false} LogsItemsMembers(logs: seq<EthLog>, x: Bytes)
    ensures x in LogsItems(logs) <==> LogsMention(logs, x)
  {
    if logs != [] {
      var n := |logs| - 1;
      var init := logs[..n];
      LogsItemsMembers(init, x);
      assert LogsItems(logs) == LogsItems(init) + LogItems(logs[n]);
      assert x in LogItems(logs[n]) <==> Mentions(logs[n], x);
      if x in LogsItems(init) {
        var j :| 0 <= j < |init| && Mentions(init[j], x);
        assert logs[j] == init[j];
      }
      if LogsMention(logs, x) {
        var j :| 0 <= j < |logs| && Mentions(logs[j], x);
        if j < n {
          assert init[j] == logs[j];
        }
      }
    }
  }

  /**
   * The bloom of a list of transactions is fed exactly the addresses and topics
   * of the logs of those transactions, and nothing else.
   */
  lemma {:induction false} BloomItemsMembers(txs: seq<Transaction>, x: Bytes)
    requires AllEth(txs)
    ensures x in BloomItems(txs) <==>
              exists i :: 0 <= i < |txs| && LogsMention(txs[i].specific.ethTx.logs, x)
  {
    if txs != [] {
      var n := |txs| - 1;
      var init := txs[..n];
      var logs := txs[n].specific.ethTx.logs;
      BloomItemsMembers(init, x);
      LogsItemsMembers(logs, x);
      assert BloomItems(txs) == BloomItems(init) + LogsItems(logs);
      if x in BloomItems(init) {
        var i :| 0 <= i < |init| && LogsMention(init[i].specific.ethTx.logs, x);
        assert txs[i] == init[i];
      }
      if exists i :: 0 <= i < |txs| && LogsMention(txs[i].specific.ethTx.logs, x) {
        var i :| 0 <= i < |txs| && LogsMention(txs[i].specific.ethTx.logs, x);
        if i < n {
          assert init[i] == txs[i];
        }
      }
    }
  }
}
