/**
 * The block normaliser of `src/simplified_block/block.rs`: `ConfirmedBlock::decode` copies the
 * block-level fields and then decodes the transactions one by one, stopping at the first
 * transaction it cannot simplify.
 */
module SimplifiedBlock {
  import opened Prelude
  import opened Global
  import opened EncodedTransactions
  import opened ConfirmedBlocks
  import opened SimplifiedErrors
  import opened SimplifiedTransaction

  // ---------------------------------------------------------------------------------------------
  // The pure normaliser
  // ---------------------------------------------------------------------------------------------

  /** Index of the first transaction that cannot be simplified; `|txs|` when there is none. */
  function FirstUnsupported(txs: seq<EncodedTransactionWithStatusMeta>): (k: nat)
    ensures k <= |txs|
    ensures forall i :: 0 <= i < k ==> Supported(txs[i])
    ensures k < |txs| ==> !Supported(txs[k])
  {
    if txs == [] then 0
    else if !Supported(txs[0]) then 0
    else 1 + FirstUnsupported(txs[1..])
  }

  /**
   * The transactions decoded in order, failing with the error of the first that cannot be
   * simplified; defined on the prefix, as the loop of `decode` builds it.
   */
  function DecodeTransactions(txs: seq<EncodedTransactionWithStatusMeta>): (r: Result<seq<TransactionValue>, SolProbeError>)
    ensures r.Ok? <==> forall i :: 0 <= i < |txs| ==> Supported(txs[i])
    ensures r.Ok? ==> |r.value| == |txs|
    ensures r.Ok? ==> forall i :: 0 <= i < |txs| ==> r.value[i] == DecodedTransaction(txs[i]).value
  {
    if txs == [] then Ok([])
    else
      var init :- DecodeTransactions(txs[..|txs| - 1]);
      var last :- DecodedTransaction(txs[|txs| - 1]);
      assert forall i :: 0 <= i < |txs| - 1 ==> txs[..|txs| - 1][i] == txs[i];
      Ok(init + [last])
  }

  /** On failure the error is that of the first unsupported transaction. */
  lemma {:induction false} DecodeTransactionsFailsAtFirst(txs: seq<EncodedTransactionWithStatusMeta>)
    requires DecodeTransactions(txs).Err?
    ensures FirstUnsupported(txs) < |txs|
    ensures DecodeTransactions(txs).error == DecodedTransaction(txs[FirstUnsupported(txs)]).error
  {
    var init := txs[..|txs| - 1];
    assert forall i :: 0 <= i < |init| ==> init[i] == txs[i];
    if DecodeTransactions(init).Err? {
      DecodeTransactionsFailsAtFirst(init);
      FirstUnsupportedOfPrefix(txs, |init|);
    } else {
      FirstUnsupportedIsLast(txs);
    }
  }

  /** The first unsupported index of a prefix that holds one is that of the whole sequence. */
  lemma {:induction false} FirstUnsupportedOfPrefix(txs: seq<EncodedTransactionWithStatusMeta>, n: nat)
    requires n <= |txs|
    requires FirstUnsupported(txs[..n]) < n
    ensures FirstUnsupported(txs) == FirstUnsupported(txs[..n])
  {
    if n > 0 && Supported(txs[0]) {
      assert txs[..n][1..] == txs[1..][..n - 1];
      FirstUnsupportedOfPrefix(txs[1..], n - 1);
    }
  }

  /** When only the last transaction is unsupported, it is the first unsupported one. */
  lemma FirstUnsupportedIsLast(txs: seq<EncodedTransactionWithStatusMeta>)
    requires txs != []
    requires forall i :: 0 <= i < |txs| - 1 ==> Supported(txs[i])
    requires !Supported(txs[|txs| - 1])
    ensures FirstUnsupported(txs) == |txs| - 1
  {
  }

  /**
   * Fail-fast: once a transaction is refused, nothing after it is looked at; the result is the
   * same whatever follows.
   */
  lemma DecodeTransactionsIgnoresSuffix(txs: seq<EncodedTransactionWithStatusMeta>, rest: seq<EncodedTransactionWithStatusMeta>)
    requires DecodeTransactions(txs).Err?
    ensures DecodeTransactions(txs + rest) == DecodeTransactions(txs)
  {
    DecodeTransactionsFailsAtFirst(txs);
    var k := FirstUnsupported(txs);
    assert (txs + rest)[..|txs|] == txs;
    FirstUnsupportedOfPrefix(txs + rest, |txs|);
    assert DecodeTransactions(txs + rest).Err? by {
      assert !Supported((txs + rest)[k]);
    }
    DecodeTransactionsFailsAtFirst(txs + rest);
  }

  /**
   * Which refusal is reported depends on order alone: a binary transaction before a parsed
   * message yields `UnsupportedEncoding`, the other way round `UnsupportedMessageType`.
   */
  lemma FirstRefusalReported(
    good: EncodedTransactionWithStatusMeta, binary: EncodedTransactionWithStatusMeta, parsed: EncodedTransactionWithStatusMeta)
    requires Supported(good)
    requires !binary.transaction.Json?
    requires parsed.transaction.Json? && !parsed.transaction.transaction.message.Raw?
    ensures DecodeTransactions([good, binary, parsed]) == Err(UnsupportedEncoding)
    ensures DecodeTransactions([good, parsed, binary]) == Err(UnsupportedMessageType)
  {
    DecodeTransactionsFailsAtFirst([good, binary, parsed]);
    DecodeTransactionsFailsAtFirst([good, parsed, binary]);
  }

  /** The simplified block as one value. */
  datatype ConfirmedBlockValue = ConfirmedBlockValue(
    blockhash: string,
    transactions: seq<TransactionValue>,
    rewards: Rewards,
    blockTime: Option<UnixTimestamp>,
    blockHeight: Option<U64>)

  /** What `decode` makes of a wire block, starting from any object. */
  function DecodeBlock(b: EncodedConfirmedBlock): Result<ConfirmedBlockValue, SolProbeError> {
    var txs :- DecodeTransactions(b.transactions);
    Ok(ConfirmedBlockValue(b.blockhash, txs, b.rewards, b.blockTime, b.blockHeight))
  }

  /** The previous block hash and the parent slot are not carried into the simplified block. */
  lemma DecodeBlockIgnoresParent(b: EncodedConfirmedBlock, previousBlockhash: string, parentSlot: Slot)
    ensures DecodeBlock(b.(previousBlockhash := previousBlockhash, parentSlot := parentSlot)) == DecodeBlock(b)
  {
  }

  /** A block decodes exactly when every one of its transactions is `json`-encoded with a raw message. */
  lemma DecodeBlockSucceedsIff(b: EncodedConfirmedBlock)
    ensures DecodeBlock(b).Ok? <==>
            forall i :: 0 <= i < |b.transactions| ==>
              b.transactions[i].transaction.Json? && b.transactions[i].transaction.transaction.message.Raw?
  {
  }

  // ---------------------------------------------------------------------------------------------
  // The object
  // ---------------------------------------------------------------------------------------------

  /** `ConfirmedBlock`: overwritten in place by `Decode`. */
  class ConfirmedBlock {
    var blockhash: string
    var transactions: seq<TransactionValue>
    var rewards: Rewards
    var blockTime: Option<UnixTimestamp>
    var blockHeight: Option<U64>

    /** `ConfirmedBlock::new()`: empty hash, no transactions, no rewards, no time, no height. */
    constructor()
      ensures blockhash == [] && transactions == [] && rewards == []
      ensures blockTime == None && blockHeight == None
    {
      blockhash := [];
      transactions := [];
      rewards := [];
      blockTime := None;
      blockHeight := None;
    }

    function Value(): ConfirmedBlockValue
      reads this
    {
      ConfirmedBlockValue(blockhash, transactions, rewards, blockTime, blockHeight)
    }

    /**
     * `decode`. The hash, height, time and rewards are written first and stay written even when
     * a transaction is refused; the transactions are replaced only once all of them decode.
     */
    method Decode(block: EncodedConfirmedBlock) returns (r: Result<(), SolProbeError>)
      modifies this
      ensures blockhash == block.blockhash && blockHeight == block.blockHeight
      ensures blockTime == block.blockTime && rewards == block.rewards
      ensures r.Ok? <==> DecodeBlock(block).Ok?
      ensures r.Ok? ==> Value() == DecodeBlock(block).value
      ensures r.Err? ==> r.error == DecodeBlock(block).error && transactions == old(transactions)
    {
      blockhash := block.blockhash;
      blockHeight := block.blockHeight;
      blockTime := block.blockTime;
      rewards := block.rewards;

      var decoded: seq<TransactionValue> := [];
      var i := 0;
      while i < |block.transactions|
        invariant 0 <= i <= |block.transactions|
        invariant DecodeTransactions(block.transactions[..i]) == Ok(decoded)
        invariant blockhash == block.blockhash && blockHeight == block.blockHeight
        invariant blockTime == block.blockTime && rewards == block.rewards
        invariant transactions == old(transactions)
      {
        var tx := block.transactions[i];
        assert block.transactions[..i + 1][..i] == block.transactions[..i];
        if !Supported(tx) {
          // the refusal of `tx` is the refusal of the whole block
          assert block.transactions[..i + 1] + block.transactions[i + 1..] == block.transactions;
          DecodeTransactionsIgnoresSuffix(block.transactions[..i + 1], block.transactions[i + 1..]);
        }
        var transaction := new Transaction();
        var _ :- transaction.DecodeTx(tx);
        decoded := decoded + [transaction.Value()];
        i := i + 1;
      }
      assert block.transactions[..i] == block.transactions;
      transactions := decoded;
      r := Ok(());
    }
  }

  /** Decoding into a fresh block that then fails leaves it without transactions. */
  method DecodeIntoNew(block: EncodedConfirmedBlock) returns (c: ConfirmedBlock, r: Result<(), SolProbeError>)
    ensures r.Ok? <==> DecodeBlock(block).Ok?
    ensures r.Err? ==> r.error == DecodeBlock(block).error
    ensures r.Ok? ==> c.Value() == DecodeBlock(block).value
    ensures r.Err? ==> c.transactions == [] && c.blockhash == block.blockhash && c.rewards == block.rewards
  {
    c := new ConfirmedBlock();
    r := c.Decode(block);
  }
}
