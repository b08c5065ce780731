/**
 * The simplified transaction of `src/simplified_block/transaction.rs`: the `Transaction` object
 * whose `DecodeTx` overwrites it from a wire transaction, and the pure conversions it uses.
 */
module SimplifiedTransaction {
  import opened Prelude
  import opened SolanaErrors
  import opened Global
  import opened Instructions
  import opened EncodedTransactions
  import opened SimplifiedErrors

  // ---------------------------------------------------------------------------------------------
  // Types
  // ---------------------------------------------------------------------------------------------

  /** A raw message flattened: the account keys and the three header counts. */
  datatype Message = Message(
    accountKeys: seq<string>,
    numRequiredSignatures: U8,
    numReadonlySignedAccounts: U8,
    numReadonlyUnsignedAccounts: U8)

  /** `Message::default()`: no keys and zero counts. */
  const DefaultMessage: Message := Message([], 0, 0, 0)

  /** A token amount; the wire names are exchanged (see `TokenAmountFrom`). */
  datatype TokenAmount = TokenAmount(
    amount: Option<F64>,
    decimals: U8,
    stringAmount: StringAmount,
    stringDecimals: StringDecimals)

  datatype TokenBalance = TokenBalance(accountIndex: U8, mint: string, tokenAmount: TokenAmount)

  /** The status metadata with every optional collection made a plain, possibly empty, sequence. */
  datatype Metadata = Metadata(
    err: Option<TransactionError>,
    fee: U64,
    preBalances: seq<U64>,
    postBalances: seq<U64>,
    logMessages: seq<string>,
    preTokenBalances: seq<TokenBalance>,
    postTokenBalances: seq<TokenBalance>,
    rewards: Rewards)

  /** The fields of a `Transaction` as one value: what a block's `transactions` vector holds. */
  datatype TransactionValue = TransactionValue(
    signatures: seq<string>,
    message: Message,
    metadata: Option<Metadata>)

  // ---------------------------------------------------------------------------------------------
  // Conversions
  // ---------------------------------------------------------------------------------------------

  /**
   * `From<UiTokenAmount> for TokenAmount`. The names cross over: `amount` takes the float
   * `ui_amount`, `string_amount` takes the wire `amount` and `string_decimals` takes
   * `ui_amount_string`; `decimals` is copied.
   */
  function TokenAmountFrom(a: UiTokenAmount): TokenAmount {
    TokenAmount(a.uiAmount, a.decimals, a.amount, a.uiAmountString)
  }

  /** The way back from a simplified token amount to the wire one. */
  function TokenAmountToWire(t: TokenAmount): UiTokenAmount {
    UiTokenAmount(t.amount, t.decimals, t.stringAmount, t.stringDecimals)
  }

  /** The conversion loses nothing: the wire amount is recovered ... */
  lemma TokenAmountFromLossless(a: UiTokenAmount)
    ensures TokenAmountToWire(TokenAmountFrom(a)) == a
  {
  }

  /** ... and every simplified amount is the conversion of exactly that wire amount. */
  lemma TokenAmountFromOnto(t: TokenAmount)
    ensures TokenAmountFrom(TokenAmountToWire(t)) == t
  {
  }

  /** The float `ui_amount` lands in `amount`, and the wire `amount` string in `string_amount`. */
  lemma TokenAmountRenames(a: UiTokenAmount)
    ensures TokenAmountFrom(a).amount == a.uiAmount
    ensures TokenAmountFrom(a).stringAmount == a.amount
    ensures TokenAmountFrom(a).stringDecimals == a.uiAmountString
    ensures TokenAmountFrom(a).decimals == a.decimals
  {
  }

  /** `From<UiTransactionTokenBalance> for TokenBalance`. */
  function TokenBalanceFrom(b: UiTransactionTokenBalance): TokenBalance {
    TokenBalance(b.accountIndex, b.mint, TokenAmountFrom(b.uiTokenAmount))
  }

  function TokenBalanceToWire(t: TokenBalance): UiTransactionTokenBalance {
    UiTransactionTokenBalance(t.accountIndex, t.mint, TokenAmountToWire(t.tokenAmount))
  }

  lemma TokenBalanceFromLossless(b: UiTransactionTokenBalance)
    ensures TokenBalanceToWire(TokenBalanceFrom(b)) == b
  {
  }

  lemma TokenBalanceFromOnto(t: TokenBalance)
    ensures TokenBalanceFrom(TokenBalanceToWire(t)) == t
  {
  }

  /** Every wire token balance converted, in order. */
  function TokenBalancesFrom(bs: seq<UiTransactionTokenBalance>): (r: seq<TokenBalance>)
    ensures |r| == |bs|
    ensures forall i :: 0 <= i < |bs| ==> r[i] == TokenBalanceFrom(bs[i])
  {
    if bs == [] then [] else TokenBalancesFrom(bs[..|bs| - 1]) + [TokenBalanceFrom(bs[|bs| - 1])]
  }

  /** Distinct wire balance lists convert to distinct lists: nothing is merged or reordered. */
  lemma TokenBalancesFromInjective(xs: seq<UiTransactionTokenBalance>, ys: seq<UiTransactionTokenBalance>)
    requires TokenBalancesFrom(xs) == TokenBalancesFrom(ys)
    ensures xs == ys
  {
    forall i | 0 <= i < |xs|
      ensures xs[i] == ys[i]
    {
      TokenBalanceFromLossless(xs[i]);
      TokenBalanceFromLossless(ys[i]);
    }
  }

  /**
   * `TokenBalance::to_token_balance`: pushes the conversion of each wire balance onto an
   * initially empty vector.
   */
  method ToTokenBalance(value: seq<UiTransactionTokenBalance>) returns (balances: seq<TokenBalance>)
    ensures |balances| == |value|
    ensures forall i :: 0 <= i < |value| ==> balances[i] == TokenBalanceFrom(value[i])
    ensures balances == TokenBalancesFrom(value)
  {
    balances := [];
    var i := 0;
    while i < |value|
      invariant 0 <= i <= |value|
      invariant balances == TokenBalancesFrom(value[..i])
    {
      assert value[..i + 1][..i] == value[..i];
      balances := balances + [TokenBalanceFrom(value[i])];
      i := i + 1;
    }
    assert value[..i] == value;
  }

  /** An absent collection is the empty one. */
  function OrEmpty<T>(o: Option<seq<T>>): seq<T> {
    if o.Some? then o.value else []
  }

  /** `From<UiTransactionStatusMeta> for Metadata`. The deprecated `status` and the inner instructions are dropped. */
  function MetadataFrom(m: UiTransactionStatusMeta): (r: Metadata)
    ensures r.err == m.err && r.fee == m.fee
    ensures r.preBalances == m.preBalances && r.postBalances == m.postBalances
    ensures m.logMessages.None? ==> r.logMessages == []
    ensures m.logMessages.Some? ==> r.logMessages == m.logMessages.value
    ensures m.rewards.None? ==> r.rewards == []
    ensures m.rewards.Some? ==> r.rewards == m.rewards.value
    ensures m.preTokenBalances.None? ==> r.preTokenBalances == []
    ensures m.preTokenBalances.Some? ==>
              |r.preTokenBalances| == |m.preTokenBalances.value| &&
              forall i :: 0 <= i < |r.preTokenBalances| ==>
                r.preTokenBalances[i] == TokenBalanceFrom(m.preTokenBalances.value[i])
    ensures m.postTokenBalances.None? ==> r.postTokenBalances == []
    ensures m.postTokenBalances.Some? ==>
              |r.postTokenBalances| == |m.postTokenBalances.value| &&
              forall i :: 0 <= i < |r.postTokenBalances| ==>
                r.postTokenBalances[i] == TokenBalanceFrom(m.postTokenBalances.value[i])
  {
    Metadata(
      m.err, m.fee, m.preBalances, m.postBalances,
      OrEmpty(m.logMessages),
      TokenBalancesFrom(OrEmpty(m.preTokenBalances)),
      TokenBalancesFrom(OrEmpty(m.postTokenBalances)),
      OrEmpty(m.rewards))
  }

  /**
   * What the conversion does not see: metadata that differ only in `status` and in the inner
   * instructions convert alike.
   */
  lemma MetadataFromIgnoresStatusAndInnerInstructions(
    m: UiTransactionStatusMeta, status: BlockResult<()>, inner: Option<seq<UiInnerInstructions>>)
    ensures MetadataFrom(m.(status := status, innerInstructions := inner)) == MetadataFrom(m)
  {
  }

  /** An absent collection and a present empty one convert alike. */
  lemma MetadataFromAbsentIsEmpty(m: UiTransactionStatusMeta)
    ensures MetadataFrom(m.(logMessages := None)) == MetadataFrom(m.(logMessages := Some([])))
    ensures MetadataFrom(m.(preTokenBalances := None)) == MetadataFrom(m.(preTokenBalances := Some([])))
    ensures MetadataFrom(m.(postTokenBalances := None)) == MetadataFrom(m.(postTokenBalances := Some([])))
    ensures MetadataFrom(m.(rewards := None)) == MetadataFrom(m.(rewards := Some([])))
  {
  }

  /** A wire metadata with every collection present that converts to `md`. */
  function MetadataToWire(md: Metadata, status: BlockResult<()>): UiTransactionStatusMeta {
    UiTransactionStatusMeta(
      md.err, status, md.fee, md.preBalances, md.postBalances, None,
      Some(md.logMessages),
      Some(WireTokenBalances(md.preTokenBalances)),
      Some(WireTokenBalances(md.postTokenBalances)),
      Some(md.rewards))
  }

  /** The wire balances that convert to the given simplified ones. */
  function WireTokenBalances(ts: seq<TokenBalance>): (r: seq<UiTransactionTokenBalance>)
    ensures |r| == |ts|
    ensures forall i :: 0 <= i < |ts| ==> r[i] == TokenBalanceToWire(ts[i])
  {
    seq(|ts|, i requires 0 <= i < |ts| => TokenBalanceToWire(ts[i]))
  }

  /** Every simplified metadata is the conversion of some wire metadata. */
  lemma MetadataFromOnto(md: Metadata, status: BlockResult<()>)
    ensures MetadataFrom(MetadataToWire(md, status)) == md
  {
    var r := MetadataFrom(MetadataToWire(md, status));
    forall i | 0 <= i < |md.preTokenBalances|
      ensures r.preTokenBalances[i] == md.preTokenBalances[i]
    {
      TokenBalanceFromOnto(md.preTokenBalances[i]);
    }
    forall i | 0 <= i < |md.postTokenBalances|
      ensures r.postTokenBalances[i] == md.postTokenBalances[i]
    {
      TokenBalanceFromOnto(md.postTokenBalances[i]);
    }
  }

  // ---------------------------------------------------------------------------------------------
  // The two checks and the pure decode
  // ---------------------------------------------------------------------------------------------

  /**
   * `destruct_encoding`: only the `json` encoding carries a transaction the normaliser can read;
   * `LegacyBinary`, and `Binary` under any tag, are refused.
   */
  function DestructEncoding(t: EncodedTransaction): (r: Result<UiTransaction, SolProbeError>)
    ensures r.Ok? <==> t.Json?
    ensures r.Ok? ==> r.value == t.transaction
    ensures r.Err? ==> r.error == UnsupportedEncoding
  {
    match t
    case Json(transaction) => Ok(transaction)
    case _ => Err(UnsupportedEncoding)
  }

  /** A binary transaction tagged `json` is still not `json`-encoded. */
  lemma BinaryTaggedJsonUnsupported(blob: string)
    ensures DestructEncoding(EncodedTransaction.Binary(blob, UiTransactionEncoding.Json)) == Err(UnsupportedEncoding)
  {
  }

  /** `destruct_ui_message`: only a raw message is accepted. */
  function DestructUiMessage(m: UiMessage): (r: Result<UiRawMessage, SolProbeError>)
    ensures r.Ok? <==> m.Raw?
    ensures r.Ok? ==> r.value == m.raw
    ensures r.Err? ==> r.error == UnsupportedMessageType
  {
    match m
    case Raw(raw) => Ok(raw)
    case _ => Err(UnsupportedMessageType)
  }

  /** The flattened form of a raw message. */
  function MessageFrom(raw: UiRawMessage): Message {
    Message(
      raw.accountKeys,
      raw.header.numRequiredSignatures,
      raw.header.numReadonlySignedAccounts,
      raw.header.numReadonlyUnsignedAccounts)
  }

  /** Flattening is reversible: the raw message is recovered from its flattened form. */
  lemma MessageFromLossless(raw: UiRawMessage)
    ensures var m := MessageFrom(raw);
            UiRawMessage(
              MessageHeader(m.numRequiredSignatures, m.numReadonlySignedAccounts, m.numReadonlyUnsignedAccounts),
              m.accountKeys) == raw
  {
  }

  /** A wire transaction is supported when it is `json`-encoded with a raw message. */
  predicate Supported(e: EncodedTransactionWithStatusMeta) {
    e.transaction.Json? && e.transaction.transaction.message.Raw?
  }

  /**
   * What `decode_tx` makes of a wire transaction: the encoding is checked first, then the
   * message type; a supported transaction is projected field by field.
   */
  function DecodedTransaction(e: EncodedTransactionWithStatusMeta): (r: Result<TransactionValue, SolProbeError>)
    ensures r.Ok? <==> Supported(e)
    ensures !e.transaction.Json? ==> r == Err(UnsupportedEncoding)
    ensures e.transaction.Json? && !e.transaction.transaction.message.Raw? ==> r == Err(UnsupportedMessageType)
    ensures r.Ok? ==> r.value.signatures == e.transaction.transaction.signatures
    ensures r.Ok? ==> r.value.message == MessageFrom(e.transaction.transaction.message.raw)
    ensures r.Ok? ==> (r.value.metadata.None? <==> e.meta.None?)
    ensures r.Ok? && e.meta.Some? ==> r.value.metadata == Some(MetadataFrom(e.meta.value))
  {
    var transaction :- DestructEncoding(e.transaction);
    var message :- DestructUiMessage(transaction.message);
    Ok(TransactionValue(
      transaction.signatures,
      MessageFrom(message),
      if e.meta.Some? then Some(MetadataFrom(e.meta.value)) else None))
  }

  /** The decode keeps the signatures in order and the message's keys and counts intact. */
  lemma DecodedTransactionKeepsMessage(e: EncodedTransactionWithStatusMeta)
    requires Supported(e)
    ensures var t := DecodedTransaction(e).value;
            var raw := e.transaction.transaction.message.raw;
            t.signatures == e.transaction.transaction.signatures &&
            UiRawMessage(
              MessageHeader(t.message.numRequiredSignatures, t.message.numReadonlySignedAccounts,
                            t.message.numReadonlyUnsignedAccounts),
              t.message.accountKeys) == raw
  {
    MessageFromLossless(e.transaction.transaction.message.raw);
  }

  // ---------------------------------------------------------------------------------------------
  // The object
  // ---------------------------------------------------------------------------------------------

  /** `Transaction`: overwritten in place by `DecodeTx`. */
  class Transaction {
    var signatures: seq<string>
    var message: Message
    var metadata: Option<Metadata>

    /** `Transaction::new()`: no signatures, the default message, no metadata. */
    constructor()
      ensures signatures == [] && message == DefaultMessage && metadata == None
    {
      signatures := [];
      message := DefaultMessage;
      metadata := None;
    }

    function Value(): TransactionValue
      reads this
    {
      TransactionValue(signatures, message, metadata)
    }

    /**
     * `decode_tx`: both checks run before any field is written, so a refused transaction leaves
     * the object as it was; an accepted one replaces all three fields.
     */
    method DecodeTx(e: EncodedTransactionWithStatusMeta) returns (r: Result<(), SolProbeError>)
      modifies this
      ensures r.Ok? <==> DecodedTransaction(e).Ok?
      ensures r.Ok? ==> Value() == DecodedTransaction(e).value
      ensures r.Err? ==> r.error == DecodedTransaction(e).error
      ensures r.Err? ==> signatures == old(signatures) && message == old(message) && metadata == old(metadata)
    {
      var transaction :- DestructEncoding(e.transaction);
      var raw :- DestructUiMessage(transaction.message);

      signatures := transaction.signatures;
      message := MessageFrom(raw);
      metadata := if e.meta.Some? then Some(MetadataFrom(e.meta.value)) else None;
      r := Ok(());
    }
  }
}
