/**
 * The wire model of a transaction inside a block, as a node sends it
 * (src/solana_blocks/encoded_transactions.rs). Every struct uses serde's camelCase field names;
 * `EncodedTransaction` is untagged and resolved by trying its shapes in declaration order.
 *
 * `UiMessage`, `UiRawMessage`, `UiParsedMessage` and `MessageHeader` are not defined in
 * src/solana_blocks/encoded_transactions.rs; the declarations here keep only what the normalizer reads:
 * a raw message carries a header of three u8 counts and string account keys, a parsed message
 * carries `ParsedAccount` keys, and the raw shape is tried first. That order is assumed, not taken
 * from the declaration; `RawTriedFirst` shows the one kind of input it decides.
 */
module EncodedTransactions {
  import opened Prelude
  import opened JsonShape
  import opened Naming
  import opened SolanaErrors
  import opened Global
  import opened Instructions

  // ---------------------------------------------------------------------------------------------
  // Types
  // ---------------------------------------------------------------------------------------------

  /** A transaction of a block together with its optional status metadata. */
  datatype EncodedTransactionWithStatusMeta =
    EncodedTransactionWithStatusMeta(transaction: EncodedTransaction, meta: Option<UiTransactionStatusMeta>)

  /**
   * A transaction in one of three encodings; untagged, tried as `LegacyBinary`, then `Binary`,
   * then `Json`.
   */
  datatype EncodedTransaction =
    | LegacyBinary(blob: string)
    | Binary(blob: string, encoding: UiTransactionEncoding)
    | Json(transaction: UiTransaction)

  /** The encoding tag a node may attach to a binary transaction. */
  datatype UiTransactionEncoding = Binary | Base64 | Base58 | Json | JsonParsed

  /** An account key of a parsed message, with its access flags. */
  datatype ParsedAccount = ParsedAccount(pubkey: string, writable: bool, signer: bool)

  /** The three counts at the head of a message. */
  datatype MessageHeader =
    MessageHeader(numRequiredSignatures: U8, numReadonlySignedAccounts: U8, numReadonlyUnsignedAccounts: U8)

  /** A message whose account keys are plain strings. */
  datatype UiRawMessage = UiRawMessage(header: MessageHeader, accountKeys: seq<string>)

  /** A message whose account keys the node has annotated. */
  datatype UiParsedMessage = UiParsedMessage(accountKeys: seq<ParsedAccount>)

  /** A message; untagged, tried as `Raw`, then `Parsed`. */
  datatype UiMessage = Raw(raw: UiRawMessage) | Parsed(parsed: UiParsedMessage)

  /** A transaction in the `json` encoding. */
  datatype UiTransaction = UiTransaction(signatures: seq<string>, message: UiMessage)

  /**
   * The status metadata of a transaction. `err` and every collection after `postBalances` are
   * optional on the wire; `status` (deprecated), `fee` and both balance lists are required.
   */
  datatype UiTransactionStatusMeta = UiTransactionStatusMeta(
    err: Option<TransactionError>,
    status: BlockResult<()>,
    fee: U64,
    preBalances: seq<U64>,
    postBalances: seq<U64>,
    innerInstructions: Option<seq<UiInnerInstructions>>,
    logMessages: Option<seq<string>>,
    preTokenBalances: Option<seq<UiTransactionTokenBalance>>,
    postTokenBalances: Option<seq<UiTransactionTokenBalance>>,
    rewards: Option<Rewards>)

  /** A token account's balance; `accountIndex` indexes the message's keys and is a u8. */
  datatype UiTransactionTokenBalance =
    UiTransactionTokenBalance(accountIndex: U8, mint: string, uiTokenAmount: UiTokenAmount)

  /** A token amount in its three renderings. */
  datatype UiTokenAmount = UiTokenAmount(
    uiAmount: Option<F64>,
    decimals: U8,
    amount: StringAmount,
    uiAmountString: StringDecimals)

  /** A reward paid at this block: `lamports` is signed, `postBalance` unsigned. */
  datatype Reward = Reward(
    pubkey: string,
    lamports: I64,
    postBalance: U64,
    rewardType: Option<RewardType>,
    commission: Option<U8>)

  /** Why a reward was paid. */
  datatype RewardType = Fee | Rent | Staking | Voting

  /** The rewards of a block or of a transaction, in the node's order. */
  type Rewards = seq<Reward>

  // ---------------------------------------------------------------------------------------------
  // Tags of the unit enumerations
  // ---------------------------------------------------------------------------------------------

  /** The Rust identifier of an encoding. */
  function EncodingVariant(e: UiTransactionEncoding): string {
    match e
    case Binary => "Binary"
    case Base64 => "Base64"
    case Base58 => "Base58"
    case Json => "Json"
    case JsonParsed => "JsonParsed"
  }

  /** The wire tag of an encoding. */
  function EncodingTag(e: UiTransactionEncoding): string {
    match e
    case Binary => "binary"
    case Base64 => "base64"
    case Base58 => "base58"
    case Json => "json"
    case JsonParsed => "jsonParsed"
  }

  function EncodingFromTag(s: string): Option<UiTransactionEncoding> {
    if s == "binary" then Some(UiTransactionEncoding.Binary)
    else if s == "base64" then Some(Base64)
    else if s == "base58" then Some(Base58)
    else if s == "json" then Some(UiTransactionEncoding.Json)
    else if s == "jsonParsed" then Some(JsonParsed)
    else None
  }

  /** The tags follow serde's camelCase rule for variants: the identifier with its first letter lowered. */
  lemma EncodingTagIsCamelCase(e: UiTransactionEncoding)
    ensures EncodingTag(e) == VariantCamelCase(EncodingVariant(e))
  {
  }

  /** Tag and untag are inverse: every encoding is recovered from its tag ... */
  lemma EncodingTagRoundTrip(e: UiTransactionEncoding)
    ensures EncodingFromTag(EncodingTag(e)) == Some(e)
  {
  }

  /** ... and only tags are accepted, each for the encoding it names. */
  lemma EncodingFromTagSound(s: string)
    requires EncodingFromTag(s).Some?
    ensures EncodingTag(EncodingFromTag(s).value) == s
  {
  }

  /** The wire tag of a reward type: the bare Rust identifier, since no rename is declared. */
  function RewardTypeTag(t: RewardType): string {
    match t
    case Fee => "Fee"
    case Rent => "Rent"
    case Staking => "Staking"
    case Voting => "Voting"
  }

  function RewardTypeFromTag(s: string): Option<RewardType> {
    if s == "Fee" then Some(Fee)
    else if s == "Rent" then Some(Rent)
    else if s == "Staking" then Some(Staking)
    else if s == "Voting" then Some(Voting)
    else None
  }

  lemma RewardTypeTagRoundTrip(t: RewardType)
    ensures RewardTypeFromTag(RewardTypeTag(t)) == Some(t)
  {
  }

  lemma RewardTypeFromTagSound(s: string)
    requires RewardTypeFromTag(s).Some?
    ensures RewardTypeTag(RewardTypeFromTag(s).value) == s
  {
  }

  // ---------------------------------------------------------------------------------------------
  // Wire forms of the structs
  // ---------------------------------------------------------------------------------------------

  function EncodingJson(e: UiTransactionEncoding): Json {
    JStr(EncodingTag(e))
  }

  function EncodingFromJson(j: Json): Option<UiTransactionEncoding> {
    var s :- AsString(j);
    EncodingFromTag(s)
  }

  function RewardTypeJson(t: RewardType): Json {
    JStr(RewardTypeTag(t))
  }

  function RewardTypeFromJson(j: Json): Option<RewardType> {
    var s :- AsString(j);
    RewardTypeFromTag(s)
  }

  function ParsedAccountToJson(a: ParsedAccount): Json {
    JObj(map["pubkey" := JStr(a.pubkey), "writable" := JBool(a.writable), "signer" := JBool(a.signer)])
  }

  function ParsedAccountFromJson(j: Json): Option<ParsedAccount> {
    var pubkey :- Field(j, "pubkey", AsString);
    var writable :- Field(j, "writable", AsBool);
    var signer :- Field(j, "signer", AsBool);
    Some(ParsedAccount(pubkey, writable, signer))
  }

  function MessageHeaderToJson(h: MessageHeader): Json {
    JObj(map[
      "numRequiredSignatures" := JNum(h.numRequiredSignatures),
      "numReadonlySignedAccounts" := JNum(h.numReadonlySignedAccounts),
      "numReadonlyUnsignedAccounts" := JNum(h.numReadonlyUnsignedAccounts)])
  }

  function MessageHeaderFromJson(j: Json): Option<MessageHeader> {
    var numRequiredSignatures :- Field(j, "numRequiredSignatures", AsU8);
    var numReadonlySignedAccounts :- Field(j, "numReadonlySignedAccounts", AsU8);
    var numReadonlyUnsignedAccounts :- Field(j, "numReadonlyUnsignedAccounts", AsU8);
    Some(MessageHeader(numRequiredSignatures, numReadonlySignedAccounts, numReadonlyUnsignedAccounts))
  }

  function UiRawMessageToJson(m: UiRawMessage): Json {
    JObj(map["header" := MessageHeaderToJson(m.header), "accountKeys" := JArr(Items(m.accountKeys, StringJson))])
  }

  function UiRawMessageFromJson(j: Json): Option<UiRawMessage> {
    var header :- Field(j, "header", MessageHeaderFromJson);
    var accountKeys :- Field(j, "accountKeys", ArrayOf(AsString));
    Some(UiRawMessage(header, accountKeys))
  }

  function UiParsedMessageToJson(m: UiParsedMessage): Json {
    JObj(map["accountKeys" := JArr(Items(m.accountKeys, ParsedAccountToJson))])
  }

  function UiParsedMessageFromJson(j: Json): Option<UiParsedMessage> {
    var accountKeys :- Field(j, "accountKeys", ArrayOf(ParsedAccountFromJson));
    Some(UiParsedMessage(accountKeys))
  }

  /** Untagged: the form of the inner message. */
  function UiMessageToJson(m: UiMessage): Json {
    match m
    case Raw(raw) => UiRawMessageToJson(raw)
    case Parsed(parsed) => UiParsedMessageToJson(parsed)
  }

  /** Untagged resolution: the raw shape first, then the parsed shape. */
  function UiMessageFromJson(j: Json): Option<UiMessage> {
    match UiRawMessageFromJson(j)
    case Some(raw) => Some(Raw(raw))
    case None =>
      match UiParsedMessageFromJson(j)
      case Some(parsed) => Some(UiMessage.Parsed(parsed))
      case None => None
  }

  function UiTransactionToJson(t: UiTransaction): Json {
    JObj(map["signatures" := JArr(Items(t.signatures, StringJson)), "message" := UiMessageToJson(t.message)])
  }

  function UiTransactionFromJson(j: Json): Option<UiTransaction> {
    var signatures :- Field(j, "signatures", ArrayOf(AsString));
    var message :- Field(j, "message", UiMessageFromJson);
    Some(UiTransaction(signatures, message))
  }

  /** Untagged: a string, a two-element array of blob and encoding tag, or a transaction object. */
  function EncodedTransactionToJson(t: EncodedTransaction): Json {
    match t
    case LegacyBinary(blob) => JStr(blob)
    case Binary(blob, encoding) => JArr([JStr(blob), EncodingJson(encoding)])
    case Json(transaction) => UiTransactionToJson(transaction)
  }

  /** The `Binary` shape: exactly two items, a string and an encoding tag. */
  function BinaryShape(j: Json): Option<EncodedTransaction> {
    if j.JArr? && |j.items| == 2 then
      var blob :- AsString(j.items[0]);
      var encoding :- EncodingFromJson(j.items[1]);
      Some(EncodedTransaction.Binary(blob, encoding))
    else None
  }

  /** Untagged resolution in declaration order: `LegacyBinary`, then `Binary`, then `Json`. */
  function EncodedTransactionFromJson(j: Json): Option<EncodedTransaction> {
    match AsString(j)
    case Some(blob) => Some(LegacyBinary(blob))
    case None =>
      match BinaryShape(j)
      case Some(binary) => Some(binary)
      case None =>
        match UiTransactionFromJson(j)
        case Some(transaction) => Some(EncodedTransaction.Json(transaction))
        case None => None
  }

  function UiTokenAmountToJson(a: UiTokenAmount): Json {
    JObj(map[
      "uiAmount" := OptionalJson(a.uiAmount, F64Json),
      "decimals" := JNum(a.decimals),
      "amount" := JStr(a.amount),
      "uiAmountString" := JStr(a.uiAmountString)])
  }

  function UiTokenAmountFromJson(j: Json): Option<UiTokenAmount> {
    var uiAmount :- OptionalField(j, "uiAmount", AsF64);
    var decimals :- Field(j, "decimals", AsU8);
    var amount :- Field(j, "amount", AsString);
    var uiAmountString :- Field(j, "uiAmountString", AsString);
    Some(UiTokenAmount(uiAmount, decimals, amount, uiAmountString))
  }

  function UiTransactionTokenBalanceToJson(b: UiTransactionTokenBalance): Json {
    JObj(map[
      "accountIndex" := JNum(b.accountIndex),
      "mint" := JStr(b.mint),
      "uiTokenAmount" := UiTokenAmountToJson(b.uiTokenAmount)])
  }

  function UiTransactionTokenBalanceFromJson(j: Json): Option<UiTransactionTokenBalance> {
    var accountIndex :- Field(j, "accountIndex", AsU8);
    var mint :- Field(j, "mint", AsString);
    var uiTokenAmount :- Field(j, "uiTokenAmount", UiTokenAmountFromJson);
    Some(UiTransactionTokenBalance(accountIndex, mint, uiTokenAmount))
  }

  function RewardToJson(r: Reward): Json {
    JObj(map[
      "pubkey" := JStr(r.pubkey),
      "lamports" := JNum(r.lamports),
      "postBalance" := JNum(r.postBalance),
      "rewardType" := OptionalJson(r.rewardType, RewardTypeJson),
      "commission" := OptionalJson(r.commission, U8Json)])
  }

  function RewardFromJson(j: Json): Option<Reward> {
    var pubkey :- Field(j, "pubkey", AsString);
    var lamports :- Field(j, "lamports", AsI64);
    var postBalance :- Field(j, "postBalance", AsU64);
    var rewardType :- OptionalField(j, "rewardType", RewardTypeFromJson);
    var commission :- OptionalField(j, "commission", AsU8);
    Some(Reward(pubkey, lamports, postBalance, rewardType, commission))
  }

  /** The wire names of the fields of `UiTransactionStatusMeta`, in declaration order. */
  const MetaKeys: seq<string> := [
    "err", "status", "fee", "preBalances", "postBalances",
    "innerInstructions", "logMessages", "preTokenBalances", "postTokenBalances", "rewards"]

  /** The values written under `MetaKeys`, position by position. */
  function MetaValues(m: UiTransactionStatusMeta): (r: seq<Json>)
    ensures |r| == |MetaKeys|
  {
    [OptionalJson(m.err, TransactionErrorToJson),
     StatusToJson(m.status),
     JNum(m.fee),
     JArr(Items(m.preBalances, U64Json)),
     JArr(Items(m.postBalances, U64Json)),
     OptionalJson(m.innerInstructions, ArrayJson(UiInnerInstructionsToJson)),
     OptionalJson(m.logMessages, ArrayJson(StringJson)),
     OptionalJson(m.preTokenBalances, ArrayJson(UiTransactionTokenBalanceToJson)),
     OptionalJson(m.postTokenBalances, ArrayJson(UiTransactionTokenBalanceToJson)),
     OptionalJson(m.rewards, ArrayJson(RewardToJson))]
  }

  function UiTransactionStatusMetaToJson(m: UiTransactionStatusMeta): Json {
    JObj(ObjectFields(MetaKeys, MetaValues(m)))
  }

  /** Binding of the values found under `MetaKeys`; `err` and the collections may be null. */
  function MetaFromValues(v: seq<Json>): Option<UiTransactionStatusMeta>
    requires |v| == |MetaKeys|
  {
    var err :- OptionalValue(v[0], TransactionErrorFromJson);
    var status :- StatusFromJson(v[1]);
    var fee :- AsU64(v[2]);
    var preBalances :- ArrayOf(AsU64)(v[3]);
    var postBalances :- ArrayOf(AsU64)(v[4]);
    var innerInstructions :- OptionalValue(v[5], ArrayOf(UiInnerInstructionsFromJson));
    var logMessages :- OptionalValue(v[6], ArrayOf(AsString));
    var preTokenBalances :- OptionalValue(v[7], ArrayOf(UiTransactionTokenBalanceFromJson));
    var postTokenBalances :- OptionalValue(v[8], ArrayOf(UiTransactionTokenBalanceFromJson));
    var rewards :- OptionalValue(v[9], ArrayOf(RewardFromJson));
    Some(UiTransactionStatusMeta(
      err, status, fee, preBalances, postBalances,
      innerInstructions, logMessages, preTokenBalances, postTokenBalances, rewards))
  }

  function UiTransactionStatusMetaFromJson(j: Json): Option<UiTransactionStatusMeta> {
    var v :- FieldValues(j, MetaKeys);
    MetaFromValues(v)
  }

  function EncodedTransactionWithStatusMetaToJson(t: EncodedTransactionWithStatusMeta): Json {
    JObj(map[
      "transaction" := EncodedTransactionToJson(t.transaction),
      "meta" := OptionalJson(t.meta, UiTransactionStatusMetaToJson)])
  }

  function EncodedTransactionWithStatusMetaFromJson(j: Json): Option<EncodedTransactionWithStatusMeta> {
    var transaction :- Field(j, "transaction", EncodedTransactionFromJson);
    var meta :- OptionalField(j, "meta", UiTransactionStatusMetaFromJson);
    Some(EncodedTransactionWithStatusMeta(transaction, meta))
  }

  // ---------------------------------------------------------------------------------------------
  // Round trips and resolution order
  // ---------------------------------------------------------------------------------------------

  lemma ParsedAccountRoundTrip(a: ParsedAccount)
    ensures ParsedAccountFromJson(ParsedAccountToJson(a)) == Some(a)
  {
  }

  lemma MessageHeaderRoundTrip(h: MessageHeader)
    ensures MessageHeaderFromJson(MessageHeaderToJson(h)) == Some(h)
  {
  }

  lemma UiRawMessageRoundTrip(m: UiRawMessage)
    ensures UiRawMessageFromJson(UiRawMessageToJson(m)) == Some(m)
  {
    MessageHeaderRoundTrip(m.header);
    ArrayRoundTrip(m.accountKeys, StringJson, AsString);
  }

  lemma UiParsedMessageRoundTrip(m: UiParsedMessage)
    ensures UiParsedMessageFromJson(UiParsedMessageToJson(m)) == Some(m)
  {
    forall a: ParsedAccount
      ensures ParsedAccountFromJson(ParsedAccountToJson(a)) == Some(a)
    {
      ParsedAccountRoundTrip(a);
    }
    ArrayRoundTrip(m.accountKeys, ParsedAccountToJson, ParsedAccountFromJson);
  }

  /** Both message shapes come back as themselves: a parsed message has no `header`. */
  lemma UiMessageRoundTrip(m: UiMessage)
    ensures UiMessageFromJson(UiMessageToJson(m)) == Some(m)
  {
    match m
    case Raw(raw) =>
      UiRawMessageRoundTrip(raw);
    case Parsed(parsed) =>
      UiParsedMessageRoundTrip(parsed);
  }

  /**
   * The raw shape is tried first: an object with a header and an empty key list is a raw
   * message, although an empty key list would bind as a parsed message's keys too.
   */
  lemma RawTriedFirst(h: MessageHeader)
    ensures UiParsedMessageFromJson(JObj(map["header" := MessageHeaderToJson(h), "accountKeys" := JArr([])])).Some?
    ensures UiMessageFromJson(JObj(map["header" := MessageHeaderToJson(h), "accountKeys" := JArr([])]))
            == Some(Raw(UiRawMessage(h, [])))
  {
    MessageHeaderRoundTrip(h);
  }

  lemma UiTransactionRoundTrip(t: UiTransaction)
    ensures UiTransactionFromJson(UiTransactionToJson(t)) == Some(t)
  {
    ArrayRoundTrip(t.signatures, StringJson, AsString);
    UiMessageRoundTrip(t.message);
  }

  /** Every encoded transaction resolves back to its own variant, `Binary` with tag `json` included. */
  lemma EncodedTransactionRoundTrip(t: EncodedTransaction)
    ensures EncodedTransactionFromJson(EncodedTransactionToJson(t)) == Some(t)
  {
    match t
    case LegacyBinary(_) =>
    case Binary(_, encoding) =>
      EncodingTagRoundTrip(encoding);
    case Json(transaction) =>
      UiTransactionRoundTrip(transaction);
  }

  /**
   * The variant is decided by the JSON shape alone: strings, and only strings, resolve as
   * `LegacyBinary` (so a bare string is never `Binary`), arrays as `Binary`, objects as `Json`.
   */
  lemma EncodedTransactionShapes(j: Json)
    requires EncodedTransactionFromJson(j).Some?
    ensures EncodedTransactionFromJson(j).value.LegacyBinary? <==> j.JStr?
    ensures EncodedTransactionFromJson(j).value.Binary? <==> j.JArr?
    ensures EncodedTransactionFromJson(j).value.Json? <==> j.JObj?
    ensures j.JStr? ==> EncodedTransactionFromJson(j) == Some(LegacyBinary(j.s))
  {
  }

  lemma UiTokenAmountRoundTrip(a: UiTokenAmount)
    ensures UiTokenAmountFromJson(UiTokenAmountToJson(a)) == Some(a)
  {
    var m := UiTokenAmountToJson(a).fields;
    OptionalFieldRoundTrip(m, "uiAmount", a.uiAmount, F64Json, AsF64);
  }

  lemma UiTransactionTokenBalanceRoundTrip(b: UiTransactionTokenBalance)
    ensures UiTransactionTokenBalanceFromJson(UiTransactionTokenBalanceToJson(b)) == Some(b)
  {
    UiTokenAmountRoundTrip(b.uiTokenAmount);
  }

  lemma RewardRoundTrip(r: Reward)
    ensures RewardFromJson(RewardToJson(r)) == Some(r)
  {
    var m := RewardToJson(r).fields;
    forall t: RewardType
      ensures RewardTypeFromJson(RewardTypeJson(t)) == Some(t) && RewardTypeJson(t) != JNull
    {
      RewardTypeTagRoundTrip(t);
    }
    OptionalFieldRoundTrip(m, "rewardType", r.rewardType, RewardTypeJson, RewardTypeFromJson);
    OptionalFieldRoundTrip(m, "commission", r.commission, U8Json, AsU8);
  }

  lemma MetaKeysDistinct()
    ensures DistinctKeys(MetaKeys)
  {
  }

  /** Field by field: when every value binds to the matching field of `m`, the values bind to `m`. */
  lemma MetaFromValuesOf(v: seq<Json>, m: UiTransactionStatusMeta)
    requires |v| == |MetaKeys|
    requires OptionalValue(v[0], TransactionErrorFromJson) == Some(m.err)
    requires StatusFromJson(v[1]) == Some(m.status)
    requires AsU64(v[2]) == Some(m.fee)
    requires ArrayOf(AsU64)(v[3]) == Some(m.preBalances)
    requires ArrayOf(AsU64)(v[4]) == Some(m.postBalances)
    requires OptionalValue(v[5], ArrayOf(UiInnerInstructionsFromJson)) == Some(m.innerInstructions)
    requires OptionalValue(v[6], ArrayOf(AsString)) == Some(m.logMessages)
    requires OptionalValue(v[7], ArrayOf(UiTransactionTokenBalanceFromJson)) == Some(m.preTokenBalances)
    requires OptionalValue(v[8], ArrayOf(UiTransactionTokenBalanceFromJson)) == Some(m.postTokenBalances)
    requires OptionalValue(v[9], ArrayOf(RewardFromJson)) == Some(m.rewards)
    ensures MetaFromValues(v) == Some(m)
  {
  }

  // The written values bind back one field at a time (keeping each proof small).

  lemma MetaErrBindsBack(meta: UiTransactionStatusMeta)
    ensures OptionalValue(MetaValues(meta)[0], TransactionErrorFromJson) == Some(meta.err)
  {
    forall e: TransactionError
      ensures TransactionErrorFromJson(TransactionErrorToJson(e)) == Some(e) && TransactionErrorToJson(e) != JNull
    {
      TransactionErrorJsonRoundTrip(e);
    }
    OptionalValueRoundTrip(meta.err, TransactionErrorToJson, TransactionErrorFromJson);
  }

  lemma MetaStatusBindsBack(meta: UiTransactionStatusMeta)
    ensures StatusFromJson(MetaValues(meta)[1]) == Some(meta.status)
  {
    StatusRoundTrip(meta.status);
  }

  lemma MetaFeeBindsBack(meta: UiTransactionStatusMeta)
    ensures AsU64(MetaValues(meta)[2]) == Some(meta.fee)
  {
  }

  lemma MetaBalancesBindBack(meta: UiTransactionStatusMeta)
    ensures ArrayOf(AsU64)(MetaValues(meta)[3]) == Some(meta.preBalances)
    ensures ArrayOf(AsU64)(MetaValues(meta)[4]) == Some(meta.postBalances)
  {
    ArrayRoundTrip(meta.preBalances, U64Json, AsU64);
    ArrayRoundTrip(meta.postBalances, U64Json, AsU64);
  }

  lemma MetaCollectionsBindBack(meta: UiTransactionStatusMeta)
    ensures OptionalValue(MetaValues(meta)[5], ArrayOf(UiInnerInstructionsFromJson)) == Some(meta.innerInstructions)
    ensures OptionalValue(MetaValues(meta)[6], ArrayOf(AsString)) == Some(meta.logMessages)
    ensures OptionalValue(MetaValues(meta)[7], ArrayOf(UiTransactionTokenBalanceFromJson)) == Some(meta.preTokenBalances)
    ensures OptionalValue(MetaValues(meta)[8], ArrayOf(UiTransactionTokenBalanceFromJson)) == Some(meta.postTokenBalances)
    ensures OptionalValue(MetaValues(meta)[9], ArrayOf(RewardFromJson)) == Some(meta.rewards)
  {
    forall i: UiInnerInstructions
      ensures UiInnerInstructionsFromJson(UiInnerInstructionsToJson(i)) == Some(i)
    {
      UiInnerInstructionsRoundTrip(i);
    }
    forall b: UiTransactionTokenBalance
      ensures UiTransactionTokenBalanceFromJson(UiTransactionTokenBalanceToJson(b)) == Some(b)
    {
      UiTransactionTokenBalanceRoundTrip(b);
    }
    forall r: Reward
      ensures RewardFromJson(RewardToJson(r)) == Some(r)
    {
      RewardRoundTrip(r);
    }
    OptionalArrayRoundTrip(meta.innerInstructions, UiInnerInstructionsToJson, UiInnerInstructionsFromJson);
    OptionalArrayRoundTrip(meta.logMessages, StringJson, AsString);
    OptionalArrayRoundTrip(meta.preTokenBalances, UiTransactionTokenBalanceToJson, UiTransactionTokenBalanceFromJson);
    OptionalArrayRoundTrip(meta.postTokenBalances, UiTransactionTokenBalanceToJson, UiTransactionTokenBalanceFromJson);
    OptionalArrayRoundTrip(meta.rewards, RewardToJson, RewardFromJson);
  }

  /** Binding the form of a status metadata gives it back, absent collections as absent. */
  lemma UiTransactionStatusMetaRoundTrip(meta: UiTransactionStatusMeta)
    ensures UiTransactionStatusMetaFromJson(UiTransactionStatusMetaToJson(meta)) == Some(meta)
  {
    var v := MetaValues(meta);
    MetaKeysDistinct();
    FieldValuesOfObject(MetaKeys, v);
    MetaErrBindsBack(meta);
    MetaStatusBindsBack(meta);
    MetaFeeBindsBack(meta);
    MetaBalancesBindBack(meta);
    MetaCollectionsBindBack(meta);
    MetaFromValuesOf(v, meta);
  }

  /**
   * `status`, `fee`, `preBalances` and `postBalances` are required: a metadata object binds only
   * when all four are present (the other six may be missing or null).
   */
  lemma MetaRequiredFields(j: Json)
    requires UiTransactionStatusMetaFromJson(j).Some?
    ensures j.JObj?
    ensures "status" in j.fields && "fee" in j.fields
    ensures "preBalances" in j.fields && "postBalances" in j.fields
  {
    var v := FieldValues(j, MetaKeys).value;
    assert MetaFromValues(v).Some?;
    assert v[1] != JNull && v[2] != JNull && v[3] != JNull && v[4] != JNull;
  }

  /**
   * A metadata object in which the six optional fields are missing binds with each of them absent,
   * the required fields binding as they do on their own.
   */
  lemma MetaMissingOptionalsAbsent(j: Json, status: BlockResult<()>, fee: U64, pre: seq<U64>, post: seq<U64>)
    requires j.JObj?
    requires "err" !in j.fields && "innerInstructions" !in j.fields && "logMessages" !in j.fields
    requires "preTokenBalances" !in j.fields && "postTokenBalances" !in j.fields && "rewards" !in j.fields
    requires Field(j, "status", StatusFromJson) == Some(status)
    requires Field(j, "fee", AsU64) == Some(fee)
    requires Field(j, "preBalances", ArrayOf(AsU64)) == Some(pre)
    requires Field(j, "postBalances", ArrayOf(AsU64)) == Some(post)
    ensures UiTransactionStatusMetaFromJson(j)
      == Some(UiTransactionStatusMeta(None, status, fee, pre, post, None, None, None, None, None))
  {
    var v := FieldValues(j, MetaKeys).value;
    assert v[0] == JNull && v[5] == JNull && v[6] == JNull && v[7] == JNull && v[8] == JNull && v[9] == JNull;
    MetaFromValuesOf(v, UiTransactionStatusMeta(None, status, fee, pre, post, None, None, None, None, None));
  }

  /** A transaction with its metadata binds back from its form, an absent metadata as absent. */
  lemma EncodedTransactionWithStatusMetaRoundTrip(t: EncodedTransactionWithStatusMeta)
    ensures EncodedTransactionWithStatusMetaFromJson(EncodedTransactionWithStatusMetaToJson(t)) == Some(t)
  {
    EncodedTransactionRoundTrip(t.transaction);
    forall m: UiTransactionStatusMeta
      ensures UiTransactionStatusMetaFromJson(UiTransactionStatusMetaToJson(m)) == Some(m)
    {
      UiTransactionStatusMetaRoundTrip(m);
    }
    OptionalFieldRoundTrip(EncodedTransactionWithStatusMetaToJson(t).fields, "meta", t.meta,
      UiTransactionStatusMetaToJson, UiTransactionStatusMetaFromJson);
  }
}
