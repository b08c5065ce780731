/**
 * The JSON-RPC `getBlock` response: an envelope around an encoded confirmed block, as
 * `src/solana_blocks/confirmed_blocks.rs` declares them, with their camelCase wire forms.
 */
module ConfirmedBlocks {
  import opened Prelude
  import opened JsonShape
  import opened Naming
  import opened Global
  import opened EncodedTransactions

  /** The JSON-RPC envelope: the protocol version and the block. */
  datatype BlockResponse = BlockResponse(jsonrpc: string, result: EncodedConfirmedBlock)

  /** A confirmed block as the node encodes it. */
  datatype EncodedConfirmedBlock = EncodedConfirmedBlock(
    previousBlockhash: string,
    blockhash: string,
    parentSlot: Slot,
    transactions: seq<EncodedTransactionWithStatusMeta>,
    rewards: Rewards,
    blockTime: Option<UnixTimestamp>,
    blockHeight: Option<U64>)

  // ---------------------------------------------------------------------------------------------
  // Wire names
  // ---------------------------------------------------------------------------------------------

  /** The wire names of the fields of `EncodedConfirmedBlock`, in declaration order. */
  const BlockKeys: seq<string> :=
    ["previousBlockhash", "blockhash", "parentSlot", "transactions", "rewards", "blockTime", "blockHeight"]

  lemma BlockKeysDistinct()
    ensures DistinctKeys(BlockKeys)
  {
  }

  // The two-word field names are renamed by the camelCase rule; the one-word names keep their spelling.

  lemma PreviousBlockhashIsCamelCase()
    ensures FieldCamelCase("previous_blockhash") == BlockKeys[0]
  {
    FieldCamelCaseOfTwoWords("previous", "blockhash");
    assert "previous" + "_" + "blockhash" == "previous_blockhash";
    assert "previous" + Capitalized("blockhash") == "previousBlockhash";
  }

  lemma ParentSlotIsCamelCase()
    ensures FieldCamelCase("parent_slot") == BlockKeys[2]
  {
    FieldCamelCaseOfTwoWords("parent", "slot");
    assert "parent" + "_" + "slot" == "parent_slot";
    assert "parent" + Capitalized("slot") == "parentSlot";
  }

  lemma BlockTimeIsCamelCase()
    ensures FieldCamelCase("block_time") == BlockKeys[5]
  {
    FieldCamelCaseOfTwoWords("block", "time");
    assert "block" + "_" + "time" == "block_time";
    assert "block" + Capitalized("time") == "blockTime";
  }

  lemma BlockHeightIsCamelCase()
    ensures FieldCamelCase("block_height") == BlockKeys[6]
  {
    FieldCamelCaseOfTwoWords("block", "height");
    assert "block" + "_" + "height" == "block_height";
    assert "block" + Capitalized("height") == "blockHeight";
  }

  // ---------------------------------------------------------------------------------------------
  // Wire forms
  // ---------------------------------------------------------------------------------------------

  /** The values written under `BlockKeys`, position by position. */
  function BlockValues(b: EncodedConfirmedBlock): (r: seq<Json>)
    ensures |r| == |BlockKeys|
  {
    [JStr(b.previousBlockhash),
     JStr(b.blockhash),
     JNum(b.parentSlot),
     JArr(Items(b.transactions, EncodedTransactionWithStatusMetaToJson)),
     JArr(Items(b.rewards, RewardToJson)),
     OptionalJson(b.blockTime, I64Json),
     OptionalJson(b.blockHeight, U64Json)]
  }

  function EncodedConfirmedBlockToJson(b: EncodedConfirmedBlock): Json {
    JObj(ObjectFields(BlockKeys, BlockValues(b)))
  }

  /** Binding of the values found under `BlockKeys`; only the block time and height may be null. */
  function BlockFromValues(v: seq<Json>): Option<EncodedConfirmedBlock>
    requires |v| == |BlockKeys|
  {
    var previousBlockhash :- AsString(v[0]);
    var blockhash :- AsString(v[1]);
    var parentSlot :- AsU64(v[2]);
    var transactions :- ArrayOf(EncodedTransactionWithStatusMetaFromJson)(v[3]);
    var rewards :- ArrayOf(RewardFromJson)(v[4]);
    var blockTime :- OptionalValue(v[5], AsI64);
    var blockHeight :- OptionalValue(v[6], AsU64);
    Some(EncodedConfirmedBlock(previousBlockhash, blockhash, parentSlot, transactions, rewards, blockTime, blockHeight))
  }

  function EncodedConfirmedBlockFromJson(j: Json): Option<EncodedConfirmedBlock> {
    var v :- FieldValues(j, BlockKeys);
    BlockFromValues(v)
  }

  function BlockResponseToJson(r: BlockResponse): Json {
    JObj(map["jsonrpc" := JStr(r.jsonrpc), "result" := EncodedConfirmedBlockToJson(r.result)])
  }

  function BlockResponseFromJson(j: Json): Option<BlockResponse> {
    var jsonrpc :- Field(j, "jsonrpc", AsString);
    var result :- Field(j, "result", EncodedConfirmedBlockFromJson);
    Some(BlockResponse(jsonrpc, result))
  }

  // ---------------------------------------------------------------------------------------------
  // Round trips
  // ---------------------------------------------------------------------------------------------

  /** Field by field: when every value binds to the matching field of `b`, the values bind to `b`. */
  lemma BlockFromValuesOf(v: seq<Json>, b: EncodedConfirmedBlock)
    requires |v| == |BlockKeys|
    requires AsString(v[0]) == Some(b.previousBlockhash)
    requires AsString(v[1]) == Some(b.blockhash)
    requires AsU64(v[2]) == Some(b.parentSlot)
    requires ArrayOf(EncodedTransactionWithStatusMetaFromJson)(v[3]) == Some(b.transactions)
    requires ArrayOf(RewardFromJson)(v[4]) == Some(b.rewards)
    requires OptionalValue(v[5], AsI64) == Some(b.blockTime)
    requires OptionalValue(v[6], AsU64) == Some(b.blockHeight)
    ensures BlockFromValues(v) == Some(b)
  {
  }

  lemma BlockTransactionsBindBack(b: EncodedConfirmedBlock)
    ensures ArrayOf(EncodedTransactionWithStatusMetaFromJson)(BlockValues(b)[3]) == Some(b.transactions)
  {
    forall t: EncodedTransactionWithStatusMeta
      ensures EncodedTransactionWithStatusMetaFromJson(EncodedTransactionWithStatusMetaToJson(t)) == Some(t)
    {
      EncodedTransactionWithStatusMetaRoundTrip(t);
    }
    ArrayRoundTrip(b.transactions, EncodedTransactionWithStatusMetaToJson, EncodedTransactionWithStatusMetaFromJson);
  }

  lemma BlockRewardsBindBack(b: EncodedConfirmedBlock)
    ensures ArrayOf(RewardFromJson)(BlockValues(b)[4]) == Some(b.rewards)
  {
    forall r: Reward
      ensures RewardFromJson(RewardToJson(r)) == Some(r)
    {
      RewardRoundTrip(r);
    }
    ArrayRoundTrip(b.rewards, RewardToJson, RewardFromJson);
  }

  lemma BlockOptionalsBindBack(b: EncodedConfirmedBlock)
    ensures OptionalValue(BlockValues(b)[5], AsI64) == Some(b.blockTime)
    ensures OptionalValue(BlockValues(b)[6], AsU64) == Some(b.blockHeight)
  {
    OptionalValueRoundTrip(b.blockTime, I64Json, AsI64);
    OptionalValueRoundTrip(b.blockHeight, U64Json, AsU64);
  }

  /** Binding the form of a block gives it back, an absent time or height as absent. */
  lemma EncodedConfirmedBlockRoundTrip(b: EncodedConfirmedBlock)
    ensures EncodedConfirmedBlockFromJson(EncodedConfirmedBlockToJson(b)) == Some(b)
  {
    var v := BlockValues(b);
    BlockKeysDistinct();
    FieldValuesOfObject(BlockKeys, v);
    BlockTransactionsBindBack(b);
    BlockRewardsBindBack(b);
    BlockOptionalsBindBack(b);
    BlockFromValuesOf(v, b);
  }

  lemma BlockResponseRoundTrip(r: BlockResponse)
    ensures BlockResponseFromJson(BlockResponseToJson(r)) == Some(r)
  {
    EncodedConfirmedBlockRoundTrip(r.result);
  }

  // ---------------------------------------------------------------------------------------------
  // What the binders demand and what they ignore
  // ---------------------------------------------------------------------------------------------

  /** The hashes, the parent slot, the transactions and the rewards are required. */
  lemma BlockRequiredFields(j: Json)
    requires EncodedConfirmedBlockFromJson(j).Some?
    ensures j.JObj?
    ensures "previousBlockhash" in j.fields && "blockhash" in j.fields && "parentSlot" in j.fields
    ensures "transactions" in j.fields && "rewards" in j.fields
  {
    var v := FieldValues(j, BlockKeys).value;
    assert BlockFromValues(v).Some?;
    assert v[0] != JNull && v[1] != JNull && v[2] != JNull && v[3] != JNull && v[4] != JNull;
  }

  /** A field the block does not declare is ignored, whatever its value. */
  lemma BlockIgnoresUnknownField(m: map<string, Json>, k: string, x: Json)
    requires k !in BlockKeys
    ensures EncodedConfirmedBlockFromJson(JObj(m[k := x])) == EncodedConfirmedBlockFromJson(JObj(m))
  {
    FieldValuesIgnoresUndeclared(m, k, x, BlockKeys);
  }

  /** The envelope's other members, such as the request `id`, are ignored. */
  lemma BlockResponseIgnoresUnknownField(m: map<string, Json>, k: string, x: Json)
    requires k != "jsonrpc" && k != "result"
    ensures BlockResponseFromJson(JObj(m[k := x])) == BlockResponseFromJson(JObj(m))
  {
    var m2 := m[k := x];
    assert Field(JObj(m2), "jsonrpc", AsString) == Field(JObj(m), "jsonrpc", AsString) by {
      if "jsonrpc" in m {
        assert m2["jsonrpc"] == m["jsonrpc"];
      }
    }
    assert Field(JObj(m2), "result", EncodedConfirmedBlockFromJson) == Field(JObj(m), "result", EncodedConfirmedBlockFromJson) by {
      if "result" in m {
        assert m2["result"] == m["result"];
      }
    }
  }

  /** A block time is a signed Unix timestamp: times before 1970 bind. */
  lemma NegativeBlockTimeAccepted(v: seq<Json>, t: int)
    requires |v| == |BlockKeys| && BlockFromValues(v).Some?
    requires -0x8000_0000_0000_0000 <= t < 0
    ensures BlockFromValues(v[5 := JNum(t)]).Some?
    ensures BlockFromValues(v[5 := JNum(t)]).value.blockTime == Some(t)
  {
    var w := v[5 := JNum(t)];
    assert forall i :: 0 <= i < |v| && i != 5 ==> w[i] == v[i];
  }

  /** A slot is unsigned: a negative parent slot is refused. */
  lemma NegativeParentSlotRefused(v: seq<Json>, n: int)
    requires |v| == |BlockKeys| && n < 0
    ensures BlockFromValues(v[2 := JNum(n)]).None?
  {
  }
}
