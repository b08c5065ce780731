# SolProbe block normaliser in Dafny

SolProbe fetches one block from a Solana node (`getBlock` over JSON-RPC). It then turns the
node's wire encoding of that block into a small simplified form. This project models the part
that does no I/O.

The model has two halves:

- **The wire model.** It covers the confirmed block, the encoded transaction with its status
  metadata, the instructions, and the two closed error enumerations of the ledger. Each type is
  modelled together with its JSON form, as serde derives it: camelCase field names, untagged
  enums resolved by trying their variants in declaration order, externally tagged error
  enumerations, and `Option` fields read from `null` or from a missing key.
- **The normaliser.** `ConfirmedBlock::decode` copies the block-level fields, then decodes the
  transactions one by one with `Transaction::decode_tx`. It stops at the first transaction that
  is not `json`-encoded (`UnsupportedEncoding`), or whose message is not a raw message
  (`UnsupportedMessageType`).

The two objects that `decode` and `decode_tx` overwrite in place are Dafny classes:
`SimplifiedBlock.ConfirmedBlock` and `SimplifiedTransaction.Transaction`. Their methods are
proved against pure specification functions (`DecodeBlock`, `DecodedTransaction`), and the
properties of the normaliser are proved as lemmas about those functions. The `for_each` loop of
`TokenBalance::to_token_balance` is a method with a loop invariant. So is the loop of
`ConfirmedBlock::decode`.

The JSON tree (`JsonShape.Json`) is abstract: numbers are integers or 64-bit float bit
patterns, and objects are maps from keys to values. Parsing JSON text into that tree is not part
of this model. Each wire type has a serializer (`...ToJson`) and a binder (`...FromJson`). The
binder follows serde's derived `Deserialize`. The round-trip lemmas prove that the binder reads
back everything the serializer writes.

Files, one module each: `prelude.dfy` (Option, Result, fixed-width integers), `json_shape.dfy`,
`naming.dfy` (serde's camelCase rule), `solana_errors.dfy`, `global.dfy`, `instructions.dfy`,
`encoded_transactions.dfy`, `confirmed_blocks.dfy`, `simplified_errors.dfy`, `transaction.dfy`
and `block.dfy`.

## Model

| member | source | states |
|---|---|---|
| SimplifiedBlock.ConfirmedBlock.constructor | src/simplified_block/block.rs:16-24 | a new block has an empty hash, no transactions, no rewards, no time and no height |
| SimplifiedBlock.ConfirmedBlock.Decode | src/simplified_block/block.rs:26-44 | hash, height, time and rewards are always overwritten with the block's; the call succeeds exactly when every transaction is supported; on success the object equals `DecodeBlock(block)`; on failure it returns the error of the first refused transaction and `transactions` keeps its old value (the `?` at line 36 returns before line 41) |
| SimplifiedBlock.DecodeIntoNew | src/simplified_block/block.rs:15-44 | decoding into a new block that fails leaves it with the block's hash and rewards and no transactions; on success the block equals `DecodeBlock(block)` |
| SimplifiedBlock.FirstUnsupported | src/simplified_block/block.rs:34-39 | the index of the first unsupported transaction: every transaction before it is supported, and the one at it is not |
| SimplifiedBlock.DecodeTransactions | src/simplified_block/block.rs:32-39 | the loop's result succeeds iff every transaction is supported; on success it has one entry per transaction, in order, each the decode of that transaction |
| SimplifiedBlock.DecodeTransactionsFailsAtFirst | src/simplified_block/block.rs:34-37 | on failure the error reported is that of the first unsupported transaction |
| SimplifiedBlock.FirstUnsupportedOfPrefix | src/simplified_block/block.rs:34-37 | a prefix that holds an unsupported transaction fixes the first unsupported index of the whole sequence |
| SimplifiedBlock.DecodeTransactionsIgnoresSuffix | src/simplified_block/block.rs:34-37 | fail-fast: once a transaction is refused, appending anything leaves the result unchanged |
| SimplifiedBlock.FirstRefusalReported | src/simplified_block/block.rs:34-37 | with a binary transaction and a parsed-message transaction in one block, the error reported is the one from whichever comes first |
| SimplifiedBlock.DecodeBlockIgnoresParent | src/simplified_block/block.rs:26-30 | the previous block hash and the parent slot do not affect the simplified block |
| SimplifiedBlock.DecodeBlockSucceedsIff | src/simplified_block/block.rs:26-44 | a block decodes iff every transaction is `json`-encoded with a raw message |
| SimplifiedTransaction.Transaction.constructor | src/simplified_block/transaction.rs:16-23 | a new transaction has no signatures, the default message and no metadata |
| SimplifiedTransaction.Transaction.DecodeTx | src/simplified_block/transaction.rs:25-47 | succeeds iff the transaction is supported; on success the object holds `DecodedTransaction(e)`; on failure it returns the same error and all three fields keep their old values (both checks come before any write) |
| SimplifiedTransaction.DecodedTransaction | src/simplified_block/transaction.rs:25-47 | succeeds iff `json`-encoded with a raw message; a non-`json` encoding gives `UnsupportedEncoding` whatever the message; a `json` transaction with a non-raw message gives `UnsupportedMessageType`; on success the signatures, the flattened message and the converted metadata (absent iff absent on the wire) |
| SimplifiedTransaction.DecodedTransactionKeepsMessage | src/simplified_block/transaction.rs:32-38 | the decoded signatures equal the wire ones, and the raw message (keys and header) can be rebuilt from the decoded message |
| SimplifiedTransaction.DestructEncoding | src/simplified_block/transaction.rs:49-54 | succeeds iff the encoding is `Json`, giving its transaction; otherwise `UnsupportedEncoding` |
| SimplifiedTransaction.BinaryTaggedJsonUnsupported | src/simplified_block/transaction.rs:49-54 | a `Binary` transaction tagged `json` is still refused with `UnsupportedEncoding` |
| SimplifiedTransaction.DestructUiMessage | src/simplified_block/transaction.rs:56-64 | succeeds iff the message is `Raw`, giving the raw message; otherwise `UnsupportedMessageType` |
| SimplifiedTransaction.MessageFromLossless | src/simplified_block/transaction.rs:33-38 | flattening a raw message loses nothing: the raw message is rebuilt from the flattened one |
| SimplifiedTransaction.MetadataFrom | src/simplified_block/transaction.rs:80-111 | err, fee and both balance lists are copied; each optional collection becomes its value when present and empty when absent; each token balance list is converted element by element, in order |
| SimplifiedTransaction.MetadataFromIgnoresStatusAndInnerInstructions | src/simplified_block/transaction.rs:80-111 | the deprecated `status` and the inner instructions do not affect the metadata |
| SimplifiedTransaction.MetadataFromAbsentIsEmpty | src/simplified_block/transaction.rs:87-108 | an absent collection and a present empty one give the same metadata |
| SimplifiedTransaction.MetadataFromOnto | src/simplified_block/transaction.rs:80-111 | every simplified metadata is the conversion of some wire metadata |
| SimplifiedTransaction.TokenAmountFromLossless | src/simplified_block/transaction.rs:142-151 | converting a wire token amount loses nothing: the wire amount is recovered |
| SimplifiedTransaction.TokenAmountFromOnto | src/simplified_block/transaction.rs:142-160 | every simplified token amount is the conversion of exactly one wire amount |
| SimplifiedTransaction.TokenAmountRenames | src/simplified_block/transaction.rs:142-151 | the names cross over: `amount` takes the float `ui_amount`, `string_amount` takes the wire `amount`, `string_decimals` takes `ui_amount_string`, and `decimals` is copied |
| SimplifiedTransaction.TokenBalanceFromLossless | src/simplified_block/transaction.rs:121-129 | converting a wire token balance loses nothing |
| SimplifiedTransaction.TokenBalanceFromOnto | src/simplified_block/transaction.rs:113-129 | every simplified token balance is the conversion of one wire balance |
| SimplifiedTransaction.TokenBalancesFrom | src/simplified_block/transaction.rs:131-140 | one converted balance per wire balance, in order |
| SimplifiedTransaction.TokenBalancesFromInjective | src/simplified_block/transaction.rs:131-140 | different wire lists convert to different lists: nothing is merged, dropped or reordered |
| SimplifiedTransaction.ToTokenBalance | src/simplified_block/transaction.rs:131-140 | the pushing loop returns one converted balance per input, in order, equal to `TokenBalancesFrom` |
| SimplifiedErrors.SolProbeErrorTagIsCamelCase | src/simplified_block/errors.rs:3-8 | each error's tag is the camelCase form of its variant name |
| SimplifiedErrors.UnsupportedEncodingTagIsCamelCase | src/simplified_block/errors.rs:4-6 | `UnsupportedEncoding` travels as `unsupportedEncoding` |
| SimplifiedErrors.UnsupportedMessageTypeTagIsCamelCase | src/simplified_block/errors.rs:7 | `UnsupportedMessageType` travels as `unsupportedMessageType` |
| SimplifiedErrors.SolProbeErrorTagRoundTrip | src/simplified_block/errors.rs:3-8 | every error is recovered from its tag |
| SimplifiedErrors.SolProbeErrorFromTagSound | src/simplified_block/errors.rs:3-8 | only the two tags are accepted, each for the error it names |
| SimplifiedErrors.SolProbeErrorJsonRoundTrip | src/simplified_block/errors.rs:3-8 | the JSON form of every error binds back to it |
| SimplifiedErrors.NotATransactionError | src/simplified_block/errors.rs:3-8 | the wire form of a decode error never binds as a ledger `TransactionError` |
| SimplifiedErrors.TransactionErrorIsNotADecodeFailure | src/solana_blocks/errors.rs:3-51 | the wire form of a ledger error never binds as a decode error |
| SolanaErrors.InstructionErrorNameRoundTrip | src/solana_blocks/errors.rs:53-172 | every unit instruction error is recovered from its variant name |
| SolanaErrors.InstructionErrorFromNameSound | src/solana_blocks/errors.rs:53-172 | only variant names of unit instruction errors are accepted, each for the variant it names |
| SolanaErrors.TransactionErrorNameRoundTrip | src/solana_blocks/errors.rs:3-51 | every unit transaction error is recovered from its variant name |
| SolanaErrors.TransactionErrorFromNameSound | src/solana_blocks/errors.rs:3-51 | only variant names of unit transaction errors are accepted, each for the variant it names |
| SolanaErrors.TransactionErrorNameIsUpperCase | src/solana_blocks/errors.rs:3-51 | variant names are kept as Rust writes them (no rename): non-empty and starting upper-case |
| SolanaErrors.InstructionErrorJsonRoundTrip | src/solana_blocks/errors.rs:53-172 | the externally tagged form of every instruction error, `Custom(u32)` and `BorshIoError(String)` included, binds back to it |
| SolanaErrors.InstructionErrorUnitJson | src/solana_blocks/errors.rs:53-172 | a unit instruction error travels as the bare string of its name |
| SolanaErrors.InstructionErrorJsonCanonical | src/solana_blocks/errors.rs:53-172 | whatever binds as an instruction error is exactly that error's form |
| SolanaErrors.TransactionErrorJsonRoundTrip | src/solana_blocks/errors.rs:3-51 | the form of every transaction error, `InstructionError(u8, InstructionError)` included, binds back to it |
| SolanaErrors.TransactionErrorJsonCanonical | src/solana_blocks/errors.rs:3-51 | whatever binds as a transaction error is exactly that error's form |
| SolanaErrors.TransactionErrorJsonInjective | src/solana_blocks/errors.rs:3-51 | two transaction errors with the same form are equal |
| SolanaErrors.CustomInstructionErrorScenario | src/solana_blocks/errors.rs:28 | `{"InstructionError": [2, {"Custom": 7}]}` binds to instruction 2 failing with program code 7 |
| SolanaErrors.OutOfRangePayloadRefused | src/solana_blocks/errors.rs:28 | an instruction index outside u8, or a `Custom` code outside u32, is refused |
| SolanaErrors.AccountBorrowOutstandingInBoth | src/solana_blocks/errors.rs:45 | `"AccountBorrowOutstanding"` binds in both enumerations (lines 45 and 104), and each writes it as the same string |
| Global.StatusRoundTrip | src/solana_blocks/global.rs:11 | the `{"Ok": null}` / `{"Err": e}` form of a ledger result binds back to it |
| Global.StatusCanonical | src/solana_blocks/global.rs:11 | whatever binds as a ledger result is exactly that result's form |
| Instructions.ParsedInstructionRoundTrip | src/solana_blocks/instructions.rs:3-9 | a parsed instruction binds back from its form, its free-form `parsed` value included |
| Instructions.UiPartiallyDecodedInstructionRoundTrip | src/solana_blocks/instructions.rs:11-17 | a partially decoded instruction binds back from its form |
| Instructions.UiCompiledInstructionRoundTrip | src/solana_blocks/instructions.rs:33-39 | a compiled instruction binds back from its form |
| Instructions.UiParsedInstructionRoundTrip | src/solana_blocks/instructions.rs:26-31 | each untagged variant's form resolves to that variant |
| Instructions.UiInstructionRoundTrip | src/solana_blocks/instructions.rs:19-24 | each untagged variant's form resolves to that variant, `Parsed` included |
| Instructions.CompiledTriedFirst | src/solana_blocks/instructions.rs:19-24 | an object with the fields of both a compiled and a parsed instruction resolves as `Compiled`, the variant declared first |
| Instructions.ParsedTriedFirst | src/solana_blocks/instructions.rs:26-31 | an object with the fields of both a parsed and a partially decoded instruction resolves as `Parsed`, the variant declared first |
| Instructions.UiInnerInstructionsRoundTrip | src/solana_blocks/instructions.rs:41-48 | inner instructions bind back, index and instructions in order |
| EncodedTransactions.EncodingTagIsCamelCase | src/solana_blocks/encoded_transactions.rs:21-29 | each encoding's tag is the camelCase form of its variant name (`jsonParsed`) |
| EncodedTransactions.EncodingTagRoundTrip | src/solana_blocks/encoded_transactions.rs:21-29 | every encoding is recovered from its tag |
| EncodedTransactions.EncodingFromTagSound | src/solana_blocks/encoded_transactions.rs:21-29 | only the five tags are accepted, each for the encoding it names |
| EncodedTransactions.RewardTypeTagRoundTrip | src/solana_blocks/encoded_transactions.rs:81-87 | every reward type is recovered from its unrenamed variant name |
| EncodedTransactions.RewardTypeFromTagSound | src/solana_blocks/encoded_transactions.rs:81-87 | only the four variant names are accepted |
| EncodedTransactions.ParsedAccountRoundTrip | src/solana_blocks/encoded_transactions.rs:31-37 | a parsed account binds back from its form |
| EncodedTransactions.MessageHeaderRoundTrip | src/simplified_block/transaction.rs:35-37 | a message header binds back from its form |
| EncodedTransactions.UiRawMessageRoundTrip | src/simplified_block/transaction.rs:33-38 | a raw message binds back from its form |
| EncodedTransactions.UiParsedMessageRoundTrip | src/simplified_block/transaction.rs:56-64 | a parsed message binds back from its form |
| EncodedTransactions.UiMessageRoundTrip | src/simplified_block/transaction.rs:56-64 | both message shapes resolve to themselves |
| EncodedTransactions.RawTriedFirst | src/simplified_block/transaction.rs:56-64 | an object with a header and an empty key list binds as a parsed message, yet resolves as a raw message, the shape tried first |
| EncodedTransactions.UiTransactionRoundTrip | src/solana_blocks/encoded_transactions.rs:89-94 | a transaction binds back, signatures and message |
| EncodedTransactions.EncodedTransactionRoundTrip | src/solana_blocks/encoded_transactions.rs:13-19 | each encoded variant resolves to itself, `Binary` with tag `json` included |
| EncodedTransactions.EncodedTransactionShapes | src/solana_blocks/encoded_transactions.rs:13-19 | the shape alone decides the variant: a string binds iff `LegacyBinary` (never `Binary`), an array iff `Binary`, an object iff `Json` |
| EncodedTransactions.UiTokenAmountRoundTrip | src/solana_blocks/encoded_transactions.rs:62-69 | a token amount binds back, a missing `uiAmount` as absent |
| EncodedTransactions.UiTransactionTokenBalanceRoundTrip | src/solana_blocks/encoded_transactions.rs:54-60 | a token balance binds back from its form |
| EncodedTransactions.RewardRoundTrip | src/solana_blocks/encoded_transactions.rs:71-79 | a reward binds back, with its optional type and commission |
| EncodedTransactions.MetaFromValuesOf | src/solana_blocks/encoded_transactions.rs:39-52 | when each field's value binds to the matching field of `m`, the values bind to `m` |
| EncodedTransactions.MetaErrBindsBack | src/solana_blocks/encoded_transactions.rs:42 | the written `err` reads back as the same optional error |
| EncodedTransactions.MetaStatusBindsBack | src/solana_blocks/encoded_transactions.rs:43 | the written `status` reads back unchanged |
| EncodedTransactions.MetaFeeBindsBack | src/solana_blocks/encoded_transactions.rs:44 | the written `fee` reads back unchanged |
| EncodedTransactions.MetaBalancesBindBack | src/solana_blocks/encoded_transactions.rs:45-46 | the written balance lists read back unchanged |
| EncodedTransactions.MetaCollectionsBindBack | src/solana_blocks/encoded_transactions.rs:47-51 | every written optional collection reads back, absent as absent |
| EncodedTransactions.UiTransactionStatusMetaRoundTrip | src/solana_blocks/encoded_transactions.rs:39-52 | a status metadata binds back from its form, absent collections as absent |
| EncodedTransactions.MetaRequiredFields | src/solana_blocks/encoded_transactions.rs:39-52 | a metadata object binds only when `status`, `fee`, `preBalances` and `postBalances` are all present |
| EncodedTransactions.MetaMissingOptionalsAbsent | src/solana_blocks/encoded_transactions.rs:39-52 | an object in which the six `Option` fields are missing binds, with each of them absent |
| EncodedTransactions.EncodedTransactionWithStatusMetaRoundTrip | src/solana_blocks/encoded_transactions.rs:6-11 | a transaction with its metadata binds back, absent metadata as absent |
| ConfirmedBlocks.PreviousBlockhashIsCamelCase | src/solana_blocks/confirmed_blocks.rs:14 | `previous_blockhash` travels as `previousBlockhash` |
| ConfirmedBlocks.ParentSlotIsCamelCase | src/solana_blocks/confirmed_blocks.rs:16 | `parent_slot` travels as `parentSlot` |
| ConfirmedBlocks.BlockTimeIsCamelCase | src/solana_blocks/confirmed_blocks.rs:19 | `block_time` travels as `blockTime` |
| ConfirmedBlocks.BlockHeightIsCamelCase | src/solana_blocks/confirmed_blocks.rs:20 | `block_height` travels as `blockHeight` |
| ConfirmedBlocks.BlockFromValuesOf | src/solana_blocks/confirmed_blocks.rs:11-21 | when each field's value binds to the matching field of `b`, the values bind to `b` |
| ConfirmedBlocks.BlockTransactionsBindBack | src/solana_blocks/confirmed_blocks.rs:17 | the written transactions read back, in order |
| ConfirmedBlocks.BlockRewardsBindBack | src/solana_blocks/confirmed_blocks.rs:18 | the written rewards read back, in order |
| ConfirmedBlocks.BlockOptionalsBindBack | src/solana_blocks/confirmed_blocks.rs:19-20 | the written block time and height read back, absent as absent |
| ConfirmedBlocks.EncodedConfirmedBlockRoundTrip | src/solana_blocks/confirmed_blocks.rs:11-21 | a block binds back from its form |
| ConfirmedBlocks.BlockResponseRoundTrip | src/solana_blocks/confirmed_blocks.rs:4-9 | the envelope binds back from its form |
| ConfirmedBlocks.BlockRequiredFields | src/solana_blocks/confirmed_blocks.rs:11-21 | a block object binds only when both hashes, the parent slot, the transactions and the rewards are present |
| ConfirmedBlocks.BlockIgnoresUnknownField | src/solana_blocks/confirmed_blocks.rs:11-21 | a member the block does not declare does not change what it binds to |
| ConfirmedBlocks.BlockResponseIgnoresUnknownField | src/solana_blocks/confirmed_blocks.rs:4-9 | envelope members other than `jsonrpc` and `result`, such as the request `id`, are ignored |
| ConfirmedBlocks.NegativeBlockTimeAccepted | src/solana_blocks/global.rs:1 | a block time before 1970 (a negative i64) binds as that time |
| ConfirmedBlocks.NegativeParentSlotRefused | src/solana_blocks/global.rs:9 | the parent slot is unsigned: a negative one is refused |
| Naming.FieldCamelCaseOfSnakeCase | src/solana_blocks/encoded_transactions.rs:40 | serde's camelCase rule joins a snake_case name's words: the first unchanged, the rest capitalized |
| Naming.FieldCamelCaseHasNoUnderscore | src/solana_blocks/encoded_transactions.rs:40 | no wire field name carries an underscore |
| Naming.FieldCamelCaseOfOneWord | src/solana_blocks/encoded_transactions.rs:40 | a one-word lower-case field name is its own wire name |
| Naming.FieldCamelCaseOfTwoWords | src/solana_blocks/confirmed_blocks.rs:12 | the wire name of a two-word field `a_b` is `a` followed by `b` capitalized |
| JsonShape.Field | src/solana_blocks/encoded_transactions.rs:6-11 | a required field binds iff the object has the key and its value binds; unknown keys are ignored |
| JsonShape.OptionalField | src/solana_blocks/encoded_transactions.rs:10 | an `Option` field is `None` iff its key is missing or `null`; a present non-null value must bind |
| JsonShape.OptionalValue | src/solana_blocks/encoded_transactions.rs:47-51 | an `Option` value is `None` iff `null`, and fails iff non-null and not binding |
| JsonShape.BindItems | src/solana_blocks/encoded_transactions.rs:45-46 | a `Vec` binds iff every item binds; the result has one element per item, in order |
| JsonShape.BindItemsRoundTrip | src/solana_blocks/encoded_transactions.rs:45-46 | a sequence of round-tripping elements binds back from its items |
| JsonShape.BindItemsCanonical | src/solana_blocks/encoded_transactions.rs:45-46 | what binds as a sequence is exactly the form of the result |
| JsonShape.FieldValuesOfObject | src/solana_blocks/encoded_transactions.rs:39-52 | reading the declared keys of an object built from them gives back the values |
| JsonShape.FieldValuesIgnoresUndeclared | src/solana_blocks/confirmed_blocks.rs:11-21 | a key that is not declared does not change what the declared keys read |

## Left out

- The JSON text itself. Parsing and printing JSON text is serde_json's work and is not modelled; all binding is on the abstract tree `JsonShape.Json`.
- serde's array form of a struct (`[field1, field2, ...]`) is not accepted by the binders; only the object form is.
- serde_json also accepts a unit enum variant written `{"Name": null}`; the binders accept only the bare string.
- Floats (`f64`, in `ui_amount`) are kept as 64-bit patterns and only copied. The binder does not coerce a JSON integer into a float, and neither NaN's inequality with itself nor the equality of `0.0` and `-0.0` under Rust's `PartialEq` is modelled: the bit patterns tell `0.0` and `-0.0` apart.
- A missing `Option` field reads as `null`, as serde does. Every non-`Option` field is required, and a `null` in it fails binding as a missing key would.
- `src/lib.rs` (the HTTP request to the node) and `src/simplified_block/rpc.rs` (the catalogue of RPC method names, and its `Display`) are I/O and presentation; they are not part of this model.
- `Debug`, `Clone` and `PartialEq` derivations are not modelled beyond Dafny's structural equality.
- The `Serialize` side of the simplified types (`ConfirmedBlock`, `Transaction`, `Metadata`, `TokenBalance`, `TokenAmount`, `Message`) is not modelled; only the wire types have serializers.
- The simplified `Reward` and `RewardType` of `src/simplified_block/transaction.rs:162-178` are never used by the normaliser, which keeps the wire rewards; they are not modelled.
- `UiMessage`, `UiRawMessage`, `MessageHeader` and `UiParsedMessage` are imported from `crate::solana_blocks` (src/simplified_block/transaction.rs:1-4, src/solana_blocks/encoded_transactions.rs:1-3), but the file that declares them is not part of this model. The model rebuilds them from their use at src/simplified_block/transaction.rs:30-37 and 56-64: a raw message has a header and account keys, and a parsed message has parsed account keys. Trying the raw shape before the parsed one is an assumption taken from the system's design, not checked against the real declaration. The order matters for one kind of input only, an object with a header and an empty `accountKeys` list (`EncodedTransactions.RawTriedFirst`): raw-first binds it as `Raw`, so `decode_tx` accepts it, while parsed-first would bind it as `Parsed` and `decode_tx` would return `UnsupportedMessageType`.
- Rust ownership: a `Vec<Transaction>` owns its elements, so `ConfirmedBlock.transactions` holds value snapshots (`TransactionValue`) of each decoded `Transaction` object. The input block is an immutable Dafny value, as the `&` borrow makes it in the source.
- `SimplifiedBlock.ConfirmedBlock.Decode` and `SimplifiedTransaction.Transaction.DecodeTx` return `Ok(())` where the source returns `Ok(&mut self)`; the object itself is the result.
