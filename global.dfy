/**
 * The shared type aliases of the wire model (src/solana_blocks/global.rs). `Rewards` is declared
 * next to `Reward` in module EncodedTransactions, since Dafny modules may not import each other
 * in a cycle.
 */
module Global {
  import opened Prelude
  import opened JsonShape
  import opened SolanaErrors

  /** Seconds since the Unix epoch, signed 64-bit: times before 1970 are representable. */
  type UnixTimestamp = I64

  /** A token amount in base units as the node prints it; no numeric constraint is imposed. */
  type StringAmount = string

  /** A token amount with its decimals applied, as text; no numeric constraint is imposed. */
  type StringDecimals = string

  /** A slot number, unsigned 64-bit. */
  type Slot = U64

  /** The outcome of a transaction on the ledger. */
  type BlockResult<T> = Result<T, TransactionError>

  /**
   * serde's externally tagged form of `BlockResult<()>`, the deprecated `status` field:
   * `{"Ok": null}` or `{"Err": e}`.
   */
  function StatusToJson(status: BlockResult<()>): Json {
    match status
    case Ok(_) => JObj(map["Ok" := JNull])
    case Err(e) => JObj(map["Err" := TransactionErrorToJson(e)])
  }

  /** Binding of the `status` field: a one-key object, `Ok` with the unit value or `Err` with an error. */
  function StatusFromJson(j: Json): Option<BlockResult<()>> {
    match j
    case JObj(m) =>
      if |m| != 1 then None
      else if "Ok" in m then
        (if m["Ok"] == JNull then Some(Ok(())) else None)
      else if "Err" in m then
        (match TransactionErrorFromJson(m["Err"])
         case Some(e) => Some(Err(e))
         case None => None)
      else None
    case _ => None
  }

  /** Binding the form of a status gives it back. */
  lemma StatusRoundTrip(status: BlockResult<()>)
    ensures StatusFromJson(StatusToJson(status)) == Some(status)
  {
    match status
    case Ok(u) =>
      assert u == ();
    case Err(e) =>
      TransactionErrorJsonRoundTrip(e);
  }

  /** Whatever binds as a status is exactly that status's form. */
  lemma StatusCanonical(j: Json)
    requires StatusFromJson(j).Some?
    ensures StatusToJson(StatusFromJson(j).value) == j
  {
    var m := j.fields;
    if "Ok" in m {
      SingletonMap(m, "Ok");
    } else {
      SingletonMap(m, "Err");
      TransactionErrorJsonCanonical(m["Err"]);
    }
  }
}
