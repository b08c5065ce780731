/**
 * `SolProbeError`, the only ways normalising a block can fail, as declared in
 * `src/simplified_block/errors.rs`; its wire tags follow serde's camelCase rule for variants.
 */
module SimplifiedErrors {
  import opened Prelude
  import opened JsonShape
  import opened Naming
  import opened SolanaErrors

  /** A transaction the normaliser cannot simplify: not `json`-encoded, or not a raw message. */
  datatype SolProbeError = UnsupportedEncoding | UnsupportedMessageType

  /** The Rust identifier of each variant. */
  function SolProbeErrorVariant(e: SolProbeError): string {
    match e
    case UnsupportedEncoding => "UnsupportedEncoding"
    case UnsupportedMessageType => "UnsupportedMessageType"
  }

  /** The wire tag of each variant. */
  function SolProbeErrorTag(e: SolProbeError): string {
    match e
    case UnsupportedEncoding => "unsupportedEncoding"
    case UnsupportedMessageType => "unsupportedMessageType"
  }

  function SolProbeErrorFromTag(s: string): Option<SolProbeError> {
    if s == SolProbeErrorTag(UnsupportedEncoding) then Some(UnsupportedEncoding)
    else if s == SolProbeErrorTag(UnsupportedMessageType) then Some(UnsupportedMessageType)
    else None
  }

  /** Each tag is the camelCase form of its variant's name. */
  lemma SolProbeErrorTagIsCamelCase(e: SolProbeError)
    ensures SolProbeErrorTag(e) == VariantCamelCase(SolProbeErrorVariant(e))
  {
    match e
    case UnsupportedEncoding => UnsupportedEncodingTagIsCamelCase();
    case UnsupportedMessageType => UnsupportedMessageTypeTagIsCamelCase();
  }

  lemma UnsupportedEncodingTagIsCamelCase()
    ensures VariantCamelCase("UnsupportedEncoding") == "unsupportedEncoding"
  {
    assert "UnsupportedEncoding" == ['U'] + "nsupportedEncoding";
    assert "unsupportedEncoding" == ['u'] + "nsupportedEncoding";
  }

  lemma UnsupportedMessageTypeTagIsCamelCase()
    ensures VariantCamelCase("UnsupportedMessageType") == "unsupportedMessageType"
  {
    assert "UnsupportedMessageType" == ['U'] + "nsupportedMessageType";
    assert "unsupportedMessageType" == ['u'] + "nsupportedMessageType";
  }

  /** Untagging recovers every variant from its tag ... */
  lemma SolProbeErrorTagRoundTrip(e: SolProbeError)
    ensures SolProbeErrorFromTag(SolProbeErrorTag(e)) == Some(e)
  {
  }

  /** ... and accepts nothing but the two tags. */
  lemma SolProbeErrorFromTagSound(s: string)
    requires SolProbeErrorFromTag(s).Some?
    ensures SolProbeErrorTag(SolProbeErrorFromTag(s).value) == s
  {
  }

  function SolProbeErrorToJson(e: SolProbeError): Json {
    JStr(SolProbeErrorTag(e))
  }

  function SolProbeErrorFromJson(j: Json): Option<SolProbeError> {
    var s :- AsString(j);
    SolProbeErrorFromTag(s)
  }

  lemma SolProbeErrorJsonRoundTrip(e: SolProbeError)
    ensures SolProbeErrorFromJson(SolProbeErrorToJson(e)) == Some(e)
  {
  }

  /** A decode failure is never a ledger error: its wire form does not bind as a `TransactionError` ... */
  lemma NotATransactionError(e: SolProbeError)
    ensures TransactionErrorFromJson(SolProbeErrorToJson(e)).None?
  {
  }

  /** ... and the wire form of a ledger error does not bind as a `SolProbeError`. */
  lemma TransactionErrorIsNotADecodeFailure(t: TransactionError)
    ensures SolProbeErrorFromJson(TransactionErrorToJson(t)).None?
  {
    if !t.InstructionError? {
      TransactionErrorNameIsUpperCase(t);
    }
  }
}
