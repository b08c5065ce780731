/**
 * Instructions as a node reports them in a transaction's status metadata
 * (src/solana_blocks/instructions.rs). Every struct uses serde's camelCase field names;
 * the two enumerations are untagged, so a value is resolved by trying the variants' shapes in
 * declaration order and keeping the first that binds.
 */
module Instructions {
  import opened Prelude
  import opened JsonShape

  /** An instruction a node could parse: `parsed` is an arbitrary JSON value, kept opaque. */
  datatype ParsedInstruction = ParsedInstruction(program: string, programId: string, parsed: Json)

  /** An instruction of a program the node cannot parse: accounts as strings, data as text. */
  datatype UiPartiallyDecodedInstruction =
    UiPartiallyDecodedInstruction(programId: string, accounts: seq<string>, data: string)

  /** A compiled instruction: the program and the accounts are u8 indices into the key list. */
  datatype UiCompiledInstruction =
    UiCompiledInstruction(programIdIndex: U8, accounts: seq<U8>, data: string)

  /** Untagged: `Compiled` is tried before `Parsed`. */
  datatype UiInstruction =
    | Compiled(compiled: UiCompiledInstruction)
    | Parsed(parsed: UiParsedInstruction)

  /** Untagged: `Parsed` is tried before `PartiallyDecoded`. */
  datatype UiParsedInstruction =
    | Parsed(instruction: ParsedInstruction)
    | PartiallyDecoded(partial: UiPartiallyDecodedInstruction)

  /** The inner instructions of the instruction at `index`, in execution order. */
  datatype UiInnerInstructions = UiInnerInstructions(index: U8, instructions: seq<UiInstruction>)

  // ---------------------------------------------------------------------------------------------
  // Wire forms
  // ---------------------------------------------------------------------------------------------

  function ParsedInstructionToJson(p: ParsedInstruction): Json {
    JObj(map["program" := JStr(p.program), "programId" := JStr(p.programId), "parsed" := p.parsed])
  }

  function ParsedInstructionFromJson(j: Json): Option<ParsedInstruction> {
    var program :- Field(j, "program", AsString);
    var programId :- Field(j, "programId", AsString);
    var parsed :- Field(j, "parsed", v => Some(v));
    Some(ParsedInstruction(program, programId, parsed))
  }

  function UiPartiallyDecodedInstructionToJson(p: UiPartiallyDecodedInstruction): Json {
    JObj(map[
      "programId" := JStr(p.programId),
      "accounts" := JArr(Items(p.accounts, StringJson)),
      "data" := JStr(p.data)])
  }

  function UiPartiallyDecodedInstructionFromJson(j: Json): Option<UiPartiallyDecodedInstruction> {
    var programId :- Field(j, "programId", AsString);
    var accounts :- Field(j, "accounts", ArrayOf(AsString));
    var data :- Field(j, "data", AsString);
    Some(UiPartiallyDecodedInstruction(programId, accounts, data))
  }

  function UiCompiledInstructionToJson(c: UiCompiledInstruction): Json {
    JObj(map[
      "programIdIndex" := JNum(c.programIdIndex),
      "accounts" := JArr(Items(c.accounts, U8Json)),
      "data" := JStr(c.data)])
  }

  function UiCompiledInstructionFromJson(j: Json): Option<UiCompiledInstruction> {
    var programIdIndex :- Field(j, "programIdIndex", AsU8);
    var accounts :- Field(j, "accounts", ArrayOf(AsU8));
    var data :- Field(j, "data", AsString);
    Some(UiCompiledInstruction(programIdIndex, accounts, data))
  }

  lemma ParsedInstructionRoundTrip(p: ParsedInstruction)
    ensures ParsedInstructionFromJson(ParsedInstructionToJson(p)) == Some(p)
  {
  }

  lemma UiPartiallyDecodedInstructionRoundTrip(p: UiPartiallyDecodedInstruction)
    ensures UiPartiallyDecodedInstructionFromJson(UiPartiallyDecodedInstructionToJson(p)) == Some(p)
  {
    ArrayRoundTrip(p.accounts, StringJson, AsString);
  }

  lemma UiCompiledInstructionRoundTrip(c: UiCompiledInstruction)
    ensures UiCompiledInstructionFromJson(UiCompiledInstructionToJson(c)) == Some(c)
  {
    ArrayRoundTrip(c.accounts, U8Json, AsU8);
  }

  /** Untagged: the form of the inner value. */
  function UiParsedInstructionToJson(p: UiParsedInstruction): Json {
    match p
    case Parsed(instruction) => ParsedInstructionToJson(instruction)
    case PartiallyDecoded(partial) => UiPartiallyDecodedInstructionToJson(partial)
  }

  /** Untagged resolution: the `Parsed` shape first, then the `PartiallyDecoded` shape. */
  function UiParsedInstructionFromJson(j: Json): Option<UiParsedInstruction> {
    match ParsedInstructionFromJson(j)
    case Some(instruction) => Some(UiParsedInstruction.Parsed(instruction))
    case None =>
      match UiPartiallyDecodedInstructionFromJson(j)
      case Some(partial) => Some(PartiallyDecoded(partial))
      case None => None
  }

  /** Untagged: the form of the inner value. */
  function UiInstructionToJson(i: UiInstruction): Json {
    match i
    case Compiled(compiled) => UiCompiledInstructionToJson(compiled)
    case Parsed(parsed) => UiParsedInstructionToJson(parsed)
  }

  /** Untagged resolution: the `Compiled` shape first, then the `Parsed` shapes. */
  function UiInstructionFromJson(j: Json): Option<UiInstruction> {
    match UiCompiledInstructionFromJson(j)
    case Some(compiled) => Some(Compiled(compiled))
    case None =>
      match UiParsedInstructionFromJson(j)
      case Some(parsed) => Some(UiInstruction.Parsed(parsed))
      case None => None
  }

  function UiInnerInstructionsToJson(inner: UiInnerInstructions): Json {
    JObj(map[
      "index" := JNum(inner.index),
      "instructions" := JArr(Items(inner.instructions, UiInstructionToJson))])
  }

  function UiInnerInstructionsFromJson(j: Json): Option<UiInnerInstructions> {
    var index :- Field(j, "index", AsU8);
    var instructions :- Field(j, "instructions", ArrayOf(UiInstructionFromJson));
    Some(UiInnerInstructions(index, instructions))
  }

  // ---------------------------------------------------------------------------------------------
  // Resolution
  // ---------------------------------------------------------------------------------------------

  /** Each variant's form resolves to that variant: the earlier shape never captures a later one. */
  lemma UiParsedInstructionRoundTrip(p: UiParsedInstruction)
    ensures UiParsedInstructionFromJson(UiParsedInstructionToJson(p)) == Some(p)
  {
    match p
    case Parsed(instruction) =>
      ParsedInstructionRoundTrip(instruction);
    case PartiallyDecoded(partial) =>
      UiPartiallyDecodedInstructionRoundTrip(partial);
  }

  /** Each variant's form resolves to that variant, `Parsed` ones included. */
  lemma UiInstructionRoundTrip(i: UiInstruction)
    ensures UiInstructionFromJson(UiInstructionToJson(i)) == Some(i)
  {
    match i
    case Compiled(compiled) =>
      UiCompiledInstructionRoundTrip(compiled);
    case Parsed(parsed) =>
      UiParsedInstructionRoundTrip(parsed);
  }

  /**
   * An object that carries the fields of a parsed instruction and of a compiled one resolves as
   * `Compiled`, the variant declared first.
   */
  lemma CompiledTriedFirst(c: UiCompiledInstruction, p: UiParsedInstruction)
    ensures UiInstructionFromJson(JObj(UiParsedInstructionToJson(p).fields + UiCompiledInstructionToJson(c).fields))
            == Some(Compiled(c))
  {
    ArrayRoundTrip(c.accounts, U8Json, AsU8);
  }

  /**
   * An object that carries the fields of a partially decoded instruction and of a parsed one
   * resolves as `Parsed`, the variant declared first.
   */
  lemma ParsedTriedFirst(d: UiPartiallyDecodedInstruction, p: ParsedInstruction)
    ensures UiParsedInstructionFromJson(
              JObj(UiPartiallyDecodedInstructionToJson(d).fields + ParsedInstructionToJson(p).fields))
            == Some(UiParsedInstruction.Parsed(p))
  {
  }

  /** Inner instructions bind back index and instruction sequence, in order. */
  lemma UiInnerInstructionsRoundTrip(inner: UiInnerInstructions)
    ensures UiInnerInstructionsFromJson(UiInnerInstructionsToJson(inner)) == Some(inner)
  {
    forall i: UiInstruction
      ensures UiInstructionFromJson(UiInstructionToJson(i)) == Some(i)
    {
      UiInstructionRoundTrip(i);
    }
    ArrayRoundTrip(inner.instructions, UiInstructionToJson, UiInstructionFromJson);
  }
}
