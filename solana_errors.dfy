/**
 * The ledger's error enumerations as the RPC node reports them (src/solana_blocks/errors.rs).
 *
 * Both enumerations derive serde's default, externally tagged representation and declare no
 * rename attribute, so a unit variant travels as the bare string of its Rust identifier and a
 * payload variant as a one-key object from that identifier to its payload. Equality is the
 * structural equality Dafny gives every datatype, which is what `derive(PartialEq, Eq)` gives.
 */
module SolanaErrors {
  import opened Prelude
  import opened JsonShape

  /** Why the ledger rejected or failed a transaction: twenty variants, one with a payload. */
  datatype TransactionError =
    | AccountInUse
    | AccountLoadedTwice
    | AccountNotFound
    | ProgramAccountNotFound
    | InsufficientFundsForFee
    | InvalidAccountForFee
    | AlreadyProcessed
    | BlockhashNotFound
    | InstructionError(index: U8, error: InstructionError)
    | CallChainTooDeep
    | MissingSignatureForFee
    | InvalidAccountIndex
    | SignatureFailure
    | InvalidProgramForExecution
    | SanitizeFailure
    | ClusterMaintenance
    | AccountBorrowOutstanding
    | WouldExceedMaxBlockCostLimit
    | UnsupportedVersion
    | InvalidWritableAccount

  /** Why a single instruction failed: fifty variants, two with a payload. */
  datatype InstructionError =
    | GenericError
    | InvalidArgument
    | InvalidInstructionData
    | InvalidAccountData
    | AccountDataTooSmall
    | InsufficientFunds
    | IncorrectProgramId
    | MissingRequiredSignature
    | AccountAlreadyInitialized
    | UninitializedAccount
    | UnbalancedInstruction
    | ModifiedProgramId
    | ExternalAccountLamportSpend
    | ExternalAccountDataModified
    | ReadonlyLamportChange
    | ReadonlyDataModified
    | DuplicateAccountIndex
    | ExecutableModified
    | RentEpochModified
    | NotEnoughAccountKeys
    | AccountDataSizeChanged
    | AccountNotExecutable
    | AccountBorrowFailed
    | AccountBorrowOutstanding
    | DuplicateAccountOutOfSync
    | Custom(code: U32)
    | InvalidError
    | ExecutableDataModified
    | ExecutableLamportChange
    | ExecutableAccountNotRentExempt
    | UnsupportedProgramId
    | CallDepth
    | MissingAccount
    | ReentrancyNotAllowed
    | MaxSeedLengthExceeded
    | InvalidSeeds
    | InvalidRealloc
    | ComputationalBudgetExceeded
    | PrivilegeEscalation
    | ProgramEnvironmentSetupFailure
    | ProgramFailedToComplete
    | ProgramFailedToCompile
    | Immutable
    | IncorrectAuthority
    | BorshIoError(message: string)
    | AccountNotRentExempt
    | InvalidAccountOwner
    | ArithmeticOverflow
    | UnsupportedSysvar
    | IllegalOwner

  /** The variants that serialize as a bare string. */
  predicate IsTransactionErrorUnit(e: TransactionError) {
    !e.InstructionError?
  }

  /** The variants that serialize as a bare string. */
  predicate IsInstructionErrorUnit(e: InstructionError) {
    !e.Custom? && !e.BorshIoError?
  }

  // ---------------------------------------------------------------------------------------------
  // Tags of InstructionError
  // ---------------------------------------------------------------------------------------------

  /** The variant's Rust identifier, which is also its wire tag: no rename attribute is declared. */
  function InstructionErrorName(e: InstructionError): string {
    match e
    case GenericError => "GenericError"
    case InvalidArgument => "InvalidArgument"
    case InvalidInstructionData => "InvalidInstructionData"
    case InvalidAccountData => "InvalidAccountData"
    case AccountDataTooSmall => "AccountDataTooSmall"
    case InsufficientFunds => "InsufficientFunds"
    case IncorrectProgramId => "IncorrectProgramId"
    case MissingRequiredSignature => "MissingRequiredSignature"
    case AccountAlreadyInitialized => "AccountAlreadyInitialized"
    case UninitializedAccount => "UninitializedAccount"
    case UnbalancedInstruction => "UnbalancedInstruction"
    case ModifiedProgramId => "ModifiedProgramId"
    case ExternalAccountLamportSpend => "ExternalAccountLamportSpend"
    case ExternalAccountDataModified => "ExternalAccountDataModified"
    case ReadonlyLamportChange => "ReadonlyLamportChange"
    case ReadonlyDataModified => "ReadonlyDataModified"
    case DuplicateAccountIndex => "DuplicateAccountIndex"
    case ExecutableModified => "ExecutableModified"
    case RentEpochModified => "RentEpochModified"
    case NotEnoughAccountKeys => "NotEnoughAccountKeys"
    case AccountDataSizeChanged => "AccountDataSizeChanged"
    case AccountNotExecutable => "AccountNotExecutable"
    case AccountBorrowFailed => "AccountBorrowFailed"
    case AccountBorrowOutstanding => "AccountBorrowOutstanding"
    case DuplicateAccountOutOfSync => "DuplicateAccountOutOfSync"
    case Custom(_) => "Custom"
    case InvalidError => "InvalidError"
    case ExecutableDataModified => "ExecutableDataModified"
    case ExecutableLamportChange => "ExecutableLamportChange"
    case ExecutableAccountNotRentExempt => "ExecutableAccountNotRentExempt"
    case UnsupportedProgramId => "UnsupportedProgramId"
    case CallDepth => "CallDepth"
    case MissingAccount => "MissingAccount"
    case ReentrancyNotAllowed => "ReentrancyNotAllowed"
    case MaxSeedLengthExceeded => "MaxSeedLengthExceeded"
    case InvalidSeeds => "InvalidSeeds"
    case InvalidRealloc => "InvalidRealloc"
    case ComputationalBudgetExceeded => "ComputationalBudgetExceeded"
    case PrivilegeEscalation => "PrivilegeEscalation"
    case ProgramEnvironmentSetupFailure => "ProgramEnvironmentSetupFailure"
    case ProgramFailedToComplete => "ProgramFailedToComplete"
    case ProgramFailedToCompile => "ProgramFailedToCompile"
    case Immutable => "Immutable"
    case IncorrectAuthority => "IncorrectAuthority"
    case BorshIoError(_) => "BorshIoError"
    case AccountNotRentExempt => "AccountNotRentExempt"
    case InvalidAccountOwner => "InvalidAccountOwner"
    case ArithmeticOverflow => "ArithmeticOverflow"
    case UnsupportedSysvar => "UnsupportedSysvar"
    case IllegalOwner => "IllegalOwner"
  }

  /**
   * The unit variant a bare wire string names, if any; a payload variant is never a bare string.
   * The lookup narrows the candidates by the tag's length and then by single characters until one
   * is left, and only then compares the whole tag.
   */
  function InstructionErrorFromName(s: string): Option<InstructionError> {
    match |s|
    case 9 =>
      (match s[0]
      case 'C' => if s == InstructionErrorName(CallDepth) then Some(CallDepth) else None
      case 'I' => if s == InstructionErrorName(Immutable) then Some(Immutable) else None
      case _ => None)
    case 12 =>
      (match s[1]
      case 'e' => if s == InstructionErrorName(GenericError) then Some(GenericError) else None
      case 'l' => if s == InstructionErrorName(IllegalOwner) then Some(IllegalOwner) else None
      case 'n' =>
        (match s[7]
        case 'E' => if s == InstructionErrorName(InvalidError) then Some(InvalidError) else None
        case 'S' => if s == InstructionErrorName(InvalidSeeds) then Some(InvalidSeeds) else None
        case _ => None)
      case _ => None)
    case 14 =>
      (match s[0]
      case 'I' => if s == InstructionErrorName(InvalidRealloc) then Some(InvalidRealloc) else None
      case 'M' => if s == InstructionErrorName(MissingAccount) then Some(MissingAccount) else None
      case _ => None)
    case 15 => if s == InstructionErrorName(InvalidArgument) then Some(InvalidArgument) else None
    case 17 =>
      (match s[0]
      case 'I' => if s == InstructionErrorName(InsufficientFunds) then Some(InsufficientFunds) else None
      case 'M' => if s == InstructionErrorName(ModifiedProgramId) then Some(ModifiedProgramId) else None
      case 'R' => if s == InstructionErrorName(RentEpochModified) then Some(RentEpochModified) else None
      case 'U' => if s == InstructionErrorName(UnsupportedSysvar) then Some(UnsupportedSysvar) else None
      case _ => None)
    case 18 =>
      (match s[10]
      case 'M' => if s == InstructionErrorName(ExecutableModified) then Some(ExecutableModified) else None
      case 'O' => if s == InstructionErrorName(ArithmeticOverflow) then Some(ArithmeticOverflow) else None
      case 'o' => if s == InstructionErrorName(InvalidAccountData) then Some(InvalidAccountData) else None
      case 'r' => if s == InstructionErrorName(IncorrectProgramId) then Some(IncorrectProgramId) else None
      case 'u' => if s == InstructionErrorName(IncorrectAuthority) then Some(IncorrectAuthority) else None
      case _ => None)
    case 19 =>
      (match s[7]
      case 'A' => if s == InstructionErrorName(InvalidAccountOwner) then Some(InvalidAccountOwner) else None
      case 'B' => if s == InstructionErrorName(AccountBorrowFailed) then Some(AccountBorrowFailed) else None
      case 'D' => if s == InstructionErrorName(AccountDataTooSmall) then Some(AccountDataTooSmall) else None
      case 'g' => if s == InstructionErrorName(PrivilegeEscalation) then Some(PrivilegeEscalation) else None
      case _ => None)
    case 20 =>
      (match s[10]
      case 'E' => if s == InstructionErrorName(AccountNotExecutable) then Some(AccountNotExecutable) else None
      case 'N' => if s == InstructionErrorName(ReentrancyNotAllowed) then Some(ReentrancyNotAllowed) else None
      case 'R' => if s == InstructionErrorName(AccountNotRentExempt) then Some(AccountNotRentExempt) else None
      case 'c' => if s == InstructionErrorName(NotEnoughAccountKeys) then Some(NotEnoughAccountKeys) else None
      case 'd' => if s == InstructionErrorName(UnsupportedProgramId) then Some(UnsupportedProgramId) else None
      case 't' => if s == InstructionErrorName(ReadonlyDataModified) then Some(ReadonlyDataModified) else None
      case 'z' => if s == InstructionErrorName(UninitializedAccount) then Some(UninitializedAccount) else None
      case _ => None)
    case 21 =>
      (match s[0]
      case 'D' => if s == InstructionErrorName(DuplicateAccountIndex) then Some(DuplicateAccountIndex) else None
      case 'M' => if s == InstructionErrorName(MaxSeedLengthExceeded) then Some(MaxSeedLengthExceeded) else None
      case 'R' => if s == InstructionErrorName(ReadonlyLamportChange) then Some(ReadonlyLamportChange) else None
      case 'U' => if s == InstructionErrorName(UnbalancedInstruction) then Some(UnbalancedInstruction) else None
      case _ => None)
    case 22 =>
      (match s[0]
      case 'A' => if s == InstructionErrorName(AccountDataSizeChanged) then Some(AccountDataSizeChanged) else None
      case 'E' => if s == InstructionErrorName(ExecutableDataModified) then Some(ExecutableDataModified) else None
      case 'I' => if s == InstructionErrorName(InvalidInstructionData) then Some(InvalidInstructionData) else None
      case 'P' => if s == InstructionErrorName(ProgramFailedToCompile) then Some(ProgramFailedToCompile) else None
      case _ => None)
    case 23 =>
      (match s[0]
      case 'E' => if s == InstructionErrorName(ExecutableLamportChange) then Some(ExecutableLamportChange) else None
      case 'P' => if s == InstructionErrorName(ProgramFailedToComplete) then Some(ProgramFailedToComplete) else None
      case _ => None)
    case 24 =>
      (match s[0]
      case 'A' => if s == InstructionErrorName(InstructionError.AccountBorrowOutstanding) then Some(InstructionError.AccountBorrowOutstanding) else None
      case 'M' => if s == InstructionErrorName(MissingRequiredSignature) then Some(MissingRequiredSignature) else None
      case _ => None)
    case 25 =>
      (match s[0]
      case 'A' => if s == InstructionErrorName(AccountAlreadyInitialized) then Some(AccountAlreadyInitialized) else None
      case 'D' => if s == InstructionErrorName(DuplicateAccountOutOfSync) then Some(DuplicateAccountOutOfSync) else None
      case _ => None)
    case 27 =>
      (match s[15]
      case 'D' => if s == InstructionErrorName(ExternalAccountDataModified) then Some(ExternalAccountDataModified) else None
      case 'L' => if s == InstructionErrorName(ExternalAccountLamportSpend) then Some(ExternalAccountLamportSpend) else None
      case 'd' => if s == InstructionErrorName(ComputationalBudgetExceeded) then Some(ComputationalBudgetExceeded) else None
      case _ => None)
    case 30 =>
      (match s[0]
      case 'E' => if s == InstructionErrorName(ExecutableAccountNotRentExempt) then Some(ExecutableAccountNotRentExempt) else None
      case 'P' => if s == InstructionErrorName(ProgramEnvironmentSetupFailure) then Some(ProgramEnvironmentSetupFailure) else None
      case _ => None)
    case _ => None
  }

  lemma InstructionErrorRoundTripGenericError()
    ensures InstructionErrorFromName(InstructionErrorName(GenericError)) == Some(GenericError)
  {
  }

  lemma InstructionErrorRoundTripInvalidArgument()
    ensures InstructionErrorFromName(InstructionErrorName(InvalidArgument)) == Some(InvalidArgument)
  {
  }

  lemma InstructionErrorRoundTripInvalidInstructionData()
    ensures InstructionErrorFromName(InstructionErrorName(InvalidInstructionData)) == Some(InvalidInstructionData)
  {
  }

  lemma InstructionErrorRoundTripInvalidAccountData()
    ensures InstructionErrorFromName(InstructionErrorName(InvalidAccountData)) == Some(InvalidAccountData)
  {
  }

  lemma InstructionErrorRoundTripAccountDataTooSmall()
    ensures InstructionErrorFromName(InstructionErrorName(AccountDataTooSmall)) == Some(AccountDataTooSmall)
  {
  }

  lemma InstructionErrorRoundTripInsufficientFunds()
    ensures InstructionErrorFromName(InstructionErrorName(InsufficientFunds)) == Some(InsufficientFunds)
  {
  }

  lemma InstructionErrorRoundTripIncorrectProgramId()
    ensures InstructionErrorFromName(InstructionErrorName(IncorrectProgramId)) == Some(IncorrectProgramId)
  {
  }

  lemma InstructionErrorRoundTripMissingRequiredSignature()
    ensures InstructionErrorFromName(InstructionErrorName(MissingRequiredSignature)) == Some(MissingRequiredSignature)
  {
  }

  lemma InstructionErrorRoundTripAccountAlreadyInitialized()
    ensures InstructionErrorFromName(InstructionErrorName(AccountAlreadyInitialized)) == Some(AccountAlreadyInitialized)
  {
  }

  lemma InstructionErrorRoundTripUninitializedAccount()
    ensures InstructionErrorFromName(InstructionErrorName(UninitializedAccount)) == Some(UninitializedAccount)
  {
  }

  lemma InstructionErrorRoundTripUnbalancedInstruction()
    ensures InstructionErrorFromName(InstructionErrorName(UnbalancedInstruction)) == Some(UnbalancedInstruction)
  {
  }

  lemma InstructionErrorRoundTripModifiedProgramId()
    ensures InstructionErrorFromName(InstructionErrorName(ModifiedProgramId)) == Some(ModifiedProgramId)
  {
  }

  lemma InstructionErrorRoundTripExternalAccountLamportSpend()
    ensures InstructionErrorFromName(InstructionErrorName(ExternalAccountLamportSpend)) == Some(ExternalAccountLamportSpend)
  {
  }

  lemma InstructionErrorRoundTripExternalAccountDataModified()
    ensures InstructionErrorFromName(InstructionErrorName(ExternalAccountDataModified)) == Some(ExternalAccountDataModified)
  {
  }

  lemma InstructionErrorRoundTripReadonlyLamportChange()
    ensures InstructionErrorFromName(InstructionErrorName(ReadonlyLamportChange)) == Some(ReadonlyLamportChange)
  {
  }

  lemma InstructionErrorRoundTripReadonlyDataModified()
    ensures InstructionErrorFromName(InstructionErrorName(ReadonlyDataModified)) == Some(ReadonlyDataModified)
  {
  }

  lemma InstructionErrorRoundTripDuplicateAccountIndex()
    ensures InstructionErrorFromName(InstructionErrorName(DuplicateAccountIndex)) == Some(DuplicateAccountIndex)
  {
  }

  lemma InstructionErrorRoundTripExecutableModified()
    ensures InstructionErrorFromName(InstructionErrorName(ExecutableModified)) == Some(ExecutableModified)
  {
  }

  lemma InstructionErrorRoundTripRentEpochModified()
    ensures InstructionErrorFromName(InstructionErrorName(RentEpochModified)) == Some(RentEpochModified)
  {
  }

  lemma InstructionErrorRoundTripNotEnoughAccountKeys()
    ensures InstructionErrorFromName(InstructionErrorName(NotEnoughAccountKeys)) == Some(NotEnoughAccountKeys)
  {
  }

  lemma InstructionErrorRoundTripAccountDataSizeChanged()
    ensures InstructionErrorFromName(InstructionErrorName(AccountDataSizeChanged)) == Some(AccountDataSizeChanged)
  {
  }

  lemma InstructionErrorRoundTripAccountNotExecutable()
    ensures InstructionErrorFromName(InstructionErrorName(AccountNotExecutable)) == Some(AccountNotExecutable)
  {
  }

  lemma InstructionErrorRoundTripAccountBorrowFailed()
    ensures InstructionErrorFromName(InstructionErrorName(AccountBorrowFailed)) == Some(AccountBorrowFailed)
  {
  }

  lemma InstructionErrorRoundTripAccountBorrowOutstanding()
    ensures InstructionErrorFromName(InstructionErrorName(InstructionError.AccountBorrowOutstanding)) == Some(InstructionError.AccountBorrowOutstanding)
  {
  }

  lemma InstructionErrorRoundTripDuplicateAccountOutOfSync()
    ensures InstructionErrorFromName(InstructionErrorName(DuplicateAccountOutOfSync)) == Some(DuplicateAccountOutOfSync)
  {
  }

  lemma InstructionErrorRoundTripInvalidError()
    ensures InstructionErrorFromName(InstructionErrorName(InvalidError)) == Some(InvalidError)
  {
  }

  lemma InstructionErrorRoundTripExecutableDataModified()
    ensures InstructionErrorFromName(InstructionErrorName(ExecutableDataModified)) == Some(ExecutableDataModified)
  {
  }

  lemma InstructionErrorRoundTripExecutableLamportChange()
    ensures InstructionErrorFromName(InstructionErrorName(ExecutableLamportChange)) == Some(ExecutableLamportChange)
  {
  }

  lemma InstructionErrorRoundTripExecutableAccountNotRentExempt()
    ensures InstructionErrorFromName(InstructionErrorName(ExecutableAccountNotRentExempt)) == Some(ExecutableAccountNotRentExempt)
  {
  }

  lemma InstructionErrorRoundTripUnsupportedProgramId()
    ensures InstructionErrorFromName(InstructionErrorName(UnsupportedProgramId)) == Some(UnsupportedProgramId)
  {
  }

  lemma InstructionErrorRoundTripCallDepth()
    ensures InstructionErrorFromName(InstructionErrorName(CallDepth)) == Some(CallDepth)
  {
  }

  lemma InstructionErrorRoundTripMissingAccount()
    ensures InstructionErrorFromName(InstructionErrorName(MissingAccount)) == Some(MissingAccount)
  {
  }

  lemma InstructionErrorRoundTripReentrancyNotAllowed()
    ensures InstructionErrorFromName(InstructionErrorName(ReentrancyNotAllowed)) == Some(ReentrancyNotAllowed)
  {
  }

  lemma InstructionErrorRoundTripMaxSeedLengthExceeded()
    ensures InstructionErrorFromName(InstructionErrorName(MaxSeedLengthExceeded)) == Some(MaxSeedLengthExceeded)
  {
  }

  lemma InstructionErrorRoundTripInvalidSeeds()
    ensures InstructionErrorFromName(InstructionErrorName(InvalidSeeds)) == Some(InvalidSeeds)
  {
  }

  lemma InstructionErrorRoundTripInvalidRealloc()
    ensures InstructionErrorFromName(InstructionErrorName(InvalidRealloc)) == Some(InvalidRealloc)
  {
  }

  lemma InstructionErrorRoundTripComputationalBudgetExceeded()
    ensures InstructionErrorFromName(InstructionErrorName(ComputationalBudgetExceeded)) == Some(ComputationalBudgetExceeded)
  {
  }

  lemma InstructionErrorRoundTripPrivilegeEscalation()
    ensures InstructionErrorFromName(InstructionErrorName(PrivilegeEscalation)) == Some(PrivilegeEscalation)
  {
  }

  lemma InstructionErrorRoundTripProgramEnvironmentSetupFailure()
    ensures InstructionErrorFromName(InstructionErrorName(ProgramEnvironmentSetupFailure)) == Some(ProgramEnvironmentSetupFailure)
  {
  }

  lemma InstructionErrorRoundTripProgramFailedToComplete()
    ensures InstructionErrorFromName(InstructionErrorName(ProgramFailedToComplete)) == Some(ProgramFailedToComplete)
  {
  }

  lemma InstructionErrorRoundTripProgramFailedToCompile()
    ensures InstructionErrorFromName(InstructionErrorName(ProgramFailedToCompile)) == Some(ProgramFailedToCompile)
  {
  }

  lemma InstructionErrorRoundTripImmutable()
    ensures InstructionErrorFromName(InstructionErrorName(Immutable)) == Some(Immutable)
  {
  }

  lemma InstructionErrorRoundTripIncorrectAuthority()
    ensures InstructionErrorFromName(InstructionErrorName(IncorrectAuthority)) == Some(IncorrectAuthority)
  {
  }

  lemma InstructionErrorRoundTripAccountNotRentExempt()
    ensures InstructionErrorFromName(InstructionErrorName(AccountNotRentExempt)) == Some(AccountNotRentExempt)
  {
  }

  lemma InstructionErrorRoundTripInvalidAccountOwner()
    ensures InstructionErrorFromName(InstructionErrorName(InvalidAccountOwner)) == Some(InvalidAccountOwner)
  {
  }

  lemma InstructionErrorRoundTripArithmeticOverflow()
    ensures InstructionErrorFromName(InstructionErrorName(ArithmeticOverflow)) == Some(ArithmeticOverflow)
  {
  }

  lemma InstructionErrorRoundTripUnsupportedSysvar()
    ensures InstructionErrorFromName(InstructionErrorName(UnsupportedSysvar)) == Some(UnsupportedSysvar)
  {
  }

  lemma InstructionErrorRoundTripIllegalOwner()
    ensures InstructionErrorFromName(InstructionErrorName(IllegalOwner)) == Some(IllegalOwner)
  {
  }

  /** Every unit variant is recovered from its tag. */
  lemma InstructionErrorNameRoundTrip(e: InstructionError)
    requires IsInstructionErrorUnit(e)
    ensures InstructionErrorFromName(InstructionErrorName(e)) == Some(e)
  {
    match e
    case GenericError => InstructionErrorRoundTripGenericError();
    case InvalidArgument => InstructionErrorRoundTripInvalidArgument();
    case InvalidInstructionData => InstructionErrorRoundTripInvalidInstructionData();
    case InvalidAccountData => InstructionErrorRoundTripInvalidAccountData();
    case AccountDataTooSmall => InstructionErrorRoundTripAccountDataTooSmall();
    case InsufficientFunds => InstructionErrorRoundTripInsufficientFunds();
    case IncorrectProgramId => InstructionErrorRoundTripIncorrectProgramId();
    case MissingRequiredSignature => InstructionErrorRoundTripMissingRequiredSignature();
    case AccountAlreadyInitialized => InstructionErrorRoundTripAccountAlreadyInitialized();
    case UninitializedAccount => InstructionErrorRoundTripUninitializedAccount();
    case UnbalancedInstruction => InstructionErrorRoundTripUnbalancedInstruction();
    case ModifiedProgramId => InstructionErrorRoundTripModifiedProgramId();
    case ExternalAccountLamportSpend => InstructionErrorRoundTripExternalAccountLamportSpend();
    case ExternalAccountDataModified => InstructionErrorRoundTripExternalAccountDataModified();
    case ReadonlyLamportChange => InstructionErrorRoundTripReadonlyLamportChange();
    case ReadonlyDataModified => InstructionErrorRoundTripReadonlyDataModified();
    case DuplicateAccountIndex => InstructionErrorRoundTripDuplicateAccountIndex();
    case ExecutableModified => InstructionErrorRoundTripExecutableModified();
    case RentEpochModified => InstructionErrorRoundTripRentEpochModified();
    case NotEnoughAccountKeys => InstructionErrorRoundTripNotEnoughAccountKeys();
    case AccountDataSizeChanged => InstructionErrorRoundTripAccountDataSizeChanged();
    case AccountNotExecutable => InstructionErrorRoundTripAccountNotExecutable();
    case AccountBorrowFailed => InstructionErrorRoundTripAccountBorrowFailed();
    case AccountBorrowOutstanding => InstructionErrorRoundTripAccountBorrowOutstanding();
    case DuplicateAccountOutOfSync => InstructionErrorRoundTripDuplicateAccountOutOfSync();
    case Custom(_) =>
    case InvalidError => InstructionErrorRoundTripInvalidError();
    case ExecutableDataModified => InstructionErrorRoundTripExecutableDataModified();
    case ExecutableLamportChange => InstructionErrorRoundTripExecutableLamportChange();
    case ExecutableAccountNotRentExempt => InstructionErrorRoundTripExecutableAccountNotRentExempt();
    case UnsupportedProgramId => InstructionErrorRoundTripUnsupportedProgramId();
    case CallDepth => InstructionErrorRoundTripCallDepth();
    case MissingAccount => InstructionErrorRoundTripMissingAccount();
    case ReentrancyNotAllowed => InstructionErrorRoundTripReentrancyNotAllowed();
    case MaxSeedLengthExceeded => InstructionErrorRoundTripMaxSeedLengthExceeded();
    case InvalidSeeds => InstructionErrorRoundTripInvalidSeeds();
    case InvalidRealloc => InstructionErrorRoundTripInvalidRealloc();
    case ComputationalBudgetExceeded => InstructionErrorRoundTripComputationalBudgetExceeded();
    case PrivilegeEscalation => InstructionErrorRoundTripPrivilegeEscalation();
    case ProgramEnvironmentSetupFailure => InstructionErrorRoundTripProgramEnvironmentSetupFailure();
    case ProgramFailedToComplete => InstructionErrorRoundTripProgramFailedToComplete();
    case ProgramFailedToCompile => InstructionErrorRoundTripProgramFailedToCompile();
    case Immutable => InstructionErrorRoundTripImmutable();
    case IncorrectAuthority => InstructionErrorRoundTripIncorrectAuthority();
    case BorshIoError(_) =>
    case AccountNotRentExempt => InstructionErrorRoundTripAccountNotRentExempt();
    case InvalidAccountOwner => InstructionErrorRoundTripInvalidAccountOwner();
    case ArithmeticOverflow => InstructionErrorRoundTripArithmeticOverflow();
    case UnsupportedSysvar => InstructionErrorRoundTripUnsupportedSysvar();
    case IllegalOwner => InstructionErrorRoundTripIllegalOwner();
  }

  lemma InstructionErrorFromNameSoundLength9(s: string)
    requires |s| == 9 && InstructionErrorFromName(s).Some?
    ensures IsInstructionErrorUnit(InstructionErrorFromName(s).value)
    ensures InstructionErrorName(InstructionErrorFromName(s).value) == s
  {
  }

  lemma InstructionErrorFromNameSoundLength12(s: string)
    requires |s| == 12 && InstructionErrorFromName(s).Some?
    ensures IsInstructionErrorUnit(InstructionErrorFromName(s).value)
    ensures InstructionErrorName(InstructionErrorFromName(s).value) == s
  {
  }

  lemma InstructionErrorFromNameSoundLength14(s: string)
    requires |s| == 14 && InstructionErrorFromName(s).Some?
    ensures IsInstructionErrorUnit(InstructionErrorFromName(s).value)
    ensures InstructionErrorName(InstructionErrorFromName(s).value) == s
  {
  }

  lemma InstructionErrorFromNameSoundLength15(s: string)
    requires |s| == 15 && InstructionErrorFromName(s).Some?
    ensures IsInstructionErrorUnit(InstructionErrorFromName(s).value)
    ensures InstructionErrorName(InstructionErrorFromName(s).value) == s
  {
  }

  lemma InstructionErrorFromNameSoundLength17(s: string)
    requires |s| == 17 && InstructionErrorFromName(s).Some?
    ensures IsInstructionErrorUnit(InstructionErrorFromName(s).value)
    ensures InstructionErrorName(InstructionErrorFromName(s).value) == s
  {
  }

  lemma InstructionErrorFromNameSoundLength18(s: string)
    requires |s| == 18 && InstructionErrorFromName(s).Some?
    ensures IsInstructionErrorUnit(InstructionErrorFromName(s).value)
    ensures InstructionErrorName(InstructionErrorFromName(s).value) == s
  {
  }

  lemma InstructionErrorFromNameSoundLength19(s: string)
    requires |s| == 19 && InstructionErrorFromName(s).Some?
    ensures IsInstructionErrorUnit(InstructionErrorFromName(s).value)
    ensures InstructionErrorName(InstructionErrorFromName(s).value) == s
  {
  }

  lemma InstructionErrorFromNameSoundLength20(s: string)
    requires |s| == 20 && InstructionErrorFromName(s).Some?
    ensures IsInstructionErrorUnit(InstructionErrorFromName(s).value)
    ensures InstructionErrorName(InstructionErrorFromName(s).value) == s
  {
  }

  lemma InstructionErrorFromNameSoundLength21(s: string)
    requires |s| == 21 && InstructionErrorFromName(s).Some?
    ensures IsInstructionErrorUnit(InstructionErrorFromName(s).value)
    ensures InstructionErrorName(InstructionErrorFromName(s).value) == s
  {
  }

  lemma InstructionErrorFromNameSoundLength22(s: string)
    requires |s| == 22 && InstructionErrorFromName(s).Some?
    ensures IsInstructionErrorUnit(InstructionErrorFromName(s).value)
    ensures InstructionErrorName(InstructionErrorFromName(s).value) == s
  {
  }

  lemma InstructionErrorFromNameSoundLength23(s: string)
    requires |s| == 23 && InstructionErrorFromName(s).Some?
    ensures IsInstructionErrorUnit(InstructionErrorFromName(s).value)
    ensures InstructionErrorName(InstructionErrorFromName(s).value) == s
  {
  }

  lemma InstructionErrorFromNameSoundLength24(s: string)
    requires |s| == 24 && InstructionErrorFromName(s).Some?
    ensures IsInstructionErrorUnit(InstructionErrorFromName(s).value)
    ensures InstructionErrorName(InstructionErrorFromName(s).value) == s
  {
  }

  lemma InstructionErrorFromNameSoundLength25(s: string)
    requires |s| == 25 && InstructionErrorFromName(s).Some?
    ensures IsInstructionErrorUnit(InstructionErrorFromName(s).value)
    ensures InstructionErrorName(InstructionErrorFromName(s).value) == s
  {
  }

  lemma InstructionErrorFromNameSoundLength27(s: string)
    requires |s| == 27 && InstructionErrorFromName(s).Some?
    ensures IsInstructionErrorUnit(InstructionErrorFromName(s).value)
    ensures InstructionErrorName(InstructionErrorFromName(s).value) == s
  {
  }

  lemma InstructionErrorFromNameSoundLength30(s: string)
    requires |s| == 30 && InstructionErrorFromName(s).Some?
    ensures IsInstructionErrorUnit(InstructionErrorFromName(s).value)
    ensures InstructionErrorName(InstructionErrorFromName(s).value) == s
  {
  }

  /** A string is accepted as a tag only if it is the tag of the unit variant it yields. */
  lemma InstructionErrorFromNameSound(s: string)
    requires InstructionErrorFromName(s).Some?
    ensures IsInstructionErrorUnit(InstructionErrorFromName(s).value)
    ensures InstructionErrorName(InstructionErrorFromName(s).value) == s
  {
    match |s|
    case 9 => InstructionErrorFromNameSoundLength9(s);
    case 12 => InstructionErrorFromNameSoundLength12(s);
    case 14 => InstructionErrorFromNameSoundLength14(s);
    case 15 => InstructionErrorFromNameSoundLength15(s);
    case 17 => InstructionErrorFromNameSoundLength17(s);
    case 18 => InstructionErrorFromNameSoundLength18(s);
    case 19 => InstructionErrorFromNameSoundLength19(s);
    case 20 => InstructionErrorFromNameSoundLength20(s);
    case 21 => InstructionErrorFromNameSoundLength21(s);
    case 22 => InstructionErrorFromNameSoundLength22(s);
    case 23 => InstructionErrorFromNameSoundLength23(s);
    case 24 => InstructionErrorFromNameSoundLength24(s);
    case 25 => InstructionErrorFromNameSoundLength25(s);
    case 27 => InstructionErrorFromNameSoundLength27(s);
    case 30 => InstructionErrorFromNameSoundLength30(s);
  }

  // ---------------------------------------------------------------------------------------------
  // Tags of TransactionError
  // ---------------------------------------------------------------------------------------------

  /** The variant's Rust identifier, which is also its wire tag: no rename attribute is declared. */
  function TransactionErrorName(e: TransactionError): string {
    match e
    case AccountInUse => "AccountInUse"
    case AccountLoadedTwice => "AccountLoadedTwice"
    case AccountNotFound => "AccountNotFound"
    case ProgramAccountNotFound => "ProgramAccountNotFound"
    case InsufficientFundsForFee => "InsufficientFundsForFee"
    case InvalidAccountForFee => "InvalidAccountForFee"
    case AlreadyProcessed => "AlreadyProcessed"
    case BlockhashNotFound => "BlockhashNotFound"
    case InstructionError(_, _) => "InstructionError"
    case CallChainTooDeep => "CallChainTooDeep"
    case MissingSignatureForFee => "MissingSignatureForFee"
    case InvalidAccountIndex => "InvalidAccountIndex"
    case SignatureFailure => "SignatureFailure"
    case InvalidProgramForExecution => "InvalidProgramForExecution"
    case SanitizeFailure => "SanitizeFailure"
    case ClusterMaintenance => "ClusterMaintenance"
    case AccountBorrowOutstanding => "AccountBorrowOutstanding"
    case WouldExceedMaxBlockCostLimit => "WouldExceedMaxBlockCostLimit"
    case UnsupportedVersion => "UnsupportedVersion"
    case InvalidWritableAccount => "InvalidWritableAccount"
  }

  /**
   * The unit variant a bare wire string names, if any; a payload variant is never a bare string.
   * The lookup narrows the candidates by the tag's length and then by single characters until one
   * is left, and only then compares the whole tag.
   */
  function TransactionErrorFromName(s: string): Option<TransactionError> {
    match |s|
    case 12 => if s == TransactionErrorName(AccountInUse) then Some(AccountInUse) else None
    case 15 =>
      (match s[0]
      case 'A' => if s == TransactionErrorName(AccountNotFound) then Some(AccountNotFound) else None
      case 'S' => if s == TransactionErrorName(SanitizeFailure) then Some(SanitizeFailure) else None
      case _ => None)
    case 16 =>
      (match s[0]
      case 'A' => if s == TransactionErrorName(AlreadyProcessed) then Some(AlreadyProcessed) else None
      case 'C' => if s == TransactionErrorName(CallChainTooDeep) then Some(CallChainTooDeep) else None
      case 'S' => if s == TransactionErrorName(SignatureFailure) then Some(SignatureFailure) else None
      case _ => None)
    case 17 => if s == TransactionErrorName(BlockhashNotFound) then Some(BlockhashNotFound) else None
    case 18 =>
      (match s[0]
      case 'A' => if s == TransactionErrorName(AccountLoadedTwice) then Some(AccountLoadedTwice) else None
      case 'C' => if s == TransactionErrorName(ClusterMaintenance) then Some(ClusterMaintenance) else None
      case 'U' => if s == TransactionErrorName(UnsupportedVersion) then Some(UnsupportedVersion) else None
      case _ => None)
    case 19 => if s == TransactionErrorName(InvalidAccountIndex) then Some(InvalidAccountIndex) else None
    case 20 => if s == TransactionErrorName(InvalidAccountForFee) then Some(InvalidAccountForFee) else None
    case 22 =>
      (match s[0]
      case 'I' => if s == TransactionErrorName(InvalidWritableAccount) then Some(InvalidWritableAccount) else None
      case 'M' => if s == TransactionErrorName(MissingSignatureForFee) then Some(MissingSignatureForFee) else None
      case 'P' => if s == TransactionErrorName(ProgramAccountNotFound) then Some(ProgramAccountNotFound) else None
      case _ => None)
    case 23 => if s == TransactionErrorName(InsufficientFundsForFee) then Some(InsufficientFundsForFee) else None
    case 24 => if s == TransactionErrorName(TransactionError.AccountBorrowOutstanding) then Some(TransactionError.AccountBorrowOutstanding) else None
    case 26 => if s == TransactionErrorName(InvalidProgramForExecution) then Some(InvalidProgramForExecution) else None
    case 28 => if s == TransactionErrorName(WouldExceedMaxBlockCostLimit) then Some(WouldExceedMaxBlockCostLimit) else None
    case _ => None
  }

  lemma TransactionErrorRoundTripAccountInUse()
    ensures TransactionErrorFromName(TransactionErrorName(AccountInUse)) == Some(AccountInUse)
  {
  }

  lemma TransactionErrorRoundTripAccountLoadedTwice()
    ensures TransactionErrorFromName(TransactionErrorName(AccountLoadedTwice)) == Some(AccountLoadedTwice)
  {
  }

  lemma TransactionErrorRoundTripAccountNotFound()
    ensures TransactionErrorFromName(TransactionErrorName(AccountNotFound)) == Some(AccountNotFound)
  {
  }

  lemma TransactionErrorRoundTripProgramAccountNotFound()
    ensures TransactionErrorFromName(TransactionErrorName(ProgramAccountNotFound)) == Some(ProgramAccountNotFound)
  {
  }

  lemma TransactionErrorRoundTripInsufficientFundsForFee()
    ensures TransactionErrorFromName(TransactionErrorName(InsufficientFundsForFee)) == Some(InsufficientFundsForFee)
  {
  }

  lemma TransactionErrorRoundTripInvalidAccountForFee()
    ensures TransactionErrorFromName(TransactionErrorName(InvalidAccountForFee)) == Some(InvalidAccountForFee)
  {
  }

  lemma TransactionErrorRoundTripAlreadyProcessed()
    ensures TransactionErrorFromName(TransactionErrorName(AlreadyProcessed)) == Some(AlreadyProcessed)
  {
  }

  lemma TransactionErrorRoundTripBlockhashNotFound()
    ensures TransactionErrorFromName(TransactionErrorName(BlockhashNotFound)) == Some(BlockhashNotFound)
  {
  }

  lemma TransactionErrorRoundTripCallChainTooDeep()
    ensures TransactionErrorFromName(TransactionErrorName(CallChainTooDeep)) == Some(CallChainTooDeep)
  {
  }

  lemma TransactionErrorRoundTripMissingSignatureForFee()
    ensures TransactionErrorFromName(TransactionErrorName(MissingSignatureForFee)) == Some(MissingSignatureForFee)
  {
  }

  lemma TransactionErrorRoundTripInvalidAccountIndex()
    ensures TransactionErrorFromName(TransactionErrorName(InvalidAccountIndex)) == Some(InvalidAccountIndex)
  {
  }

  lemma TransactionErrorRoundTripSignatureFailure()
    ensures TransactionErrorFromName(TransactionErrorName(SignatureFailure)) == Some(SignatureFailure)
  {
  }

  lemma TransactionErrorRoundTripInvalidProgramForExecution()
    ensures TransactionErrorFromName(TransactionErrorName(InvalidProgramForExecution)) == Some(InvalidProgramForExecution)
  {
  }

  lemma TransactionErrorRoundTripSanitizeFailure()
    ensures TransactionErrorFromName(TransactionErrorName(SanitizeFailure)) == Some(SanitizeFailure)
  {
  }

  lemma TransactionErrorRoundTripClusterMaintenance()
    ensures TransactionErrorFromName(TransactionErrorName(ClusterMaintenance)) == Some(ClusterMaintenance)
  {
  }

  lemma TransactionErrorRoundTripAccountBorrowOutstanding()
    ensures TransactionErrorFromName(TransactionErrorName(TransactionError.AccountBorrowOutstanding)) == Some(TransactionError.AccountBorrowOutstanding)
  {
  }

  lemma TransactionErrorRoundTripWouldExceedMaxBlockCostLimit()
    ensures TransactionErrorFromName(TransactionErrorName(WouldExceedMaxBlockCostLimit)) == Some(WouldExceedMaxBlockCostLimit)
  {
  }

  lemma TransactionErrorRoundTripUnsupportedVersion()
    ensures TransactionErrorFromName(TransactionErrorName(UnsupportedVersion)) == Some(UnsupportedVersion)
  {
  }

  lemma TransactionErrorRoundTripInvalidWritableAccount()
    ensures TransactionErrorFromName(TransactionErrorName(InvalidWritableAccount)) == Some(InvalidWritableAccount)
  {
  }

  /** Every unit variant is recovered from its tag. */
  lemma TransactionErrorNameRoundTrip(e: TransactionError)
    requires IsTransactionErrorUnit(e)
    ensures TransactionErrorFromName(TransactionErrorName(e)) == Some(e)
  {
    match e
    case AccountInUse => TransactionErrorRoundTripAccountInUse();
    case AccountLoadedTwice => TransactionErrorRoundTripAccountLoadedTwice();
    case AccountNotFound => TransactionErrorRoundTripAccountNotFound();
    case ProgramAccountNotFound => TransactionErrorRoundTripProgramAccountNotFound();
    case InsufficientFundsForFee => TransactionErrorRoundTripInsufficientFundsForFee();
    case InvalidAccountForFee => TransactionErrorRoundTripInvalidAccountForFee();
    case AlreadyProcessed => TransactionErrorRoundTripAlreadyProcessed();
    case BlockhashNotFound => TransactionErrorRoundTripBlockhashNotFound();
    case InstructionError(_, _) =>
    case CallChainTooDeep => TransactionErrorRoundTripCallChainTooDeep();
    case MissingSignatureForFee => TransactionErrorRoundTripMissingSignatureForFee();
    case InvalidAccountIndex => TransactionErrorRoundTripInvalidAccountIndex();
    case SignatureFailure => TransactionErrorRoundTripSignatureFailure();
    case InvalidProgramForExecution => TransactionErrorRoundTripInvalidProgramForExecution();
    case SanitizeFailure => TransactionErrorRoundTripSanitizeFailure();
    case ClusterMaintenance => TransactionErrorRoundTripClusterMaintenance();
    case AccountBorrowOutstanding => TransactionErrorRoundTripAccountBorrowOutstanding();
    case WouldExceedMaxBlockCostLimit => TransactionErrorRoundTripWouldExceedMaxBlockCostLimit();
    case UnsupportedVersion => TransactionErrorRoundTripUnsupportedVersion();
    case InvalidWritableAccount => TransactionErrorRoundTripInvalidWritableAccount();
  }

  lemma TransactionErrorFromNameSoundLength12(s: string)
    requires |s| == 12 && TransactionErrorFromName(s).Some?
    ensures IsTransactionErrorUnit(TransactionErrorFromName(s).value)
    ensures TransactionErrorName(TransactionErrorFromName(s).value) == s
  {
  }

  lemma TransactionErrorFromNameSoundLength15(s: string)
    requires |s| == 15 && TransactionErrorFromName(s).Some?
    ensures IsTransactionErrorUnit(TransactionErrorFromName(s).value)
    ensures TransactionErrorName(TransactionErrorFromName(s).value) == s
  {
  }

  lemma TransactionErrorFromNameSoundLength16(s: string)
    requires |s| == 16 && TransactionErrorFromName(s).Some?
    ensures IsTransactionErrorUnit(TransactionErrorFromName(s).value)
    ensures TransactionErrorName(TransactionErrorFromName(s).value) == s
  {
  }

  lemma TransactionErrorFromNameSoundLength17(s: string)
    requires |s| == 17 && TransactionErrorFromName(s).Some?
    ensures IsTransactionErrorUnit(TransactionErrorFromName(s).value)
    ensures TransactionErrorName(TransactionErrorFromName(s).value) == s
  {
  }

  lemma TransactionErrorFromNameSoundLength18(s: string)
    requires |s| == 18 && TransactionErrorFromName(s).Some?
    ensures IsTransactionErrorUnit(TransactionErrorFromName(s).value)
    ensures TransactionErrorName(TransactionErrorFromName(s).value) == s
  {
  }

  lemma TransactionErrorFromNameSoundLength19(s: string)
    requires |s| == 19 && TransactionErrorFromName(s).Some?
    ensures IsTransactionErrorUnit(TransactionErrorFromName(s).value)
    ensures TransactionErrorName(TransactionErrorFromName(s).value) == s
  {
  }

  lemma TransactionErrorFromNameSoundLength20(s: string)
    requires |s| == 20 && TransactionErrorFromName(s).Some?
    ensures IsTransactionErrorUnit(TransactionErrorFromName(s).value)
    ensures TransactionErrorName(TransactionErrorFromName(s).value) == s
  {
  }

  lemma TransactionErrorFromNameSoundLength22(s: string)
    requires |s| == 22 && TransactionErrorFromName(s).Some?
    ensures IsTransactionErrorUnit(TransactionErrorFromName(s).value)
    ensures TransactionErrorName(TransactionErrorFromName(s).value) == s
  {
  }

  lemma TransactionErrorFromNameSoundLength23(s: string)
    requires |s| == 23 && TransactionErrorFromName(s).Some?
    ensures IsTransactionErrorUnit(TransactionErrorFromName(s).value)
    ensures TransactionErrorName(TransactionErrorFromName(s).value) == s
  {
  }

  lemma TransactionErrorFromNameSoundLength24(s: string)
    requires |s| == 24 && TransactionErrorFromName(s).Some?
    ensures IsTransactionErrorUnit(TransactionErrorFromName(s).value)
    ensures TransactionErrorName(TransactionErrorFromName(s).value) == s
  {
  }

  lemma TransactionErrorFromNameSoundLength26(s: string)
    requires |s| == 26 && TransactionErrorFromName(s).Some?
    ensures IsTransactionErrorUnit(TransactionErrorFromName(s).value)
    ensures TransactionErrorName(TransactionErrorFromName(s).value) == s
  {
  }

  lemma TransactionErrorFromNameSoundLength28(s: string)
    requires |s| == 28 && TransactionErrorFromName(s).Some?
    ensures IsTransactionErrorUnit(TransactionErrorFromName(s).value)
    ensures TransactionErrorName(TransactionErrorFromName(s).value) == s
  {
  }

  /** A string is accepted as a tag only if it is the tag of the unit variant it yields. */
  lemma TransactionErrorFromNameSound(s: string)
    requires TransactionErrorFromName(s).Some?
    ensures IsTransactionErrorUnit(TransactionErrorFromName(s).value)
    ensures TransactionErrorName(TransactionErrorFromName(s).value) == s
  {
    match |s|
    case 12 => TransactionErrorFromNameSoundLength12(s);
    case 15 => TransactionErrorFromNameSoundLength15(s);
    case 16 => TransactionErrorFromNameSoundLength16(s);
    case 17 => TransactionErrorFromNameSoundLength17(s);
    case 18 => TransactionErrorFromNameSoundLength18(s);
    case 19 => TransactionErrorFromNameSoundLength19(s);
    case 20 => TransactionErrorFromNameSoundLength20(s);
    case 22 => TransactionErrorFromNameSoundLength22(s);
    case 23 => TransactionErrorFromNameSoundLength23(s);
    case 24 => TransactionErrorFromNameSoundLength24(s);
    case 26 => TransactionErrorFromNameSoundLength26(s);
    case 28 => TransactionErrorFromNameSoundLength28(s);
  }

  // ---------------------------------------------------------------------------------------------
  // Wire form
  // ---------------------------------------------------------------------------------------------

  /** serde's externally tagged form of an instruction error. */
  function InstructionErrorToJson(e: InstructionError): Json {
    if e.Custom? then JObj(map["Custom" := JNum(e.code)])
    else if e.BorshIoError? then JObj(map["BorshIoError" := JStr(e.message)])
    else JStr(InstructionErrorName(e))
  }

  /**
   * Binding of an externally tagged instruction error: a bare string names a unit variant, a
   * one-key object names a payload variant and holds its payload; a `Custom` code must fit u32.
   */
  function InstructionErrorFromJson(j: Json): Option<InstructionError> {
    match j
    case JStr(s) => InstructionErrorFromName(s)
    case JObj(m) =>
      if |m| != 1 then None
      else if "Custom" in m then
        (match AsU32(m["Custom"]) case Some(code) => Some(Custom(code)) case None => None)
      else if "BorshIoError" in m then
        (match AsString(m["BorshIoError"]) case Some(s) => Some(BorshIoError(s)) case None => None)
      else None
    case _ => None
  }

  /** Binding the wire form of any instruction error gives that error back. */
  lemma InstructionErrorJsonRoundTrip(e: InstructionError)
    ensures InstructionErrorFromJson(InstructionErrorToJson(e)) == Some(e)
  {
    if IsInstructionErrorUnit(e) {
      InstructionErrorUnitJson(e);
      InstructionErrorNameRoundTrip(e);
    }
  }

  /** A unit variant travels as the bare string of its tag. */
  lemma InstructionErrorUnitJson(e: InstructionError)
    requires IsInstructionErrorUnit(e)
    ensures InstructionErrorToJson(e) == JStr(InstructionErrorName(e))
  {
  }

  /** Whatever binds as an instruction error is exactly that error's wire form. */
  lemma InstructionErrorJsonCanonical(j: Json)
    requires InstructionErrorFromJson(j).Some?
    ensures InstructionErrorToJson(InstructionErrorFromJson(j).value) == j
  {
    match j
    case JStr(s) =>
      InstructionErrorFromNameSound(s);
    case JObj(m) =>
      if "Custom" in m {
        SingletonMap(m, "Custom");
      } else {
        SingletonMap(m, "BorshIoError");
      }
    case _ =>
  }

  /** serde's externally tagged form of a transaction error; the tuple payload is a two-element array. */
  function TransactionErrorToJson(e: TransactionError): Json {
    if e.InstructionError? then
      JObj(map["InstructionError" := JArr([JNum(e.index), InstructionErrorToJson(e.error)])])
    else JStr(TransactionErrorName(e))
  }

  /**
   * Binding of an externally tagged transaction error. The `InstructionError` payload is a tuple:
   * exactly two elements, an instruction index that fits u8 and an instruction error.
   */
  function TransactionErrorFromJson(j: Json): Option<TransactionError> {
    match j
    case JStr(s) => TransactionErrorFromName(s)
    case JObj(m) =>
      if |m| != 1 || "InstructionError" !in m then None
      else
        (match m["InstructionError"]
        case JArr(items) =>
          if |items| != 2 then None
          else
            (match (AsU8(items[0]), InstructionErrorFromJson(items[1]))
            case (Some(index), Some(error)) => Some(InstructionError(index, error))
            case _ => None)
        case _ => None)
    case _ => None
  }

  /** Binding the wire form of any transaction error gives that error back. */
  lemma TransactionErrorJsonRoundTrip(e: TransactionError)
    ensures TransactionErrorFromJson(TransactionErrorToJson(e)) == Some(e)
  {
    if e.InstructionError? {
      InstructionErrorJsonRoundTrip(e.error);
    } else {
      TransactionErrorNameRoundTrip(e);
    }
  }

  /** Whatever binds as a transaction error is exactly that error's wire form. */
  lemma TransactionErrorJsonCanonical(j: Json)
    requires TransactionErrorFromJson(j).Some?
    ensures TransactionErrorToJson(TransactionErrorFromJson(j).value) == j
  {
    match j
    case JStr(s) =>
      TransactionErrorFromNameSound(s);
    case JObj(m) =>
      SingletonMap(m, "InstructionError");
      var items := m["InstructionError"].items;
      InstructionErrorJsonCanonical(items[1]);
      assert items == [items[0], items[1]];
    case _ =>
  }

  /** The wire form tells the two errors apart: binding is injective. */
  lemma TransactionErrorJsonInjective(e1: TransactionError, e2: TransactionError)
    requires TransactionErrorToJson(e1) == TransactionErrorToJson(e2)
    ensures e1 == e2
  {
    TransactionErrorJsonRoundTrip(e1);
    TransactionErrorJsonRoundTrip(e2);
  }

  /** The instruction error that fails instruction 2 with program code 7, as a node reports it. */
  lemma CustomInstructionErrorScenario()
    ensures TransactionErrorFromJson(
              JObj(map["InstructionError" := JArr([JNum(2), JObj(map["Custom" := JNum(7)])])]))
            == Some(InstructionError(2, Custom(7)))
  {
  }

  /** An instruction index outside u8 or a code outside u32 is refused. */
  lemma OutOfRangePayloadRefused(index: int, code: int)
    requires !(0 <= index < 0x100) || !(0 <= code < 0x1_0000_0000)
    ensures TransactionErrorFromJson(
              JObj(map["InstructionError" := JArr([JNum(index), JObj(map["Custom" := JNum(code)])])]))
            == None
  {
  }

  /**
   * `AccountBorrowOutstanding` is a variant of both enumerations, with one wire string: the two
   * are values of different types, and only the field being bound decides which one is meant.
   */
  lemma AccountBorrowOutstandingInBoth()
    ensures TransactionErrorFromJson(JStr("AccountBorrowOutstanding"))
            == Some(TransactionError.AccountBorrowOutstanding)
    ensures InstructionErrorFromJson(JStr("AccountBorrowOutstanding"))
            == Some(InstructionError.AccountBorrowOutstanding)
    ensures TransactionErrorToJson(TransactionError.AccountBorrowOutstanding)
            == InstructionErrorToJson(InstructionError.AccountBorrowOutstanding)
  {
  }

  /** Every unit transaction error is named by a Rust identifier, which starts upper-case. */
  lemma TransactionErrorNameIsUpperCase(e: TransactionError)
    ensures |TransactionErrorName(e)| > 0 && 'A' <= TransactionErrorName(e)[0] <= 'Z'
  {
  }

}
