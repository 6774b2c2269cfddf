/** Constants, enums, error codes and account records of the marketplace
    program (programs/exchainge-protocol). The records are accounts whose
    fields the instruction handlers update in place, so they are classes. */
module ProtocolState {
  import opened Primitives
  import opened Text

  // String budgets, in bytes (Rust `len()`).
  const MAX_URI_LENGTH: nat := 200
  const MAX_HASH_LENGTH: nat := 64
  const MAX_INTERNAL_KEY_LENGTH: nat := 64

  /** 5%, the fee a freshly initialised platform charges. */
  const PLATFORM_FEE_BPS: u64 := 500
  const BPS_DENOMINATOR: u64 := 10000

  /** Minimum listing price, against spam listings (0.0001 SOL). */
  const MIN_PRICE_LAMPORTS: u64 := 100_000
  /** Maximum listing price; a literal in both price checks of the handlers. */
  const MAX_PRICE_LAMPORTS: u64 := 1_000_000_000_000
  /** Largest fee the authority may configure (20%); a literal in the handler. */
  const MAX_FEE_BPS: u64 := 2000

  const MAX_SCORE: u8 := 100
  /** A verification score strictly above this marks a dataset verified. */
  const PASSING_SCORE: u8 := 50

  datatype VerifierType = Metadata | AiAgent | ZkProof | HardwareAttestation {
    static function Default(): VerifierType { Metadata }
  }

  datatype LicenseType = MIT | Commercial | ResearchOnly | Custom {
    static function Default(): LicenseType { MIT }
  }

  /** The program's error codes, plus `TransferRejected`, which stands for
      whatever error the system program's transfer returns (the handler
      propagates it with `?`). */
  datatype ErrorCode =
    | PlatformPaused | Unauthorized
    | InvalidUri | InvalidContentHash | InvalidInternalKey | InvalidScore | LowScore
    | PriceTooLow | PriceTooHigh | DuplicateDataset
    | DatasetNotVerified | SelfPurchaseNotAllowed | AlreadyPurchased | InsufficientFunds
    | PaymentFailed
    | MathOverflow | MathUnderflow | DivisionByZero
    | NotDatasetOwner | NoPurchaseRecord
    | TransferRejected

  datatype Result<T> = Ok(value: T) | Err(error: ErrorCode)

  /** A dataset listing. `key` is the account's address. */
  class Dataset {
    const key: Pubkey
    var owner: Pubkey
    var internalKey: string
    var metadataUri: string
    var dataHash: string
    var verified: bool
    var verifierType: VerifierType
    var verificationScore: u8
    var licenseType: LicenseType
    var priceLamports: u64
    var sellerRevenue: u64
    var purchaseCount: u64
    var createdAt: i64
    var updatedAt: i64

    /** A newly created account: all bytes zero, so enums hold variant 0. */
    constructor (key: Pubkey)
      ensures this.key == key && owner == ZERO_KEY
      ensures internalKey == [] && metadataUri == [] && dataHash == [] && !verified
      ensures verifierType == VerifierType.Default() && licenseType == LicenseType.Default()
      ensures verificationScore == 0 && priceLamports == 0
      ensures sellerRevenue == 0 && purchaseCount == 0 && createdAt == 0 && updatedAt == 0
    {
      this.key := key;
      owner := ZERO_KEY;
      internalKey, metadataUri, dataHash := [], [], [];
      verified := false;
      verifierType, licenseType := VerifierType.Default(), LicenseType.Default();
      verificationScore, priceLamports, sellerRevenue, purchaseCount := 0, 0, 0, 0;
      createdAt, updatedAt := 0, 0;
    }

    /** What every registered dataset satisfies: non-empty strings within
        their byte budgets, a 64-byte content hash, a price within bounds and
        a score of at most 100. */
    ghost predicate Wellformed()
      reads this
    {
      WellformedFields(internalKey, metadataUri, dataHash, priceLamports, verificationScore)
    }
  }

  /** An internal key of 1 to 64 bytes. */
  predicate InternalKeyFits(key: string) {
    key != [] && ByteLen(key) <= MAX_INTERNAL_KEY_LENGTH
  }

  /** A metadata URI of 1 to 200 bytes. */
  predicate UriFits(uri: string) {
    uri != [] && ByteLen(uri) <= MAX_URI_LENGTH
  }

  /** `Dataset.Wellformed` on the values of the fields it constrains. */
  predicate WellformedFields(internalKey: string, metadataUri: string, dataHash: string,
                             priceLamports: u64, verificationScore: u8) {
    && InternalKeyFits(internalKey)
    && UriFits(metadataUri)
    && ByteLen(dataHash) == MAX_HASH_LENGTH
    && MIN_PRICE_LAMPORTS <= priceLamports <= MAX_PRICE_LAMPORTS
    && verificationScore <= MAX_SCORE
  }

  /** One purchase of one dataset by one buyer. */
  class Purchase {
    var buyer: Pubkey
    var dataset: Pubkey
    var amountPaid: u64
    var platformFee: u64
    var purchasedAt: i64

    constructor ()
      ensures buyer == ZERO_KEY && dataset == ZERO_KEY
      ensures amountPaid == 0 && platformFee == 0 && purchasedAt == 0
    {
      buyer, dataset := ZERO_KEY, ZERO_KEY;
      amountPaid, platformFee, purchasedAt := 0, 0, 0;
    }
  }

  /** The platform's singleton configuration and aggregate counters. */
  class PlatformConfig {
    var authority: Pubkey
    var treasury: Pubkey
    var feeBps: u64
    var paused: bool
    var totalPlatformRevenue: u64
    var totalDatasets: u64
    var totalPurchases: u64

    constructor ()
      ensures authority == ZERO_KEY && treasury == ZERO_KEY && feeBps == 0 && !paused
      ensures totalPlatformRevenue == 0 && totalDatasets == 0 && totalPurchases == 0
    {
      authority, treasury := ZERO_KEY, ZERO_KEY;
      feeBps, paused := 0, false;
      totalPlatformRevenue, totalDatasets, totalPurchases := 0, 0, 0;
    }

    /** The fee never exceeds 20%. */
    ghost predicate FeeWithinCap()
      reads this
    {
      feeBps <= MAX_FEE_BPS
    }
  }

  /** The defaults the enums declare, which a zeroed account also holds. */
  lemma EnumDefaults()
    ensures VerifierType.Default() == Metadata
    ensures LicenseType.Default() == MIT
  {
  }
}
