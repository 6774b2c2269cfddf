/** Instruction handlers of the marketplace program
    (programs/exchainge-protocol/src/instructions.rs).

    Each handler first runs the account constraints of its
    `#[derive(Accounts)]` struct (in field order), then its `require!`
    guards, and only then writes. A Solana transaction that fails is rolled
    back as a whole, account creation and transfers included, so every
    handler here either returns `Ok` with all its writes done or `Err` with
    no account changed, no account created and no transfer made. The clock
    is the parameter `now`; the payment rail is the parameter `rail`, which
    says whether a given system transfer goes through. */
module ProtocolInstructions {
  import opened Primitives
  import opened Text
  import opened ProtocolState

  // ---------------------------------------------------------------------
  // Fee split

  datatype FeeSplit = FeeSplit(platformFee: u64, sellerRevenue: u64)

  /** The platform's cut `floor(price * fee_bps / 10000)` and the seller's
      remainder, computed with `checked_mul`, `checked_div`, `checked_sub`
      in that order. On success the two parts add up to the price exactly;
      the only failures are a product that overflows `u64` and a fee larger
      than the price (possible only for a fee above 100%). */
  function SplitFee(totalPrice: u64, feeBps: u64): (r: Result<FeeSplit>)
    ensures r.Ok? ==>
      && r.value.platformFee as int + r.value.sellerRevenue as int == totalPrice as int
      && r.value.platformFee as int == totalPrice as int * feeBps as int / BPS_DENOMINATOR as int
    ensures r == Err(MathOverflow) <==> totalPrice as int * feeBps as int > U64_MAX
    ensures r == Err(MathUnderflow) <==>
      totalPrice as int * feeBps as int <= U64_MAX
      && totalPrice as int * feeBps as int / BPS_DENOMINATOR as int > totalPrice as int
    ensures r.Ok? || r == Err(MathOverflow) || r == Err(MathUnderflow)
  {
    match CheckedMul(totalPrice, feeBps)
    case None => Err(MathOverflow)
    case Some(product) =>
      match CheckedDiv(product, BPS_DENOMINATOR)
      case None => Err(DivisionByZero)
      case Some(platformFee) =>
        match CheckedSub(totalPrice, platformFee)
        case None => Err(MathUnderflow)
        case Some(sellerRevenue) => Ok(FeeSplit(platformFee, sellerRevenue))
  }

  /** With a price of at most 10^12 lamports and a fee of at most 2000 bps,
      which every listing and every configuration the handlers produce
      satisfy, the split cannot fail and the platform takes at most a fifth. */
  lemma SplitFeeWithinCaps(totalPrice: u64, feeBps: u64)
    requires totalPrice <= MAX_PRICE_LAMPORTS && feeBps <= MAX_FEE_BPS
    ensures SplitFee(totalPrice, feeBps).Ok?
    ensures SplitFee(totalPrice, feeBps).value.platformFee as int <= totalPrice as int / 5
  {
    var p, f := totalPrice as int, feeBps as int;
    assert p * f <= p * 2000 <= 1_000_000_000_000 * 2000;
    assert p * f / 10000 <= p * 2000 / 10000 == p / 5;
  }

  /** The fee rates the unit tests fix: 5% of 1 SOL and of 0.1 SOL. */
  lemma SplitFeeExamples()
    ensures SplitFee(1_000_000_000, PLATFORM_FEE_BPS) == Ok(FeeSplit(50_000_000, 950_000_000))
    ensures SplitFee(100_000_000, PLATFORM_FEE_BPS) == Ok(FeeSplit(5_000_000, 95_000_000))
  {
  }

  // ---------------------------------------------------------------------
  // initialize_platform

  /** Creates the configuration: the signer becomes the authority, the fee
      is 5%, the platform runs and every counter is zero. */
  method InitializePlatform(authority: Pubkey, treasury: Pubkey) returns (config: PlatformConfig)
    ensures fresh(config)
    ensures config.authority == authority && config.treasury == treasury
    ensures config.feeBps == PLATFORM_FEE_BPS && !config.paused
    ensures config.totalPlatformRevenue == 0 && config.totalDatasets == 0 && config.totalPurchases == 0
    ensures config.FeeWithinCap()
  {
    config := new PlatformConfig();
    config.authority := authority;
    config.treasury := treasury;
    config.feeBps := PLATFORM_FEE_BPS;
    config.paused := false;
    config.totalPlatformRevenue := 0;
    config.totalDatasets := 0;
    config.totalPurchases := 0;
  }

  // ---------------------------------------------------------------------
  // update_platform_config

  /** Only the authority may change the configuration, and a new fee may
      not exceed 2000 bps. */
  function UpdatePlatformConfigCheck(signer: Pubkey, authority: Pubkey, newFeeBps: Option<u64>): (r: Result<()>)
    ensures r == Err(Unauthorized) <==> signer != authority
    ensures r == Err(PriceTooHigh) <==> signer == authority && newFeeBps.Some? && newFeeBps.value > MAX_FEE_BPS
    ensures r.Ok? <==> signer == authority && (newFeeBps.Some? ==> newFeeBps.value <= MAX_FEE_BPS)
  {
    if signer != authority then Err(Unauthorized)
    else if newFeeBps.Some? && newFeeBps.value > MAX_FEE_BPS then Err(PriceTooHigh)
    else Ok(())
  }

  /** Sets the fields that are supplied and leaves the others as they were;
      the fee cap is kept. */
  method UpdatePlatformConfig(config: PlatformConfig, signer: Pubkey,
                              newTreasury: Option<Pubkey>, newFeeBps: Option<u64>, paused: Option<bool>)
    returns (r: Result<()>)
    modifies config`treasury, config`feeBps, config`paused
    ensures r == UpdatePlatformConfigCheck(signer, config.authority, newFeeBps)
    ensures r.Err? ==> unchanged(config)
    ensures r.Ok? ==>
      && config.treasury == (if newTreasury.Some? then newTreasury.value else old(config.treasury))
      && config.feeBps == (if newFeeBps.Some? then newFeeBps.value else old(config.feeBps))
      && config.paused == (if paused.Some? then paused.value else old(config.paused))
    ensures old(config.FeeWithinCap()) ==> config.FeeWithinCap()
  {
    r := UpdatePlatformConfigCheck(signer, config.authority, newFeeBps);
    if r.Err? {
      return;
    }
    if newTreasury.Some? {
      config.treasury := newTreasury.value;
    }
    if newFeeBps.Some? {
      config.feeBps := newFeeBps.value;
    }
    if paused.Some? {
      config.paused := paused.value;
    }
  }

  // ---------------------------------------------------------------------
  // register_dataset

  /** The guards of `register_dataset`, in order, each with its own error:
      platform running; trimmed key of 1 to 64 bytes; trimmed URI of 1 to
      200 bytes; a 64-byte hash; price from 100_000 to 10^12 lamports;
      score at most 100, then above 50. */
  function RegisterDatasetCheck(paused: bool, internalKey: string, metadataUri: string,
                                dataHash: string, price: u64, score: u8): (r: Result<()>)
    ensures var keyOk := InternalKeyFits(Trim(internalKey));
            var uriOk := UriFits(Trim(metadataUri));
            var hashOk := ByteLen(dataHash) == MAX_HASH_LENGTH;
            var priceOk := MIN_PRICE_LAMPORTS <= price <= MAX_PRICE_LAMPORTS;
      && (paused ==> r == Err(PlatformPaused))
      && (!paused && !keyOk ==> r == Err(InvalidInternalKey))
      && (!paused && keyOk && !uriOk ==> r == Err(InvalidUri))
      && (!paused && keyOk && uriOk && !hashOk ==> r == Err(InvalidContentHash))
      && (!paused && keyOk && uriOk && hashOk && price < MIN_PRICE_LAMPORTS ==> r == Err(PriceTooLow))
      && (!paused && keyOk && uriOk && hashOk && price > MAX_PRICE_LAMPORTS ==> r == Err(PriceTooHigh))
      && (!paused && keyOk && uriOk && hashOk && priceOk && score > MAX_SCORE ==> r == Err(InvalidScore))
      && (!paused && keyOk && uriOk && hashOk && priceOk && score <= PASSING_SCORE ==> r == Err(LowScore))
      && (r.Ok? <==> !paused && keyOk && uriOk && hashOk && priceOk && PASSING_SCORE < score <= MAX_SCORE)
  {
    if paused then Err(PlatformPaused)
    else if !InternalKeyFits(Trim(internalKey)) then Err(InvalidInternalKey)
    else if !UriFits(Trim(metadataUri)) then Err(InvalidUri)
    else if ByteLen(dataHash) != MAX_HASH_LENGTH then Err(InvalidContentHash)
    else if price < MIN_PRICE_LAMPORTS then Err(PriceTooLow)
    else if price > MAX_PRICE_LAMPORTS then Err(PriceTooHigh)
    else if score > MAX_SCORE then Err(InvalidScore)
    else if score <= PASSING_SCORE then Err(LowScore)
    else Ok(())
  }

  /** Creates a verified dataset account holding the trimmed key and URI,
      zeroed counters and `created_at == updated_at == now`, and counts it
      in `total_datasets` with a checked add. */
  method RegisterDataset(config: PlatformConfig, key: Pubkey, owner: Pubkey,
                         internalKey: string, metadataUri: string, dataHash: string,
                         priceLamports: u64, licenseType: LicenseType,
                         verifierType: VerifierType, verificationScore: u8, now: i64)
    returns (r: Result<()>, dataset: Dataset?)
    modifies config`totalDatasets
    ensures var check := RegisterDatasetCheck(config.paused, internalKey, metadataUri, dataHash,
                                              priceLamports, verificationScore);
      && (check.Err? ==> r == check)
      && (check.Ok? && old(config.totalDatasets) as int == U64_MAX ==> r == Err(MathOverflow))
      && (r.Ok? <==> check.Ok? && old(config.totalDatasets) as int < U64_MAX)
    ensures r.Err? ==> dataset == null && unchanged(config)
    ensures r.Ok? ==>
      && dataset != null && fresh(dataset) && dataset.key == key && dataset.owner == owner
      && dataset.internalKey == Trim(internalKey) && dataset.metadataUri == Trim(metadataUri)
      && dataset.dataHash == dataHash && dataset.verified
      && dataset.verifierType == verifierType && dataset.verificationScore == verificationScore
      && dataset.licenseType == licenseType && dataset.priceLamports == priceLamports
      && dataset.sellerRevenue == 0 && dataset.purchaseCount == 0
      && dataset.createdAt == now && dataset.updatedAt == now
      && dataset.Wellformed()
      && config.totalDatasets as int == old(config.totalDatasets) as int + 1
  {
    r := RegisterDatasetCheck(config.paused, internalKey, metadataUri, dataHash,
                              priceLamports, verificationScore);
    if r.Err? {
      return r, null;
    }
    var key' := Trim(internalKey);
    var uri' := Trim(metadataUri);
    dataset := new Dataset(key);
    WriteDataset(dataset, owner, key', uri', dataHash, verifierType, verificationScore,
                 licenseType, priceLamports, now);
    var total := CheckedAdd(config.totalDatasets, 1);
    if total.None? {
      // The transaction is rolled back: the account is never created.
      return Err(MathOverflow), null;
    }
    config.totalDatasets := total.value;
  }

  /** The field writes of `register_dataset` on the new account: the
      dataset starts verified, with zeroed counters and both timestamps
      equal to `now`. */
  method WriteDataset(dataset: Dataset, owner: Pubkey, internalKey: string, metadataUri: string,
                      dataHash: string, verifierType: VerifierType, verificationScore: u8,
                      licenseType: LicenseType, priceLamports: u64, now: i64)
    modifies dataset
    ensures dataset.owner == owner && dataset.internalKey == internalKey
    ensures dataset.metadataUri == metadataUri && dataset.dataHash == dataHash && dataset.verified
    ensures dataset.verifierType == verifierType && dataset.verificationScore == verificationScore
    ensures dataset.licenseType == licenseType && dataset.priceLamports == priceLamports
    ensures dataset.sellerRevenue == 0 && dataset.purchaseCount == 0
    ensures dataset.createdAt == now && dataset.updatedAt == now
  {
    dataset.owner := owner;
    dataset.internalKey := internalKey;
    dataset.metadataUri := metadataUri;
    dataset.dataHash := dataHash;
    dataset.verified := true;
    dataset.verifierType := verifierType;
    dataset.verificationScore := verificationScore;
    dataset.licenseType := licenseType;
    dataset.priceLamports := priceLamports;
    dataset.sellerRevenue := 0;
    dataset.purchaseCount := 0;
    dataset.createdAt := now;
    dataset.updatedAt := now;
  }

  // ---------------------------------------------------------------------
  // update_dataset

  /** The URI test of `update_dataset`: non-empty once trimmed, at most 200
      bytes BEFORE trimming (unlike `register_dataset`, which measures the
      trimmed string). What is stored, the trimmed URI, is then no longer. */
  predicate UriAccepted(uri: string) {
    Trim(uri) != [] && ByteLen(uri) <= MAX_URI_LENGTH
  }

  /** The owner check, then the guards on the supplied fields only. Note
      that the URI is checked for emptiness after trimming but for length
      before trimming. */
  function UpdateDatasetCheck(signer: Pubkey, owner: Pubkey,
                              newMetadataUri: Option<string>, newPriceLamports: Option<u64>): (r: Result<()>)
    ensures var uriOk := newMetadataUri.Some? ==> UriAccepted(newMetadataUri.value);
            var priceOk := newPriceLamports.Some? ==>
                             MIN_PRICE_LAMPORTS <= newPriceLamports.value <= MAX_PRICE_LAMPORTS;
      && (signer != owner ==> r == Err(NotDatasetOwner))
      && (signer == owner && !uriOk ==> r == Err(InvalidUri))
      && (signer == owner && uriOk && newPriceLamports.Some? && newPriceLamports.value < MIN_PRICE_LAMPORTS
          ==> r == Err(PriceTooLow))
      && (signer == owner && uriOk && newPriceLamports.Some? && newPriceLamports.value > MAX_PRICE_LAMPORTS
          ==> r == Err(PriceTooHigh))
      && (r.Ok? <==> signer == owner && uriOk && priceOk)
  {
    if signer != owner then Err(NotDatasetOwner)
    else if newMetadataUri.Some? && !UriAccepted(newMetadataUri.value) then Err(InvalidUri)
    else if newPriceLamports.Some? && newPriceLamports.value < MIN_PRICE_LAMPORTS then Err(PriceTooLow)
    else if newPriceLamports.Some? && newPriceLamports.value > MAX_PRICE_LAMPORTS then Err(PriceTooHigh)
    else Ok(())
  }

  /** An accepted update of a well-formed dataset yields a well-formed one:
      the trimmed URI is no longer than the untrimmed one that was checked. */
  lemma UpdateKeepsWellformed(internalKey: string, metadataUri: string, dataHash: string,
                              priceLamports: u64, verificationScore: u8,
                              newMetadataUri: Option<string>, newPriceLamports: Option<u64>)
    requires WellformedFields(internalKey, metadataUri, dataHash, priceLamports, verificationScore)
    requires newMetadataUri.Some? ==> UriAccepted(newMetadataUri.value)
    requires newPriceLamports.Some? ==>
               MIN_PRICE_LAMPORTS <= newPriceLamports.value <= MAX_PRICE_LAMPORTS
    ensures WellformedFields(internalKey,
                             if newMetadataUri.Some? then Trim(newMetadataUri.value) else metadataUri,
                             dataHash,
                             if newPriceLamports.Some? then newPriceLamports.value else priceLamports,
                             verificationScore)
  {
  }

  /** Replaces the supplied fields (the URI trimmed), leaves absent ones
      unchanged, stamps `updated_at`, and keeps a well-formed dataset
      well-formed. */
  method UpdateDataset(dataset: Dataset, signer: Pubkey,
                       newMetadataUri: Option<string>, newPriceLamports: Option<u64>, now: i64)
    returns (r: Result<()>)
    modifies dataset`metadataUri, dataset`priceLamports, dataset`updatedAt
    ensures r == UpdateDatasetCheck(signer, dataset.owner, newMetadataUri, newPriceLamports)
    ensures r.Err? ==> unchanged(dataset)
    ensures r.Ok? ==>
      && dataset.metadataUri == (if newMetadataUri.Some? then Trim(newMetadataUri.value)
                                 else old(dataset.metadataUri))
      && dataset.priceLamports == (if newPriceLamports.Some? then newPriceLamports.value
                                   else old(dataset.priceLamports))
      && dataset.updatedAt == now
    ensures old(dataset.Wellformed()) ==> dataset.Wellformed()
  {
    r := UpdateDatasetCheck(signer, dataset.owner, newMetadataUri, newPriceLamports);
    if r.Err? {
      return;
    }
    if dataset.Wellformed() {
      UpdateKeepsWellformed(dataset.internalKey, dataset.metadataUri, dataset.dataHash,
                            dataset.priceLamports, dataset.verificationScore,
                            newMetadataUri, newPriceLamports);
    }
    var uri := if newMetadataUri.Some? then Some(Trim(newMetadataUri.value)) else None;
    ApplyUpdate(dataset, uri, newPriceLamports, now);
  }

  /** Writes the fields an accepted `update_dataset` supplies (the URI
      already trimmed) and stamps `updated_at`. */
  method ApplyUpdate(dataset: Dataset, metadataUri: Option<string>, priceLamports: Option<u64>, now: i64)
    modifies dataset`metadataUri, dataset`priceLamports, dataset`updatedAt
    ensures dataset.metadataUri == (if metadataUri.Some? then metadataUri.value
                                    else old(dataset.metadataUri))
    ensures dataset.priceLamports == (if priceLamports.Some? then priceLamports.value
                                      else old(dataset.priceLamports))
    ensures dataset.updatedAt == now
  {
    if metadataUri.Some? {
      dataset.metadataUri := metadataUri.value;
    }
    if priceLamports.Some? {
      dataset.priceLamports := priceLamports.value;
    }
    dataset.updatedAt := now;
  }

  // ---------------------------------------------------------------------
  // update_verification

  /** Only the authority may re-score a dataset, and the score is at most 100. */
  function UpdateVerificationCheck(signer: Pubkey, authority: Pubkey, score: u8): (r: Result<()>)
    ensures r == Err(Unauthorized) <==> signer != authority
    ensures r == Err(InvalidScore) <==> signer == authority && score > MAX_SCORE
    ensures r.Ok? <==> signer == authority && score <= MAX_SCORE
  {
    if signer != authority then Err(Unauthorized)
    else if score > MAX_SCORE then Err(InvalidScore)
    else Ok(())
  }

  /** Records the new verifier and score; the dataset is verified exactly
      when the score is above 50, so a low score revokes verification. */
  method UpdateVerification(config: PlatformConfig, dataset: Dataset, signer: Pubkey,
                            verifierType: VerifierType, verificationScore: u8, now: i64)
    returns (r: Result<()>)
    modifies dataset`verifierType, dataset`verificationScore, dataset`verified, dataset`updatedAt
    ensures r == UpdateVerificationCheck(signer, config.authority, verificationScore)
    ensures r.Err? ==> unchanged(dataset)
    ensures r.Ok? ==>
      && dataset.verifierType == verifierType && dataset.verificationScore == verificationScore
      && (dataset.verified <==> verificationScore > PASSING_SCORE)
      && dataset.updatedAt == now
    ensures old(dataset.Wellformed()) ==> dataset.Wellformed()
  {
    r := UpdateVerificationCheck(signer, config.authority, verificationScore);
    if r.Err? {
      return;
    }
    dataset.verifierType := verifierType;
    dataset.verificationScore := verificationScore;
    dataset.verified := verificationScore > PASSING_SCORE;
    dataset.updatedAt := now;
  }

  // ---------------------------------------------------------------------
  // purchase_dataset

  /** One system-program transfer of lamports. */
  datatype Transfer = Transfer(from: Pubkey, to: Pubkey, lamports: u64)

  /** The account constraints (seller is the owner, treasury is the
      configured one) and then the handler's guards, in order: platform
      running, dataset verified, buyer not the owner. The first failing one
      decides the error. */
  function PurchaseCheck(paused: bool, verified: bool, owner: Pubkey, buyer: Pubkey,
                         seller: Pubkey, treasury: Pubkey, configTreasury: Pubkey): (r: Result<()>)
    ensures seller != owner ==> r == Err(NotDatasetOwner)
    ensures seller == owner && treasury != configTreasury ==> r == Err(Unauthorized)
    ensures seller == owner && treasury == configTreasury && paused ==> r == Err(PlatformPaused)
    ensures seller == owner && treasury == configTreasury && !paused && !verified
            ==> r == Err(DatasetNotVerified)
    ensures seller == owner && treasury == configTreasury && !paused && verified && buyer == owner
            ==> r == Err(SelfPurchaseNotAllowed)
    ensures r.Ok? <==>
      seller == owner && treasury == configTreasury && !paused && verified && buyer != owner
  {
    if seller != owner then Err(NotDatasetOwner)
    else if treasury != configTreasury then Err(Unauthorized)
    else if paused then Err(PlatformPaused)
    else if !verified then Err(DatasetNotVerified)
    else if buyer == owner then Err(SelfPurchaseNotAllowed)
    else Ok(())
  }

  /** The two payment legs of a purchase, in order: the seller's share to
      the seller, then the fee to the treasury. */
  function PaymentLegs(buyer: Pubkey, seller: Pubkey, treasury: Pubkey, split: FeeSplit): (legs: seq<Transfer>)
    ensures |legs| == 2 && legs[0].to == seller && legs[1].to == treasury
    ensures legs[0].from == buyer && legs[1].from == buyer
    ensures legs[0].lamports == split.sellerRevenue && legs[1].lamports == split.platformFee
  {
    [Transfer(buyer, seller, split.sellerRevenue), Transfer(buyer, treasury, split.platformFee)]
  }

  /** The bookkeeping after both payments: four checked counter increments
      and the purchase record. An overflow in any counter fails the whole
      instruction, so nothing is written and no record is created. */
  method RecordPurchase(config: PlatformConfig, dataset: Dataset, buyer: Pubkey,
                        split: FeeSplit, now: i64)
    returns (r: Result<()>, purchase: Purchase?)
    modifies config`totalPlatformRevenue, config`totalPurchases
    modifies dataset`sellerRevenue, dataset`purchaseCount
    ensures r.Err? <==>
      || old(dataset.sellerRevenue) as int + split.sellerRevenue as int > U64_MAX
      || old(dataset.purchaseCount) as int == U64_MAX
      || old(config.totalPlatformRevenue) as int + split.platformFee as int > U64_MAX
      || old(config.totalPurchases) as int == U64_MAX
    ensures r.Err? ==> r == Err(MathOverflow) && purchase == null && unchanged(config, dataset)
    ensures r.Ok? ==>
      && purchase != null && fresh(purchase)
      && purchase.buyer == buyer && purchase.dataset == dataset.key
      && purchase.amountPaid == dataset.priceLamports && purchase.platformFee == split.platformFee
      && purchase.purchasedAt == now
      && dataset.sellerRevenue as int == old(dataset.sellerRevenue) as int + split.sellerRevenue as int
      && dataset.purchaseCount as int == old(dataset.purchaseCount) as int + 1
      && config.totalPlatformRevenue as int == old(config.totalPlatformRevenue) as int + split.platformFee as int
      && config.totalPurchases as int == old(config.totalPurchases) as int + 1
  {
    var newSellerRevenue := CheckedAdd(dataset.sellerRevenue, split.sellerRevenue);
    if newSellerRevenue.None? {
      return Err(MathOverflow), null;
    }
    var newPurchaseCount := CheckedAdd(dataset.purchaseCount, 1);
    if newPurchaseCount.None? {
      return Err(MathOverflow), null;
    }
    var newPlatformRevenue := CheckedAdd(config.totalPlatformRevenue, split.platformFee);
    if newPlatformRevenue.None? {
      return Err(MathOverflow), null;
    }
    var newTotalPurchases := CheckedAdd(config.totalPurchases, 1);
    if newTotalPurchases.None? {
      return Err(MathOverflow), null;
    }
    dataset.sellerRevenue := newSellerRevenue.value;
    dataset.purchaseCount := newPurchaseCount.value;
    purchase := new Purchase();
    purchase.buyer := buyer;
    purchase.dataset := dataset.key;
    purchase.amountPaid := dataset.priceLamports;
    purchase.platformFee := split.platformFee;
    purchase.purchasedAt := now;
    config.totalPlatformRevenue := newPlatformRevenue.value;
    config.totalPurchases := newTotalPurchases.value;
    r := Ok(());
  }

  /** Buys a dataset: guards, fee split, seller leg, fee leg, then the
      checked counter updates and the purchase record. `transfers` lists the
      payments that took effect. Any failure, including a rejected transfer
      or a counter overflow after both transfers, leaves every account as it
      was and moves no funds. */
  method PurchaseDataset(config: PlatformConfig, dataset: Dataset, buyer: Pubkey,
                         seller: Pubkey, treasury: Pubkey, now: i64, rail: Transfer -> bool)
    returns (r: Result<()>, purchase: Purchase?, transfers: seq<Transfer>)
    modifies config`totalPlatformRevenue, config`totalPurchases
    modifies dataset`sellerRevenue, dataset`purchaseCount
    ensures var check := PurchaseCheck(config.paused, dataset.verified, dataset.owner, buyer,
                                       seller, treasury, config.treasury);
            var split := SplitFee(dataset.priceLamports, config.feeBps);
      && (check.Err? ==> r == check)
      && (check.Ok? && split.Err? ==> r == Err(split.error))
      && (check.Ok? && split.Ok? ==>
            var legs := PaymentLegs(buyer, seller, treasury, split.value);
            (r == Err(TransferRejected) <==> !rail(legs[0]) || !rail(legs[1])))
      && (r.Ok? ==> check.Ok? && split.Ok?)
    ensures var split := SplitFee(dataset.priceLamports, config.feeBps);
      PurchaseCheck(config.paused, dataset.verified, dataset.owner, buyer,
                    seller, treasury, config.treasury).Ok? && split.Ok?
      && rail(PaymentLegs(buyer, seller, treasury, split.value)[0])
      && rail(PaymentLegs(buyer, seller, treasury, split.value)[1]) ==>
        && (r.Ok? <==>
              && old(dataset.sellerRevenue) as int + split.value.sellerRevenue as int <= U64_MAX
              && old(dataset.purchaseCount) as int < U64_MAX
              && old(config.totalPlatformRevenue) as int + split.value.platformFee as int <= U64_MAX
              && old(config.totalPurchases) as int < U64_MAX)
        && (r.Err? ==> r == Err(MathOverflow))
    ensures r.Err? ==> purchase == null && transfers == [] && unchanged(config, dataset)
    ensures r.Ok? ==>
      var split := SplitFee(dataset.priceLamports, config.feeBps).value;
      && transfers == PaymentLegs(buyer, seller, treasury, split)
      && purchase != null && fresh(purchase)
      && purchase.buyer == buyer && purchase.dataset == dataset.key
      && purchase.amountPaid == dataset.priceLamports && purchase.platformFee == split.platformFee
      && purchase.purchasedAt == now
      && dataset.sellerRevenue as int == old(dataset.sellerRevenue) as int + split.sellerRevenue as int
      && dataset.purchaseCount as int == old(dataset.purchaseCount) as int + 1
      && config.totalPlatformRevenue as int == old(config.totalPlatformRevenue) as int + split.platformFee as int
      && config.totalPurchases as int == old(config.totalPurchases) as int + 1
    ensures r == Err(MathOverflow) ==>
      var split := SplitFee(dataset.priceLamports, config.feeBps);
      || split == Err(MathOverflow)
      || (&& split.Ok?
          && (|| old(dataset.sellerRevenue) as int + split.value.sellerRevenue as int > U64_MAX
              || old(dataset.purchaseCount) as int == U64_MAX
              || old(config.totalPlatformRevenue) as int + split.value.platformFee as int > U64_MAX
              || old(config.totalPurchases) as int == U64_MAX))
    ensures r == Err(MathUnderflow) || r == Err(DivisionByZero) ==>
      SplitFee(dataset.priceLamports, config.feeBps) == Err(r.error)
  {
    // Account constraints, then the handler's guards.
    r := PurchaseCheck(config.paused, dataset.verified, dataset.owner, buyer,
                       seller, treasury, config.treasury);
    if r.Err? {
      return r, null, [];
    }
    var split := SplitFee(dataset.priceLamports, config.feeBps);
    if split.Err? {
      return Err(split.error), null, [];
    }

    // The seller's share, then the fee.
    var legs := PaymentLegs(buyer, seller, treasury, split.value);
    if !rail(legs[0]) {
      return Err(TransferRejected), null, [];
    }
    if !rail(legs[1]) {
      return Err(TransferRejected), null, [];
    }

    // Checked counter updates; an overflow rolls the transfers back too.
    r, purchase := RecordPurchase(config, dataset, buyer, split.value, now);
    transfers := if r.Ok? then legs else [];
  }

  // ---------------------------------------------------------------------
  // verify_access

  /** Access is granted exactly when the purchase record names the dataset;
      nothing is written. */
  method VerifyAccess(purchase: Purchase, dataset: Dataset) returns (r: Result<()>)
    ensures r.Ok? <==> purchase.dataset == dataset.key
    ensures r.Err? ==> r.error == NoPurchaseRecord
  {
    if dataset.key != purchase.dataset {
      return Err(NoPurchaseRecord);
    }
    r := Ok(());
  }
}
