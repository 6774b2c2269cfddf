# Exchainge marketplace and data registry, modelled in Dafny

Exchainge is a pair of Solana programs written with Anchor.

- **Marketplace ledger** (`programs/exchainge-protocol`). A singleton
  `PlatformConfig` holds the authority, the treasury, the fee in basis
  points, a pause switch and three aggregate counters. Providers register
  `Dataset` listings. A verification score above 50 marks a listing
  verified. Buyers purchase verified listings: the price is split into a
  platform fee and the seller's share, both are paid by system transfer,
  the counters are updated with checked arithmetic, and a `Purchase`
  record is created. A backend later checks that record before granting
  access.
- **Data registry** (`programs/exchainge-program`). A `DataRegistry` entry
  is created in one of two ways:
  - the trustless path computes the hash on chain as SHA-256 of
    `file_key:dataset_id:file_size`;
  - the pre-computed path stores a hash the caller supplies.

  Only the entry's owner can update the hash or close the entry. Anyone
  can view it.

The model follows the handlers in each program's `instructions.rs`:

- the marketplace's `initialize_platform`, `update_platform_config`,
  `register_dataset`, `update_dataset`, `update_verification`,
  `purchase_dataset` and `verify_access`;
- the registry's `register_dataset`, `register_hash`, `update_hash`,
  `view_hash` and `close_registry`.

The marketplace's `lib.rs` dispatches instead to `create_listing`,
`verify_hardware_data`, `purchase_license` and `access_data`. Its
`types.rs` declares listings, usage rights, royalties and a hardware
oracle registry. `instructions.rs` implements none of these, so they are
not modelled.

Each account record is a `class` whose fields the handler methods assign
in place. The account types are `Dataset`, `Purchase`, `PlatformConfig`
and `DataRegistry`.

Every handler runs the checks of its account struct first, in field
order: `has_one` and `constraint = … @ Error`. Then it runs its `require!`
guards, each with its own error code. A Solana transaction that fails is
rolled back completely, so each handler method promises one of two
outcomes:

- `Ok`, with all of its writes done;
- `Err`, with no field changed, no account created (the returned
  reference is `null`) and no transfer made.

A handler writes only what its `modifies` clause names. That is how the
model says that an update touches nothing else, and how it says that no
handler decreases a revenue or purchase counter.

Other modelling choices:

- The guards of each handler are a pure function. Its contract gives the
  first failing guard's error and the exact condition for success. The
  handler's `ensures` ties its result to that function.
- Rust `u64`, `u8` and `i64` are newtypes. `checked_add`, `checked_sub`,
  `checked_mul` and `checked_div` are functions returning `Option`.
- A Rust `String` is a sequence of Unicode scalar values. `len()` is the
  length of its UTF-8 encoding (`Text.ByteLen`).
- `trim` strips characters with the Unicode White_Space property.
- `format!("{}", n)` is `Text.Dec`, whose partner `Text.DecValue` reads
  the digits back.

## Model

| member | source | states |
|---|---|---|
| Primitives.CheckedAdd | programs/exchainge-protocol/src/instructions.rs:117-120 | `checked_add` fails exactly when the sum exceeds 2^64-1; otherwise it returns the exact sum, which is at least the first operand |
| Primitives.CheckedSub | programs/exchainge-protocol/src/instructions.rs:218-220 | `checked_sub` fails exactly when the subtrahend is larger; otherwise difference plus subtrahend equals the minuend |
| Primitives.CheckedMul | programs/exchainge-protocol/src/instructions.rs:213-215 | `checked_mul` fails exactly when the product exceeds 2^64-1; otherwise it returns the exact product |
| Primitives.CheckedDiv | programs/exchainge-protocol/src/instructions.rs:216-217 | `checked_div` fails exactly on a zero divisor; otherwise it returns the floor quotient |
| Text.TrimStart | programs/exchainge-protocol/src/instructions.rs:84-94 | the part of `trim` that strips the front: a suffix of the input that is empty or starts with a non-whitespace character, preceded only by whitespace |
| Text.TrimEnd | programs/exchainge-protocol/src/instructions.rs:84-94 | the part of `trim` that strips the back: a prefix of the input that is empty or ends with a non-whitespace character, followed only by whitespace |
| Text.Trim | programs/exchainge-protocol/src/instructions.rs:84-94 | `trim` returns the slice of the input that starts after its leading whitespace and is followed only by whitespace; the slice is empty exactly when the input is all whitespace, has no whitespace at either end, and never has more bytes than the input |
| Text.TrimIdempotent | programs/exchainge-protocol/src/instructions.rs:84-90 | trimming a trimmed string changes nothing |
| Text.Utf8 | programs/exchainge-program/src/instructions.rs:26 | `as_bytes()` gives at least one byte per character; on ASCII text, exactly one byte per character, equal to its code |
| Text.ByteLen | programs/exchainge-program/src/instructions.rs:20 | `len()` is at least the character count, and equals it exactly when the text is ASCII |
| Text.ByteLenIsUtf8Length | programs/exchainge-program/src/instructions.rs:20 | `len()` (1 to 4 bytes per character) equals the length of the UTF-8 encoding |
| Text.Dec | programs/exchainge-program/src/instructions.rs:24 | a `u64` is formatted as a non-empty string of digits with no leading zero |
| Text.DecRoundTrip | programs/exchainge-program/src/instructions.rs:24 | reading the formatted digits back gives the number |
| Text.DecInjective | programs/exchainge-program/src/instructions.rs:34 | distinct numbers format differently |
| Text.DecU64Bytes | programs/exchainge-program/src/instructions.rs:34 | a `u64` formats to at most 20 characters, each one byte |
| ProtocolState.EnumDefaults | programs/exchainge-protocol/src/state.rs:23-41 | `VerifierType::default()` is `Metadata` and `LicenseType::default()` is `MIT` |
| ProtocolState.Dataset.constructor | programs/exchainge-protocol/src/state.rs:45-63 | a new dataset account is zeroed; its enums hold their first variant |
| ProtocolState.Purchase.constructor | programs/exchainge-protocol/src/state.rs:68-75 | a new purchase account is zeroed |
| ProtocolState.PlatformConfig.constructor | programs/exchainge-protocol/src/state.rs:79-88 | a new config account is zeroed |
| ProtocolInstructions.SplitFee | programs/exchainge-protocol/src/instructions.rs:212-220 | fee = floor(price × bps / 10000) and fee + seller share = price; `MathOverflow` exactly when the product overflows; `MathUnderflow` exactly when the fee exceeds the price; no other error |
| ProtocolInstructions.SplitFeeWithinCaps | programs/exchainge-protocol/src/instructions.rs:212-220 | with price ≤ 10^12 and fee ≤ 2000 bps, the split succeeds and the fee is at most a fifth of the price; the overflow, division and underflow errors cannot occur |
| ProtocolInstructions.SplitFeeExamples | programs/exchainge-protocol/src/test.rs:17-36 | at 500 bps, 1 SOL gives a fee of 50_000_000 and a seller share of 950_000_000; 0.1 SOL gives a fee of 5_000_000 |
| ProtocolInstructions.InitializePlatform | programs/exchainge-protocol/src/instructions.rs:11-24 | the new config has the signer as authority, the given treasury, a 500 bps fee, not paused, zero counters, and the fee within its 2000 bps cap |
| ProtocolInstructions.UpdatePlatformConfigCheck | programs/exchainge-protocol/src/instructions.rs:44-51 | a non-authority gets `Unauthorized`; then a supplied fee above 2000 gets `PriceTooHigh`; otherwise it succeeds |
| ProtocolInstructions.UpdatePlatformConfig | programs/exchainge-protocol/src/instructions.rs:36-65 | on success, supplied fields are set and absent ones are unchanged; on error, nothing changes; the fee cap is preserved |
| ProtocolInstructions.RegisterDatasetCheck | programs/exchainge-protocol/src/instructions.rs:82-100 | guards in order, each with its own error: not paused; trimmed key 1-64 bytes; trimmed URI 1-200 bytes; hash exactly 64 bytes; price ≥ 100_000; price ≤ 10^12; score ≤ 100; score > 50 |
| ProtocolInstructions.RegisterDataset | programs/exchainge-protocol/src/instructions.rs:68-120 | on success, a fresh well-formed verified dataset holds the trimmed key and URI, zero counters and `created_at == updated_at`, and `total_datasets` rises by one; a counter at 2^64-1 gives `MathOverflow` and no account; a guard failure gives its error and no account |
| ProtocolInstructions.WriteDataset | programs/exchainge-protocol/src/instructions.rs:102-115 | the new dataset's fields take the registered values, verified, with zero counters and both timestamps equal |
| ProtocolInstructions.UpdateDatasetCheck | programs/exchainge-protocol/src/instructions.rs:145-155 | a non-owner gets `NotDatasetOwner`; a supplied URI that is blank once trimmed, or longer than 200 bytes before trimming, gets `InvalidUri`; a supplied price outside bounds gets `PriceTooLow` or `PriceTooHigh`; absent fields are not checked |
| ProtocolInstructions.UpdateKeepsWellformed | programs/exchainge-protocol/src/instructions.rs:145-157 | an accepted update of a well-formed dataset gives a well-formed dataset: the stored trimmed URI is no longer than the checked untrimmed one |
| ProtocolInstructions.ApplyUpdate | programs/exchainge-protocol/src/instructions.rs:150-159 | supplied fields are written, absent ones keep their old values, and `updated_at` is stamped |
| ProtocolInstructions.UpdateDataset | programs/exchainge-protocol/src/instructions.rs:137-168 | on success, a supplied URI is stored trimmed and a supplied price is stored, absent fields are unchanged and `updated_at` is stamped; on error, nothing changes; a well-formed dataset stays well-formed |
| ProtocolInstructions.UpdateVerificationCheck | programs/exchainge-protocol/src/instructions.rs:172-180 | a non-authority gets `Unauthorized`; then a score above 100 gets `InvalidScore` |
| ProtocolInstructions.UpdateVerification | programs/exchainge-protocol/src/instructions.rs:172-194 | on success, it sets verifier and score and `verified` becomes exactly `score > 50`, so a low score revokes verification; well-formedness is preserved |
| ProtocolInstructions.PurchaseCheck | programs/exchainge-protocol/src/instructions.rs:204-209 | seller is not the owner gives `NotDatasetOwner`; wrong treasury gives `Unauthorized`; then paused, unverified and self-purchase each give their own error, in that order; success exactly when all pass |
| ProtocolInstructions.PaymentLegs | programs/exchainge-protocol/src/instructions.rs:222-244 | two transfers from the buyer: first the seller's share to the seller, then the fee to the treasury |
| ProtocolInstructions.RecordPurchase | programs/exchainge-protocol/src/instructions.rs:246-270 | fails with `MathOverflow` and writes nothing exactly when one of the four counters would overflow; otherwise seller revenue and purchase count on the dataset, and platform revenue and purchase total on the config, rise by the split amounts and by one, and the new purchase records buyer, dataset, price and fee |
| ProtocolInstructions.PurchaseDataset | programs/exchainge-protocol/src/instructions.rs:198-289 | error precedence is guards, then split, then a rejected transfer, then counter overflow; once the guards, the split and both transfers pass, it succeeds exactly when none of the four counters overflows, and otherwise fails with `MathOverflow`; any error means no transfer, no record and no change; success means both legs are paid and the counters rise by exactly the split amounts; underflow or division by zero comes only from the split |
| ProtocolInstructions.VerifyAccess | programs/exchainge-protocol/src/instructions.rs:414-420 | access is granted exactly when the purchase names the dataset; otherwise `NoPurchaseRecord` |
| RegistryState.DataRegistry.constructor | programs/exchainge-program/src/state.rs:6-30 | a new registry account is zeroed, with all options `None` |
| RegistryState.WellformedFitsLen | programs/exchainge-program/src/state.rs:33-37 | `LEN` is 272, and every well-formed entry (key ≤ 64 bytes, file key ≤ 100 bytes) serialises within it |
| RegistryInstructions.HashInput | programs/exchainge-program/src/instructions.rs:24 | `format!("{}:{}:{}", …)` starts with the file key and a colon, and its colon-free tail is the decimal digits of the file size, non-empty and without a leading zero |
| RegistryInstructions.DerivedKey | programs/exchainge-program/src/instructions.rs:34 | `format!("dataset_{}", id)` is `dataset_` followed by the decimal digits of the id, non-empty and without a leading zero |
| RegistryInstructions.ColonFreeTail | programs/exchainge-program/src/instructions.rs:24 | the longest colon-free suffix of a string, which is either the whole string or preceded by a colon |
| RegistryInstructions.SplitAtLastColon | programs/exchainge-program/src/instructions.rs:24 | `a:d` with colon-free `d` splits in only one way |
| RegistryInstructions.HashInputInjective | programs/exchainge-program/src/instructions.rs:24-27 | distinct (file key, dataset id, file size) triples give distinct hash inputs, even when the file key contains colons |
| RegistryInstructions.DerivedKeyFits | programs/exchainge-program/src/instructions.rs:34 | `"dataset_" + id` is non-empty and at most 28 bytes, inside the 64-byte key budget |
| RegistryInstructions.DerivedKeyInjective | programs/exchainge-program/src/instructions.rs:34 | distinct dataset ids give distinct derived keys |
| RegistryInstructions.RegisterDatasetCheck | programs/exchainge-program/src/instructions.rs:20-21 | a file key that is empty or over 100 bytes gets `InvalidFileKey`; then a zero file size gets `InvalidFileSize`; the dataset id is not checked |
| RegistryInstructions.ProcessRegisterDataset | programs/exchainge-program/src/instructions.rs:13-40 | on success, a fresh well-formed entry holds the owner, the derived key, SHA-256 of the UTF-8 hash input, and all three options `Some` of the inputs; on error, no account |
| RegistryInstructions.RegisterHashCheck | programs/exchainge-program/src/instructions.rs:72 | succeeds exactly for a key of 1-64 bytes (untrimmed); otherwise `InvalidInternalKey` |
| RegistryInstructions.NewRegistry | programs/exchainge-program/src/instructions.rs:33-40 | a fresh entry holds exactly the given fields, with bump 0 |
| RegistryInstructions.ProcessRegisterHash | programs/exchainge-program/src/instructions.rs:66-85 | on success, a fresh well-formed entry holds the key and hash verbatim with all three options `None`; on error, no account |
| RegistryInstructions.OwnerCheck | programs/exchainge-program/src/instructions.rs:210 | only the entry's owner passes; anyone else gets `Unauthorized` |
| RegistryInstructions.ProcessUpdateHash | programs/exchainge-program/src/instructions.rs:109-129 | the owner's update replaces the hash and nothing else; a non-owner changes nothing; well-formedness, including the all-or-none shape of the options, is preserved |
| RegistryInstructions.UpdateHashTwice | programs/exchainge-program/src/instructions.rs:116 | applying the same hash update twice gives the same answers and the same entry as applying it once |
| RegistryInstructions.ProcessViewHash | programs/exchainge-program/src/instructions.rs:138-151 | always succeeds, reports every stored field, and writes nothing |
| RegistryInstructions.ProcessCloseRegistry | programs/exchainge-program/src/instructions.rs:224-227 | succeeds exactly for the entry's owner; anyone else gets `Unauthorized` |

## Left out

- Anchor account machinery is not modelled: `init`, `payer`, `space`, `seeds`, `bump` and rent. Account creation is a fresh zeroed object. The failure when an account already exists, or when the payer cannot fund it, is not modelled.
- The `bump` fields of `Dataset`, `Purchase` and `PlatformConfig` are not modelled. `initialize_platform` copies the PDA bump; the other handlers write 0.
- RegistryInstructions.ProcessCloseRegistry: decides only whether the close is authorised. Deleting the account and refunding its rent to the owner (`close = owner`) are not modelled.
- System-program transfers are the parameter `rail`, which says whether a given transfer goes through. Lamport balances, and the error a failed transfer returns (here `TransferRejected`), are not modelled.
- SHA-256 (the `sha2` crate) is the parameter `sha256`. `RegistryInstructions.HashInputInjective` is stated on the formatted string, not on its UTF-8 bytes.
- `Clock::get()` becomes the parameter `now`. The case where the clock sysvar cannot be read is not modelled.
- `emit!` events, `msg!` logging and both `events.rs` files are left out. They only log, and `view_hash` is modelled as returning what it logs.
- The registry's `lib.rs` is thin dispatch to its handlers and is not part of this model. The marketplace's `lib.rs` (programs/exchainge-protocol/src/lib.rs:25-85) dispatches to `process_create_listing`, `process_verify_hardware_data`, `process_purchase_license` and `process_access_data`. `instructions.rs` does not define these, so that program module is not part of this model.
- `programs/exchainge-protocol/src/types.rs` is not compiled into the program and has no implementing code, so it is not part of this model.
- The Borsh serialisation unit test is left out. It exercises the library, not the program.
- The error enums are mirrored as datatypes. `DuplicateDataset`, `AlreadyPurchased`, `InsufficientFunds`, `PaymentFailed`, `InvalidDatasetHash`, `InvalidDatasetId` and `RegistryAlreadyExists` are declared there but no handler raises them. In particular, a dataset id of 0 is accepted on the trustless path.
- Repeat purchases are modelled as the code allows them: the same buyer may buy the same dataset any number of times, and each purchase creates a new `Purchase` account. The comment above `Purchase` (programs/exchainge-protocol/src/state.rs:65) says one purchase per buyer-dataset pair, but the account is created with `init` and no `seeds` (programs/exchainge-protocol/src/instructions.rs:380-385), so nothing enforces it, and `AlreadyPurchased` is never raised.
- The `update_dataset` URI guard is modelled as written: it measures the URI before trimming but stores it trimmed. That is stricter than `register_dataset`, which measures the trimmed URI (see `ProtocolInstructions.UriAccepted`).
- Each handler is modelled as validating and computing everything first and writing afterwards. The source writes some fields before a later guard fails, but a failed transaction undoes those writes, so the end states are the same.
- ProtocolInstructions.PurchaseDataset: states the effect of the fee and price caps through `ProtocolInstructions.SplitFeeWithinCaps` rather than inside its own postcondition: overflow comes from the split or from a counter, and underflow or division by zero comes from the split.
