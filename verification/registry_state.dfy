/** The data registry program's account record and error codes
    (programs/exchainge-program). A registry entry is an account whose
    fields the handlers assign in place, so it is a class. */
module RegistryState {
  import opened Primitives
  import opened Text

  // Byte budgets the handlers enforce (literals in the handlers).
  const MAX_INTERNAL_KEY_LENGTH: nat := 64
  const MAX_FILE_KEY_LENGTH: nat := 100

  /** The account size allocated for every entry: discriminator, owner,
      key (4 + 64), hash, two optional `u64`s (1 + 8 each), the optional
      file key (1 + 4 + 100), timestamp and bump. */
  const LEN: nat := 8 + 32 + 68 + 32 + 9 + 9 + 105 + 8 + 1

  datatype ErrorCode =
    | InvalidInternalKey | InvalidDatasetHash | InvalidFileKey | InvalidFileSize
    | InvalidDatasetId | RegistryAlreadyExists | Unauthorized

  datatype Result<T> = Ok(value: T) | Err(error: ErrorCode)

  /** One registry entry. `datasetId`, `fileSize` and `fileKey` are set on
      the trustless path (hash computed on chain) and absent on the
      pre-computed path. */
  class DataRegistry {
    var owner: Pubkey
    var internalKey: string
    var datasetHash: Digest
    var datasetId: Option<u64>
    var fileSize: Option<u64>
    var fileKey: Option<string>
    var createdAt: i64
    var bump: u8

    /** A newly created account: all bytes zero, so every option is `None`. */
    constructor ()
      ensures owner == ZERO_KEY && internalKey == [] && datasetHash == ZERO_KEY
      ensures datasetId == None && fileSize == None && fileKey == None
      ensures createdAt == 0 && bump == 0
    {
      owner, internalKey, datasetHash := ZERO_KEY, [], ZERO_KEY;
      datasetId, fileSize, fileKey := None, None, None;
      createdAt, bump := 0, 0;
    }

    /** The three optional fields are all present or all absent. */
    ghost predicate TrustlessShape()
      reads this
    {
      (datasetId.Some? <==> fileSize.Some?) && (fileSize.Some? <==> fileKey.Some?)
    }

    /** What every registered entry satisfies: a key of 1 to 64 bytes, the
        all-or-nothing shape of the optional fields, and a file key of 1 to
        100 bytes when present. */
    ghost predicate Wellformed()
      reads this
    {
      && InternalKeyFits(internalKey)
      && TrustlessShape()
      && (fileKey.Some? ==> FileKeyFits(fileKey.value))
    }

    /** The number of bytes the entry occupies once serialised (Borsh: a
        string is a 4-byte length and its bytes, an option a 1-byte tag and
        the value when present), after the 8-byte discriminator. */
    ghost function SerializedLen(): nat
      reads this
    {
      8 + 32 + (4 + ByteLen(internalKey)) + 32
      + OptionLen(datasetId, 8) + OptionLen(fileSize, 8)
      + (if fileKey.Some? then 1 + 4 + ByteLen(fileKey.value) else 1)
      + 8 + 1
    }
  }

  /** An internal key of 1 to 64 bytes, as `register_hash` demands. */
  predicate InternalKeyFits(internalKey: string) {
    internalKey != [] && ByteLen(internalKey) <= MAX_INTERNAL_KEY_LENGTH
  }

  /** A file key of 1 to 100 bytes, as `register_dataset` demands. */
  predicate FileKeyFits(fileKey: string) {
    fileKey != [] && ByteLen(fileKey) <= MAX_FILE_KEY_LENGTH
  }

  function OptionLen<T>(o: Option<T>, size: nat): nat {
    if o.Some? then 1 + size else 1
  }

  /** The allocated size is enough for every well-formed entry: the key and
      file-key budgets the handlers enforce are the ones `LEN` reserves. */
  lemma WellformedFitsLen(r: DataRegistry)
    requires r.Wellformed()
    ensures r.SerializedLen() <= LEN
    ensures LEN == 272
  {
  }
}
