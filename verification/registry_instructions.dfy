/** Instruction handlers of the data registry program
    (programs/exchainge-program/src/instructions.rs).

    Update and close are gated by the account constraint
    `registry.owner == owner`; the registration handlers validate their
    arguments and then fill a fresh account. A failing transaction is
    rolled back, so a failed registration creates no account. The clock is
    the parameter `now` and SHA-256 is the parameter `sha256`. */
module RegistryInstructions {
  import opened Primitives
  import opened Text
  import opened RegistryState

  // ---------------------------------------------------------------------
  // Derived strings

  /** `format!("{}:{}:{}", file_key, dataset_id, file_size)`, the text
      whose UTF-8 bytes are hashed on the trustless path. */
  function HashInput(fileKey: string, datasetId: u64, fileSize: u64): (s: string)
    ensures |fileKey| < |s| && s[..|fileKey|] == fileKey && s[|fileKey|] == ':'
    ensures AllDigits(ColonFreeTail(s)) && DecValue(ColonFreeTail(s)) == fileSize as nat
    ensures ColonFreeTail(s) != [] && (|ColonFreeTail(s)| == 1 || ColonFreeTail(s)[0] != '0')
  {
    var d, e := Dec(datasetId as nat), Dec(fileSize as nat);
    var s := fileKey + ":" + d + ":" + e;
    ColonFreeTailOfJoin(fileKey + ":" + d, e);
    DecRoundTrip(fileSize as nat);
    s
  }

  /** `format!("dataset_{}", dataset_id)`, the key of a trustless entry. */
  function DerivedKey(datasetId: u64): (k: string)
    ensures |k| > 8 && k[..8] == "dataset_"
    ensures AllDigits(k[8..]) && DecValue(k[8..]) == datasetId as nat
    ensures |k| == 9 || k[8] != '0'
  {
    var k := "dataset_" + Dec(datasetId as nat);
    assert k[8..] == Dec(datasetId as nat);
    DecRoundTrip(datasetId as nat);
    k
  }

  predicate NoColon(s: string) {
    forall k :: 0 <= k < |s| ==> s[k] != ':'
  }

  /** The longest suffix of `s` without a colon: a colon-free suffix that
      is either all of `s` or preceded by a colon. */
  function ColonFreeTail(s: string): (t: string)
    ensures |t| <= |s| && t == s[|s| - |t|..] && NoColon(t)
    ensures |t| < |s| ==> s[|s| - |t| - 1] == ':'
  {
    if s == [] || s[|s| - 1] == ':' then [] else ColonFreeTail(s[..|s| - 1]) + [s[|s| - 1]]
  }

  lemma {:induction false} ColonFreeTailOfJoin(a: string, d: string)
    requires NoColon(d)
    ensures ColonFreeTail(a + ":" + d) == d
  {
    if d != [] {
      var d' := d[..|d| - 1];
      assert (a + ":" + d)[..|a + ":" + d| - 1] == a + ":" + d';
      ColonFreeTailOfJoin(a, d');
    }
  }

  /** A string ending in `":" + d`, where `d` has no colon, splits at its
      last colon in one way only. */
  lemma SplitAtLastColon(a: string, d: string, b: string, e: string)
    requires NoColon(d) && NoColon(e)
    requires a + ":" + d == b + ":" + e
    ensures a == b && d == e
  {
    var s := a + ":" + d;
    ColonFreeTailOfJoin(a, d);
    ColonFreeTailOfJoin(b, e);
    assert a == s[..|a|] == b;
  }

  lemma DigitsHaveNoColon(s: string)
    requires AllDigits(s)
    ensures NoColon(s)
  {
  }

  /** Different `(file_key, dataset_id, file_size)` triples format to
      different hash inputs, even when the file key contains colons: the
      two numbers are the digits after the last two colons. */
  lemma HashInputInjective(k1: string, id1: u64, size1: u64, k2: string, id2: u64, size2: u64)
    requires HashInput(k1, id1, size1) == HashInput(k2, id2, size2)
    ensures k1 == k2 && id1 == id2 && size1 == size2
  {
    var d1, d2 := Dec(id1 as nat), Dec(id2 as nat);
    var e1, e2 := Dec(size1 as nat), Dec(size2 as nat);
    DigitsHaveNoColon(d1);
    DigitsHaveNoColon(d2);
    DigitsHaveNoColon(e1);
    DigitsHaveNoColon(e2);
    SplitAtLastColon(k1 + ":" + d1, e1, k2 + ":" + d2, e2);
    SplitAtLastColon(k1, d1, k2, d2);
    DecInjective(id1 as nat, id2 as nat);
    DecInjective(size1 as nat, size2 as nat);
  }

  /** A derived key is at most 28 bytes (8 for the prefix, at most 20
      digits), well inside the 64-byte key budget. */
  lemma DerivedKeyFits(datasetId: u64)
    ensures DerivedKey(datasetId) != []
    ensures ByteLen(DerivedKey(datasetId)) <= 28
  {
    var digits := Dec(datasetId as nat);
    DecU64Bytes(datasetId);
    var key := DerivedKey(datasetId);
    assert forall k :: 0 <= k < |key| ==> key[k] as int < 0x80 by {
      forall k | 0 <= k < |key|
        ensures key[k] as int < 0x80
      {
        if k >= 8 {
          assert key[k] == digits[k - 8];
        }
      }
    }
  }

  /** Distinct dataset ids give distinct derived keys. */
  lemma DerivedKeyInjective(id1: u64, id2: u64)
    requires DerivedKey(id1) == DerivedKey(id2)
    ensures id1 == id2
  {
    var k1, k2 := DerivedKey(id1), DerivedKey(id2);
    assert Dec(id1 as nat) == k1[8..] == k2[8..] == Dec(id2 as nat);
    DecInjective(id1 as nat, id2 as nat);
  }

  // ---------------------------------------------------------------------
  // register_dataset (trustless)

  /** The guards of the trustless path: a file key of 1 to 100 bytes, then a
      non-zero file size. The dataset id is not checked. */
  function RegisterDatasetCheck(fileKey: string, fileSize: u64): (r: Result<()>)
    ensures !FileKeyFits(fileKey) ==> r == Err(InvalidFileKey)
    ensures FileKeyFits(fileKey) && fileSize == 0 ==> r == Err(InvalidFileSize)
    ensures r.Ok? <==> FileKeyFits(fileKey) && fileSize > 0
  {
    if !FileKeyFits(fileKey) then Err(InvalidFileKey)
    else if fileSize == 0 then Err(InvalidFileSize)
    else Ok(())
  }

  /** Creates an entry whose hash is SHA-256 of the formatted inputs, whose
      key is derived from the dataset id, and whose three optional fields
      hold the inputs. */
  method ProcessRegisterDataset(owner: Pubkey, datasetId: u64, fileSize: u64, fileKey: string,
                                now: i64, sha256: seq<u8> -> Digest)
    returns (r: Result<()>, registry: DataRegistry?)
    ensures r == RegisterDatasetCheck(fileKey, fileSize)
    ensures r.Err? ==> registry == null
    ensures r.Ok? ==>
      && registry != null && fresh(registry)
      && registry.owner == owner
      && registry.internalKey == DerivedKey(datasetId)
      && registry.datasetHash == sha256(Utf8(HashInput(fileKey, datasetId, fileSize)))
      && registry.datasetId == Some(datasetId) && registry.fileSize == Some(fileSize)
      && registry.fileKey == Some(fileKey)
      && registry.createdAt == now && registry.bump == 0
      && registry.Wellformed()
  {
    r := RegisterDatasetCheck(fileKey, fileSize);
    if r.Err? {
      return r, null;
    }
    var key := DerivedKey(datasetId);
    DerivedKeyFits(datasetId);
    var derivedHash := sha256(Utf8(HashInput(fileKey, datasetId, fileSize)));
    registry := NewRegistry(owner, key, derivedHash, Some(datasetId), Some(fileSize), Some(fileKey), now);
  }

  /** A fresh entry holding the given fields, with bump 0. */
  method NewRegistry(owner: Pubkey, internalKey: string, datasetHash: Digest,
                     datasetId: Option<u64>, fileSize: Option<u64>, fileKey: Option<string>, now: i64)
    returns (registry: DataRegistry)
    ensures fresh(registry)
    ensures registry.owner == owner && registry.internalKey == internalKey
    ensures registry.datasetHash == datasetHash && registry.datasetId == datasetId
    ensures registry.fileSize == fileSize && registry.fileKey == fileKey
    ensures registry.createdAt == now && registry.bump == 0
  {
    registry := new DataRegistry();
    registry.owner := owner;
    registry.internalKey := internalKey;
    registry.datasetHash := datasetHash;
    registry.datasetId := datasetId;
    registry.fileSize := fileSize;
    registry.fileKey := fileKey;
    registry.createdAt := now;
    registry.bump := 0;
  }

  // ---------------------------------------------------------------------
  // register_hash (pre-computed)

  /** The one guard of the pre-computed path: a key of 1 to 64 bytes, taken
      as given (not trimmed). */
  function RegisterHashCheck(internalKey: string): (r: Result<()>)
    ensures r.Ok? <==> InternalKeyFits(internalKey)
    ensures r.Err? ==> r.error == InvalidInternalKey
  {
    if InternalKeyFits(internalKey) then Ok(()) else Err(InvalidInternalKey)
  }

  /** Creates an entry holding the caller's key and hash verbatim, with the
      three optional fields absent. */
  method ProcessRegisterHash(owner: Pubkey, internalKey: string, datasetHash: Digest, now: i64)
    returns (r: Result<()>, registry: DataRegistry?)
    ensures r == RegisterHashCheck(internalKey)
    ensures r.Err? ==> registry == null
    ensures r.Ok? ==>
      && registry != null && fresh(registry)
      && registry.owner == owner && registry.internalKey == internalKey
      && registry.datasetHash == datasetHash
      && registry.datasetId == None && registry.fileSize == None && registry.fileKey == None
      && registry.createdAt == now && registry.bump == 0
      && registry.Wellformed()
  {
    r := RegisterHashCheck(internalKey);
    if r.Err? {
      return r, null;
    }
    registry := NewRegistry(owner, internalKey, datasetHash, None, None, None, now);
  }

  // ---------------------------------------------------------------------
  // update_hash, view_hash, close_registry

  /** The account constraint of update and close: only the entry's owner. */
  function OwnerCheck(signer: Pubkey, owner: Pubkey): (r: Result<()>)
    ensures r.Ok? <==> signer == owner
    ensures r.Err? ==> r.error == Unauthorized
  {
    if signer == owner then Ok(()) else Err(Unauthorized)
  }

  /** Replaces the hash and nothing else (the frame names only the hash),
      so the key, the optional fields, their shape and the timestamp stay
      as they were. */
  method ProcessUpdateHash(registry: DataRegistry, signer: Pubkey, newDatasetHash: Digest)
    returns (r: Result<()>)
    modifies registry`datasetHash
    ensures r == OwnerCheck(signer, registry.owner)
    ensures r.Err? ==> unchanged(registry)
    ensures r.Ok? ==> registry.datasetHash == newDatasetHash
    ensures old(registry.Wellformed()) ==> registry.Wellformed()
  {
    r := OwnerCheck(signer, registry.owner);
    if r.Err? {
      return;
    }
    registry.datasetHash := newDatasetHash;
  }

  /** Applying the same hash update twice leaves the entry as applying it
      once does, and the second call answers like the first. */
  method UpdateHashTwice(registry: DataRegistry, signer: Pubkey, newDatasetHash: Digest)
    returns (r1: Result<()>, r2: Result<()>)
    modifies registry`datasetHash
    ensures r2 == r1 == OwnerCheck(signer, registry.owner)
    ensures registry.datasetHash == (if r1.Ok? then newDatasetHash else old(registry.datasetHash))
  {
    r1 := ProcessUpdateHash(registry, signer, newDatasetHash);
    r2 := ProcessUpdateHash(registry, signer, newDatasetHash);
  }

  /** What `view_hash` reports. */
  datatype RegistryView = RegistryView(
    owner: Pubkey, internalKey: string, datasetHash: Digest,
    datasetId: Option<u64>, fileSize: Option<u64>, fileKey: Option<string>, createdAt: i64)

  /** Reports every stored field; anyone may call it, and it writes nothing
      (it has no frame). */
  method ProcessViewHash(registry: DataRegistry) returns (r: Result<RegistryView>)
    ensures r.Ok?
    ensures r.value.owner == registry.owner && r.value.internalKey == registry.internalKey
    ensures r.value.datasetHash == registry.datasetHash
    ensures r.value.datasetId == registry.datasetId && r.value.fileSize == registry.fileSize
    ensures r.value.fileKey == registry.fileKey && r.value.createdAt == registry.createdAt
  {
    r := Ok(RegistryView(registry.owner, registry.internalKey, registry.datasetHash,
                         registry.datasetId, registry.fileSize, registry.fileKey, registry.createdAt));
  }

  /** Closing is allowed to the owner only; the account's removal and the
      rent refund are not modelled, so the entry itself is not written. */
  method ProcessCloseRegistry(registry: DataRegistry, signer: Pubkey) returns (r: Result<()>)
    ensures r.Ok? <==> signer == registry.owner
    ensures r.Err? ==> r.error == Unauthorized
  {
    r := OwnerCheck(signer, registry.owner);
  }
}
