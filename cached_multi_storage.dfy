/** CachedMultiStorageSlotProver.getProofData
    (packages/client/src/provers/cachedmultistorage.ts): the batch storage-slot
    prover whose proofs are checked against a cached storage root, so its calldata
    names the block and the storage root instead of carrying the account proof and
    header. The slot-proof splitting, deduplication and compression are shared with
    MultiStorage. */
module CachedMultiStorage {
  import opened Errors
  import opened MultiStorage

  const IncludeHeaderUnsupported: string := "CachedMultiStorageSlotProver doesn't support includeHeader"

  /** The values ABI-encoded into CachedMultiStorageSlotProver's calldata, in order. */
  datatype CachedMultiStorageProof = CachedMultiStorageProof(
    account: string, blockNum: int, storageHash: int,
    proofNodes: seq<Bytes>, slots: seq<int>, slotProofs: seq<seq<int>>)

  /** `getProofData` once the account proof `accProof` and the slot proofs are
      fetched. Asking for the header is refused before anything else; a failing
      expected value rejects the batch next; otherwise the calldata carries the
      account, block and storage root, the deduplicated nodes and one index list
      per slot that rebuilds that slot's proof, with one fact signature per slot. */
  method GetProofData(
    itemLength: Bytes -> int, accProof: AccountProof, fetchSlot: int -> StorageSlotProof,
    params: MultiStorageSlotParams)
    returns (r: Result<BatchProofData<CachedMultiStorageProof>>)
    ensures IncludeHeaderFlag(params.includeHeader) ==> r == Err(RelicError(IncludeHeaderUnsupported))
    ensures var proofs := FetchAll(fetchSlot, params.slots);
      && (!IncludeHeaderFlag(params.includeHeader) && !AllExpectedHold(SlotValues(proofs), params.expected) ==>
            r.Err? && params.expected.Some? && IsFirstFailure(SlotValues(proofs), params.expected.value, r.error))
      && (!IncludeHeaderFlag(params.includeHeader) && AllExpectedHold(SlotValues(proofs), params.expected)
            && SplitAll(itemLength, SlotProofBytes(proofs)).Err? ==>
            r == Err(SplitAll(itemLength, SlotProofBytes(proofs)).error))
      && (r.Err? <==>
            || IncludeHeaderFlag(params.includeHeader)
            || !AllExpectedHold(SlotValues(proofs), params.expected)
            || SplitAll(itemLength, SlotProofBytes(proofs)).Err?)
      && (r.Ok? ==>
            var out := r.value.proof;
            && out.account == accProof.account && out.blockNum == accProof.blockNum
            && out.storageHash == accProof.storageHash
            && out.slots == params.slots
            && Decompresses(proofs, Compressed(out.proofNodes, out.slotProofs))
            && out.proofNodes == NodeSet(SplitAll(itemLength, SlotProofBytes(proofs)).value)
            && out.slotProofs == Compress(out.proofNodes, SplitAll(itemLength, SlotProofBytes(proofs)).value)
            && r.value.sigDatas == SigDatas(proofs, accProof.blockNum))
  {
    if IncludeHeaderFlag(params.includeHeader) {
      return Err(RelicError(IncludeHeaderUnsupported));
    }
    var proofs := FetchAll(fetchSlot, params.slots);
    var compressed := CompressSlotProofs(itemLength, proofs, params.expected);
    if compressed.Err? {
      return Err(compressed.error);
    }
    var c := compressed.value;
    var proofData := CachedMultiStorageProof(
      accProof.account, accProof.blockNum, accProof.storageHash, c.nodeSet, params.slots, c.slotProofs);
    return Ok(BatchProofData(proofData, SigDatas(proofs, accProof.blockNum)));
  }

  /** Without a requested header the two provers accept the same batches and
      fail with the same error, and on success they send the same proof nodes,
      the same slot indices and the same fact signatures. */
  method ProversAgree(
    itemLength: Bytes -> int, accProof: AccountProof, fetchSlot: int -> StorageSlotProof,
    params: MultiStorageSlotParams)
    returns (cached: Result<BatchProofData<CachedMultiStorageProof>>, plain: Result<BatchProofData<MultiStorageProof>>)
    requires !IncludeHeaderFlag(params.includeHeader)
    ensures cached.Ok? <==> plain.Ok?
    ensures cached.Err? ==> cached.error == plain.error
    ensures cached.Ok? ==>
      && cached.value.proof.proofNodes == plain.value.proof.proofNodes
      && cached.value.proof.slotProofs == plain.value.proof.slotProofs
      && cached.value.sigDatas == plain.value.sigDatas
  {
    cached := GetProofData(itemLength, accProof, fetchSlot, params);
    plain := MultiStorage.GetProofData(itemLength, accProof, fetchSlot, params);
    var proofs := FetchAll(fetchSlot, params.slots);
    if cached.Err? && !AllExpectedHold(SlotValues(proofs), params.expected) {
      FirstFailureUnique(SlotValues(proofs), params.expected.value, cached.error, plain.error);
    }
  }
}
