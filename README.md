# Relic client core, modelled in Dafny

This project models the proof-assembly and block-verifiability logic of the
Relic Protocol TypeScript client (`packages/client`). It covers the following
parts:

- **Multi-slot storage provers** (`MultiStorage`, `CachedMultiStorage`) check
  fetched slot values against expected ones. They split every storage-slot
  proof into its RLP items and collect the distinct trie nodes in first-seen
  order. Each proof is then rewritten as indices into that node list, and one
  fact signature is produced per slot.
- **Block-history verifier** (`BlockHistories`) is a `BlockHistory` object with
  two caches. The Merkle-root cache is keyed by chunk (block / 8192), and the
  trusted-hash cache is keyed by block number. The module also covers:
  - the three-way `ensureValidProof`, which may overwrite the proof's
    `blockProof` with `0x01`;
  - the "last verifiable block" bounds;
  - the `commitRecent` guard;
  - the checks and slot arithmetic of `importBlockhashFromOutputRoot`.
- **Chain rules** (`Network`) cover chain-ID classification and the beacon slot
  and timestamp conversions.
- **Block utilities** (`Blocks`) cover chunk arithmetic and the timestamp
  search.
- **Storage-slot helpers** (`StorageSlots`) cover the Solidity storage-layout
  helpers and the slot-value assertion. `packages/client/src/utils.ts` holds an older copy of
  the four layout helpers, with the same definitions, so these members model it
  too.
- **Errors** (`Errors`) covers the client's errors, the API error table and the
  SlotValueMismatch message.
- **Fees** (`Reliquary`) covers the fee rule.
- **Client** (`Client`) covers configuration resolution, the variant
  selection and the memoized getters.

The network, the contracts and the cryptographic libraries are **oracles**,
meaning fixed inputs to the model:

- **Proofs from the API** are function parameters.
- **The `BlockHistory` contract and its event logs** are the value `Chain`.
- **keccak256** is a function parameter.
- **The RLP item length** is a function parameter (`itemLength`).

The loops of the source are Dafny loops proved against specification
functions:

- the RLP split;
- the expected-value check;
- the timestamp search.

The stateful objects are classes with `modifies` clauses:

- `BlockHistory`, whose caches are kept sound by the invariants;
- a `BlockProof` whose `blockProof` is replaced in place;
- `RelicClient`, whose memo table holds its getters' results.

## Model

| member | source | states |
|---|---|---|
| Errors.Entries | packages/client/src/errors.ts:114-118 | entry i pairs the message of the i-th enum key with that key's class |
| Errors.AllKeysComplete | packages/client/src/errors.ts:115 | every `ErrorMsg` key is among the listed keys |
| Errors.TextInjective | packages/client/src/errors.ts:28-39 | the ten message strings are pairwise distinct |
| Errors.FromEntriesKeys | packages/client/src/errors.ts:113-119 | the keys of `Object.fromEntries` are exactly the keys of its pairs |
| Errors.FromEntriesLookup | packages/client/src/errors.ts:113-119 | with distinct keys, no entry is overwritten: each key maps to its own pair's value |
| Errors.ApiErrorMapEntries | packages/client/src/errors.ts:100-119 | each member's message is a key of `API_ERROR_MAP`, and it maps to the class `errorClassMap` registers for that member |
| Errors.ApiErrorMapKeys | packages/client/src/errors.ts:113-119 | a string is an own key of the map exactly when it is one of the ten messages |
| Errors.ApiErrorRoundTrip | packages/client/src/errors.ts:43-47 | the class mapped from a message constructs an error carrying that same message |
| Errors.Digits | packages/client/src/errors.ts:24 | the decimal rendering of a natural number is non-empty and all digits |
| Errors.Decimal | packages/client/src/errors.ts:24 | a rendered BigNumber is non-empty and has no spaces |
| Errors.DigitsRoundTrip | packages/client/src/errors.ts:24 | reading the rendered digits back gives the number |
| Errors.DecimalRoundTrip | packages/client/src/errors.ts:24 | reading a rendered signed value back gives the value |
| Errors.MismatchMessageDetermines | packages/client/src/errors.ts:22-26 | the SlotValueMismatch message determines the fetched and the expected value, in that order |
| Network.L1ChainIds | packages/client/src/utils/network.ts:26-28 | L1 exactly for 1 and 11155111 |
| Network.ZkSyncChainIds | packages/client/src/utils/network.ts:30-32 | zkSync exactly for 324 and 300 |
| Network.OptimismChainIds | packages/client/src/utils/network.ts:34-41 | Optimism family exactly for 10, 11155420, 8453 and 84532 |
| Network.FamiliesDisjoint | packages/client/src/utils/network.ts:43-45 | an L2 chain is never L1, and no chain is both zkSync and Optimism |
| Network.BeaconGenesisTimestamp | packages/client/src/utils/network.ts:51-56 | fails with NotL1Network exactly off L1; gives the mainnet and Sepolia genesis times |
| Network.NonL1Rejected | packages/client/src/utils/network.ts:51-74 | all three conversions refuse a non-L1 chain with NotL1Network |
| Network.TimestampToSlotFailsIffMisaligned | packages/client/src/utils/network.ts:62-66 | on L1, UnexpectedSlotTime exactly when the time since genesis is not a multiple of 12 |
| Network.SlotOfTimestampRoundTrip | packages/client/src/utils/network.ts:58-74 | a timestamp that converts to a slot converts back to itself |
| Network.TimestampOfSlotRoundTrip | packages/client/src/utils/network.ts:58-74 | on L1 every slot converts to a timestamp and back to itself |
| Blocks.BlockNumberToChunk | packages/client/src/utils/block.ts:4-6 | the chunk brackets the block: chunk*8192 <= n < (chunk+1)*8192 for n >= 0, truncating toward zero below 0 |
| Blocks.ChunkExample | packages/client/src/utils/block.ts:4-6 | block 15000000 is in chunk 1831 |
| Blocks.SameChunk | packages/client/src/utils/block.ts:4-6 | two blocks share a chunk exactly when they lie in the same aligned run of 8192 |
| Blocks.BlockForTimestamp | packages/client/src/utils/block.ts:8-32 | TimestampAfterCurrent exactly when the latest block is before the target. Otherwise the loop ends at a crossing point: block 1 or a block at or before the target, whose successor is after the target or is the latest block. The latest block is never returned once there are two blocks after genesis |
| Blocks.CrossingIsLastAtOrBefore | packages/client/src/utils/block.ts:8-32 | on non-decreasing timestamps, such a crossing point is exactly the last block at or before the target |
| StorageSlots.AssertSlotValue | packages/client/src/utils/storage.ts:38-44 | passes exactly when the values are equal; otherwise SlotValueMismatch(value, expected) |
| StorageSlots.StaticArrayStride | packages/client/src/utils/storage.ts:12-18 | element 0 is at the base slot; each next element is slotsPerElem further on |
| StorageSlots.StaticArrayElementsDisjoint | packages/client/src/utils/storage.ts:12-18 | the slot ranges of two different elements do not overlap |
| StorageSlots.StructFieldInsideElement | packages/client/src/utils/storage.ts:31-36 | a field at offset < slotsPerElem stays inside its element's slots |
| StorageSlots.DynamicArrayIsStaticAtHash | packages/client/src/utils/storage.ts:20-29 | a dynamic array is laid out as a static array at keccak(base) |
| StorageSlots.MapElemSlotInjective | packages/client/src/utils/storage.ts:6-10 | with a collision-free hash, the mapping slot determines (base, key), hashed key first |
| StorageSlots.MapSlotIsNotArrayStart | packages/client/src/utils/storage.ts:6-29 | with a collision-free hash, a mapping slot is never the start of a dynamic array |
| Reliquary.GetFeeCases | packages/client/src/reliquary.ts:26-38 | bit 1 set gives fee 0 whatever else is set; otherwise bit 2 gives mantissa * 10^exponent; otherwise RelicError "prover does not support native fees" |
| Reliquary.OnlyLowBitsMatter | packages/client/src/reliquary.ts:29-32 | flag bits other than the two low ones do not change the fee |
| MultiStorage.SplitNodes | packages/client/src/provers/multistorage.ts:44-53 | the nodes concatenate to the whole proof; each is non-empty and is the RLP item found at its offset; a bad item length is an RLP decoding fault |
| MultiStorage.SplitSlotProof | packages/client/src/provers/multistorage.ts:46-51 | the split loop computes SplitNodes |
| MultiStorage.SplitAll | packages/client/src/provers/multistorage.ts:44-53 | one node list per proof, in slot order; fails exactly when some proof fails to split |
| MultiStorage.SplitProofs | packages/client/src/provers/multistorage.ts:44-53 | the loop over the proofs computes SplitAll |
| MultiStorage.Dedup | packages/client/src/provers/multistorage.ts:56-58 | the node set has no duplicates and holds exactly the elements of the input |
| MultiStorage.IndexOf | packages/client/src/provers/multistorage.ts:64 | `indexOf` gives a position of x not preceded by another x, or -1 when x is absent |
| MultiStorage.DedupFirstSeenOrder | packages/client/src/provers/multistorage.ts:56-58 | node-set entries appear in the order of their first occurrence across proofs in slot order |
| MultiStorage.NodeSetCovers | packages/client/src/provers/multistorage.ts:56-58 | a node is in the node set exactly when it occurs in some split proof |
| MultiStorage.Compress | packages/client/src/provers/multistorage.ts:61-67 | one index list per proof, each as long as its proof |
| MultiStorage.CompressRoundTrip | packages/client/src/provers/multistorage.ts:61-67 | nodeSet[indices[i][j]] is splitProofs[i][j], and every index is in range |
| MultiStorage.SharedNodesShareIndices | packages/client/src/provers/multistorage.ts:63-65 | equal nodes, in one proof or in two, get equal indices |
| MultiStorage.DecompressRoundTrip | packages/client/src/provers/multistorage.ts:61-70 | looking every index up and concatenating rebuilds the slot proof byte for byte |
| MultiStorage.CheckExpected | packages/client/src/provers/multistorage.ts:34-41 | passes exactly when every defined expected value equals its slot value; otherwise fails with the error of the first bad entry; undefined entries are skipped |
| MultiStorage.FirstFailureUnique | packages/client/src/provers/multistorage.ts:34-41 | the error the check raises is determined by the values and the expectations |
| MultiStorage.CompressSlotProofs | packages/client/src/provers/multistorage.ts:34-70 | an expected-value failure comes first; otherwise the split result decides; success yields a faithful compression |
| MultiStorage.FetchAll | packages/client/src/provers/multistorage.ts:25-32 | one fetched proof per requested slot, in order |
| MultiStorage.SigDatas | packages/client/src/provers/multistorage.ts:95-97 | one fact signature per slot proof, in order, from the proof's slot and the account proof's block |
| MultiStorage.GetProofData | packages/client/src/provers/multistorage.ts:22-102 | the error order, the account-proof fields, the slots, includeHeader defaulting to false, the compression round trip and the fact signatures |
| CachedMultiStorage.GetProofData | packages/client/src/provers/cachedmultistorage.ts:15-90 | includeHeader true is refused with a RelicError before any fetch. Then as for MultiStorage, with account, block number and storage root in the calldata |
| CachedMultiStorage.ProversAgree | packages/client/src/provers/cachedmultistorage.ts:33-85 | without a header request both provers accept the same batches and fail with the same error. On success they send the same nodes, indices and fact signatures |
| BlockHistories.GetAbi | packages/client/src/blockhistory.ts:21-29 | proxy ABI exactly for an L2 reading L1; Optimism-native ABI for other L2s; otherwise the main ABI |
| BlockHistories.Max | packages/client/src/blockhistory.ts:33-35 | the result is one of the values and at least each of them |
| BlockHistories.RootLogs | packages/client/src/blockhistory.ts:61-69 | exactly the import logs of the chunk from `fromBlock` on; it is empty exactly when the filter selects no log, and otherwise its last element, the one `logs.pop()` takes, is the last selected log in log order |
| BlockHistories.MerkleRootTakesLaterImport | packages/client/src/blockhistory.ts:61-71 | a chunk imported in blocks 5 and 6 is answered and cached with the root of the block-6 import |
| BlockHistories.LastSelected | packages/client/src/blockhistory.ts:69 | the position of a log the filter selects, with no selected log after it, or -1 when none is selected |
| BlockHistories.RootText | packages/client/src/blockhistory.ts:69 | the first 66 characters of the log data, or all of it when shorter |
| BlockHistories.MerkleRootStep | packages/client/src/blockhistory.ts:55-72 | A cached chunk is answered from the cache with no query. A miss queries: no logs gives null and no change; otherwise the last log's root is stored under the chunk. Nothing else changes, and a sound cache stays sound and returns only imported roots |
| BlockHistories.TrustedStep | packages/client/src/blockhistory.ts:74-91 | Without the filter the answer is false. A cache hit is true with no query. The contract is asked exactly when the filter is present and the cache misses, and it then decides; and only a true answer is cached. The cache only grows; with a sound cache the answer is exactly "filter present and contract trusts the hash" |
| BlockHistories.CanVerifyOutcome | packages/client/src/blockhistory.ts:93-100 | verifiable exactly when a root was found or the hash is trusted; a root-lookup error propagates |
| BlockHistories.CanVerifyMeaning | packages/client/src/blockhistory.ts:93-100 | with sound caches, yes means an imported root or a trusted hash, and no means neither exists |
| BlockHistories.EnsureValidStep | packages/client/src/blockhistory.ts:110-127 | the block proof is kept or becomes exactly 0x01 on success. With sound caches, success means an imported root (proof kept) or a trusted hash (proof 0x01); BlockNotVerifiable means neither exists |
| BlockHistories.EnsureValidCases | packages/client/src/blockhistory.ts:114-126 | the three cases in order: root imported keeps the proof; else trusted sets 0x01; else BlockNotVerifiable(blockNum, chainId) |
| BlockHistories.MerkleRootIdempotent | packages/client/src/blockhistory.ts:55-72 | a second lookup returns the same root and leaves the cache unchanged |
| BlockHistories.TrustedIdempotent | packages/client/src/blockhistory.ts:74-91 | a second trust check gives the same answer and leaves the cache unchanged |
| BlockHistories.EnsureValidIdempotent | packages/client/src/blockhistory.ts:110-127 | under a fixed chain, applying ensureValidProof twice gives the same outcome, block proof and caches as once |
| BlockHistories.CanVerifyTwice | packages/client/src/blockhistory.ts:55-100 | a second canVerifyBlock on the caches the first left gives the same answer. Its root lookup makes no query exactly when the first found a non-empty root. It asks the contract again exactly when the filter exists and the hash was not trusted |
| BlockHistories.CanVerifyTwiceRequeriesTrust | packages/client/src/blockhistory.ts:93-100 | a block verifiable through a root, with an untrusted hash: true, and the second call asks the contract again |
| BlockHistories.CanVerifyTwiceRequeriesRoot | packages/client/src/blockhistory.ts:93-100 | a block verifiable through a trusted hash, with no root: true, and the second call queries the root logs again |
| BlockHistories.CanVerifyCachedFirst | packages/client/src/blockhistory.ts:93-100 | the reordered lookup: whenever the root lookup succeeds it gives canVerifyBlock's answer, and it keeps both caches sound |
| BlockHistories.CanVerifyCachedFirstMonotonic | packages/client/src/blockhistory.ts:93-100 | after a positive answer of the reordered lookup, a second call is positive and makes no query, unless the root found was empty |
| BlockHistories.BlockHistory.constructor | packages/client/src/blockhistory.ts:43-53 | empty caches, the ABI from GetAbi, and the invariant holds |
| BlockHistories.BlockHistory.MerkleRootForBlock | packages/client/src/blockhistory.ts:55-72 | result and cache as MerkleRootStep; the query log grows only on a miss; the trusted cache is untouched |
| BlockHistories.BlockHistory.IsTrustedHash | packages/client/src/blockhistory.ts:74-91 | result and cache as TrustedStep; only queried pairs are logged; the root cache is untouched |
| BlockHistories.BlockHistory.CanVerifyBlock | packages/client/src/blockhistory.ts:93-100 | both lookups run; the answer is CanVerifyOutcome of the two |
| BlockHistories.BlockHistory.EnsureValidProof | packages/client/src/blockhistory.ts:110-127 | only `blockProof` of the proof changes, as EnsureValidStep says; the caches follow the two lookups |
| BlockHistories.ChunkLastBlock | packages/client/src/blockhistory.ts:142 | (idx+1)*8192-1 is the last block of chunk idx |
| BlockHistories.LastMerkleRootBlockAsWritten | packages/client/src/blockhistory.ts:129-145 | -1 without the filter or logs; otherwise the bound of the last log only |
| BlockHistories.LastMerkleRootBlock | packages/client/src/blockhistory.ts:129-145 | -1 exactly without the filter or logs; otherwise the greatest bound over all import logs |
| BlockHistories.LastTrustedBlockAsWritten | packages/client/src/blockhistory.ts:147-166 | -1 without the filter or logs; otherwise the last log's block number |
| BlockHistories.LastTrustedBlock | packages/client/src/blockhistory.ts:147-166 | -1 exactly without the filter or logs; otherwise the greatest trusted block number |
| BlockHistories.LastPrecommittedBlockAsWritten | packages/client/src/blockhistory.ts:168-183 | -1 without the filter or logs; otherwise the last log's block |
| BlockHistories.LastPrecommittedBlock | packages/client/src/blockhistory.ts:168-183 | -1 exactly without the filter or logs; otherwise the greatest precommitted block |
| BlockHistories.LastVerifiableBlockAsWritten | packages/client/src/blockhistory.ts:185-193 | `getLastVerifiableBlock` over the bounds as written: at least each of them, equal to one of them, and -1 exactly when all three are |
| BlockHistories.LastVerifiableBlock | packages/client/src/blockhistory.ts:185-193 | the same maximum over the corrected bounds: at least each of them, equal to one of them, and -1 exactly when all three are |
| BlockHistories.LastMerkleRootBlockUsesLastLogOnly | packages/client/src/blockhistory.ts:140-143 | logs for chunks 5 then 3: 32767 as written, 49151 as intended |
| BlockHistories.LastTrustedBlockUsesLastLogOnly | packages/client/src/blockhistory.ts:158-164 | trusted blocks 20 then 10: 10 as written, 20 as intended |
| BlockHistories.LastPrecommittedBlockUsesLastLogOnly | packages/client/src/blockhistory.ts:179-181 | precommitted blocks 20 then 10: 10 as written, 20 as intended |
| BlockHistories.LastVerifiableBlockUsesLastLogOnly | packages/client/src/blockhistory.ts:185-193 | import logs for chunks 5 then 3 and nothing else: the verifiable bound is 32767 as written, 49151 as intended |
| BlockHistories.AsWrittenAgreesOnForwardLogs | packages/client/src/blockhistory.ts:129-193 | when the last log carries the largest value, the written and the intended bounds agree, and so do the two verifiable bounds |
| BlockHistories.BlockHistory.CommitRecent | packages/client/src/blockhistory.ts:195-205 | succeeds exactly on a native L2 (chainId == dataChainId and L2); otherwise NotNativeL2(chainId, dataChainId) |
| BlockHistories.NativeL2UsesOptimismNativeAbi | packages/client/src/blockhistory.ts:198-203 | a native L2 deployment, the only one those calls accept, has the Optimism-native ABI |
| BlockHistories.CheckpointIndex | packages/client/src/blockhistory.ts:244-254 | The checks in order: below start+interval, then a zero interval (division fault), then not a multiple. It succeeds exactly when l2 >= start+interval, interval > 0 and the interval divides l2-start. Then index >= 0 and start + (index+1)*interval == l2 |
| BlockHistories.CheckpointIndexRoundTrip | packages/client/src/blockhistory.ts:244-254 | every index is reached: the block of root `index` maps back to `index` |
| BlockHistories.OutputRootSlots | packages/client/src/blockhistory.ts:273-276 | slots [s, s+1] with s = keccak(base) + 2*index, element `index` of a two-slot-struct dynamic array |
| BlockHistories.OutputRootSlotsDisjoint | packages/client/src/blockhistory.ts:273-276 | different output roots never share a slot |
| BlockHistories.BlockHistory.CheckpointFor | packages/client/src/blockhistory.ts:212-266 | NotNativeL2, then proxy-client errors, then NotL1Network, then the index checks, then "not finalized" when submission + finalization > L1 block timestamp. When the L1 block's timestamp is available and the root is final, the call succeeds. Success gives the root's index and the last verifiable L1 block as `getLastVerifiableBlock` computes it (the as-written bound), and the root is final at that block |
| BlockHistories.BlockHistory.ImportBlockhashFromOutputRoot | packages/client/src/blockhistory.ts:207-292 | The errors of CheckpointFor come first. After the checks, SlotValueMismatch exactly when the first fetched slot does not hold the output-root proof's hash; then the RLP fault when a slot proof does not split; otherwise success. On success the transaction carries the root's index and L1 block, and the proof of the root's two slots with the header. That proof has the account proof's fields, and its nodes and indices are the compression of the two fetched slot proofs, which rebuilds them |
| BlockHistories.ProveOutputRoot | packages/client/src/blockhistory.ts:273-284 | the `getProofData` call for the root's two slots with the header: the mismatch of the first slot, the split fault or the compression, as above |
| BlockHistories.FirstOutputRootMismatch | packages/client/src/blockhistory.ts:277 | with only the first of the two slots expected, a failing check is a SlotValueMismatch of the first slot |
| Client.L1Of | packages/client/src/client.ts:33-62 | the L1 of a chain is an L1 chain ID |
| Client.DefaultApiCoversL1 | packages/client/src/client.ts:33-62 | the table covers exactly the eight known chains, each with an entry for its L1 pointing at that L1's API |
| Client.DefaultApiDataChains | packages/client/src/client.ts:33-62 | the data chains of each entry; Base Sepolia's second key is 8453, and 84532 is not among its keys |
| Client.OverrideUrl | packages/client/src/client.ts:98 | the override URL counts only when defined and non-empty |
| Client.FromProviders | packages/client/src/client.ts:87-109 | UnsupportedNetwork for an unknown chain. Otherwise InvalidDataProvider(chainId, table keys) exactly when there is no usable override URL and no table entry for the data chain. On success the URL is the override or the table's, and the addresses are the override's or the fetched ones |
| Client.FromProvider | packages/client/src/client.ts:111-116 | dataChainId == chainId; without an override URL it resolves exactly for the five chains whose entry lists themselves |
| Client.L2ClientReadsItsL1 | packages/client/src/client.ts:87-109 | an L2 reading its L1 always resolves, to that L1's API |
| Client.SelectBlockHistory | packages/client/src/client.ts:123-130 | BeaconBlockHistory exactly when a non-empty legacy block history address is set |
| Client.SelectBridge | packages/client/src/client.ts:132-143 | ZkSync bridge exactly for zkSync reading non-L2; Optimism bridge exactly for the Optimism family reading non-L2; otherwise NoBridger(chainId, dataChainId) |
| Client.Construct | packages/client/src/client.ts:118-203 | only the bridge getter can fail; a prover getter builds its prover |
| Client.L2ReadingL1HasBridge | packages/client/src/client.ts:132-143 | every L2 reading its L1 has a bridge |
| Client.RelicClient.Get | packages/client/src/client.ts:118-203 | the first successful read builds a fresh instance and remembers it; later reads return that same object; a failed read remembers nothing |
| Client.RelicClient.GetTwice | packages/client/src/client.ts:118-203 | two reads of a getter give the same object or the same error |

## Left out

- **I/O is not modelled.** RPC, HTTP and the `getLogs` retry loop are left
  out. Their answers are oracle inputs:
  - the fetched proofs, as function parameters;
  - the contract's logs and `validBlockHash` answers, as the value `Chain`;
  - the API's addresses, as `fetchAddresses`;
  - the L1 block timestamps and the output oracle's view functions, as
    sequences and functions.
- **Concurrency is not modelled.** `Promise.all` joins are sequential calls.
  `canVerifyBlock` still runs both lookups before it combines them, as
  `Promise.all` starts both.
- **keccak256, RLP and the ABI encoder are abstract.**
  - keccak256 is a function parameter.
  - The RLP item boundary is the parameter `itemLength`, and re-encoding a
    decoded item is taken to give back its bytes.
  - The ABI encoding of calldata, the RLP encoding of the index lists and
    `storageSlotSigData` are shown as the datatypes of the values they encode.
- **`fromProviders`, `blockForTimestamp` and `CanVerifyBlock` take plain values
  instead of providers.** Providers are represented by their chain IDs, and a
  chain by its sequence of block timestamps. `CanVerifyBlock` takes the
  header's number and hash rather than fetching it.
- **Blocks.BlockForTimestamp** draws the probe nondeterministically from
  `[start, end]` instead of computing it by floating-point interpolation, and
  keeps the source's clamping and update rule. The source could probe outside
  that range if timestamps decrease or block 1 is after the target. Its
  interpolation divides 0 by 0 when the two ends share a timestamp. Neither
  case is modelled.
- **Fault messages are model choices.** These look-ups fail with a `Fault` whose
  text the model picks (the runtime's message is not part of the source):
  - a missing `ImportMerkleRoot` filter in `merkleRootForBlock`;
  - a missing block 1;
  - an unavailable L1 block.
- **validBlockHash reverts are not modelled.** The source does not catch a
  revert of `validBlockHash`, so such a revert would leave `isTrustedHash` as an
  exception.
- **Hash normalisation is not modelled.** Block hashes are compared as already
  normalised 32-byte strings, so `toBytes32` is the identity.
- **ImportBlockhashFromOutputRoot:**
  - The proxy client's `fromProviders` outcome is an input, and `Client.FromProviders` models how it resolves.
  - The proxy client's block history is taken to be a `BlockHistory`. `BeaconBlockHistory` is not part of this model.
  - The transaction itself (`populateTransaction`) is the datatype of its arguments.
- BlockHistories.OutputRootSlots: assumes `OUTPUT_ROOTS_BASE_SLOT` returns a 32-byte `bytes32`. The source hashes that value directly, not ABI-encoded as a `uint256`. A differently shaped value would be hashed without padding, and its slot would then differ from the dynamic-array helper's.
- **The source's raw `validBlockHash` pass-through and `getFact` are not
  modelled.** They are single contract calls with no logic of their own.
- **The error classes' message texts are not modelled.** BlockNotVerifiable,
  NotNativeL2, NotL1Network, UnexpectedSlotTime, TimestampAfterCurrent,
  InvalidDataProvider and NoBridger are imported from a part of `errors.ts`
  that is not part of this model. They are modelled as constructors carrying
  their arguments, without text. `InvalidDataProvider` keeps the table keys as a
  set rather than as the ordered list `Object.keys` gives.
- **Only three address fields are modelled.** `Addresses` keeps the addresses
  the modelled code reads: reliquary, blockHistory and legacyBlockHistory.
- **The getters' instances keep only which class they instantiate.**
  BeaconBlockHistory, the bridges, Reliquary and the provers are not part of
  this model.
- **BlockHistories.BlockHistory.CheckpointFor does not model the source past a
  missing L1 block.** When no mechanism has logs, the verifiable bound is -1.
  ethers then reads `getBlock(-1)` as an offset from the head and the source
  carries on with that block and fails later. The model stops with a `Fault`
  whenever the bound is not a block of the L1 chain.
- **Inherited names of `API_ERROR_MAP` are not modelled.** The map is a plain
  object, so a lookup of a name such as `constructor` finds an inherited value.
  The model has exactly the ten own keys.
- **Slots and block numbers are unbounded integers.** The source uses BigNumber,
  so no wrap-around at 2^256 is modelled. `toNumber()` overflow beyond 2^53 is
  not modelled.

## Findings

| source | as written | input that shows it | evidently intended | confidence | as-written member | corrected member |
|---|---|---|---|---|---|---|
| packages/client/src/blockhistory.ts:140-143 | the `map` callback ignores its log and reads `logs[logs.length - 1]`, so the maximum is the last import log's bound | ImportMerkleRoot logs for chunks 5 then 3 give 32767 instead of 49151 | the greatest `(idx+1)*8192-1` over all logs | medium, not executed | BlockHistories.LastMerkleRootBlockAsWritten | BlockHistories.LastMerkleRootBlock |
| packages/client/src/blockhistory.ts:158-164 | the callback decodes the last log's data for every log | TrustedBlockHash logs for blocks 20 then 10 give 10 instead of 20 | the greatest trusted block number over all logs | medium, not executed | BlockHistories.LastTrustedBlockAsWritten | BlockHistories.LastTrustedBlock |
| packages/client/src/blockhistory.ts:179-181 | the callback reads the last log's topic for every log | PrecomittedBlock logs for blocks 20 then 10 give 10 instead of 20 | the greatest precommitted block over all logs | medium, not executed | BlockHistories.LastPrecommittedBlockAsWritten | BlockHistories.LastPrecommittedBlock |
| packages/client/src/blockhistory.ts:185-193 | `getLastVerifiableBlock`, which `importBlockhashFromOutputRoot` reads at line 242, takes the maximum of the three bounds as written | ImportMerkleRoot logs for chunks 5 then 3 and no other logs give 32767 instead of 49151 | the maximum of the three intended bounds | medium, not executed | BlockHistories.LastVerifiableBlockAsWritten | BlockHistories.LastVerifiableBlock |
| packages/client/src/blockhistory.ts:93-100 | `canVerifyBlock` runs both lookups on every call, and neither a null root nor a false trust answer is cached, so a second call after a true answer queries again | a root imported for chunk 0 with `validBlockHash` always false: both calls answer true, and the second asks the contract again. A trusted hash with no root: the second call queries the root logs again | a true answer is repeated from the caches with no new query | low, not executed | BlockHistories.CanVerifyTwiceRequeriesTrust | BlockHistories.CanVerifyCachedFirst |

The counterexample lemmas `LastMerkleRootBlockUsesLastLogOnly`,
`LastTrustedBlockUsesLastLogOnly` and `LastPrecommittedBlockUsesLastLogOnly`
exhibit the three discrepancies. `AsWrittenAgreesOnForwardLogs` shows that the
written and intended versions agree when the last log carries the largest
value. `LastVerifiableBlockUsesLastLogOnly` shows the discrepancy carried into
the verifiable bound.

`CheckpointFor` and `ImportBlockhashFromOutputRoot` use
`LastVerifiableBlockAsWritten`, as the source does. So the L1 block of the
transaction and of the finalization check is the source's. By
`AsWrittenAgreesOnForwardLogs` it equals the intended `LastVerifiableBlock`
whenever each kind of log is in increasing order.

`CanVerifyTwice` states what the source does on a repeated call. The root
lookup is a cache hit after a non-empty root. The contract is asked again
unless the hash was trusted. The answer is the same both times.
`CanVerifyCachedFirst` consults the trusted cache first and asks the contract
only when no root was found. Whenever the root lookup succeeds it gives the
same answers. `CanVerifyCachedFirstMonotonic` proves that its positive answers
are repeated with no new query. The class method `CanVerifyBlock` keeps the
source's order.
