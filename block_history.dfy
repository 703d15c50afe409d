/** The block-history verifier (packages/client/src/blockhistory.ts): which
    blocks the on-chain BlockHistory contract can verify, through an imported
    Merkle root for the block's chunk of 8192 blocks or through a block hash the
    contract trusts, with the two client-side caches that remember the answers.

    The contract and its event logs are a fixed oracle, the value `Chain`: the
    event filters the contract's ABI offers, the logs `getLogs` returns and the
    answer of `validBlockHash(hash, number, 0x01)`. Block hashes are compared as
    the 32-byte strings `toBytes32` produces; the model takes them already in that
    form. */
module BlockHistories {
  import opened Errors
  import opened Network
  import opened Blocks
  import StorageSlots
  import MultiStorage

  /** The proof that tells the contract to look the hash up among its trusted ones. */
  const TrustedHashProof: string := "0x01"

  const NegativeOne: int := -1

  /** The length of a 0x-prefixed 32-byte hex word. */
  const RootTextLength: nat := 66

  // ---------------------------------------------------------------------
  // getAbi and max

  datatype Abi = ProxyAbi | OptimismNativeAbi | MainAbi

  /** `getAbi`: a proxy deployment on an L2 that reads L1 data, a native
      deployment on an L2, or the L1 contract. */
  function GetAbi(chainId: int, dataChainId: int): (a: Abi)
    ensures a == ProxyAbi <==> IsProxyL2Deployment(chainId, dataChainId)
    ensures a == OptimismNativeAbi <==> IsL2ChainId(chainId) && !IsL1ChainId(dataChainId)
    ensures a == MainAbi <==> !IsL2ChainId(chainId)
  {
    if IsProxyL2Deployment(chainId, dataChainId) then ProxyAbi
    else if IsL2ChainId(chainId) then OptimismNativeAbi
    else MainAbi
  }

  /** `max`: `reduce` from the left keeping the left value unless the right one
      is greater. `reduce` without an initial value throws on an empty array, and
      every caller passes a non-empty one. */
  function Max(vals: seq<int>): (m: int)
    requires |vals| > 0
    ensures m in vals
    ensures forall i :: 0 <= i < |vals| ==> vals[i] <= m
  {
    if |vals| == 1 then vals[0]
    else
      var l := Max(vals[..|vals| - 1]);
      var r := vals[|vals| - 1];
      assert vals == vals[..|vals| - 1] + [r];
      if l > r then l else r
  }

  // ---------------------------------------------------------------------
  // The on-chain oracle

  /** An ImportMerkleRoot event: the chunk index (its first topic), the block it
      was emitted in, and its data, the hex text that starts with the root. */
  datatype ImportLog = ImportLog(index: nat, blockNumber: int, data: string)

  /** A TrustedBlockHash event, its data decoded as (uint256, bytes32). */
  datatype TrustedLog = TrustedLog(blockNum: nat, hash: string)

  datatype Chain = Chain(
    hasImportMerkleRoot: bool,
    hasTrustedBlockHash: bool,
    hasPrecomittedBlock: bool,
    importLogs: seq<ImportLog>,
    trustedLogs: seq<TrustedLog>,
    precommitLogs: seq<nat>,
    validBlockHash: (int, string) -> bool)

  /** The logs of the filter `ImportMerkleRoot(chunk)` from block `fromBlock` on,
      in log order: its last element, which `logs.pop()` takes, is the last log
      the filter selects. */
  function RootLogs(logs: seq<ImportLog>, chunk: int, fromBlock: int): (r: seq<ImportLog>)
    ensures forall i :: 0 <= i < |r| ==> r[i] in logs && r[i].index == chunk && r[i].blockNumber >= fromBlock
    ensures forall i :: 0 <= i < |logs| && logs[i].index == chunk && logs[i].blockNumber >= fromBlock ==> logs[i] in r
    ensures r != [] <==> LastSelected(logs, chunk, fromBlock) >= 0
    ensures r != [] ==> r[|r| - 1] == logs[LastSelected(logs, chunk, fromBlock)]
  {
    if logs == [] then []
    else
      var last := logs[|logs| - 1];
      var rest := RootLogs(logs[..|logs| - 1], chunk, fromBlock);
      if Selected(last, chunk, fromBlock) then rest + [last] else rest
  }

  /** The filter `ImportMerkleRoot(chunk)` from block `fromBlock` on selects `log`. */
  predicate Selected(log: ImportLog, chunk: int, fromBlock: int) {
    log.index == chunk && log.blockNumber >= fromBlock
  }

  /** The position of the last log the filter selects, or -1 when it selects none. */
  function LastSelected(logs: seq<ImportLog>, chunk: int, fromBlock: int): (k: int)
    ensures -1 <= k < |logs|
    ensures k >= 0 ==> Selected(logs[k], chunk, fromBlock)
    ensures forall j :: k < j < |logs| ==> !Selected(logs[j], chunk, fromBlock)
  {
    if logs == [] then -1
    else if Selected(logs[|logs| - 1], chunk, fromBlock) then |logs| - 1
    else LastSelected(logs[..|logs| - 1], chunk, fromBlock)
  }

  /** `data.substring(0, 66)`. */
  function RootText(data: string): (root: string)
    ensures |root| == if |data| < RootTextLength then |data| else RootTextLength
    ensures root == data[..|root|]
  {
    if |data| < RootTextLength then data else data[..RootTextLength]
  }

  /** `root` is the root of some ImportMerkleRoot event for `chunk`. */
  ghost predicate IsImportedRoot(chain: Chain, chunk: int, root: string) {
    exists i :: 0 <= i < |chain.importLogs| && chain.importLogs[i].index == chunk && RootText(chain.importLogs[i].data) == root
  }

  /** Every cached root was imported on-chain for its chunk. */
  ghost predicate RootCacheSound(chain: Chain, cache: map<int, string>) {
    forall c :: c in cache ==> IsImportedRoot(chain, c, cache[c])
  }

  /** Every cached hash is one the contract trusts for that block. */
  ghost predicate TrustCacheSound(chain: Chain, cache: map<int, string>) {
    forall n :: n in cache ==> chain.validBlockHash(n, cache[n])
  }

  // ---------------------------------------------------------------------
  // merkleRootForBlock, isTrustedHash, canVerifyBlock and ensureValidProof on
  // values: what one call returns and does to the caches

  /** A cache entry counts only when it is a non-empty string (`if (root)`). */
  predicate CachedRoot(cache: map<int, string>, chunk: int) {
    chunk in cache && cache[chunk] != ""
  }

  const NoImportFilter: string := "this.contract.filters.ImportMerkleRoot is not a function"

  datatype RootLookup = RootLookup(root: Result<Option<string>>, cache: map<int, string>, queried: bool)

  /** One `merkleRootForBlock(blockNum)` call on the cache `cache`. A cached chunk
      is answered from the cache without a log query. Otherwise the logs are
      queried: none means null and no cache change; some means the root of the
      last one, stored under the chunk. Only the chunk's entry ever changes, and a
      root returned from a sound cache was imported for the block's chunk. */
  function MerkleRootStep(chain: Chain, cache: map<int, string>, blockNum: int): (out: RootLookup)
    ensures var chunk := BlockNumberToChunk(blockNum);
      var logs := RootLogs(chain.importLogs, chunk, blockNum);
      && (out.queried <==> !CachedRoot(cache, chunk))
      && (!out.queried ==> out.root == Ok(Some(cache[chunk])) && out.cache == cache)
      && (out.root.Err? <==> out.queried && !chain.hasImportMerkleRoot)
      && (out.root == Ok(None) <==> out.queried && chain.hasImportMerkleRoot && logs == [])
      && (out.queried && chain.hasImportMerkleRoot && logs != [] ==>
            var root := RootText(logs[|logs| - 1].data);
            out.root == Ok(Some(root)) && out.cache == cache[chunk := root])
      && (out.root == Ok(None) || out.root.Err? ==> out.cache == cache)
      && (RootCacheSound(chain, cache) ==> RootCacheSound(chain, out.cache))
      && (RootCacheSound(chain, cache) && out.root.Ok? && out.root.value.Some? ==>
            IsImportedRoot(chain, chunk, out.root.value.value))
  {
    var chunk := BlockNumberToChunk(blockNum);
    if CachedRoot(cache, chunk) then RootLookup(Ok(Some(cache[chunk])), cache, false)
    else if !chain.hasImportMerkleRoot then RootLookup(Err(Fault(NoImportFilter)), cache, true)
    else
      var logs := RootLogs(chain.importLogs, chunk, blockNum);
      if logs == [] then RootLookup(Ok(None), cache, true)
      else
        var root := RootText(logs[|logs| - 1].data);
        LastRootImported(chain, chunk, blockNum);
        StoreImportedRoot(chain, cache, chunk, root);
        RootLookup(Ok(Some(root)), cache[chunk := root], true)
  }

  /** The root of the last log of a chunk's query was imported for the chunk. */
  lemma LastRootImported(chain: Chain, chunk: int, fromBlock: int)
    requires RootLogs(chain.importLogs, chunk, fromBlock) != []
    ensures var logs := RootLogs(chain.importLogs, chunk, fromBlock);
      IsImportedRoot(chain, chunk, RootText(logs[|logs| - 1].data))
  {
    var k := LastSelected(chain.importLogs, chunk, fromBlock);
    assert chain.importLogs[k].index == chunk;
  }

  /** A chunk imported twice is answered, and cached, with the later root. */
  lemma MerkleRootTakesLaterImport()
    ensures var chain := Chain(true, false, false, [ImportLog(0, 5, "0xaa"), ImportLog(0, 6, "0xbb")], [], [], (n, h) => false);
      var out := MerkleRootStep(chain, map[], 3);
      out.root == Ok(Some("0xbb")) && out.cache == map[0 := "0xbb"]
  {
    var logs := [ImportLog(0, 5, "0xaa"), ImportLog(0, 6, "0xbb")];
    assert logs[..1] == [ImportLog(0, 5, "0xaa")];
    assert RootLogs(logs, 0, 3) == [ImportLog(0, 5, "0xaa"), ImportLog(0, 6, "0xbb")];
  }

  /** Storing an imported root keeps a sound cache sound. */
  lemma StoreImportedRoot(chain: Chain, cache: map<int, string>, chunk: int, root: string)
    requires IsImportedRoot(chain, chunk, root)
    ensures RootCacheSound(chain, cache) ==> RootCacheSound(chain, cache[chunk := root])
  {
  }

  datatype TrustLookup = TrustLookup(trusted: bool, cache: map<int, string>, queried: bool)

  /** One `isTrustedHash(blockNum, blockHash)` call on the cache `cache`. Without
      the TrustedBlockHash filter the answer is false; a cached hash is trusted
      without asking the contract; otherwise the contract decides, and only a
      positive answer is cached, so the cache only grows. With a sound cache the
      answer is exactly whether the filter exists and the contract trusts the
      hash. */
  function TrustedStep(chain: Chain, cache: map<int, string>, blockNum: int, blockHash: string): (out: TrustLookup)
    ensures !chain.hasTrustedBlockHash ==> out == TrustLookup(false, cache, false)
    ensures chain.hasTrustedBlockHash && blockNum in cache && cache[blockNum] == blockHash ==>
      out == TrustLookup(true, cache, false)
    ensures out.queried <==> chain.hasTrustedBlockHash && !(blockNum in cache && cache[blockNum] == blockHash)
    ensures out.queried ==> out.trusted == chain.validBlockHash(blockNum, blockHash)
    ensures out.cache == if out.queried && out.trusted then cache[blockNum := blockHash] else cache
    ensures cache.Keys <= out.cache.Keys
    ensures TrustCacheSound(chain, cache) ==>
      && TrustCacheSound(chain, out.cache)
      && (out.trusted <==> chain.hasTrustedBlockHash && chain.validBlockHash(blockNum, blockHash))
  {
    if !chain.hasTrustedBlockHash then TrustLookup(false, cache, false)
    else if blockNum in cache && cache[blockNum] == blockHash then TrustLookup(true, cache, false)
    else
      var trusted := chain.validBlockHash(blockNum, blockHash);
      TrustLookup(trusted, if trusted then cache[blockNum := blockHash] else cache, true)
  }

  /** What `canVerifyBlock` answers once both lookups have run: a lookup error
      wins, otherwise a root or a trusted hash makes the block verifiable. */
  function CanVerifyOutcome(root: Result<Option<string>>, trusted: bool): (r: Result<bool>)
    ensures r.Err? <==> root.Err?
    ensures r.Ok? ==> (r.value <==> root.value.Some? || trusted)
  {
    if root.Err? then Err(root.error) else Ok(root.value.Some? || trusted)
  }

  /** With sound caches, `canVerifyBlock` says yes only for a block whose chunk
      has an imported root or whose hash the contract trusts, and no only when
      neither a root log from the block on nor trust exists. */
  lemma CanVerifyMeaning(chain: Chain, rootCache: map<int, string>, trustCache: map<int, string>, number: int, hash: string)
    requires RootCacheSound(chain, rootCache) && TrustCacheSound(chain, trustCache)
    ensures var root := MerkleRootStep(chain, rootCache, number);
      var t := TrustedStep(chain, trustCache, number, hash);
      var r := CanVerifyOutcome(root.root, t.trusted);
      && (r == Ok(true) ==>
            || (root.root.value.Some? && IsImportedRoot(chain, BlockNumberToChunk(number), root.root.value.value))
            || (chain.hasTrustedBlockHash && chain.validBlockHash(number, hash)))
      && (r == Ok(false) ==>
            && RootLogs(chain.importLogs, BlockNumberToChunk(number), number) == []
            && !(chain.hasTrustedBlockHash && chain.validBlockHash(number, hash)))
      && (r.Err? <==> !chain.hasImportMerkleRoot && !CachedRoot(rootCache, BlockNumberToChunk(number)))
  {
  }

  datatype EnsureOutcome = EnsureOutcome(
    outcome: Outcome, blockProof: string, rootCache: map<int, string>, trustCache: map<int, string>)

  /** One `ensureValidProof` call for the block `number` whose header hashes to
      `hash`, on a proof whose block proof is `blockProof`. */
  function EnsureValidStep(
    chain: Chain, chainId: int, rootCache: map<int, string>, trustCache: map<int, string>,
    number: int, hash: string, blockProof: string): (out: EnsureOutcome)
    ensures out.blockProof == blockProof || (out.blockProof == TrustedHashProof && out.outcome.Pass?)
    ensures RootCacheSound(chain, rootCache) && TrustCacheSound(chain, trustCache) ==>
      && RootCacheSound(chain, out.rootCache) && TrustCacheSound(chain, out.trustCache)
      && (out.outcome.Pass? ==>
            || (out.blockProof == blockProof && exists root :: IsImportedRoot(chain, BlockNumberToChunk(number), root))
            || (out.blockProof == TrustedHashProof && chain.hasTrustedBlockHash && chain.validBlockHash(number, hash)))
      && (out.outcome == Fail(BlockNotVerifiable(number, chainId)) ==>
            && RootLogs(chain.importLogs, BlockNumberToChunk(number), number) == []
            && !(chain.hasTrustedBlockHash && chain.validBlockHash(number, hash)))
  {
    var root := MerkleRootStep(chain, rootCache, number);
    if root.root.Err? then EnsureOutcome(Fail(root.root.error), blockProof, root.cache, trustCache)
    else if root.root.value.Some? then EnsureOutcome(Pass, blockProof, root.cache, trustCache)
    else
      var t := TrustedStep(chain, trustCache, number, hash);
      if t.trusted then EnsureOutcome(Pass, TrustedHashProof, root.cache, t.cache)
      else EnsureOutcome(Fail(BlockNotVerifiable(number, chainId)), blockProof, root.cache, t.cache)
  }

  /** The three cases of `ensureValidProof`: an imported root leaves the proof
      as it is; otherwise a trusted hash replaces the block proof by 0x01;
      otherwise the block is not verifiable. */
  lemma EnsureValidCases(
    chain: Chain, chainId: int, rootCache: map<int, string>, trustCache: map<int, string>,
    number: int, hash: string, blockProof: string)
    ensures var out := EnsureValidStep(chain, chainId, rootCache, trustCache, number, hash, blockProof);
      var root := MerkleRootStep(chain, rootCache, number).root;
      var t := TrustedStep(chain, trustCache, number, hash).trusted;
      && (root.Ok? && root.value.Some? ==> out.outcome == Pass && out.blockProof == blockProof)
      && (root == Ok(None) && t ==> out.outcome == Pass && out.blockProof == TrustedHashProof)
      && (root == Ok(None) && !t ==> out.outcome == Fail(BlockNotVerifiable(number, chainId)) && out.blockProof == blockProof)
      && (root.Err? ==> out.outcome == Fail(root.error) && out.blockProof == blockProof)
  {
  }

  /** A second `merkleRootForBlock` call for the same block returns the same
      answer and leaves the cache as the first call left it. */
  lemma {:induction false} MerkleRootIdempotent(chain: Chain, cache: map<int, string>, blockNum: int)
    ensures var first := MerkleRootStep(chain, cache, blockNum);
      var second := MerkleRootStep(chain, first.cache, blockNum);
      second.root == first.root && second.cache == first.cache
  {
    var chunk := BlockNumberToChunk(blockNum);
    var first := MerkleRootStep(chain, cache, blockNum);
    if first.queried && first.root.Ok? && first.root.value.Some? {
      assert first.cache == cache[chunk := first.root.value.value];
    }
  }

  /** A second `isTrustedHash` call for the same block and hash returns the
      same answer and leaves the cache as the first call left it. */
  lemma TrustedIdempotent(chain: Chain, cache: map<int, string>, blockNum: int, blockHash: string)
    ensures var first := TrustedStep(chain, cache, blockNum, blockHash);
      var second := TrustedStep(chain, first.cache, blockNum, blockHash);
      second.trusted == first.trusted && second.cache == first.cache
  {
  }

  /** Under a fixed chain, a second `ensureValidProof` on the proof the first
      one left gives the same outcome, the same block proof and the same caches. */
  lemma {:induction false} EnsureValidIdempotent(
    chain: Chain, chainId: int, rootCache: map<int, string>, trustCache: map<int, string>,
    number: int, hash: string, blockProof: string)
    ensures var first := EnsureValidStep(chain, chainId, rootCache, trustCache, number, hash, blockProof);
      var second := EnsureValidStep(chain, chainId, first.rootCache, first.trustCache, number, hash, first.blockProof);
      && second.outcome == first.outcome && second.blockProof == first.blockProof
      && second.rootCache == first.rootCache && second.trustCache == first.trustCache
  {
    MerkleRootIdempotent(chain, rootCache, number);
    var root := MerkleRootStep(chain, rootCache, number);
    if root.root == Ok(None) {
      TrustedIdempotent(chain, trustCache, number, hash);
    }
  }

  // ---------------------------------------------------------------------
  // Repeated canVerifyBlock calls

  /** A second `canVerifyBlock` for the same header, on the caches the first
      one left: it gives the same answer. Its root lookup is a cache hit exactly
      when the first found a non-empty root, and it asks the contract again
      exactly when the filter exists and the first answer was not a trusted
      hash, because both lookups run every time and only positive answers are
      cached. */
  lemma {:induction false} CanVerifyTwice(
    chain: Chain, rootCache: map<int, string>, trustCache: map<int, string>, number: int, hash: string)
    ensures var r1 := MerkleRootStep(chain, rootCache, number);
      var t1 := TrustedStep(chain, trustCache, number, hash);
      var r2 := MerkleRootStep(chain, r1.cache, number);
      var t2 := TrustedStep(chain, t1.cache, number, hash);
      && CanVerifyOutcome(r2.root, t2.trusted) == CanVerifyOutcome(r1.root, t1.trusted)
      && (!r2.queried <==> r1.root.Ok? && r1.root.value.Some? && r1.root.value.value != "")
      && (t2.queried <==> chain.hasTrustedBlockHash && !t1.trusted)
  {
    MerkleRootIdempotent(chain, rootCache, number);
    TrustedIdempotent(chain, trustCache, number, hash);
    var chunk := BlockNumberToChunk(number);
    var r1 := MerkleRootStep(chain, rootCache, number);
    if r1.queried && r1.root.Ok? && r1.root.value.Some? {
      assert r1.cache == rootCache[chunk := r1.root.value.value];
    }
  }

  /** A block verifiable through its chunk's root, whose hash the contract does
      not trust: the second call hits the root cache but asks the contract
      again. */
  lemma CanVerifyTwiceRequeriesTrust()
    ensures var chain := Chain(true, true, true, [ImportLog(0, 5, "0xab")], [], [], (n: int, h: string) => false);
      var r1 := MerkleRootStep(chain, map[], 3);
      var t1 := TrustedStep(chain, map[], 3, "h");
      var r2 := MerkleRootStep(chain, r1.cache, 3);
      var t2 := TrustedStep(chain, t1.cache, 3, "h");
      CanVerifyOutcome(r1.root, t1.trusted) == Ok(true) && !r2.queried && t2.queried
  {
    var chain := Chain(true, true, true, [ImportLog(0, 5, "0xab")], [], [], (n: int, h: string) => false);
    assert RootLogs(chain.importLogs, 0, 3) == [ImportLog(0, 5, "0xab")];
  }

  /** A block verifiable through a trusted hash, with no root imported: the
      second call hits the trusted cache but queries the root logs again. */
  lemma CanVerifyTwiceRequeriesRoot()
    ensures var chain := Chain(true, true, true, [], [], [], (n: int, h: string) => true);
      var r1 := MerkleRootStep(chain, map[], 3);
      var t1 := TrustedStep(chain, map[], 3, "h");
      var r2 := MerkleRootStep(chain, r1.cache, 3);
      var t2 := TrustedStep(chain, t1.cache, 3, "h");
      CanVerifyOutcome(r1.root, t1.trusted) == Ok(true) && r2.queried && !t2.queried
  {
  }

  datatype VerifyLookup = VerifyLookup(
    result: Result<bool>, rootCache: map<int, string>, trustCache: map<int, string>, queried: bool)

  /** `canVerifyBlock` ordered so that a positive answer is never re-queried: a
      cached trusted hash answers first without a query, then the root lookup
      runs, and the contract is asked only when no root was found. Whenever the
      root lookup succeeds it gives the source's answer. */
  function CanVerifyCachedFirst(
    chain: Chain, rootCache: map<int, string>, trustCache: map<int, string>, number: int, hash: string)
    : (out: VerifyLookup)
    ensures var r := MerkleRootStep(chain, rootCache, number);
      var t := TrustedStep(chain, trustCache, number, hash);
      r.root.Ok? ==> out.result == CanVerifyOutcome(r.root, t.trusted)
    ensures TrustCacheSound(chain, trustCache) ==> TrustCacheSound(chain, out.trustCache)
    ensures RootCacheSound(chain, rootCache) ==> RootCacheSound(chain, out.rootCache)
  {
    if chain.hasTrustedBlockHash && number in trustCache && trustCache[number] == hash then
      VerifyLookup(Ok(true), rootCache, trustCache, false)
    else
      var root := MerkleRootStep(chain, rootCache, number);
      if root.root.Err? then VerifyLookup(Err(root.root.error), root.cache, trustCache, root.queried)
      else if root.root.value.Some? then VerifyLookup(Ok(true), root.cache, trustCache, root.queried)
      else
        var t := TrustedStep(chain, trustCache, number, hash);
        VerifyLookup(Ok(t.trusted), root.cache, t.cache, root.queried || t.queried)
  }

  /** Monotonic caching, for the reordered lookup: after a positive answer a
      second call is positive again and makes no query, unless the root found
      was the empty string, which the source does not count as a cache entry. */
  lemma {:induction false} CanVerifyCachedFirstMonotonic(
    chain: Chain, rootCache: map<int, string>, trustCache: map<int, string>, number: int, hash: string)
    ensures var first := CanVerifyCachedFirst(chain, rootCache, trustCache, number, hash);
      var second := CanVerifyCachedFirst(chain, first.rootCache, first.trustCache, number, hash);
      first.result == Ok(true) ==>
        && second.result == Ok(true)
        && (second.queried ==> MerkleRootStep(chain, rootCache, number).root == Ok(Some("")))
  {
    var chunk := BlockNumberToChunk(number);
    var root := MerkleRootStep(chain, rootCache, number);
    if root.queried && root.root.Ok? && root.root.value.Some? {
      assert root.cache == rootCache[chunk := root.root.value.value];
    }
  }

  // ---------------------------------------------------------------------
  // getLastMerkleRootBlock, getLastTrustedBlock, getLastPrecomiitedBlock and
  // getLastVerifiableBlock

  /** The last block covered by the Merkle root of chunk `index`. */
  function ChunkLastBlock(index: nat): (b: int)
    ensures b >= ChunkSize - 1
    ensures BlockNumberToChunk(b) == index && BlockNumberToChunk(b + 1) == index + 1
  {
    (index + 1) * ChunkSize - 1
  }

  /** `getLastMerkleRootBlock` as written: the callback passed to `map` ignores
      its argument and reads the last log, so every value is the last log's bound. */
  function LastMerkleRootBlockAsWritten(chain: Chain): (b: int)
    ensures !chain.hasImportMerkleRoot || chain.importLogs == [] ==> b == NegativeOne
    ensures chain.hasImportMerkleRoot && chain.importLogs != [] ==>
      b == ChunkLastBlock(chain.importLogs[|chain.importLogs| - 1].index)
  {
    if !chain.hasImportMerkleRoot || chain.importLogs == [] then NegativeOne
    else
      var logs := chain.importLogs;
      Max(seq(|logs|, i requires 0 <= i < |logs| => ChunkLastBlock(logs[|logs| - 1].index)))
  }

  /** `getLastMerkleRootBlock` as intended: the greatest bound over all import
      logs, or -1 without the filter or without logs. */
  function LastMerkleRootBlock(chain: Chain): (b: int)
    ensures b == NegativeOne <==> !chain.hasImportMerkleRoot || chain.importLogs == []
    ensures b != NegativeOne ==>
      && (forall i :: 0 <= i < |chain.importLogs| ==> ChunkLastBlock(chain.importLogs[i].index) <= b)
      && (exists i :: 0 <= i < |chain.importLogs| && ChunkLastBlock(chain.importLogs[i].index) == b)
  {
    if !chain.hasImportMerkleRoot || chain.importLogs == [] then NegativeOne
    else
      var logs := chain.importLogs;
      var vals := seq(|logs|, i requires 0 <= i < |logs| => ChunkLastBlock(logs[i].index));
      var m := Max(vals);
      assert forall i :: 0 <= i < |logs| ==> ChunkLastBlock(logs[i].index) == vals[i];
      assert exists i :: 0 <= i < |logs| && vals[i] == m;
      m
  }

  /** `getLastTrustedBlock` as written: the last log's block number. */
  function LastTrustedBlockAsWritten(chain: Chain): (b: int)
    ensures !chain.hasTrustedBlockHash || chain.trustedLogs == [] ==> b == NegativeOne
    ensures chain.hasTrustedBlockHash && chain.trustedLogs != [] ==>
      b == chain.trustedLogs[|chain.trustedLogs| - 1].blockNum
  {
    if !chain.hasTrustedBlockHash || chain.trustedLogs == [] then NegativeOne
    else
      var logs := chain.trustedLogs;
      Max(seq(|logs|, i requires 0 <= i < |logs| => logs[|logs| - 1].blockNum))
  }

  /** `getLastTrustedBlock` as intended: the greatest trusted block number. */
  function LastTrustedBlock(chain: Chain): (b: int)
    ensures b == NegativeOne <==> !chain.hasTrustedBlockHash || chain.trustedLogs == []
    ensures b != NegativeOne ==>
      && (forall i :: 0 <= i < |chain.trustedLogs| ==> chain.trustedLogs[i].blockNum <= b)
      && (exists i :: 0 <= i < |chain.trustedLogs| && chain.trustedLogs[i].blockNum == b)
  {
    if !chain.hasTrustedBlockHash || chain.trustedLogs == [] then NegativeOne
    else
      var logs := chain.trustedLogs;
      var vals := seq(|logs|, i requires 0 <= i < |logs| => logs[i].blockNum);
      var m := Max(vals);
      assert forall i :: 0 <= i < |logs| ==> logs[i].blockNum == vals[i];
      assert exists i :: 0 <= i < |logs| && vals[i] == m;
      m
  }

  /** `getLastPrecomiitedBlock` as written: the last log's block number. */
  function LastPrecommittedBlockAsWritten(chain: Chain): (b: int)
    ensures !chain.hasPrecomittedBlock || chain.precommitLogs == [] ==> b == NegativeOne
    ensures chain.hasPrecomittedBlock && chain.precommitLogs != [] ==>
      b == chain.precommitLogs[|chain.precommitLogs| - 1]
  {
    if !chain.hasPrecomittedBlock || chain.precommitLogs == [] then NegativeOne
    else
      var logs := chain.precommitLogs;
      Max(seq(|logs|, i requires 0 <= i < |logs| => logs[|logs| - 1] as int))
  }

  /** `getLastPrecomiitedBlock` as intended: the greatest precommitted block. */
  function LastPrecommittedBlock(chain: Chain): (b: int)
    ensures b == NegativeOne <==> !chain.hasPrecomittedBlock || chain.precommitLogs == []
    ensures b != NegativeOne ==>
      && (forall i :: 0 <= i < |chain.precommitLogs| ==> chain.precommitLogs[i] <= b)
      && (exists i :: 0 <= i < |chain.precommitLogs| && chain.precommitLogs[i] == b)
  {
    if !chain.hasPrecomittedBlock || chain.precommitLogs == [] then NegativeOne
    else
      var logs := chain.precommitLogs;
      var vals := seq(|logs|, i requires 0 <= i < |logs| => logs[i] as int);
      var m := Max(vals);
      assert forall i :: 0 <= i < |logs| ==> logs[i] == vals[i];
      assert exists i :: 0 <= i < |logs| && vals[i] == m;
      m
  }

  /** `getLastVerifiableBlock`: the greatest of the three bounds. It is one of
      them, at least each of them, and -1 exactly when all three are. */
  function LastVerifiableBlock(chain: Chain): (b: int)
    ensures b >= LastMerkleRootBlock(chain) && b >= LastTrustedBlock(chain) && b >= LastPrecommittedBlock(chain)
    ensures b == LastMerkleRootBlock(chain) || b == LastTrustedBlock(chain) || b == LastPrecommittedBlock(chain)
    ensures b == NegativeOne <==>
      LastMerkleRootBlock(chain) == NegativeOne && LastTrustedBlock(chain) == NegativeOne
      && LastPrecommittedBlock(chain) == NegativeOne
  {
    var vals := [LastMerkleRootBlock(chain), LastTrustedBlock(chain), LastPrecommittedBlock(chain)];
    assert vals[0] >= -1 && vals[1] >= -1 && vals[2] >= -1;
    Max(vals)
  }

  /** `getLastVerifiableBlock` as the source computes it, over the three bounds
      as written; `importBlockhashFromOutputRoot` takes its L1 block from here.
      It is one of them, at least each of them, and -1 exactly when all three
      are. */
  function LastVerifiableBlockAsWritten(chain: Chain): (b: int)
    ensures b >= LastMerkleRootBlockAsWritten(chain) && b >= LastTrustedBlockAsWritten(chain)
      && b >= LastPrecommittedBlockAsWritten(chain)
    ensures b == LastMerkleRootBlockAsWritten(chain) || b == LastTrustedBlockAsWritten(chain)
      || b == LastPrecommittedBlockAsWritten(chain)
    ensures b == NegativeOne <==>
      LastMerkleRootBlockAsWritten(chain) == NegativeOne && LastTrustedBlockAsWritten(chain) == NegativeOne
      && LastPrecommittedBlockAsWritten(chain) == NegativeOne
  {
    var vals := [LastMerkleRootBlockAsWritten(chain), LastTrustedBlockAsWritten(chain), LastPrecommittedBlockAsWritten(chain)];
    assert vals[0] >= -1 && vals[1] >= -1 && vals[2] >= -1;
    Max(vals)
  }

  /** With the logs in the order below, the last import log is not the highest
      chunk: getLastMerkleRootBlock as written reports 32767 where the highest
      imported chunk ends at block 49151. */
  lemma LastMerkleRootBlockUsesLastLogOnly()
    ensures var chain := Chain(true, true, true, [ImportLog(5, 100, ""), ImportLog(3, 200, "")], [], [], (n: int, h: string) => false);
      LastMerkleRootBlockAsWritten(chain) == 32767 && LastMerkleRootBlock(chain) == 49151
  {
    var chain := Chain(true, true, true, [ImportLog(5, 100, ""), ImportLog(3, 200, "")], [], [], (n: int, h: string) => false);
    assert ChunkLastBlock(chain.importLogs[0].index) == 49151;
  }

  /** The same logs, with no trusted or precommitted block: the verifiable
      bound the import uses is 32767 as written and 49151 as intended. */
  lemma LastVerifiableBlockUsesLastLogOnly()
    ensures var chain := Chain(true, true, true, [ImportLog(5, 100, ""), ImportLog(3, 200, "")], [], [], (n: int, h: string) => false);
      LastVerifiableBlockAsWritten(chain) == 32767 && LastVerifiableBlock(chain) == 49151
  {
    var chain := Chain(true, true, true, [ImportLog(5, 100, ""), ImportLog(3, 200, "")], [], [], (n: int, h: string) => false);
    LastMerkleRootBlockUsesLastLogOnly();
    assert LastTrustedBlockAsWritten(chain) == NegativeOne && LastTrustedBlock(chain) == NegativeOne;
    assert LastPrecommittedBlockAsWritten(chain) == NegativeOne && LastPrecommittedBlock(chain) == NegativeOne;
  }

  /** A trusted hash for block 20 logged before one for block 10: as written
      the last trusted block is 10, as intended 20. */
  lemma LastTrustedBlockUsesLastLogOnly()
    ensures var chain := Chain(true, true, true, [], [TrustedLog(20, "a"), TrustedLog(10, "b")], [], (n: int, h: string) => false);
      LastTrustedBlockAsWritten(chain) == 10 && LastTrustedBlock(chain) == 20
  {
    var chain := Chain(true, true, true, [], [TrustedLog(20, "a"), TrustedLog(10, "b")], [], (n: int, h: string) => false);
    assert chain.trustedLogs[0].blockNum == 20;
  }

  /** Block 20 precommitted before block 10: as written the last precommitted
      block is 10, as intended 20. */
  lemma LastPrecommittedBlockUsesLastLogOnly()
    ensures var chain := Chain(true, true, true, [], [], [20, 10], (n: int, h: string) => false);
      LastPrecommittedBlockAsWritten(chain) == 10 && LastPrecommittedBlock(chain) == 20
  {
    var chain := Chain(true, true, true, [], [], [20, 10], (n: int, h: string) => false);
    assert chain.precommitLogs[0] == 20;
  }

  /** The written and the intended bounds, and so the verifiable bound the
      import uses, agree whenever the last log carries the largest value, as
      when logs only ever move forward. */
  lemma AsWrittenAgreesOnForwardLogs(chain: Chain)
    requires forall i :: 0 <= i < |chain.importLogs| ==> chain.importLogs[i].index <= chain.importLogs[|chain.importLogs| - 1].index
    requires forall i :: 0 <= i < |chain.trustedLogs| ==> chain.trustedLogs[i].blockNum <= chain.trustedLogs[|chain.trustedLogs| - 1].blockNum
    requires forall i :: 0 <= i < |chain.precommitLogs| ==> chain.precommitLogs[i] <= chain.precommitLogs[|chain.precommitLogs| - 1]
    ensures LastMerkleRootBlockAsWritten(chain) == LastMerkleRootBlock(chain)
    ensures LastTrustedBlockAsWritten(chain) == LastTrustedBlock(chain)
    ensures LastPrecommittedBlockAsWritten(chain) == LastPrecommittedBlock(chain)
    ensures LastVerifiableBlockAsWritten(chain) == LastVerifiableBlock(chain)
  {
    if chain.hasImportMerkleRoot && chain.importLogs != [] {
      var logs := chain.importLogs;
      var m := LastMerkleRootBlock(chain);
      var i :| 0 <= i < |logs| && ChunkLastBlock(logs[i].index) == m;
      assert ChunkLastBlock(logs[i].index) <= ChunkLastBlock(logs[|logs| - 1].index);
    }
  }

  // ---------------------------------------------------------------------
  // importBlockhashFromOutputRoot: the output-root index and slots

  const BelowFirstOutputRoot: string := "the given l2 block number is below first stored output root"
  const NotFinalized: string := "checkpoint block is not finalized in most recent verifiable L1 block"
  const DivisionByZero: string := "division-by-zero"
  const BlockUnavailable: string := "the last verifiable L1 block is not available"

  function NotMultipleOfInterval(interval: nat): string {
    "l2 block number must be a multiple of SUBMISSION_INTERVAL (" + Decimal(interval) + ")"
  }

  /** The index of the output root stored for L2 block `l2`, when the oracle
      stores one root every `interval` blocks from `start` on; the first stored
      root (index 0) is for block `start + interval`. The checks come in the
      source's order: too early, then the remainder (which throws for a zero
      interval), then the index. */
  function CheckpointIndex(l2: int, start: nat, interval: nat): (r: Result<nat>)
    ensures l2 < start + interval ==> r == Err(PlainError(BelowFirstOutputRoot))
    ensures l2 >= start + interval && interval == 0 ==> r == Err(Fault(DivisionByZero))
    ensures l2 >= start + interval && interval > 0 && (l2 - start) % interval != 0 ==>
      r == Err(PlainError(NotMultipleOfInterval(interval)))
    ensures r.Ok? <==> l2 >= start + interval && interval > 0 && (l2 - start) % interval == 0
    ensures r.Ok? ==> start + (r.value + 1) * interval == l2
  {
    if l2 < start + interval then Err(PlainError(BelowFirstOutputRoot))
    else if interval == 0 then Err(Fault(DivisionByZero))
    else if (l2 - start) % interval != 0 then Err(PlainError(NotMultipleOfInterval(interval)))
    else
      var q := (l2 - start) / interval;
      assert q >= 1;
      Ok(q - 1)
  }

  /** Every index is reached: the block of output root `index` maps back to it. */
  lemma CheckpointIndexRoundTrip(start: nat, interval: nat, index: nat)
    requires interval > 0
    ensures CheckpointIndex(start + (index + 1) * interval, start, interval) == Ok(index)
  {
    MultipleDivides(index + 1, interval);
  }

  lemma MultipleDivides(m: nat, d: nat)
    requires d > 0
    ensures (m * d) % d == 0 && (m * d) / d == m
  {
    var x := m * d;
    var q, r := x / d, x % d;
    assert (m - q) * d == r;
    if m > q {
      ProductAtLeastFactor(m - q, d);
    } else if m < q {
      ProductAtLeastFactor(q - m, d);
    }
  }

  lemma ProductAtLeastFactor(k: int, d: nat)
    requires k >= 1
    ensures k * d >= d
  {
  }

  /** The two storage slots of output root `index` in the oracle's array of
      two-slot structs stored at `base`: the root first, then its timestamps.
      The source hashes `base` as `OUTPUT_ROOTS_BASE_SLOT` returns it, without
      the ABI encoding of the dynamic-array helper. The model assumes that value
      is a 32-byte word, so that `keccak([base])` is the same hash either way. */
  function OutputRootSlots(keccak: seq<int> -> int, base: int, index: nat): (slots: seq<int>)
    ensures |slots| == 2
    ensures slots[0] == StorageSlots.DynamicArrayElemSlot(keccak, base, index, 2)
    ensures slots[1] == StorageSlots.StructFieldSlot(slots[0], 1)
  {
    var slot := keccak([base]) + index * 2;
    [slot, slot + 1]
  }

  /** Different output roots never share a storage slot. */
  lemma OutputRootSlotsDisjoint(keccak: seq<int> -> int, base: int, i: nat, j: nat)
    requires i != j
    ensures forall a, b :: 0 <= a < 2 && 0 <= b < 2 ==> OutputRootSlots(keccak, base, i)[a] != OutputRootSlots(keccak, base, j)[b]
  {
    forall a, b | 0 <= a < 2 && 0 <= b < 2
      ensures OutputRootSlots(keccak, base, i)[a] != OutputRootSlots(keccak, base, j)[b]
    {
      StorageSlots.StaticArrayElementsDisjoint(keccak([base]), i, j, 2, a, b);
    }
  }

  /** With only the first of two slots checked, the first failure is a
      mismatch of the first slot's value. */
  lemma FirstOutputRootMismatch(values: seq<int>, expected: seq<Option<int>>, e: Error)
    requires |values| == 2 && |expected| == 2 && expected[0].Some? && expected[1].None?
    requires MultiStorage.IsFirstFailure(values, expected, e)
    ensures values[0] != expected[0].value && e == SlotValueMismatch(values[0], expected[0].value)
  {
    var i :| 0 <= i < |expected| && !MultiStorage.ExpectedHolds(values, expected, i)
      && (forall k :: 0 <= k < i ==> MultiStorage.ExpectedHolds(values, expected, k))
      && e == MultiStorage.ExpectedFailure(values, expected, i);
    assert i == 0;
  }

  /** What the storage proof of an output root's two slots comes to, given the
      account proof `acc` and the two fetched slot proofs: a SlotValueMismatch
      when the first slot does not hold `hash`, else the RLP fault when a proof
      does not split, else the account proof's fields with the compression of
      the two slot proofs. */
  ghost predicate OutputRootProves(
    itemLength: MultiStorage.Bytes -> int, acc: MultiStorage.AccountProof, fetched: seq<MultiStorage.StorageSlotProof>,
    hash: int, r: Result<MultiStorage.MultiStorageProof>)
    requires |fetched| == 2
  {
    var split := MultiStorage.SplitAll(itemLength, MultiStorage.SlotProofBytes(fetched));
    && (fetched[0].slotValue != hash ==> r == Err(SlotValueMismatch(fetched[0].slotValue, hash)))
    && (fetched[0].slotValue == hash && split.Err? ==> r == Err(split.error))
    && (r.Ok? <==> fetched[0].slotValue == hash && split.Ok?)
    && (r.Ok? ==>
          var out := r.value;
          && out.account == acc.account && out.accountProof == acc.accountProof
          && out.header == acc.header && out.blockProof == acc.blockProof
          && out.proofNodes == MultiStorage.NodeSet(split.value)
          && out.slotProofs == MultiStorage.Compress(out.proofNodes, split.value)
          && MultiStorage.Decompresses(fetched, MultiStorage.Compressed(out.proofNodes, out.slotProofs)))
  }

  /** The `getProofData` call of `importBlockhashFromOutputRoot`: both slots of
      the root, with the header, the first expected to hold `hash`. */
  method ProveOutputRoot(
    itemLength: MultiStorage.Bytes -> int, acc: MultiStorage.AccountProof,
    fetchSlot: int -> MultiStorage.StorageSlotProof, block: int, account: string, slots: seq<int>, hash: int)
    returns (r: Result<MultiStorage.MultiStorageProof>)
    requires |slots| == 2
    ensures OutputRootProves(itemLength, acc, [fetchSlot(slots[0]), fetchSlot(slots[1])], hash, r)
    ensures r.Ok? ==> r.value.slots == slots && r.value.includeHeader
  {
    var expected := [Some(hash), None];
    var params := MultiStorage.MultiStorageSlotParams(block, account, Some(true), slots, Some(expected));
    var data := MultiStorage.GetProofData(itemLength, acc, fetchSlot, params);
    ghost var fetched := [fetchSlot(slots[0]), fetchSlot(slots[1])];
    assert MultiStorage.FetchAll(fetchSlot, slots) == fetched;
    ghost var values := MultiStorage.SlotValues(fetched);
    assert MultiStorage.ExpectedHolds(values, expected, 1);
    if fetchSlot(slots[0]).slotValue != hash {
      assert !MultiStorage.ExpectedHolds(values, expected, 0);
      FirstOutputRootMismatch(values, expected, data.error);
      return Err(data.error);
    }
    assert MultiStorage.ExpectedHolds(values, expected, 0);
    if data.Err? {
      return Err(data.error);
    }
    return Ok(data.value.proof);
  }

  /** A native L2 deployment, the only one commitRecent and
      importBlockhashFromOutputRoot accept, uses the Optimism-native ABI. */
  lemma NativeL2UsesOptimismNativeAbi(chainId: int)
    requires IsL2ChainId(chainId)
    ensures GetAbi(chainId, chainId) == OptimismNativeAbi
  {
    FamiliesDisjoint(chainId);
  }

  // ---------------------------------------------------------------------
  // The BlockHistory object

  datatype CommitRecentTx = CommitRecentTx(blockNum: int)

  /** The output root an accepted L2 block is imported from: its index in the
      oracle, and the L1 block the storage proof is taken at. */
  datatype Checkpoint = Checkpoint(index: nat, block: int)

  /** The L2OutputOracle contract on L1, as its view functions answer. */
  datatype OutputOracle = OutputOracle(
    address: string, submissionInterval: nat, startingBlockNumber: nat, finalizationPeriod: nat,
    submissionTimestamp: int -> int)

  /** The client for the L1 that `fromProviders` builds from the L1 provider:
      its data chain, its BlockHistory contract's logs, its chain's block
      timestamps, and the proofs its API serves. */
  datatype ProxyClient = ProxyClient(
    dataChainId: int, history: Chain, l1Timestamps: seq<int>,
    accountProof: (int, string) -> MultiStorage.AccountProof,
    storageSlotProof: (int, string, int) -> MultiStorage.StorageSlotProof)

  /** The arguments of `importCheckpointBlockFromL1`, in order. */
  datatype ImportCheckpointTx = ImportCheckpointTx(
    proof: MultiStorage.MultiStorageProof, index: nat, block: int, outputRootProof: seq<int>)

  /** A block proof the provers pass around; only `blockProof` is ever replaced. */
  class BlockProof {
    var blockNum: int
    var header: string
    var blockProof: string

    constructor (blockNum: int, header: string, blockProof: string)
      ensures this.blockNum == blockNum && this.header == header && this.blockProof == blockProof
    {
      this.blockNum := blockNum;
      this.header := header;
      this.blockProof := blockProof;
    }
  }

  class BlockHistory {
    const chainId: int
    const dataChainId: int
    const abi: Abi
    /** The contract and its logs, fixed for the object's lifetime. */
    const chain: Chain
    /** keccak256 of a block header. */
    const headerHash: string -> string
    var merkleRootCache: map<int, string>
    var trustedCache: map<int, string>
    /** The chunks whose import logs were queried, and the (block, hash) pairs
        sent to `validBlockHash`, in call order. */
    ghost var rootQueries: seq<int>
    ghost var trustQueries: seq<(int, string)>

    ghost predicate Valid()
      reads this
    {
      RootCacheSound(chain, merkleRootCache) && TrustCacheSound(chain, trustedCache)
    }

    constructor (chainId: int, dataChainId: int, chain: Chain, headerHash: string -> string)
      ensures Valid()
      ensures this.chainId == chainId && this.dataChainId == dataChainId && abi == GetAbi(chainId, dataChainId)
      ensures this.chain == chain && this.headerHash == headerHash
      ensures merkleRootCache == map[] && trustedCache == map[] && rootQueries == [] && trustQueries == []
    {
      this.chainId := chainId;
      this.dataChainId := dataChainId;
      abi := GetAbi(chainId, dataChainId);
      this.chain := chain;
      this.headerHash := headerHash;
      merkleRootCache := map[];
      trustedCache := map[];
      rootQueries := [];
      trustQueries := [];
    }

    method MerkleRootForBlock(blockNum: int) returns (root: Result<Option<string>>)
      requires Valid()
      modifies this
      ensures Valid()
      ensures var out := MerkleRootStep(chain, old(merkleRootCache), blockNum);
        && root == out.root && merkleRootCache == out.cache
        && rootQueries == old(rootQueries) + (if out.queried then [BlockNumberToChunk(blockNum)] else [])
      ensures trustedCache == old(trustedCache) && trustQueries == old(trustQueries)
    {
      var chunk := BlockNumberToChunk(blockNum);
      if chunk in merkleRootCache && merkleRootCache[chunk] != "" {
        return Ok(Some(merkleRootCache[chunk]));
      }
      rootQueries := rootQueries + [chunk];
      if !chain.hasImportMerkleRoot {
        return Err(Fault(NoImportFilter));
      }
      var logs := RootLogs(chain.importLogs, chunk, blockNum);
      if |logs| == 0 {
        return Ok(None);
      }
      var r := RootText(logs[|logs| - 1].data);
      merkleRootCache := merkleRootCache[chunk := r];
      return Ok(Some(r));
    }

    method IsTrustedHash(blockNum: int, blockHash: string) returns (trusted: bool)
      requires Valid()
      modifies this
      ensures Valid()
      ensures var out := TrustedStep(chain, old(trustedCache), blockNum, blockHash);
        && trusted == out.trusted && trustedCache == out.cache
        && trustQueries == old(trustQueries) + (if out.queried then [(blockNum, blockHash)] else [])
      ensures merkleRootCache == old(merkleRootCache) && rootQueries == old(rootQueries)
    {
      if !chain.hasTrustedBlockHash {
        return false;
      }
      if blockNum in trustedCache && trustedCache[blockNum] == blockHash {
        return true;
      }
      trustQueries := trustQueries + [(blockNum, blockHash)];
      trusted := chain.validBlockHash(blockNum, blockHash);
      if trusted {
        trustedCache := trustedCache[blockNum := blockHash];
      }
    }

    /** `canVerifyBlock` for the header `(number, hash)` the data provider returns.
        Both lookups run, as `Promise.all` starts both; a failed root lookup
        fails the call. */
    method CanVerifyBlock(number: int, hash: string) returns (r: Result<bool>)
      requires Valid()
      modifies this
      ensures Valid()
      ensures var root := MerkleRootStep(chain, old(merkleRootCache), number);
        var t := TrustedStep(chain, old(trustedCache), number, hash);
        && r == CanVerifyOutcome(root.root, t.trusted)
        && merkleRootCache == root.cache && trustedCache == t.cache
        && rootQueries == old(rootQueries) + (if root.queried then [BlockNumberToChunk(number)] else [])
        && trustQueries == old(trustQueries) + (if t.queried then [(number, hash)] else [])
    {
      var root := MerkleRootForBlock(number);
      var trusted := IsTrustedHash(number, hash);
      if root.Err? {
        return Err(root.error);
      }
      return Ok(root.value.Some? || trusted);
    }

    method EnsureValidProof(proof: BlockProof) returns (r: Outcome)
      requires Valid()
      modifies this, proof
      ensures Valid()
      ensures proof.blockNum == old(proof.blockNum) && proof.header == old(proof.header)
      ensures var number, hash := old(proof.blockNum), headerHash(old(proof.header));
        var out := EnsureValidStep(chain, chainId, old(merkleRootCache), old(trustedCache), number, hash, old(proof.blockProof));
        var root := MerkleRootStep(chain, old(merkleRootCache), number);
        var t := TrustedStep(chain, old(trustedCache), number, hash);
        && r == out.outcome && proof.blockProof == out.blockProof
        && merkleRootCache == out.rootCache && trustedCache == out.trustCache
        && rootQueries == old(rootQueries) + (if root.queried then [BlockNumberToChunk(number)] else [])
        && trustQueries == old(trustQueries) + (if root.root == Ok(None) && t.queried then [(number, hash)] else [])
    {
      var number := proof.blockNum;
      var hash := headerHash(proof.header);
      var root := MerkleRootForBlock(number);
      if root.Err? {
        return Fail(root.error);
      }
      if root.value.Some? {
        return Pass;
      }
      var trusted := IsTrustedHash(number, hash);
      if trusted {
        proof.blockProof := TrustedHashProof;
        return Pass;
      }
      return Fail(BlockNotVerifiable(number, chainId));
    }

    /** `commitRecent`: only a native L2 deployment can commit a recent block. */
    function CommitRecent(blockNum: int): (r: Result<CommitRecentTx>)
      ensures r.Ok? <==> chainId == dataChainId && IsL2ChainId(chainId)
      ensures r.Err? ==> r.error == NotNativeL2(chainId, dataChainId)
      ensures r.Ok? ==> r.value == CommitRecentTx(blockNum)
    {
      if chainId != dataChainId || !IsL2ChainId(chainId) then Err(NotNativeL2(chainId, dataChainId))
      else Ok(CommitRecentTx(blockNum))
    }

    /** The checks of `importBlockhashFromOutputRoot` before any proof is
        fetched, in the source's order: a native L2 deployment, a proxy client
        for an L1, an L2 block that has a stored output root, an available last
        verifiable L1 block (`getLastVerifiableBlock` as written), and an output
        root that is final at that block. The result is the root's index and
        that L1 block. */
    function CheckpointFor(l2BlockNumber: int, proxy: Result<ProxyClient>, oracle: OutputOracle): (r: Result<Checkpoint>)
      ensures !(chainId == dataChainId && IsL2ChainId(chainId)) ==> r == Err(NotNativeL2(chainId, dataChainId))
      ensures chainId == dataChainId && IsL2ChainId(chainId) && proxy.Err? ==> r == Err(proxy.error)
      ensures chainId == dataChainId && IsL2ChainId(chainId) && proxy.Ok? && IsL2ChainId(proxy.value.dataChainId) ==>
        r == Err(NotL1Network(proxy.value.dataChainId))
      ensures chainId == dataChainId && IsL2ChainId(chainId) && proxy.Ok? && !IsL2ChainId(proxy.value.dataChainId) ==>
        var idx := CheckpointIndex(l2BlockNumber, oracle.startingBlockNumber, oracle.submissionInterval);
        var block := LastVerifiableBlockAsWritten(proxy.value.history);
        && (idx.Err? ==> r == Err(idx.error))
        && (idx.Ok? && 0 <= block < |proxy.value.l1Timestamps|
              && oracle.submissionTimestamp(idx.value) + oracle.finalizationPeriod > proxy.value.l1Timestamps[block] ==>
              r == Err(PlainError(NotFinalized)))
        && (idx.Ok? && 0 <= block < |proxy.value.l1Timestamps|
              && oracle.submissionTimestamp(idx.value) + oracle.finalizationPeriod <= proxy.value.l1Timestamps[block] ==>
              r == Ok(Checkpoint(idx.value, block)))
      ensures r.Ok? ==>
        && chainId == dataChainId && IsL2ChainId(chainId) && proxy.Ok? && !IsL2ChainId(proxy.value.dataChainId)
        && var p, cp := proxy.value, r.value;
        && CheckpointIndex(l2BlockNumber, oracle.startingBlockNumber, oracle.submissionInterval) == Ok(cp.index)
        && oracle.startingBlockNumber + (cp.index + 1) * oracle.submissionInterval == l2BlockNumber
        && cp.block == LastVerifiableBlockAsWritten(p.history) && 0 <= cp.block < |p.l1Timestamps|
        && oracle.submissionTimestamp(cp.index) + oracle.finalizationPeriod <= p.l1Timestamps[cp.block]
    {
      if chainId != dataChainId || !IsL2ChainId(chainId) then Err(NotNativeL2(chainId, dataChainId))
      else if proxy.Err? then Err(proxy.error)
      else if IsL2ChainId(proxy.value.dataChainId) then Err(NotL1Network(proxy.value.dataChainId))
      else
        var p := proxy.value;
        var block := LastVerifiableBlockAsWritten(p.history);
        var idx := CheckpointIndex(l2BlockNumber, oracle.startingBlockNumber, oracle.submissionInterval);
        if idx.Err? then Err(idx.error)
        // The model stops here. For a block past the head `getBlock` yields null
        // and reading its timestamp throws; for block -1 (no mechanism has logs)
        // ethers reads the tag as an offset from the head, and the source fails
        // later instead.
        else if !(0 <= block < |p.l1Timestamps|) then Err(Fault(BlockUnavailable))
        else if oracle.submissionTimestamp(idx.value) + oracle.finalizationPeriod > p.l1Timestamps[block] then
          Err(PlainError(NotFinalized))
        else Ok(Checkpoint(idx.value, block))
    }

    /** `importBlockhashFromOutputRoot`: the transaction that imports L2 block
        `l2BlockNumber` from the output root the L1 oracle stored for it. `proxy`
        is what `fromProviders` built for the L1 provider, or its error; the
        output-root proof of an L2 block and its hash are the parameters
        `outputRootProofAt` and `hashOutputRootProof`. Once the checks pass, the
        transaction carries the root's index, the last verifiable L1 block, and a
        storage proof of the root's two slots in the oracle's storage, taken with
        the header, whose first slot holds the hash of the output-root proof. The
        batch is refused with a SlotValueMismatch when the first slot holds
        anything else, and with the RLP fault when a slot proof does not split;
        otherwise the proof is the compression of the two fetched slot proofs. */
    method ImportBlockhashFromOutputRoot(
      l2BlockNumber: int, proxy: Result<ProxyClient>, oracle: OutputOracle, baseSlot: int,
      keccak: seq<int> -> int, itemLength: MultiStorage.Bytes -> int,
      outputRootProofAt: int -> seq<int>, hashOutputRootProof: seq<int> -> int)
      returns (r: Result<ImportCheckpointTx>)
      ensures var cp := CheckpointFor(l2BlockNumber, proxy, oracle);
        && (cp.Err? ==> r == Err(cp.error))
        && (r.Ok? ==>
              && cp.Ok? && proxy.Ok?
              && var p, tx := proxy.value, r.value;
              && tx.index == cp.value.index && tx.block == cp.value.block
              && tx.outputRootProof == outputRootProofAt(l2BlockNumber)
              && tx.proof.slots == OutputRootSlots(keccak, baseSlot, tx.index)
              && tx.proof.includeHeader
              && p.storageSlotProof(tx.block, oracle.address, tx.proof.slots[0]).slotValue
                 == hashOutputRootProof(tx.outputRootProof))
      ensures CheckpointFor(l2BlockNumber, proxy, oracle).Ok? ==>
        var p, cp := proxy.value, CheckpointFor(l2BlockNumber, proxy, oracle).value;
        var slots := OutputRootSlots(keccak, baseSlot, cp.index);
        var fetched := [p.storageSlotProof(cp.block, oracle.address, slots[0]),
                        p.storageSlotProof(cp.block, oracle.address, slots[1])];
        var proof := if r.Ok? then Ok(r.value.proof) else Err(r.error);
        OutputRootProves(itemLength, p.accountProof(cp.block, oracle.address), fetched,
          hashOutputRootProof(outputRootProofAt(l2BlockNumber)), proof)
    {
      var cp := CheckpointFor(l2BlockNumber, proxy, oracle);
      if cp.Err? {
        return Err(cp.error);
      }
      var p, index, block := proxy.value, cp.value.index, cp.value.block;
      var outputRootProof := outputRootProofAt(l2BlockNumber);
      var slots := OutputRootSlots(keccak, baseSlot, index);
      var fetchSlot := (s: int) => p.storageSlotProof(block, oracle.address, s);
      var proof := ProveOutputRoot(
        itemLength, p.accountProof(block, oracle.address), fetchSlot, block, oracle.address, slots,
        hashOutputRootProof(outputRootProof));
      if proof.Err? {
        return Err(proof.error);
      }
      return Ok(ImportCheckpointTx(proof.value, index, block, outputRootProof));
    }
  }
}
