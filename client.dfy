/** The client object (packages/client/src/client.ts): the default API table,
    resolving a configuration from the two providers' chain IDs, and the
    compute-once getters that pick the block-history and bridge variants.

    The providers are represented by their chain IDs, and the API's `addresses`
    request by the parameter `fetchAddresses`. */
module Client {
  import opened Errors
  import opened Network

  /** The contract addresses the client reads; the remaining prover addresses
      are not part of this model. */
  datatype Addresses = Addresses(reliquary: string, blockHistory: string, legacyBlockHistory: Option<string>)

  datatype RelicConfig = RelicConfig(apiUrl: string, addresses: Addresses)

  /** `Partial<RelicConfig>`. */
  datatype ConfigOverride = ConfigOverride(apiUrl: Option<string>, addresses: Option<Addresses>)

  const MainnetApi: string := "https://api.mainnet.relicprotocol.com/v1"
  const SepoliaApi: string := "https://api.sepolia.relicprotocol.com/v1"

  /** `defaultAPI`: chain ID -> data chain ID -> API URL. The Base Sepolia entry
      lists its own API under 8453, the Base mainnet ID, as the source does. */
  const DefaultApi: map<int, map<int, string>> := map[
    EthMainnet := map[EthMainnet := MainnetApi],
    EthSepolia := map[EthSepolia := SepoliaApi],
    ZkSyncMainnet := map[EthMainnet := MainnetApi],
    ZkSyncSepolia := map[EthSepolia := SepoliaApi],
    OpMainnet := map[EthMainnet := MainnetApi, OpMainnet := "https://api.optimism-mainnet.relicprotocol.com/v1"],
    OpSepolia := map[EthSepolia := SepoliaApi, OpSepolia := "https://api.optimism-sepolia.relicprotocol.com/v1"],
    BaseMainnet := map[EthMainnet := MainnetApi, BaseMainnet := "https://api.base-mainnet.relicprotocol.com/v1"],
    BaseSepolia := map[EthSepolia := SepoliaApi, BaseMainnet := "https://api.base-sepolia.relicprotocol.com/v1"]
  ]

  /** The L1 a supported chain settles on: Ethereum mainnet for the mainnets,
      Sepolia for the test networks. */
  function L1Of(chainId: int): (l1: int)
    ensures IsL1ChainId(l1)
  {
    if chainId in {EthSepolia, ZkSyncSepolia, OpSepolia, BaseSepolia} then EthSepolia else EthMainnet
  }

  /** The table covers exactly the eight known chains, and each of them can read
      data from its own L1 through the L1's API. */
  lemma DefaultApiCoversL1(chainId: int)
    ensures chainId in DefaultApi <==> IsL1ChainId(chainId) || IsL2ChainId(chainId)
    ensures chainId in DefaultApi ==>
      && L1Of(chainId) in DefaultApi[chainId]
      && DefaultApi[chainId][L1Of(chainId)] == (if L1Of(chainId) == EthMainnet then MainnetApi else SepoliaApi)
  {
  }

  /** The data chains each table entry accepts: its L1, for the Optimism-family
      chains also their own ID, except Base Sepolia whose second key is 8453. */
  lemma DefaultApiDataChains()
    ensures DefaultApi[EthMainnet].Keys == {EthMainnet}
    ensures DefaultApi[EthSepolia].Keys == {EthSepolia}
    ensures DefaultApi[ZkSyncMainnet].Keys == {EthMainnet}
    ensures DefaultApi[ZkSyncSepolia].Keys == {EthSepolia}
    ensures DefaultApi[OpMainnet].Keys == {EthMainnet, OpMainnet}
    ensures DefaultApi[OpSepolia].Keys == {EthSepolia, OpSepolia}
    ensures DefaultApi[BaseMainnet].Keys == {EthMainnet, BaseMainnet}
    ensures DefaultApi[BaseSepolia].Keys == {EthSepolia, BaseMainnet}
    ensures BaseSepolia !in DefaultApi[BaseSepolia]
  {
  }

  /** `configOverride?.apiUrl`, when it is truthy: defined and non-empty. */
  function OverrideUrl(configOverride: Option<ConfigOverride>): (url: Option<string>)
    ensures url.Some? ==> url.value != ""
    ensures url.Some? <==> configOverride.Some? && configOverride.value.apiUrl.Some? && configOverride.value.apiUrl.value != ""
  {
    if configOverride.Some? && configOverride.value.apiUrl.Some? && configOverride.value.apiUrl.value != "" then
      Some(configOverride.value.apiUrl.value)
    else None
  }

  datatype ClientConfig = ClientConfig(chainId: int, dataChainId: int, config: RelicConfig)

  /** `fromProviders`, for providers on `chainId` and `dataChainId`. An unknown
      chain is refused first. The API URL is a non-empty override, else the
      table's URL for the data chain; without either the data provider is
      refused, listing the data chains the table has for the chain. The
      addresses are the override's, else what the API answers for the chain. */
  function FromProviders(
    chainId: int, dataChainId: int, configOverride: Option<ConfigOverride>, fetchAddresses: (string, int) -> Addresses)
    : (r: Result<ClientConfig>)
    ensures chainId !in DefaultApi ==> r == Err(UnsupportedNetwork)
    ensures chainId in DefaultApi ==>
      && (r.Err? <==> OverrideUrl(configOverride).None? && dataChainId !in DefaultApi[chainId])
      && (r.Err? ==> r.error == InvalidDataProvider(chainId, DefaultApi[chainId].Keys))
    ensures r.Ok? ==>
      var c := r.value;
      && c.chainId == chainId && c.dataChainId == dataChainId
      && c.config.apiUrl == (if OverrideUrl(configOverride).Some? then OverrideUrl(configOverride).value else DefaultApi[chainId][dataChainId])
      && c.config.addresses == (
           if configOverride.Some? && configOverride.value.addresses.Some? then configOverride.value.addresses.value
           else fetchAddresses(c.config.apiUrl, chainId))
  {
    if chainId !in DefaultApi then Err(UnsupportedNetwork)
    else
      var defaults := DefaultApi[chainId];
      var url := OverrideUrl(configOverride);
      if url.None? && dataChainId !in defaults then Err(InvalidDataProvider(chainId, defaults.Keys))
      else
        var apiUrl := if url.Some? then url.value else defaults[dataChainId];
        var addresses :=
          if configOverride.Some? && configOverride.value.addresses.Some? then configOverride.value.addresses.value
          else fetchAddresses(apiUrl, chainId);
        Ok(ClientConfig(chainId, dataChainId, RelicConfig(apiUrl, addresses)))
  }

  /** `fromProvider`: one provider serves both roles, so a client built this way
      reads data from its own chain; that works exactly for the chains whose
      table entry lists themselves, unless an API URL is given. */
  function FromProvider(chainId: int, configOverride: Option<ConfigOverride>, fetchAddresses: (string, int) -> Addresses)
    : (r: Result<ClientConfig>)
    ensures r.Ok? ==> r.value.dataChainId == r.value.chainId == chainId
    ensures OverrideUrl(configOverride).None? ==>
      (r.Ok? <==> chainId in {EthMainnet, EthSepolia, OpMainnet, OpSepolia, BaseMainnet})
  {
    FromProviders(chainId, chainId, configOverride, fetchAddresses)
  }

  /** Without an API URL override, an L2 client whose data provider is its L1
      always resolves, to the same API as a client of the L1 itself. */
  lemma L2ClientReadsItsL1(chainId: int, configOverride: Option<ConfigOverride>, fetchAddresses: (string, int) -> Addresses)
    requires IsL2ChainId(chainId) && OverrideUrl(configOverride).None?
    ensures FromProviders(chainId, L1Of(chainId), configOverride, fetchAddresses).Ok?
    ensures FromProviders(chainId, L1Of(chainId), configOverride, fetchAddresses).value.config.apiUrl
      == DefaultApi[L1Of(chainId)][L1Of(chainId)]
  {
    DefaultApiCoversL1(chainId);
    DefaultApiCoversL1(L1Of(chainId));
  }

  // ---------------------------------------------------------------------
  // The memoized getters

  datatype ProverName =
    | AccountInfo | AccountStorage | Attendance | BirthCertificate | BlockHeader
    | CachedMultiStorageSlot | CachedStorageSlot | Log | MultiStorageSlot | StorageSlot
    | Transaction | Withdrawal

  datatype Getter = ReliquaryGetter | BlockHistoryGetter | BridgeGetter | ProverGetter(prover: ProverName)

  /** The class a getter instantiates. */
  datatype Variant =
    | ReliquaryImpl
    | BeaconBlockHistoryImpl
    | BlockHistoryImpl
    | ZkSyncBridgeImpl
    | OptimismBridgeImpl
    | ProverImpl(prover: ProverName)

  /** `blockHistory`: the beacon variant when a (truthy) legacy block history
      address is configured. */
  function SelectBlockHistory(addresses: Addresses): (v: Variant)
    ensures v == BeaconBlockHistoryImpl <==> addresses.legacyBlockHistory.Some? && addresses.legacyBlockHistory.value != ""
    ensures v == BeaconBlockHistoryImpl || v == BlockHistoryImpl
  {
    if addresses.legacyBlockHistory.Some? && addresses.legacyBlockHistory.value != "" then BeaconBlockHistoryImpl
    else BlockHistoryImpl
  }

  /** `bridge`: a zkSync chain or an Optimism-family chain that reads non-L2
      data gets its family's bridge; anything else has none. */
  function SelectBridge(chainId: int, dataChainId: int): (r: Result<Variant>)
    ensures r == Ok(ZkSyncBridgeImpl) <==> IsZkSyncChainId(chainId) && !IsL2ChainId(dataChainId)
    ensures r == Ok(OptimismBridgeImpl) <==> IsOptimismChainId(chainId) && !IsL2ChainId(dataChainId)
    ensures r.Err? <==> !IsL2ChainId(chainId) || IsL2ChainId(dataChainId)
    ensures r.Err? ==> r.error == NoBridger(chainId, dataChainId)
  {
    if IsZkSyncChainId(chainId) && !IsL2ChainId(dataChainId) then Ok(ZkSyncBridgeImpl)
    else if IsOptimismChainId(chainId) && !IsL2ChainId(dataChainId) then Ok(OptimismBridgeImpl)
    else Err(NoBridger(chainId, dataChainId))
  }

  /** What a getter constructs for a client; only the bridge can fail. */
  function Construct(g: Getter, chainId: int, dataChainId: int, addresses: Addresses): (r: Result<Variant>)
    ensures r.Err? <==> g == BridgeGetter && SelectBridge(chainId, dataChainId).Err?
    ensures g.ProverGetter? ==> r == Ok(ProverImpl(g.prover))
  {
    match g
    case ReliquaryGetter => Ok(ReliquaryImpl)
    case BlockHistoryGetter => Ok(SelectBlockHistory(addresses))
    case BridgeGetter => SelectBridge(chainId, dataChainId)
    case ProverGetter(p) => Ok(ProverImpl(p))
  }

  /** Every supported L2 whose client reads its L1 has a bridge. */
  lemma L2ReadingL1HasBridge(chainId: int, addresses: Addresses)
    requires IsL2ChainId(chainId)
    ensures Construct(BridgeGetter, chainId, L1Of(chainId), addresses).Ok?
  {
    FamiliesDisjoint(L1Of(chainId));
  }

  /** An object a getter returns. */
  class Instance {
    const variant: Variant

    constructor (variant: Variant)
      ensures this.variant == variant
    {
      this.variant := variant;
    }
  }

  class RelicClient {
    const chainId: int
    const dataChainId: int
    const config: RelicConfig
    /** The instances the `@Memoize` getters have built so far. */
    var memo: map<Getter, Instance>

    ghost predicate Valid()
      reads this, memo.Values
    {
      forall g :: g in memo ==> Construct(g, chainId, dataChainId, config.addresses) == Ok(memo[g].variant)
    }

    constructor (c: ClientConfig)
      ensures Valid()
      ensures chainId == c.chainId && dataChainId == c.dataChainId && config == c.config && memo == map[]
    {
      chainId := c.chainId;
      dataChainId := c.dataChainId;
      config := c.config;
      memo := map[];
    }

    /** Reading getter `g`: the first successful read constructs a new instance
        and remembers it; later reads return that same instance. A getter that
        throws remembers nothing and throws again on the next read. */
    method Get(g: Getter) returns (r: Result<Instance>)
      requires Valid()
      modifies this
      ensures Valid()
      ensures g in old(memo) ==> r == Ok(old(memo)[g]) && memo == old(memo)
      ensures g !in old(memo) ==>
        match Construct(g, chainId, dataChainId, config.addresses)
        case Err(e) => r == Err(e) && memo == old(memo)
        case Ok(v) => r.Ok? && fresh(r.value) && r.value.variant == v && memo == old(memo)[g := r.value]
    {
      if g in memo {
        return Ok(memo[g]);
      }
      var v := Construct(g, chainId, dataChainId, config.addresses);
      if v.Err? {
        return Err(v.error);
      }
      var instance := new Instance(v.value);
      memo := memo[g := instance];
      return Ok(instance);
    }

    /** Two reads of the same getter give the same object, or the same error. */
    method GetTwice(g: Getter) returns (first: Result<Instance>, second: Result<Instance>)
      requires Valid()
      modifies this
      ensures Valid()
      ensures first == second
      ensures first.Ok? ==> Construct(g, chainId, dataChainId, config.addresses) == Ok(first.value.variant)
    {
      first := Get(g);
      second := Get(g);
    }
  }
}
