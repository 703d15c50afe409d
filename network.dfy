/** Chain identifiers, their classification into L1 and L2 families, and the
    beacon-chain slot <-> timestamp conversion (packages/client/src/utils/network.ts). */
module Network {
  import opened Errors

  const EthMainnet: int := 1
  const EthSepolia: int := 11155111
  const ZkSyncMainnet: int := 324
  const ZkSyncSepolia: int := 300
  const OpMainnet: int := 10
  const OpSepolia: int := 11155420
  const BaseMainnet: int := 8453
  const BaseSepolia: int := 84532

  const TimePerSlot: int := 12

  predicate IsL1ChainId(chainId: int) {
    chainId == EthMainnet || chainId == EthSepolia
  }

  predicate IsZkSyncChainId(chainId: int) {
    chainId == ZkSyncMainnet || chainId == ZkSyncSepolia
  }

  predicate IsOptimismChainId(chainId: int) {
    chainId == OpMainnet || chainId == OpSepolia || chainId == BaseMainnet || chainId == BaseSepolia
  }

  predicate IsL2ChainId(chainId: int) {
    IsZkSyncChainId(chainId) || IsOptimismChainId(chainId)
  }

  predicate IsProxyL2Deployment(chainId: int, dataChainId: int) {
    IsL2ChainId(chainId) && IsL1ChainId(dataChainId)
  }

  /** `BEACON_GENESIS_TIMESTAMP`, defined for the two L1 chains. */
  function GenesisTable(chainId: int): int
    requires IsL1ChainId(chainId)
  {
    if chainId == EthMainnet then 1606824023 else 1655733600
  }

  function BeaconGenesisTimestamp(chainId: int): (r: Result<int>)
    ensures r.Err? <==> !IsL1ChainId(chainId)
    ensures r.Err? ==> r.error == NotL1Network(chainId)
    ensures chainId == EthMainnet ==> r == Ok(1606824023)
    ensures chainId == EthSepolia ==> r == Ok(1655733600)
  {
    if !IsL1ChainId(chainId) then Err(NotL1Network(chainId)) else Ok(GenesisTable(chainId))
  }

  /** The beacon slot whose start time is `timestamp`. The time difference is a
      JavaScript number; its `%` truncates toward zero, but only whether the
      remainder is zero matters here, and that agrees with Dafny's `%`. An exact
      division gives the same quotient under either convention. */
  function TimestampToSlot(timestamp: int, chainId: int): Result<int> {
    if !IsL1ChainId(chainId) then Err(NotL1Network(chainId))
    else
      var timeDiff := timestamp - GenesisTable(chainId);
      if timeDiff % TimePerSlot != 0 then Err(UnexpectedSlotTime(timestamp))
      else Ok(timeDiff / TimePerSlot)
  }

  function SlotToTimestamp(slot: int, chainId: int): Result<int> {
    if !IsL1ChainId(chainId) then Err(NotL1Network(chainId))
    else Ok(GenesisTable(chainId) + TimePerSlot * slot)
  }

  lemma L1ChainIds(c: int)
    ensures IsL1ChainId(c) <==> c in {1, 11155111}
  {
  }

  lemma ZkSyncChainIds(c: int)
    ensures IsZkSyncChainId(c) <==> c in {324, 300}
  {
  }

  lemma OptimismChainIds(c: int)
    ensures IsOptimismChainId(c) <==> c in {10, 11155420, 8453, 84532}
  {
  }

  /** The L2 families are disjoint from L1, and from each other. */
  lemma FamiliesDisjoint(c: int)
    ensures IsL2ChainId(c) ==> !IsL1ChainId(c)
    ensures !(IsZkSyncChainId(c) && IsOptimismChainId(c))
  {
  }

  /** Every conversion refuses a non-L1 chain with NotL1Network. */
  lemma NonL1Rejected(c: int, t: int, s: int)
    requires !IsL1ChainId(c)
    ensures BeaconGenesisTimestamp(c) == Err(NotL1Network(c))
    ensures TimestampToSlot(t, c) == Err(NotL1Network(c))
    ensures SlotToTimestamp(s, c) == Err(NotL1Network(c))
  {
  }

  /** On an L1 chain, `timestampToSlot` fails with UnexpectedSlotTime exactly when
      the time since genesis is not a whole number of 12-second slots. */
  lemma TimestampToSlotFailsIffMisaligned(t: int, c: int)
    requires IsL1ChainId(c)
    ensures TimestampToSlot(t, c).Err? <==> (t - GenesisTable(c)) % 12 != 0
    ensures TimestampToSlot(t, c).Err? ==> TimestampToSlot(t, c).error == UnexpectedSlotTime(t)
  {
  }

  /** A timestamp that converts to a slot converts back to itself. */
  lemma SlotOfTimestampRoundTrip(t: int, c: int)
    requires TimestampToSlot(t, c).Ok?
    ensures SlotToTimestamp(TimestampToSlot(t, c).value, c) == Ok(t)
  {
    var d := t - GenesisTable(c);
    assert d == TimePerSlot * (d / TimePerSlot);
  }

  /** A slot converted to its timestamp converts back to the same slot. */
  lemma TimestampOfSlotRoundTrip(s: int, c: int)
    requires IsL1ChainId(c)
    ensures SlotToTimestamp(s, c).Ok?
    ensures TimestampToSlot(SlotToTimestamp(s, c).value, c) == Ok(s)
  {
    var d := SlotToTimestamp(s, c).value - GenesisTable(c);
    assert d == TimePerSlot * s;
    assert d % TimePerSlot == 0 && d / TimePerSlot == s;
  }
}
