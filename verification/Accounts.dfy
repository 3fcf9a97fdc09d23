/** The accounts of the revenue distribution program as values, and the constants they depend on. */
module Accounts {
  import opened Units
  import opened Bitmaps
  import opened BurnRates
  import opened Rewards

  // ---------------------------------------------------------------- rent and account sizes

  const LAMPORTS_PER_BYTE: nat := 6960
  const STORAGE_OVERHEAD: nat := 128
  const DISTRIBUTION_DATA_END: nat := 8 + 448
  const DEPOSIT_DATA_END: nat := 8 + 96
  const JOURNAL_DATA_LEN: nat := 10_240

  /** The most one instruction may grow an account by. */
  const MAX_DATA_INCREASE: nat := 10_240

  function MinimumBalance(dataLen: nat): nat {
    (STORAGE_OVERHEAD + dataLen) * LAMPORTS_PER_BYTE
  }

  // ---------------------------------------------------------------- Merkle commitments

  datatype DebtLeaf = DebtLeaf(node: Pubkey, amount: u64)

  /**
   * A Merkle root as the binding commitment it stands for: at most one debt leaf and one reward leaf
   * per index. No leaf is committed under the all-zero root.
   */
  datatype Hash = NullHash | Digest(debts: map<nat, DebtLeaf>, shares: map<nat, RewardShare>)

  function Debts(root: Hash): map<nat, DebtLeaf> {
    if root.Digest? then root.debts else map[]
  }

  function Shares(root: Hash): map<nat, RewardShare> {
    if root.Digest? then root.shares else map[]
  }

  /** A proof names a leaf index (indexed trees only); a genuine one leads from the committed leaf to the root. */
  datatype MerkleProof = MerkleProof(leafIndex: Option<u32>, genuine: bool)

  predicate VerifiesDebt(root: Hash, proof: MerkleProof, leaf: DebtLeaf) {
    && proof.leafIndex.Some?
    && proof.genuine
    && proof.leafIndex.value in Debts(root)
    && Debts(root)[proof.leafIndex.value] == leaf
  }

  predicate VerifiesShare(root: Hash, proof: MerkleProof, leaf: RewardShare) {
    && proof.leafIndex.Some?
    && proof.genuine
    && proof.leafIndex.value in Shares(root)
    && Shares(root)[proof.leafIndex.value] == leaf
  }

  // ---------------------------------------------------------------- account data

  datatype FeeParameters = FeeParameters(
    baseBlock: UnitShare16, priorityBlock: UnitShare16, inflation: UnitShare16, jitoTips: UnitShare16, fixedSol: u32)

  const NO_FEES: FeeParameters := FeeParameters(0, 0, 0, 0, 0)

  datatype ProgramConfig = ProgramConfig(
    isPaused: bool,
    nextEpoch: u64,
    lastTimestamp: u32,
    calculationGraceMinutes: u16,
    initializationGraceMinutes: u16,
    minimumEpochsToFinalize: u16,
    burnParams: BurnParams,
    fees: FeeParameters,
    relayLamports: u32,
    writeOffActivationEpoch: u64,
    swapProgramSet: bool,
    swapDestinationSet: bool)

  function WriteOffActivated(c: ProgramConfig): bool {
    c.writeOffActivationEpoch != 0 && c.nextEpoch >= c.writeOffActivationEpoch
  }

  datatype Journal = Journal(
    integrationsCount: u16,
    totalSol: u64,
    swap2zBalance: u64,
    swappedSol: u64,
    nextSweepEpoch: u64,
    lifetimeSwapped2z: u128)

  datatype Deposit = Deposit(node: Pubkey, writtenOff: u64)

  datatype Distribution = Distribution(
    dzEpoch: u64,
    debtFinalized: bool,
    rewardsFinalized: bool,
    swept: bool,
    writeOffEnabled: bool,
    communityBurnRate: BurnRate,
    fees: FeeParameters,
    debtRoot: Hash,
    totalValidators: u32,
    paymentsCount: u32,
    totalDebt: u64,
    collectedPayments: u64,
    rewardsRoot: Hash,
    totalContributors: u32,
    distributedCount: u32,
    prepaid2z: u64,
    converted2z: u64,
    uncollectibleDebt: u64,
    debtStart: u32,
    debtEnd: u32,
    rewardsStart: u32,
    rewardsEnd: u32,
    relayLamports: u32,
    calculationAllowedTimestamp: u32,
    distributed2z: u64,
    burned2z: u64,
    writeOffStart: u32,
    writeOffEnd: u32,
    writeOffCount: u32,
    economicBurnRate: BurnRate,
    integrationsSnapshot: u16,
    integrationsCollected: u16,
    collectedIntegrations: set<nat>,
    integrations2z: u64)

  /** `checked_total_sol_debt`. */
  function NetDebt(d: Distribution): Option<u64> {
    if d.uncollectibleDebt <= d.totalDebt then Some(d.totalDebt - d.uncollectibleDebt) else None
  }

  /** The 2Z collected for a distribution, before asking whether it fits 64 bits. */
  function Pool(d: Distribution): nat {
    d.prepaid2z + d.converted2z + d.integrations2z
  }

  /** `total_collected_2z_tokens`; None stands for the panic. */
  function TotalCollected(d: Distribution): Option<u64> {
    if Pool(d) < TWO_64 then Some(Pool(d)) else None
  }

  predicate AllIntegrationsCollected(d: Distribution) {
    d.integrationsCollected >= d.integrationsSnapshot
  }

  /** `burn_rate`: the greatest of the contributor's, the epoch's and the community's rate. */
  function EffectiveBurnRate(d: Distribution, contributorRate: BurnRate): (rate: BurnRate)
    ensures contributorRate <= rate && d.economicBurnRate <= rate && d.communityBurnRate <= rate
    ensures rate in {contributorRate, d.economicBurnRate, d.communityBurnRate}
  {
    Max(Max(contributorRate, d.economicBurnRate), d.communityBurnRate)
  }

  predicate AllDebtProcessed(d: Distribution) {
    SatSub32(SatSub32(d.totalValidators, d.paymentsCount), d.writeOffCount) == 0
  }

  predicate AllRewardsDistributed(d: Distribution) {
    SatSub32(d.totalContributors, d.distributedCount) == 0
  }

  predicate CalculationAllowed(d: Distribution, now: int) {
    d.calculationAllowedTimestamp != 0 && now >= d.calculationAllowedTimestamp
  }

  /**
   * A distribution account: its data, the bytes after it, its lamports and the 2Z in its token account.
   * Lamports and tokens are naturals; the fixed supplies keep each below 2^64.
   */
  datatype DistributionState = DistributionState(data: Distribution, remaining: Bytes, lamports: nat, tokens: nat)

  datatype DepositState = DepositState(data: Deposit, lamports: nat)

  datatype JournalState = JournalState(data: Journal, lamports: nat)

  function DataLen(a: DistributionState): nat {
    DISTRIBUTION_DATA_END + |a.remaining|
  }
}
