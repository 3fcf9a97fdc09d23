/** What each instruction does to a distribution account, and when it succeeds on it. */
module Distributions {
  import opened Units
  import opened Bitmaps
  import opened Rewards
  import opened Accounts

  function Truncate32(n: nat): u32 {
    if n < TWO_32 then n else n % TWO_32
  }

  function NewDistribution(
    c: ProgramConfig, rate: UnitShare32, allowedTimestamp: u32, snapshot: u16, prepaid: u64, lamports: nat)
    : DistributionState
  {
    DistributionState(
      Distribution(c.nextEpoch, false, false, false, false, rate, c.fees,
                   NullHash, 0, 0, 0, 0, NullHash, 0, 0, prepaid, 0, 0, 0, 0, 0, 0,
                   c.relayLamports, allowedTimestamp, 0, 0, 0, 0, 0, 0, snapshot, 0, {}, 0),
      [], lamports, prepaid)
  }

  // ---------------------------------------------------------------- growth

  /** What a payer adds to keep the account rent exempt after growing it by n bytes. */
  function TopUp(a: DistributionState, n: nat): nat {
    var rent := MinimumBalance(DataLen(a) + n);
    if a.lamports < rent then rent - a.lamports else 0
  }

  function Grown(a: DistributionState, n: nat): DistributionState {
    a.(remaining := a.remaining + Zeros(n), lamports := a.lamports + TopUp(a, n))
  }

  // ---------------------------------------------------------------- debt calculation

  predicate CanConfigureDebt(d: Distribution, now: int) {
    !d.debtFinalized && CalculationAllowed(d, now) && d.fees != NO_FEES
  }

  function ConfiguredDebt(a: DistributionState, validators: u32, debt: u64, root: Hash): DistributionState {
    a.(data := a.data.(totalValidators := validators, totalDebt := debt, debtRoot := root))
  }

  predicate CanFinalizeDebt(d: Distribution, now: int) {
    && !d.debtFinalized
    && CalculationAllowed(d, now)
    && NetDebt(d).Some?
    && (NetDebt(d).value == 0 || BytesFor(d.totalValidators) <= MAX_DATA_INCREASE)
  }

  function FinalizedDebt(a: DistributionState): DistributionState {
    var d := a.data.(debtFinalized := true);
    if NetDebt(d) == Some(0) then
      a.(data := d)
    else
      var n := BytesFor(d.totalValidators);
      var start := Truncate32(|a.remaining|);
      Grown(a, n).(data := d.(debtStart := start, debtEnd := SatAdd32(start, Truncate32(n))))
  }

  // ---------------------------------------------------------------- rewards calculation

  predicate CanConfigureRewards(d: Distribution, now: int) {
    !d.rewardsFinalized && CalculationAllowed(d, now)
  }

  function ConfiguredRewards(a: DistributionState, contributors: u32, root: Hash): DistributionState {
    a.(data := a.data.(totalContributors := contributors, rewardsRoot := root))
  }

  function WithEconomicBurnRate(a: DistributionState, rate: BurnRate): DistributionState {
    a.(data := a.data.(economicBurnRate := rate))
  }

  /** A null rewards root may only be finalized when nothing is or can become owed to contributors. */
  predicate NothingOwed(d: Distribution) {
    NetDebt(d) == Some(0) && TotalCollected(d) == Some(0) && AllIntegrationsCollected(d)
  }

  predicate CanFinalizeRewards(c: ProgramConfig, d: Distribution, now: int) {
    && !d.rewardsFinalized
    && CalculationAllowed(d, now)
    && d.debtFinalized
    && (d.rewardsRoot == NullHash ==> NothingOwed(d))
    && c.minimumEpochsToFinalize != 0
    && SatAdd64(d.dzEpoch, c.minimumEpochsToFinalize) <= c.nextEpoch
    && BytesFor(d.totalContributors) <= MAX_DATA_INCREASE
  }

  /** The lamports the payer leaves for the relayers of every reward. */
  function RelayFunds(d: Distribution): nat {
    RelayFundsFit(d.relayLamports, d.totalContributors);
    d.relayLamports * d.totalContributors
  }

  lemma RelayFundsFit(relay: u32, contributors: u32)
    ensures 0 <= relay * contributors < TWO_64
  {
    MulNonNegative(relay, contributors);
    MulMonotone(relay, U32_MAX, contributors);
  }

  function FinalizedRewards(a: DistributionState): DistributionState {
    var d := a.data;
    var n := BytesFor(d.totalContributors);
    var start := Truncate32(|a.remaining|);
    var grown := Grown(a, n);
    grown.(
      data := d.(rewardsFinalized := true,
                 rewardsStart := start,
                 rewardsEnd := SatAdd32(start, Truncate32(n))),
      lamports := grown.lamports + RelayFunds(d))
  }

  // ---------------------------------------------------------------- payment of debt

  predicate CanSettle(a: DistributionState, proof: MerkleProof, leaf: DebtLeaf) {
    && proof.leafIndex.Some?
    && CanMark(a.remaining, a.data.debtStart, a.data.debtEnd, proof.leafIndex.value)
    && VerifiesDebt(a.data.debtRoot, proof, leaf)
  }

  predicate CanPay(a: DistributionState, proof: MerkleProof, leaf: DebtLeaf) {
    a.data.debtFinalized && CanSettle(a, proof, leaf)
  }

  function Paid(a: DistributionState, index: u32, amount: u64): DistributionState
    requires CanMark(a.remaining, a.data.debtStart, a.data.debtEnd, index)
  {
    a.(
      data := a.data.(collectedPayments := WrapAdd64(a.data.collectedPayments, amount),
                      paymentsCount := WrapAdd32(a.data.paymentsCount, 1)),
      remaining := Mark(a.remaining, a.data.debtStart, a.data.debtEnd, index))
  }

  // ---------------------------------------------------------------- write off

  predicate CanEnableWriteOff(c: ProgramConfig, d: Distribution) {
    && WriteOffActivated(c)
    && !d.writeOffEnabled
    && d.debtFinalized
    && BytesFor(d.totalValidators) <= MAX_DATA_INCREASE
  }

  function WithWriteOffEnabled(a: DistributionState): DistributionState {
    var d := a.data;
    var n := BytesFor(d.totalValidators);
    var start := Truncate32(|a.remaining|);
    Grown(a, n).(
      data := d.(writeOffEnabled := true,
                 writeOffStart := start,
                 writeOffEnd := SatAdd32(start, Truncate32(n))))
  }

  /** The debt leaf leaves this distribution: its bit is set in the write-off and in the debt bitmap. */
  predicate CanWriteOffFrom(a: DistributionState, proof: MerkleProof, leaf: DebtLeaf) {
    var d := a.data;
    && d.writeOffEnabled
    && proof.leafIndex.Some?
    && CanMark(a.remaining, d.writeOffStart, d.writeOffEnd, proof.leafIndex.value)
    && CanSettle(a.(remaining := Mark(a.remaining, d.writeOffStart, d.writeOffEnd, proof.leafIndex.value)), proof, leaf)
  }

  function WrittenOffFrom(a: DistributionState, proof: MerkleProof, leaf: DebtLeaf): DistributionState
    requires CanWriteOffFrom(a, proof, leaf)
  {
    var d, index := a.data, proof.leafIndex.value;
    a.(
      data := d.(writeOffCount := WrapAdd32(d.writeOffCount, 1)),
      remaining := Mark(Mark(a.remaining, d.writeOffStart, d.writeOffEnd, index), d.debtStart, d.debtEnd, index))
  }

  /** The distribution that is charged with the lost debt. */
  predicate CanCharge(d: Distribution, sourceEpoch: u64, amount: u64) {
    && d.dzEpoch >= sourceEpoch
    && !d.swept
    && d.debtFinalized
    && WrapAdd64(d.uncollectibleDebt, amount) <= d.totalDebt
  }

  function Charged(a: DistributionState, amount: u64): DistributionState {
    a.(data := a.data.(uncollectibleDebt := WrapAdd64(a.data.uncollectibleDebt, amount)))
  }

  // ---------------------------------------------------------------- integrations

  const INTEGRATION_BITS: nat := 512

  predicate CanCollect(d: Distribution, index: u16) {
    && !AllIntegrationsCollected(d)
    && index < d.integrationsSnapshot
    && index < INTEGRATION_BITS
    && index !in d.collectedIntegrations
  }

  /** What does not fit panics. */
  predicate CollectionFits(d: Distribution, amount: nat) {
    d.integrations2z + amount < TWO_64 && d.integrationsCollected + 1 < 0x1_0000
  }

  function Collected(a: DistributionState, index: u16, amount: nat): DistributionState
    requires CollectionFits(a.data, amount)
  {
    a.(
      data := a.data.(integrations2z := a.data.integrations2z + amount,
                      integrationsCollected := a.data.integrationsCollected + 1,
                      collectedIntegrations := a.data.collectedIntegrations + {index as nat}),
      tokens := a.tokens + amount)
  }

  // ---------------------------------------------------------------- sweep

  predicate CanSweep(d: Distribution, nextSweepEpoch: u64) {
    !d.swept && d.rewardsFinalized && nextSweepEpoch == d.dzEpoch && NetDebt(d).Some?
  }

  /** With no net debt nothing is converted and the converted amount is not written. */
  function Swept(a: DistributionState, amount2z: u64): DistributionState {
    if NetDebt(a.data) == Some(0) then
      a.(data := a.data.(swept := true))
    else
      a.(data := a.data.(swept := true, converted2z := amount2z), tokens := a.tokens + amount2z)
  }

  // ---------------------------------------------------------------- rewards

  /** A contributor's claim: the share and burn rate the leaf must carry. */
  datatype Claim = Claim(contributor: Pubkey, unitShare: u32, economicBurnRate: u32)

  function ClaimLeaf(claim: Claim): Option<RewardShare> {
    NewRewardShare(claim.contributor, claim.unitShare, false, claim.economicBurnRate)
  }

  /** What the recipients of a claim share, with nothing to share when it is malformed. */
  function PayableOf(d: Distribution, claim: Claim): u64 {
    if TotalCollected(d).Some? && ClaimLeaf(claim).Some? then
      Payable(TotalCollected(d).value, claim.unitShare, EffectiveBurnRate(d, claim.economicBurnRate))
    else 0
  }

  predicate CanDistribute(a: DistributionState, proof: MerkleProof, claim: Claim, recipients: seq<RecipientShare>) {
    var d := a.data;
    && proof.leafIndex.Some?
    && !AllRewardsDistributed(d)
    && d.swept
    && AllIntegrationsCollected(d)
    && CanMark(a.remaining, d.rewardsStart, d.rewardsEnd, proof.leafIndex.value)
    && ClaimLeaf(claim).Some?
    && VerifiesShare(d.rewardsRoot, proof, ClaimLeaf(claim).value)
    && TotalCollected(d).Some?
    && Active(recipients) != []
    && ShareAmount(Pool(d), claim.unitShare) <= a.tokens
    && d.relayLamports <= a.lamports
  }

  function RewardsPaid(a: DistributionState, index: u32, claim: Claim, recipients: seq<RecipientShare>)
    : DistributionState
    requires CanMark(a.remaining, a.data.rewardsStart, a.data.rewardsEnd, index)
    requires ClaimLeaf(claim).Some? && TotalCollected(a.data).Some? && a.data.relayLamports <= a.lamports
    requires ShareAmount(Pool(a.data), claim.unitShare) <= a.tokens
    requires Active(recipients) != [] && RecipientsWellformed(recipients)
  {
    var d := a.data;
    var rate := EffectiveBurnRate(d, claim.economicBurnRate);
    RewardSplitsExactly(Pool(d), claim.unitShare, rate, Active(recipients));
    a.(
      data := d.(
        distributed2z := WrapAdd64(d.distributed2z, Distributed(Pool(d), claim.unitShare, rate, Active(recipients))),
        burned2z := WrapAdd64(d.burned2z, Burned(Pool(d), claim.unitShare, rate, Active(recipients))),
        distributedCount := WrapAdd32(d.distributedCount, 1)),
      remaining := Mark(a.remaining, d.rewardsStart, d.rewardsEnd, index),
      lamports := a.lamports - d.relayLamports,
      tokens := a.tokens - ShareAmount(Pool(d), claim.unitShare))
  }
}
