/** What holds of every distribution account, and what every instruction keeps or freezes in it. */
module DistributionInvariants {
  import opened Units
  import opened Sums
  import opened Bitmaps
  import opened Rewards
  import opened Accounts
  import opened Distributions

  const MAX_LEAVES: nat := 8 * MAX_DATA_INCREASE

  // ---------------------------------------------------------------- the three sets of leaves

  datatype LeafSets = LeafSets(processed: set<nat>, writtenOff: set<nat>, rewarded: set<nat>)

  /** What the one byte buffer stands for. */
  ghost function SetsOf(a: DistributionState): LeafSets {
    LeafSets(LeavesIn(a.remaining, a.data.debtStart, a.data.debtEnd),
             LeavesIn(a.remaining, a.data.writeOffStart, a.data.writeOffEnd),
             LeavesIn(a.remaining, a.data.rewardsStart, a.data.rewardsEnd))
  }

  ghost predicate Within(s: LeafSets, t: LeafSets) {
    s.processed <= t.processed && s.writtenOff <= t.writtenOff && s.rewarded <= t.rewarded
  }

  function DebtBytes(d: Distribution): nat {
    if d.debtFinalized && d.totalDebt != 0 then BytesFor(d.totalValidators) else 0
  }

  function WriteOffBytes(d: Distribution): nat {
    if d.writeOffEnabled then BytesFor(d.totalValidators) else 0
  }

  function RewardBytes(d: Distribution): nat {
    if d.rewardsFinalized then BytesFor(d.totalContributors) else 0
  }

  /** The debt bitmap comes first; the other two follow in the order they were allocated. */
  ghost predicate Layout(a: DistributionState) {
    var d := a.data;
    var x, y, z := DebtBytes(d), WriteOffBytes(d), RewardBytes(d);
    && x <= MAX_DATA_INCREASE && y <= MAX_DATA_INCREASE && z <= MAX_DATA_INCREASE
    && |a.remaining| == x + y + z
    && d.debtStart == 0 && d.debtEnd == x
    && d.writeOffEnd == d.writeOffStart + y
    && d.rewardsEnd == d.rewardsStart + z
    && (if d.writeOffEnabled then
          d.writeOffStart == x || (d.rewardsFinalized && d.rewardsStart == x && d.writeOffStart == x + z)
        else d.writeOffStart == 0)
    && (if d.rewardsFinalized then
          d.rewardsStart == x || (d.writeOffEnabled && d.writeOffStart == x && d.rewardsStart == x + y)
        else d.rewardsStart == 0)
    && (d.writeOffEnabled && d.rewardsFinalized ==> d.rewardsStart == x + y || d.writeOffStart == x + z)
  }

  predicate Apart(lo: nat, hi: nat, lo': nat, hi': nat) {
    hi <= lo' || hi' <= lo
  }

  /** In every allocation order the three ranges are in bounds and share no byte. */
  lemma RangesDisjoint(a: DistributionState)
    requires Layout(a)
    ensures var d := a.data;
      && d.debtStart <= d.debtEnd <= |a.remaining|
      && d.writeOffStart <= d.writeOffEnd <= |a.remaining|
      && d.rewardsStart <= d.rewardsEnd <= |a.remaining|
      && Apart(d.debtStart, d.debtEnd, d.writeOffStart, d.writeOffEnd)
      && Apart(d.debtStart, d.debtEnd, d.rewardsStart, d.rewardsEnd)
      && Apart(d.writeOffStart, d.writeOffEnd, d.rewardsStart, d.rewardsEnd)
  {}

  // ---------------------------------------------------------------- the invariant

  /** Nothing that needs the debt to be final came before it. */
  ghost predicate Staged(d: Distribution) {
    && (d.rewardsFinalized ==> d.debtFinalized)
    && (d.writeOffEnabled ==> d.debtFinalized)
    && (!d.debtFinalized ==> d.uncollectibleDebt == 0)
  }

  ghost predicate Lifecycle(d: Distribution) {
    && (d.swept ==> d.rewardsFinalized)
    && (d.rewardsFinalized ==> d.debtFinalized)
    && (d.writeOffEnabled ==> d.debtFinalized)
    && (d.distributedCount > 0 ==> d.swept && AllIntegrationsCollected(d))
    && (!d.debtFinalized ==> d.uncollectibleDebt == 0)
    && d.uncollectibleDebt <= d.totalDebt
    && (!d.swept ==> d.converted2z == 0)
    && (d.rewardsFinalized && d.rewardsRoot == NullHash ==> NothingOwed(d))
  }

  ghost predicate Counters(d: Distribution, s: LeafSets) {
    && s.writtenOff <= s.processed
    && |s.processed| == d.paymentsCount + d.writeOffCount
    && |s.writtenOff| == d.writeOffCount
    && |s.rewarded| == d.distributedCount
    && (d.rewardsFinalized ==> d.distributedCount <= d.totalContributors)
  }

  function LeafAmount(leaf: DebtLeaf): int {
    leaf.amount
  }

  /** The debt of the committed leaves in s. */
  ghost function DebtOf(root: Hash, s: set<nat>): int {
    MapSum(Restrict(Debts(root), s), LeafAmount)
  }

  ghost predicate Payments(d: Distribution, s: LeafSets) {
    && s.processed <= Debts(d.debtRoot).Keys
    && d.collectedPayments == DebtOf(d.debtRoot, s.processed - s.writtenOff)
  }

  /** What a reward leaf is due out of a pool. */
  function LeafShare(pool: nat): RewardShare -> int {
    (leaf: RewardShare) =>
      if pool < TWO_64 && leaf.unitShare <= SHARE32_MAX then ShareAmount(pool, leaf.unitShare) else 0
  }

  ghost function SharesOf(root: Hash, pool: nat, s: set<nat>): int {
    MapSum(Restrict(Shares(root), s), LeafShare(pool))
  }

  ghost predicate PoolLedger(d: Distribution, s: LeafSets, tokens: nat) {
    && s.rewarded <= Shares(d.rewardsRoot).Keys
    && d.distributed2z + d.burned2z == SharesOf(d.rewardsRoot, Pool(d), s.rewarded)
    && Pool(d) <= tokens + d.distributed2z + d.burned2z
    && Pool(d) < TWO_64
  }

  ghost predicate Integrations(d: Distribution) {
    && (forall i :: i in d.collectedIntegrations ==> i < d.integrationsSnapshot && i < INTEGRATION_BITS)
    && |d.collectedIntegrations| == d.integrationsCollected
  }

  /** Write-off was enabled only after the rewards bitmap had been allocated. */
  predicate EnabledLate(d: Distribution) {
    d.writeOffEnabled && d.rewardsFinalized && d.rewardsStart < d.writeOffStart
  }

  function RelayDue(d: Distribution): int {
    if d.rewardsFinalized then d.relayLamports * (d.totalContributors - d.distributedCount) else 0
  }

  /** Rent and every relayer still to be paid are covered. */
  predicate Reserved(a: DistributionState) {
    MinimumBalance(DataLen(a)) + RelayDue(a.data) <= a.lamports
  }

  ghost predicate RelayReserve(a: DistributionState) {
    !EnabledLate(a.data) ==> Reserved(a)
  }

  /** The part that does not mention leaves. */
  ghost predicate Shape(a: DistributionState) {
    Lifecycle(a.data) && Layout(a) && Integrations(a.data) && RelayReserve(a)
  }

  /** The counters and sums kept beside the bitmaps. */
  ghost predicate Ledgers(d: Distribution, s: LeafSets, tokens: nat) {
    Counters(d, s) && Payments(d, s) && PoolLedger(d, s, tokens)
  }

  ghost predicate DistributionOk(a: DistributionState) {
    Shape(a) && Ledgers(a.data, SetsOf(a), a.tokens)
  }

  // ---------------------------------------------------------------- what only ever moves one way

  /** How the data of a distribution may differ from what it was earlier. */
  ghost predicate DataEvolves(d: Distribution, e: Distribution) {
    && e.dzEpoch == d.dzEpoch
    && e.communityBurnRate == d.communityBurnRate
    && e.integrationsSnapshot == d.integrationsSnapshot
    && e.prepaid2z == d.prepaid2z
    && e.fees == d.fees
    && e.relayLamports == d.relayLamports
    && e.calculationAllowedTimestamp == d.calculationAllowedTimestamp
    && (d.debtFinalized ==>
          e.debtFinalized && e.debtRoot == d.debtRoot && e.totalDebt == d.totalDebt
          && e.totalValidators == d.totalValidators && e.debtStart == d.debtStart && e.debtEnd == d.debtEnd)
    && (d.rewardsFinalized ==>
          e.rewardsFinalized && e.rewardsRoot == d.rewardsRoot && e.totalContributors == d.totalContributors
          && e.economicBurnRate == d.economicBurnRate
          && e.rewardsStart == d.rewardsStart && e.rewardsEnd == d.rewardsEnd)
    && (d.writeOffEnabled ==>
          e.writeOffEnabled && e.writeOffStart == d.writeOffStart && e.writeOffEnd == d.writeOffEnd)
    && (d.swept ==> e.swept && e.uncollectibleDebt == d.uncollectibleDebt && e.converted2z == d.converted2z)
    && (AllIntegrationsCollected(d) ==> AllIntegrationsCollected(e) && e.integrations2z == d.integrations2z)
    && d.uncollectibleDebt <= e.uncollectibleDebt
    && d.collectedIntegrations <= e.collectedIntegrations
  }

  /** Once write-off is enabled nothing takes the reserve away any more. */
  predicate ReserveStays(a: DistributionState, b: DistributionState) {
    a.data.writeOffEnabled && Reserved(a) ==> Reserved(b)
  }

  ghost predicate Evolves(a: DistributionState, b: DistributionState) {
    DataEvolves(a.data, b.data) && Within(SetsOf(a), SetsOf(b)) && ReserveStays(a, b)
  }

  lemma EvolvesReflexive(a: DistributionState)
    ensures Evolves(a, a)
  {}

  lemma EvolvesTransitive(a: DistributionState, b: DistributionState, c: DistributionState)
    requires Evolves(a, b) && Evolves(b, c)
    ensures Evolves(a, c)
  {}

  /** An instruction on an account in order keeps it in order and moves it one way. */
  ghost predicate Keeps(a: DistributionState, b: DistributionState) {
    DistributionOk(b) && Evolves(a, b)
  }

  // ---------------------------------------------------------------- its entries in the global ledgers

  function CollectedOf(a: DistributionState): int {
    a.data.collectedPayments
  }

  /** The net debt that was exchanged for 2Z when the distribution was swept. */
  function SweptDebtOf(a: DistributionState): int {
    if a.data.swept then a.data.totalDebt - a.data.uncollectibleDebt else 0
  }

  function UncollectibleOf(a: DistributionState): int {
    a.data.uncollectibleDebt
  }

  ghost function WrittenOffOf(a: DistributionState): int {
    DebtOf(a.data.debtRoot, SetsOf(a).writtenOff)
  }

  function ConvertedOf(a: DistributionState): int {
    a.data.converted2z
  }

  /** The entries in the ledgers that span several accounts stay as they are. */
  ghost predicate Steady(a: DistributionState, b: DistributionState) {
    && b.data.swept == a.data.swept
    && CollectedOf(b) == CollectedOf(a)
    && SweptDebtOf(b) == SweptDebtOf(a)
    && UncollectibleOf(b) == UncollectibleOf(a)
    && WrittenOffOf(b) == WrittenOffOf(a)
    && ConvertedOf(b) == ConvertedOf(a)
  }

  // ---------------------------------------------------------------- creation and configuration

  const NO_LEAVES: LeafSets := LeafSets({}, {}, {})

  lemma NoLeavesSum(root: Hash, pool: nat)
    ensures DebtOf(root, {}) == 0 && SharesOf(root, pool, {}) == 0
  {
    RestrictEmpty(Debts(root), LeafAmount);
    RestrictEmpty(Shares(root), LeafShare(pool));
  }

  /** With every counter at zero and the pool in the token account, the ledgers of no leaves balance. */
  lemma EmptyLedgers(d: Distribution, tokens: nat)
    requires d.paymentsCount == d.writeOffCount == d.distributedCount == 0
    requires d.collectedPayments == d.distributed2z == d.burned2z == 0 && Pool(d) <= tokens && Pool(d) < TWO_64
    ensures Ledgers(d, NO_LEAVES, tokens)
  {
    hide DebtOf, SharesOf;
    NoLeavesSum(d.debtRoot, Pool(d));
    NoLeavesSum(d.rewardsRoot, Pool(d));
    var none: set<nat> := {};
    assert none - none == {} == none;
  }

  lemma NewIsOk(c: ProgramConfig, rate: UnitShare32, timestamp: u32, snapshot: u16, prepaid: u64, lamports: nat)
    requires MinimumBalance(DISTRIBUTION_DATA_END) <= lamports
    ensures DistributionOk(NewDistribution(c, rate, timestamp, snapshot, prepaid, lamports))
    ensures WrittenOffOf(NewDistribution(c, rate, timestamp, snapshot, prepaid, lamports)) == 0
  {
    hide Ledgers, DebtOf;
    var a := NewDistribution(c, rate, timestamp, snapshot, prepaid, lamports);
    assert SetsOf(a) == NO_LEAVES;
    NoLeavesSum(a.data.debtRoot, 0);
    EmptyLedgers(a.data, a.tokens);
  }

  /** Before the debt is final no leaf is processed; before the rewards are final none is rewarded. */
  lemma NoLeavesYet(a: DistributionState)
    requires Layout(a)
    ensures !a.data.debtFinalized ==> SetsOf(a).processed == {}
    ensures !a.data.writeOffEnabled ==> SetsOf(a).writtenOff == {}
    ensures !a.data.rewardsFinalized ==> SetsOf(a).rewarded == {}
  {}

  /** Configuring the debt before it is final: no leaf is processed yet, so any root agrees with the sums. */
  lemma ConfigureDebtKeeps(a: DistributionState, validators: u32, debt: u64, root: Hash)
    requires DistributionOk(a) && !a.data.debtFinalized
    ensures var b := ConfiguredDebt(a, validators, debt, root); Keeps(a, b) && Steady(a, b)
  {
    NoLeavesYet(a);
    RestrictEmpty(Debts(a.data.debtRoot), LeafAmount);
    RestrictEmpty(Debts(root), LeafAmount);
    assert SetsOf(a).processed - SetsOf(a).writtenOff == {} == SetsOf(a).writtenOff;
  }

  lemma ConfigureRewardsKeeps(a: DistributionState, contributors: u32, root: Hash)
    requires DistributionOk(a) && !a.data.rewardsFinalized
    ensures var b := ConfiguredRewards(a, contributors, root); Keeps(a, b) && Steady(a, b)
  {
    NoLeavesYet(a);
    RestrictEmpty(Shares(a.data.rewardsRoot), LeafShare(Pool(a.data)));
    RestrictEmpty(Shares(root), LeafShare(Pool(a.data)));
  }

  lemma EconomicBurnRateKeeps(a: DistributionState, rate: BurnRate)
    requires DistributionOk(a) && !a.data.rewardsFinalized
    ensures Keeps(a, WithEconomicBurnRate(a, rate)) && Steady(a, WithEconomicBurnRate(a, rate))
  {}

  /** Anyone may send an account lamports or 2Z. */
  lemma FundingKeeps(a: DistributionState, lamports: nat, tokens: nat)
    requires DistributionOk(a)
    ensures var b := a.(lamports := a.lamports + lamports, tokens := a.tokens + tokens); Keeps(a, b) && Steady(a, b)
  {}

  // ---------------------------------------------------------------- allocation

  /** Each allocation appends an empty bitmap and leaves the three sets as they are. */
  lemma FinalizeDebtLayout(a: DistributionState, now: int)
    requires Layout(a) && Staged(a.data) && CanFinalizeDebt(a.data, now)
    ensures Layout(FinalizedDebt(a)) && SetsOf(FinalizedDebt(a)) == SetsOf(a)
  {
    GrowAddsNoLeaf(a.remaining, BytesFor(a.data.totalValidators));
    NoLeavesYet(a);
  }

  lemma FinalizeDebtKeeps(a: DistributionState, now: int)
    requires DistributionOk(a) && CanFinalizeDebt(a.data, now)
    ensures Keeps(a, FinalizedDebt(a)) && Steady(a, FinalizedDebt(a))
  {
    FinalizeDebtLayout(a, now);
    assert Shape(FinalizedDebt(a));
  }

  lemma EnableWriteOffLayout(a: DistributionState, c: ProgramConfig)
    requires Layout(a) && CanEnableWriteOff(c, a.data)
    ensures var b := WithWriteOffEnabled(a);
      && Layout(b)
      && b.data.writeOffStart == |a.remaining|
      && b.data.writeOffEnd == |a.remaining| + BytesFor(a.data.totalValidators)
  {}

  lemma EnableWriteOffSets(a: DistributionState, c: ProgramConfig)
    requires Layout(a) && CanEnableWriteOff(c, a.data)
    ensures SetsOf(WithWriteOffEnabled(a)) == SetsOf(a)
  {
    var n := BytesFor(a.data.totalValidators);
    EnableWriteOffLayout(a, c);
    RangesDisjoint(a);
    NoLeavesYet(a);
    GrowKeepsLeaves(a.remaining, n, a.data.debtStart, a.data.debtEnd);
    GrowKeepsLeaves(a.remaining, n, a.data.rewardsStart, a.data.rewardsEnd);
    GrowAddsNoLeaf(a.remaining, n);
  }

  /** The reserve survives enabling write-off; once rewards are final only if their bitmap is empty. */
  lemma EnableWriteOffReserve(a: DistributionState, c: ProgramConfig)
    requires Layout(a) && RelayReserve(a) && CanEnableWriteOff(c, a.data)
    requires a.data.rewardsFinalized ==> a.data.distributedCount <= a.data.totalContributors
    ensures RelayReserve(WithWriteOffEnabled(a))
  {
    hide Zeros;
    EnableWriteOffLayout(a, c);
    if a.data.rewardsFinalized && !EnabledLate(WithWriteOffEnabled(a).data) {
      assert a.data.totalContributors == 0;
    }
  }

  lemma EnableWriteOffShape(a: DistributionState, c: ProgramConfig)
    requires Shape(a) && CanEnableWriteOff(c, a.data)
    requires a.data.rewardsFinalized ==> a.data.distributedCount <= a.data.totalContributors
    ensures var b := WithWriteOffEnabled(a); Shape(b) && DataEvolves(a.data, b.data)
  {
    EnableWriteOffLayout(a, c);
    EnableWriteOffReserve(a, c);
  }

  lemma EnableWriteOffKeeps(a: DistributionState, c: ProgramConfig)
    requires DistributionOk(a) && CanEnableWriteOff(c, a.data)
    ensures Keeps(a, WithWriteOffEnabled(a)) && Steady(a, WithWriteOffEnabled(a))
  {
    hide Layout, Lifecycle, Integrations, RelayReserve, SetsOf, MinimumBalance;
    EnableWriteOffShape(a, c);
    EnableWriteOffSets(a, c);
  }

  lemma FinalizeRewardsLayout(a: DistributionState, c: ProgramConfig, now: int)
    requires Layout(a) && CanFinalizeRewards(c, a.data, now)
    ensures var b := FinalizedRewards(a);
      && Layout(b)
      && b.data.rewardsStart == |a.remaining|
      && b.data.rewardsEnd == |a.remaining| + BytesFor(a.data.totalContributors)
  {}

  lemma FinalizeRewardsSets(a: DistributionState, c: ProgramConfig, now: int)
    requires Layout(a) && CanFinalizeRewards(c, a.data, now)
    ensures SetsOf(FinalizedRewards(a)) == SetsOf(a)
  {
    var n := BytesFor(a.data.totalContributors);
    FinalizeRewardsLayout(a, c, now);
    RangesDisjoint(a);
    NoLeavesYet(a);
    GrowKeepsLeaves(a.remaining, n, a.data.debtStart, a.data.debtEnd);
    GrowKeepsLeaves(a.remaining, n, a.data.writeOffStart, a.data.writeOffEnd);
    GrowAddsNoLeaf(a.remaining, n);
  }

  lemma FinalizeRewardsKeeps(a: DistributionState, c: ProgramConfig, now: int)
    requires DistributionOk(a) && CanFinalizeRewards(c, a.data, now)
    ensures Keeps(a, FinalizedRewards(a)) && Steady(a, FinalizedRewards(a))
  {
    FinalizeRewardsLayout(a, c, now);
    FinalizeRewardsSets(a, c, now);
  }

  // ---------------------------------------------------------------- marking leaves

  lemma LayoutOf(a: DistributionState)
    requires DistributionOk(a)
    ensures Layout(a)
  {}

  /** Paying marks one fresh leaf in the debt bitmap and leaves the other two alone. */
  lemma PaySets(a: DistributionState, index: u32, amount: u64)
    requires Layout(a) && CanMark(a.remaining, a.data.debtStart, a.data.debtEnd, index)
    ensures index !in SetsOf(a).processed
    ensures SetsOf(Paid(a, index, amount)) == SetsOf(a).(processed := SetsOf(a).processed + {index as nat})
  {
    var d := a.data;
    RangesDisjoint(a);
    MarkAddsLeaf(a.remaining, d.debtStart, d.debtEnd, index);
    MarkKeepsOthers(a.remaining, d.debtStart, d.debtEnd, index, d.writeOffStart, d.writeOffEnd);
    MarkKeepsOthers(a.remaining, d.debtStart, d.debtEnd, index, d.rewardsStart, d.rewardsEnd);
  }

  /** Writing off marks one leaf, fresh in both, in the write-off and in the debt bitmap. */
  lemma WriteOffSets(a: DistributionState, proof: MerkleProof, leaf: DebtLeaf)
    requires Layout(a) && CanWriteOffFrom(a, proof, leaf)
    ensures var index := proof.leafIndex.value as nat;
      var s := SetsOf(a);
      && index !in s.processed && index !in s.writtenOff
      && SetsOf(WrittenOffFrom(a, proof, leaf))
         == s.(processed := s.processed + {index}, writtenOff := s.writtenOff + {index})
  {
    var d := a.data;
    var index := proof.leafIndex.value;
    var marked := Mark(a.remaining, d.writeOffStart, d.writeOffEnd, index);
    RangesDisjoint(a);
    MarkAddsLeaf(a.remaining, d.writeOffStart, d.writeOffEnd, index);
    MarkKeepsOthers(a.remaining, d.writeOffStart, d.writeOffEnd, index, d.debtStart, d.debtEnd);
    MarkKeepsOthers(a.remaining, d.writeOffStart, d.writeOffEnd, index, d.rewardsStart, d.rewardsEnd);
    MarkAddsLeaf(marked, d.debtStart, d.debtEnd, index);
    MarkKeepsOthers(marked, d.debtStart, d.debtEnd, index, d.writeOffStart, d.writeOffEnd);
    MarkKeepsOthers(marked, d.debtStart, d.debtEnd, index, d.rewardsStart, d.rewardsEnd);
  }

  /** Rewarding marks one fresh leaf in the rewards bitmap. */
  lemma RewardSets(a: DistributionState, proof: MerkleProof, claim: Claim, recipients: seq<RecipientShare>)
    requires Layout(a) && RecipientsWellformed(recipients) && CanDistribute(a, proof, claim, recipients)
    ensures var index := proof.leafIndex.value as nat;
      && index !in SetsOf(a).rewarded
      && SetsOf(RewardsPaid(a, proof.leafIndex.value, claim, recipients))
         == SetsOf(a).(rewarded := SetsOf(a).rewarded + {index})
  {
    var d := a.data;
    var index := proof.leafIndex.value;
    RangesDisjoint(a);
    MarkAddsLeaf(a.remaining, d.rewardsStart, d.rewardsEnd, index);
    MarkKeepsOthers(a.remaining, d.rewardsStart, d.rewardsEnd, index, d.debtStart, d.debtEnd);
    MarkKeepsOthers(a.remaining, d.rewardsStart, d.rewardsEnd, index, d.writeOffStart, d.writeOffEnd);
  }

  /** No bitmap holds more leaves than one allocation has bits, so the 32-bit counters never wrap. */
  lemma CountersSmall(a: DistributionState)
    requires DistributionOk(a)
    ensures a.data.paymentsCount + a.data.writeOffCount <= MAX_LEAVES
    ensures a.data.distributedCount <= MAX_LEAVES
  {
    hide Lifecycle, Integrations, RelayReserve, Payments, PoolLedger;
    var d := a.data;
    RangesDisjoint(a);
    LeavesBounded(Slice(a.remaining, d.debtStart, d.debtEnd));
    LeavesBounded(Slice(a.remaining, d.rewardsStart, d.rewardsEnd));
  }

  // ---------------------------------------------------------------- settling debt

  /** The payments grow by the amount of the leaf that was marked. */
  lemma PaymentsAddLeaf(root: Hash, s: LeafSets, index: nat)
    requires s.writtenOff <= s.processed <= Debts(root).Keys
    requires index in Debts(root) && index !in s.processed
    ensures DebtOf(root, s.processed + {index} - s.writtenOff)
         == DebtOf(root, s.processed - s.writtenOff) + Debts(root)[index].amount
    ensures s.processed + {index} - (s.writtenOff + {index}) == s.processed - s.writtenOff
    ensures DebtOf(root, s.writtenOff + {index}) == DebtOf(root, s.writtenOff) + Debts(root)[index].amount
  {
    assert s.processed + {index} - s.writtenOff == (s.processed - s.writtenOff) + {index};
    RestrictSumInsert(Debts(root), s.processed - s.writtenOff, index, LeafAmount);
    RestrictSumInsert(Debts(root), s.writtenOff, index, LeafAmount);
  }

  lemma PayShape(a: DistributionState, index: u32, amount: u64)
    requires Shape(a) && CanMark(a.remaining, a.data.debtStart, a.data.debtEnd, index) && a.data.debtFinalized
    ensures var b := Paid(a, index, amount); Shape(b) && DataEvolves(a.data, b.data) && ReserveStays(a, b)
  {}

  lemma PayLedgers(d: Distribution, s: LeafSets, tokens: nat, index: u32, amount: u64)
    requires Ledgers(d, s, tokens) && index !in s.processed
    requires index in Debts(d.debtRoot) && Debts(d.debtRoot)[index].amount == amount
    requires d.collectedPayments + amount < TWO_64 && d.paymentsCount < MAX_LEAVES + 1
    ensures Ledgers(
      d.(collectedPayments := WrapAdd64(d.collectedPayments, amount), paymentsCount := WrapAdd32(d.paymentsCount, 1)),
      s.(processed := s.processed + {index as nat}), tokens)
  {
    hide DebtOf, SharesOf;
    PaymentsAddLeaf(d.debtRoot, s, index);
  }

  lemma PayKeeps(a: DistributionState, proof: MerkleProof, leaf: DebtLeaf)
    requires DistributionOk(a) && CanPay(a, proof, leaf)
    requires a.data.collectedPayments + leaf.amount < TWO_64
    ensures Keeps(a, Paid(a, proof.leafIndex.value, leaf.amount))
  {
    hide Shape, Ledgers, Layout, SetsOf, DataEvolves, ReserveStays, CanMark, Mark;
    PayShape(a, proof.leafIndex.value, leaf.amount);
    CountersSmall(a);
    LayoutOf(a);
    PaySets(a, proof.leafIndex.value, leaf.amount);
    PayLedgers(a.data, SetsOf(a), a.tokens, proof.leafIndex.value, leaf.amount);
  }

  lemma WriteOffShape(a: DistributionState, proof: MerkleProof, leaf: DebtLeaf)
    requires Shape(a) && CanWriteOffFrom(a, proof, leaf)
    ensures var b := WrittenOffFrom(a, proof, leaf); Shape(b) && DataEvolves(a.data, b.data) && ReserveStays(a, b)
  {}

  lemma WriteOffLedgers(d: Distribution, s: LeafSets, tokens: nat, index: u32)
    requires Ledgers(d, s, tokens) && index !in s.processed && index in Debts(d.debtRoot)
    requires d.writeOffCount < MAX_LEAVES + 1
    ensures Ledgers(
      d.(writeOffCount := WrapAdd32(d.writeOffCount, 1)),
      s.(processed := s.processed + {index as nat}, writtenOff := s.writtenOff + {index as nat}), tokens)
  {
    hide DebtOf, SharesOf;
    PaymentsAddLeaf(d.debtRoot, s, index);
  }

  /** Writing off leaves the payments alone and adds the leaf's amount to the written-off debt. */
  lemma WriteOffKeeps(a: DistributionState, proof: MerkleProof, leaf: DebtLeaf)
    requires DistributionOk(a) && CanWriteOffFrom(a, proof, leaf)
    ensures var b := WrittenOffFrom(a, proof, leaf);
      && Keeps(a, b)
      && DebtOf(a.data.debtRoot, SetsOf(b).writtenOff) == DebtOf(a.data.debtRoot, SetsOf(a).writtenOff) + leaf.amount
  {
    hide Shape, Layout, SetsOf, DataEvolves, ReserveStays, CanMark, Mark, PoolLedger;
    WriteOffShape(a, proof, leaf);
    CountersSmall(a);
    LayoutOf(a);
    WriteOffSets(a, proof, leaf);
    WriteOffLedgers(a.data, SetsOf(a), a.tokens, proof.leafIndex.value);
    PaymentsAddLeaf(a.data.debtRoot, SetsOf(a), proof.leafIndex.value);
  }

  /** A null rewards root admits only charges of zero. */
  lemma ChargeKeeps(a: DistributionState, sourceEpoch: u64, amount: u64)
    requires DistributionOk(a) && CanCharge(a.data, sourceEpoch, amount)
    requires a.data.uncollectibleDebt + amount < TWO_64
    ensures Keeps(a, Charged(a, amount))
    ensures SetsOf(Charged(a, amount)) == SetsOf(a)
  {}

  // ---------------------------------------------------------------- filling and emptying the pool

  /** Until a reward is paid the pool ledger is empty and every token is still there. */
  lemma NothingRewardedYet(d: Distribution, s: LeafSets, tokens: nat)
    requires Ledgers(d, s, tokens) && d.distributedCount == 0
    ensures s.rewarded == {} && d.distributed2z == d.burned2z == 0 && Pool(d) <= tokens
    ensures forall root, pool :: SharesOf(root, pool, s.rewarded) == 0
  {
    assert s.rewarded == {};
    forall root, pool
      ensures SharesOf(root, pool, s.rewarded) == 0
    {
      RestrictEmpty(Shares(root), LeafShare(pool));
    }
  }

  lemma CollectShape(a: DistributionState, index: u16, amount: nat)
    requires Shape(a) && CanCollect(a.data, index) && CollectionFits(a.data, amount)
    ensures var b := Collected(a, index, amount); Shape(b) && DataEvolves(a.data, b.data) && ReserveStays(a, b)
  {}

  lemma CollectKeeps(a: DistributionState, index: u16, amount: nat)
    requires DistributionOk(a) && CanCollect(a.data, index) && CollectionFits(a.data, amount)
    requires a.tokens + amount < TWO_64
    ensures Keeps(a, Collected(a, index, amount)) && Steady(a, Collected(a, index, amount))
  {
    hide Layout, Integrations, RelayReserve, DataEvolves, ReserveStays;
    CollectShape(a, index, amount);
    NothingRewardedYet(a.data, SetsOf(a), a.tokens);
    assert SetsOf(Collected(a, index, amount)) == SetsOf(a);
  }

  lemma SweepShape(a: DistributionState, nextSweepEpoch: u64, amount2z: u64)
    requires Shape(a) && CanSweep(a.data, nextSweepEpoch)
    ensures var b := Swept(a, amount2z); Shape(b) && DataEvolves(a.data, b.data) && ReserveStays(a, b)
  {}

  lemma SweepKeeps(a: DistributionState, nextSweepEpoch: u64, amount2z: u64)
    requires DistributionOk(a) && CanSweep(a.data, nextSweepEpoch)
    requires a.tokens + amount2z < TWO_64
    ensures Keeps(a, Swept(a, amount2z))
  {
    SweepShape(a, nextSweepEpoch, amount2z);
    NothingRewardedYet(a.data, SetsOf(a), a.tokens);
    assert SetsOf(Swept(a, amount2z)) == SetsOf(a);
  }

  /** The two unchecked additions of a reward stay within 64 bits. */
  predicate RewardFits(d: Distribution, claim: Claim, recipients: seq<RecipientShare>)
    requires ClaimLeaf(claim).Some? && TotalCollected(d).Some?
  {
    var rate := EffectiveBurnRate(d, claim.economicBurnRate);
    && d.distributed2z + Distributed(Pool(d), claim.unitShare, rate, Active(recipients)) < TWO_64
    && d.burned2z + Burned(Pool(d), claim.unitShare, rate, Active(recipients)) < TWO_64
  }

  lemma RewardShape(
    a: DistributionState, proof: MerkleProof, claim: Claim, recipients: seq<RecipientShare>)
    requires Shape(a) && a.data.distributedCount <= MAX_LEAVES
    requires RecipientsWellformed(recipients) && CanDistribute(a, proof, claim, recipients)
    ensures var b := RewardsPaid(a, proof.leafIndex.value, claim, recipients);
      Shape(b) && DataEvolves(a.data, b.data) && ReserveStays(a, b)
  {
    var b := RewardsPaid(a, proof.leafIndex.value, claim, recipients);
    RelayStep(a.data.relayLamports, a.data.totalContributors - a.data.distributedCount);
    assert Layout(b);
    assert Lifecycle(b.data);
  }

  lemma RelayStep(relay: int, left: int)
    ensures relay * (left - 1) == relay * left - relay
  {}

  /** The ledgers after a reward: what left the pool is exactly the contributor's share of it. */
  lemma RewardLedgers(
    d: Distribution, s: LeafSets, tokens: nat, index: u32, leaf: RewardShare, distributed: u64, burned: u64)
    requires Ledgers(d, s, tokens) && index !in s.rewarded
    requires index in Shares(d.rewardsRoot) && Shares(d.rewardsRoot)[index] == leaf
    requires leaf.unitShare <= SHARE32_MAX && distributed + burned == ShareAmount(Pool(d), leaf.unitShare) <= tokens
    requires d.distributed2z + distributed < TWO_64 && d.burned2z + burned < TWO_64
    requires d.distributedCount < Min(MAX_LEAVES + 1, d.totalContributors)
    ensures Ledgers(
      d.(distributed2z := WrapAdd64(d.distributed2z, distributed),
         burned2z := WrapAdd64(d.burned2z, burned),
         distributedCount := WrapAdd32(d.distributedCount, 1)),
      s.(rewarded := s.rewarded + {index as nat}), tokens - (distributed + burned))
  {
    RestrictSumInsert(Shares(d.rewardsRoot), s.rewarded, index, LeafShare(Pool(d)));
  }

  lemma RewardKeeps(
    a: DistributionState, proof: MerkleProof, claim: Claim, recipients: seq<RecipientShare>)
    requires DistributionOk(a) && RecipientsWellformed(recipients) && CanDistribute(a, proof, claim, recipients)
    requires RewardFits(a.data, claim, recipients)
    ensures var b := RewardsPaid(a, proof.leafIndex.value, claim, recipients); Keeps(a, b) && Steady(a, b)
  {
    hide Layout, SetsOf, Integrations, RelayReserve, DataEvolves, ReserveStays, CanMark, Mark, Counters,
      Payments, PoolLedger;
    var d, pool := a.data, Pool(a.data);
    var rate := EffectiveBurnRate(d, claim.economicBurnRate);
    CountersSmall(a);
    LayoutOf(a);
    RewardShape(a, proof, claim, recipients);
    RewardSets(a, proof, claim, recipients);
    RewardSplitsExactly(pool, claim.unitShare, rate, Active(recipients));
    RewardLedgers(d, SetsOf(a), a.tokens, proof.leafIndex.value, ClaimLeaf(claim).value,
                  Distributed(pool, claim.unitShare, rate, Active(recipients)),
                  Burned(pool, claim.unitShare, rate, Active(recipients)));
  }
}
