/** Runs under honest roots: which unchecked additions are left to chance, and who can always claim. */
module HonestRuns {
  import opened Units
  import opened Sums
  import opened Bitmaps
  import opened Rewards
  import opened Accounts
  import opened Distributions
  import opened DistributionInvariants
  import opened World
  import opened WorldInvariants
  import opened Runs
  import opened RunTheorems
  import opened LedgerTheorems
  import opened DebtTheorems
  import opened PoolTheorems

  ghost predicate HonestRoots(w: World) {
    forall e :: e in w.distributions ==>
      var d := w.distributions[e].data;
      (d.debtFinalized ==> HonestDebt(d)) && (d.rewardsFinalized ==> HonestRewards(d))
  }

  function TotalDebtOf(a: DistributionState): int {
    a.data.totalDebt
  }

  /** The debt of all epochs together fits 64 bits. */
  ghost predicate DebtFits(w: World) {
    MapSum(w.distributions, TotalDebtOf) < TWO_64
  }

  // ---------------------------------------------------------------- payments and rewards

  /** Under honest roots payments and rewards always fit. */
  lemma HonestStepFits(w: World, i: Instruction)
    requires Reachable(w) && HonestRoots(w)
    requires i.PayDebt? || i.DistributeRewards?
    ensures StepFits(w, i)
  {
    hide Balanced, CanMark, HonestDebt, HonestRewards, DistributionOk;
    ReachableInv(w);
    match i
    case PayDebt(e, node, amount, proof) =>
      if CanPayDebt(w, e, node, amount, proof) {
        InOrder(w, e);
        HonestPaymentFits(w.distributions[e], proof, DebtLeaf(node, amount));
      }
    case DistributeRewards(e, proof, claim, relayer) =>
      if CanReward(w, e, proof, claim) {
        InOrder(w, e);
        RewardReady(w, e, proof, claim);
        HonestRewardFits(w.distributions[e], proof, claim, w.contributors[claim.contributor]);
      }
    case _ =>
  }

  /** Whoever is rewarded, the rewards were final. */
  lemma RewardReady(w: World, e: nat, proof: MerkleProof, claim: Claim)
    requires Orderly(w) && CanReward(w, e, proof, claim)
    ensures w.distributions[e].data.rewardsFinalized
  {
    hide Ledgers, Layout, Integrations, RelayReserve;
  }

  // ---------------------------------------------------------------- write-offs and withdrawals

  /** One distribution collects and writes off no more than its debt. */
  lemma SettledWithinDebt(a: DistributionState)
    requires DistributionOk(a) && (a.data.debtFinalized ==> HonestDebt(a.data))
    ensures 0 <= WrittenOffOf(a)
    ensures CollectedOf(a) + WrittenOffOf(a) <= TotalDebtOf(a)
  {
    hide Lifecycle, Integrations, RelayReserve, PoolLedger, DebtOf, HonestDebt;
    var d, s := a.data, SetsOf(a);
    DebtNonNegative(d.debtRoot, s.writtenOff);
    if d.debtFinalized {
      DebtPartition(d, s);
      DebtNonNegative(d.debtRoot, Unprocessed(d, s));
    } else {
      NoLeavesYet(a);
      NoLeavesSum(d.debtRoot, 0);
      var none: set<nat> := {};
      assert s.processed == none && s.writtenOff == none && none - none == none;
    }
  }

  /** A leaf about to be written off is within the debt, too. */
  lemma NextWithinDebt(a: DistributionState, proof: MerkleProof, leaf: DebtLeaf)
    requires DistributionOk(a) && HonestDebt(a.data) && CanWriteOffFrom(a, proof, leaf)
    ensures WrittenOffOf(a) + leaf.amount <= TotalDebtOf(a)
  {
    hide DistributionOk, HonestDebt, CanWriteOffFrom, WrittenOffFrom, Keeps;
    WriteOffEntries(a, proof, leaf);
    var b := WrittenOffFrom(a, proof, leaf);
    KeepsIsOk(a, b);
    SameDebt(a, proof, leaf);
    SettledWithinDebt(b);
  }

  lemma SameDebt(a: DistributionState, proof: MerkleProof, leaf: DebtLeaf)
    requires CanWriteOffFrom(a, proof, leaf)
    ensures var b := WrittenOffFrom(a, proof, leaf);
      && TotalDebtOf(b) == TotalDebtOf(a) && CollectedOf(b) == CollectedOf(a) && CollectedOf(a) >= 0
      && (HonestDebt(b.data) <==> HonestDebt(a.data))
  {}

  lemma AllSettledWithinDebt(w: World)
    requires Inv(w) && HonestRoots(w)
    ensures forall e :: e in w.distributions ==>
      0 <= WrittenOffOf(w.distributions[e]) <= TotalDebtOf(w.distributions[e])
      && CollectedOf(w.distributions[e]) <= TotalDebtOf(w.distributions[e])
  {
    hide DistributionOk, HonestDebt, HonestRewards, Balanced, WrittenOffOf;
    forall e | e in w.distributions
      ensures 0 <= WrittenOffOf(w.distributions[e]) <= TotalDebtOf(w.distributions[e])
              && CollectedOf(w.distributions[e]) <= TotalDebtOf(w.distributions[e])
    {
      InOrder(w, e);
      SettledWithinDebt(w.distributions[e]);
    }
  }

  /** What was written off so far and the next leaf are within the debt of all epochs. */
  lemma NextWithinAllDebt(w: World, e: nat, proof: MerkleProof, leaf: DebtLeaf)
    requires Inv(w) && HonestRoots(w) && e in w.distributions && CanWriteOffFrom(w.distributions[e], proof, leaf)
    ensures MapSum(w.distributions, WrittenOffOf) + leaf.amount <= MapSum(w.distributions, TotalDebtOf)
  {
    hide DistributionOk, HonestDebt, HonestRewards, Balanced, WrittenOffOf, CanWriteOffFrom;
    var ds := w.distributions;
    AllSettledWithinDebt(w);
    InOrder(w, e);
    WriteOffIsFinal(ds[e], proof, leaf);
    NextWithinDebt(ds[e], proof, leaf);
    MapSumRemove(ds, e, WrittenOffOf);
    MapSumRemove(ds, e, TotalDebtOf);
    MapSumAtMost(ds - {e}, WrittenOffOf, TotalDebtOf);
  }

  lemma WriteOffIsFinal(a: DistributionState, proof: MerkleProof, leaf: DebtLeaf)
    requires DistributionOk(a) && CanWriteOffFrom(a, proof, leaf)
    ensures a.data.debtFinalized
  {}

  /** Both unchecked additions of a write-off fit. */
  lemma HonestWriteOffFits(w: World, e: nat, node: nat, target: nat, amount: u64, proof: MerkleProof)
    requires Reachable(w) && HonestRoots(w) && DebtFits(w) && CanWriteOffDebt(w, e, node, target, amount, proof)
    ensures WriteOffFits(w, node, target, amount)
  {
    hide DistributionOk, HonestRoots, WrittenOffOf, CanWriteOffFrom, CanCharge, Orderly, Reachable, ChargedForward;
    ReachableInv(w);
    NextWithinAllDebt(w, e, proof, DebtLeaf(node, amount));
    MapSumAtLeast(w.distributions, target, UncollectibleOf);
    MapSumAtLeast(w.deposits, node, DepositWrittenOff);
  }

  /** The swapped SOL fits: it was collected, and no more is collected than is owed. */
  lemma HonestWithdrawalFits(w: World, amount: u64)
    requires Reachable(w) && HonestRoots(w) && DebtFits(w) && amount <= w.journal.data.totalSol
    ensures w.journal.data.swappedSol + amount < TWO_64
  {
    hide DistributionOk, HonestRoots, WrittenOffOf, Reachable, Orderly, ChargedForward;
    ReachableInv(w);
    AllSettledWithinDebt(w);
    MapSumAtMost(w.distributions, CollectedOf, TotalDebtOf);
    SweptNonNegative(w);
  }

  lemma SweptNonNegative(w: World)
    requires Inv(w)
    ensures 0 <= MapSum(w.distributions, SweptDebtOf)
  {
    hide Ledgers, Layout, Integrations, RelayReserve, Balanced;
    MapSumNonNegative(w.distributions, SweptDebtOf);
  }

  // ---------------------------------------------------------------- what is left to chance

  /** The swap program's answer, and a 128-bit counter of all 2Z ever swapped. */
  predicate SwapFits(w: World, i: Instruction) {
    match i
    case Sweep(e, returnedSol, returned2z) =>
      CanSweepTokens(w, e, returnedSol, returned2z) && NetDebt(w.distributions[e].data) != Some(0) ==>
        returned2z <= w.journal.data.swap2zBalance
    case WithdrawSol(amount, transferred2z, destination) =>
      CanWithdrawSol(w, amount, transferred2z) ==> w.journal.data.lifetimeSwapped2z + transferred2z < TWO_128
    case _ => true
  }

  /** Under honest roots and a total debt that fits 64 bits, a step fits exactly when the swap's part does. */
  lemma HonestStepFitsExactly(w: World, i: Instruction)
    requires Reachable(w) && HonestRoots(w) && DebtFits(w)
    ensures StepFits(w, i) <==> SwapFits(w, i)
  {
    hide Reachable, HonestRoots, DebtFits, CanPayDebt, CanReward, CanWriteOffDebt, WriteOffFits, RewardFits;
    match i
    case PayDebt(e, node, amount, proof) => HonestStepFits(w, i);
    case DistributeRewards(e, proof, claim, relayer) => HonestStepFits(w, i);
    case WriteOff(e, node, target, amount, proof) =>
      if CanWriteOffDebt(w, e, node, target, amount, proof) {
        HonestWriteOffFits(w, e, node, target, amount, proof);
      }
    case WithdrawSol(amount, transferred2z, destination) =>
      if CanWithdrawSol(w, amount, transferred2z) {
        HonestWithdrawalFits(w, amount);
      }
    case _ =>
  }

  /** Before every step the roots are honest, the debt fits and so does the swap's part of the step. */
  ghost predicate HonestRun(w: World, run: seq<Instruction>) {
    run == [] ||
    var before := run[..|run| - 1];
    var u := Run(w, before);
    HonestRun(w, before) && HonestRoots(u) && DebtFits(u) && SwapFits(u, run[|run| - 1])
  }

  /** An honest run fits, so everything that was proved of runs that fit holds of it. */
  lemma {:induction false} HonestRunFits(w: World, run: seq<Instruction>)
    requires Reachable(w) && HonestRun(w, run)
    ensures RunFits(w, run) && Reachable(Run(w, run))
  {
    hide Reachable, HonestRoots, DebtFits, SwapFits, StepFits, Step;
    if run != [] {
      var before := run[..|run| - 1];
      HonestRunFits(w, before);
      HonestStepFitsExactly(Run(w, before), run[|run| - 1]);
      ReachableStep(Run(w, before), run[|run| - 1]);
    }
  }

  // ---------------------------------------------------------------- every honest claim is honoured

  /** A committed leaf of a swept, fully collected distribution can be claimed exactly while it is not marked. */
  lemma ClaimExactly(a: DistributionState, proof: MerkleProof, claim: Claim, recipients: seq<RecipientShare>)
    requires DistributionOk(a) && HonestRewards(a.data) && Reserved(a)
    requires a.data.swept && AllIntegrationsCollected(a.data)
    requires ClaimLeaf(claim).Some? && VerifiesShare(a.data.rewardsRoot, proof, ClaimLeaf(claim).value)
    requires Active(recipients) != []
    ensures CanDistribute(a, proof, claim, recipients) <==> proof.leafIndex.value as nat !in SetsOf(a).rewarded
  {
    hide Integrations, RelayReserve, Counters, Payments, HonestRewards, SetsOf, Reserved, ShareAmount;
    var d, index := a.data, proof.leafIndex.value as nat;
    LeafHasBit(a, index);
    if index !in SetsOf(a).rewarded {
      AllRewardedExactly(a);
      NextRewardCovered(a, index);
      ReserveCovers(a);
    }
  }

  /** A committed index has a bit in the rewards bitmap. */
  lemma LeafHasBit(a: DistributionState, index: nat)
    requires DistributionOk(a) && HonestRewards(a.data) && a.data.rewardsFinalized
    requires index in Shares(a.data.rewardsRoot)
    ensures CanMark(a.remaining, a.data.rewardsStart, a.data.rewardsEnd, index) <==> index !in SetsOf(a).rewarded
  {
    hide Ledgers, Integrations, RelayReserve, Lifecycle;
    RangesDisjoint(a);
    CanMarkIsFreshLeaf(a.remaining, a.data.rewardsStart, a.data.rewardsEnd, index);
  }

  /**
   * Once an honest distribution is swept and collected, a contributor with recipients is paid for a
   * committed leaf exactly if it was not paid before. Write-off must not have taken the relayers' reserve.
   */
  lemma HonestClaimSucceeds(w: World, e: nat, proof: MerkleProof, claim: Claim, relayer: Address)
    requires Reachable(w) && Open(w, e)
    requires HonestRewards(w.distributions[e].data)
    requires !EnabledLate(w.distributions[e].data) || Reserved(w.distributions[e])
    requires w.distributions[e].data.swept && AllIntegrationsCollected(w.distributions[e].data)
    requires ClaimLeaf(claim).Some?
    requires VerifiesShare(w.distributions[e].data.rewardsRoot, proof, ClaimLeaf(claim).value)
    requires claim.contributor in w.contributors && Active(w.contributors[claim.contributor]) != []
    ensures Effect(w, DistributeRewards(e, proof, claim, relayer)).Some?
            <==> proof.leafIndex.value as nat !in SetsOf(w.distributions[e]).rewarded
  {
    hide DistributionOk, Balanced, HonestRewards, CanDistribute, SetsOf, Reserved, EnabledLate, VerifiesShare,
      RewardDistributed, ClaimLeaf, RecipientsWellformed;
    ReachableInv(w);
    InOrder(w, e);
    if !EnabledLate(w.distributions[e].data) {
      ReserveOf(w.distributions[e]);
    }
    ClaimExactly(w.distributions[e], proof, claim, w.contributors[claim.contributor]);
  }
}
