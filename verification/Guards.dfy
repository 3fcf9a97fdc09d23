/**
 * Exactly when each instruction succeeds in a reachable world. Whatever the code checks beyond this can
 * never fail there: no subtraction underflows, no conversion and no unwrap panics.
 */
module Guards {
  import opened Units
  import opened Bitmaps
  import opened BurnRates
  import opened Rewards
  import opened Accounts
  import opened Distributions
  import opened DistributionInvariants
  import opened World
  import opened WorldInvariants
  import opened Runs
  import opened RunTheorems
  import opened LedgerTheorems
  import opened DepositFlows

  // ---------------------------------------------------------------- settling debt

  /** The proof leads from the validator's committed debt, which has a bit and is not marked. */
  ghost predicate OpenLeaf(a: DistributionState, node: nat, amount: u64, proof: MerkleProof) {
    && proof.leafIndex.Some? && proof.genuine
    && var root, index := a.data.debtRoot, proof.leafIndex.value as nat;
       && index in Debts(root) && Debts(root)[index] == DebtLeaf(node, amount)
       && index < 8 * DebtBytes(a.data) && index !in SetsOf(a).processed
  }

  lemma PayableLeaf(a: DistributionState, node: nat, amount: u64, proof: MerkleProof)
    requires DistributionOk(a)
    ensures CanSettle(a, proof, DebtLeaf(node, amount)) <==> OpenLeaf(a, node, amount, proof)
  {
    hide Lifecycle, Integrations, RelayReserve, Ledgers;
    RangesDisjoint(a);
    if proof.leafIndex.Some? {
      CanMarkIsFreshLeaf(a.remaining, a.data.debtStart, a.data.debtEnd, proof.leafIndex.value);
    }
  }

  lemma WritableLeaf(a: DistributionState, node: nat, amount: u64, proof: MerkleProof)
    requires DistributionOk(a)
    ensures CanWriteOffFrom(a, proof, DebtLeaf(node, amount))
            <==> a.data.writeOffEnabled && OpenLeaf(a, node, amount, proof)
  {
    hide Lifecycle, Integrations, RelayReserve, Payments, PoolLedger;
    RangesDisjoint(a);
    var d := a.data;
    if proof.leafIndex.Some? && d.writeOffEnabled {
      var index := proof.leafIndex.value;
      CanMarkIsFreshLeaf(a.remaining, d.writeOffStart, d.writeOffEnd, index);
      CanMarkIsFreshLeaf(a.remaining, d.debtStart, d.debtEnd, index);
      if CanMark(a.remaining, d.writeOffStart, d.writeOffEnd, index) {
        var marked := Mark(a.remaining, d.writeOffStart, d.writeOffEnd, index);
        MarkKeepsOthers(a.remaining, d.writeOffStart, d.writeOffEnd, index, d.debtStart, d.debtEnd);
        CanMarkIsFreshLeaf(marked, d.debtStart, d.debtEnd, index);
      }
    }
  }

  /** A payment succeeds exactly for an open leaf of the paying validator that its balance covers. */
  lemma PayExactly(w: World, e: nat, node: nat, amount: u64, proof: MerkleProof)
    requires Reachable(w)
    ensures Effect(w, PayDebt(e, node, amount, proof)).Some? <==>
      && !w.config.isPaused && e in w.distributions && node in w.deposits
      && w.distributions[e].data.debtFinalized
      && OpenLeaf(w.distributions[e], node, amount, proof)
      && amount <= Balance(w, node)
  {
    hide DistributionOk, Balanced, CanSettle, OpenLeaf, DistributionsInOrder, Paid, MinimumBalance;
    ReachableInv(w);
    if e in w.distributions {
      InOrder(w, e);
      PayableLeaf(w.distributions[e], node, amount, proof);
    }
  }

  /** A write-off succeeds exactly for an open leaf that the validator's balance does not cover. */
  lemma WriteOffExactly(w: World, e: nat, node: nat, target: nat, amount: u64, proof: MerkleProof)
    requires Reachable(w)
    ensures Effect(w, WriteOff(e, node, target, amount, proof)).Some? <==>
      && !w.config.isPaused && e in w.distributions && node in w.deposits && target in w.distributions
      && w.distributions[e].data.writeOffEnabled
      && OpenLeaf(w.distributions[e], node, amount, proof)
      && Balance(w, node) < amount
      && e <= target && !w.distributions[target].data.swept && w.distributions[target].data.debtFinalized
      && WrapAdd64(w.distributions[target].data.uncollectibleDebt, amount) <= w.distributions[target].data.totalDebt
  {
    hide DistributionOk, Balanced, CanWriteOffFrom, OpenLeaf, MinimumBalance, MovedOff, WrittenOffFrom;
    ReachableInv(w);
    if e in w.distributions && target in w.distributions {
      var leaf := DebtLeaf(node, amount);
      InOrder(w, e);
      InOrder(w, target);
      WritableLeaf(w.distributions[e], node, amount, proof);
      if CanWriteOffFrom(w.distributions[e], proof, leaf) {
        SourceKeepsGuards(w.distributions[e], proof, leaf);
      }
    }
  }

  lemma SourceKeepsGuards(a: DistributionState, proof: MerkleProof, leaf: DebtLeaf)
    requires CanWriteOffFrom(a, proof, leaf)
    ensures forall source, amount ::
      CanCharge(WrittenOffFrom(a, proof, leaf).data, source, amount) <==> CanCharge(a.data, source, amount)
  {}

  /** Of one debt in one world at most one of payment and write-off is possible, and the balance decides which. */
  lemma PaidOrWrittenOff(w: World, e: nat, node: nat, target: nat, amount: u64, proof: MerkleProof)
    requires Reachable(w)
    ensures Effect(w, WriteOff(e, node, target, amount, proof)).Some? ==>
              Balance(w, node) < amount && Effect(w, PayDebt(e, node, amount, proof)).None?
    ensures Effect(w, PayDebt(e, node, amount, proof)).Some? ==>
              amount <= Balance(w, node) && Effect(w, WriteOff(e, node, target, amount, proof)).None?
  {
    hide Reachable, Effect, OpenLeaf;
    PayExactly(w, e, node, amount, proof);
    WriteOffExactly(w, e, node, target, amount, proof);
  }

  // ---------------------------------------------------------------- rewards

  /** The proof leads from the claimant's own unblocked leaf, which has a bit and is not marked. */
  ghost predicate OpenReward(a: DistributionState, proof: MerkleProof, claim: Claim) {
    && proof.leafIndex.Some? && proof.genuine
    && claim.unitShare <= 1_000_000_000 && claim.economicBurnRate <= 1_000_000_000
    && var root, index := a.data.rewardsRoot, proof.leafIndex.value as nat;
       && index in Shares(root)
       && Shares(root)[index] == RewardShare(claim.contributor, claim.unitShare, claim.economicBurnRate)
       && index < 8 * RewardBytes(a.data) && index !in SetsOf(a).rewarded
  }

  lemma RewardableLeaf(a: DistributionState, proof: MerkleProof, claim: Claim)
    requires DistributionOk(a) && proof.leafIndex.Some?
    ensures OpenReward(a, proof, claim) <==>
      && CanMark(a.remaining, a.data.rewardsStart, a.data.rewardsEnd, proof.leafIndex.value)
      && ClaimLeaf(claim).Some? && VerifiesShare(a.data.rewardsRoot, proof, ClaimLeaf(claim).value)
  {
    hide Lifecycle, Integrations, RelayReserve, Ledgers;
    RangesDisjoint(a);
    CanMarkIsFreshLeaf(a.remaining, a.data.rewardsStart, a.data.rewardsEnd, proof.leafIndex.value);
  }

  /** Neither the pool's sum nor the recipients can be in the way of a reward. */
  lemma RewardExactly(w: World, e: nat, proof: MerkleProof, claim: Claim, relayer: Address)
    requires Reachable(w)
    ensures Effect(w, DistributeRewards(e, proof, claim, relayer)).Some? <==>
      && !w.config.isPaused && e in w.distributions
      && claim.contributor in w.contributors && Active(w.contributors[claim.contributor]) != []
      && var a := w.distributions[e];
         && a.data.swept && a.data.integrationsCollected >= a.data.integrationsSnapshot
         && a.data.distributedCount < a.data.totalContributors
         && OpenReward(a, proof, claim)
         && MulScalar32(claim.unitShare, Min(Pool(a.data), U64_MAX)) <= a.tokens
         && a.data.relayLamports <= a.lamports
  {
    hide DistributionOk, Balanced, OpenReward, CanMark, ClaimLeaf, VerifiesShare, MulScalar32, RewardDistributed,
      Active, EpochOrder, SnapshotsBelow, BurnRateOrder, SumShares;
    ReachableInv(w);
    if e in w.distributions {
      InOrder(w, e);
      PoolIsSmall(w.distributions[e]);
      if proof.leafIndex.Some? {
        RewardableLeaf(w.distributions[e], proof, claim);
      } else {
        NoProofNoReward(w.distributions[e], proof, claim);
      }
    }
  }

  lemma PoolIsSmall(a: DistributionState)
    requires DistributionOk(a)
    ensures Pool(a.data) < TWO_64
  {}

  lemma NoProofNoReward(a: DistributionState, proof: MerkleProof, claim: Claim)
    requires proof.leafIndex.None?
    ensures !OpenReward(a, proof, claim)
  {}

  // ---------------------------------------------------------------- calculation

  /** The account of the epoch exists, the program runs, and the accountants' time has come. */
  predicate Due(w: World, e: nat, now: int) {
    && !w.config.isPaused && e in w.distributions
    && 0 != w.distributions[e].data.calculationAllowedTimestamp <= now
  }

  /** Somebody can pay for the rent of n more bytes and for more lamports on top. */
  predicate Affordable(w: World, e: nat, n: nat, more: nat)
    requires e in w.distributions
  {
    var a := w.distributions[e];
    n <= MAX_DATA_INCREASE
    && Max(a.lamports, MinimumBalance(DISTRIBUTION_DATA_END + |a.remaining| + n)) + more
       <= a.lamports + w.outsideLamports
  }

  lemma ConfigureDebtExactly(w: World, e: nat, now: int, validators: u32, debt: u64, root: Hash)
    ensures Effect(w, ConfigureDebt(e, now, validators, debt, root)).Some? <==>
      Due(w, e, now) && !w.distributions[e].data.debtFinalized && w.distributions[e].data.fees != NO_FEES
  {}

  lemma ConfigureRewardsExactly(w: World, e: nat, now: int, contributors: u32, root: Hash)
    ensures Effect(w, ConfigureRewards(e, now, contributors, root)).Some? <==>
      Due(w, e, now) && !w.distributions[e].data.rewardsFinalized
  {}

  lemma SetEconomicBurnRateExactly(w: World, e: nat, rate: u32)
    ensures Effect(w, SetEconomicBurnRate(e, rate)).Some? <==>
      !w.config.isPaused && e in w.distributions && !w.distributions[e].data.rewardsFinalized && rate <= 1_000_000_000
  {}

  /** What each allocation leaves in lamports and tokens. */
  lemma AllocationCosts(a: DistributionState)
    ensures var d, n := a.data, BytesFor(a.data.totalValidators);
      && FinalizedDebt(a).tokens == WithWriteOffEnabled(a).tokens == FinalizedRewards(a).tokens == a.tokens
      && FinalizedDebt(a).lamports
         == (if NetDebt(d) == Some(0) then a.lamports
             else Max(a.lamports, MinimumBalance(DISTRIBUTION_DATA_END + |a.remaining| + n)))
      && WithWriteOffEnabled(a).lamports
         == Max(a.lamports, MinimumBalance(DISTRIBUTION_DATA_END + |a.remaining| + n))
      && FinalizedRewards(a).lamports
         == Max(a.lamports, MinimumBalance(DISTRIBUTION_DATA_END + |a.remaining| + BytesFor(d.totalContributors)))
            + RelayFunds(d)
  {
    hide MinimumBalance;
  }

  lemma NetDebtOf(a: DistributionState)
    requires DistributionOk(a) && !a.data.debtFinalized
    ensures NetDebt(a.data) == Some(a.data.totalDebt)
  {
    hide Ledgers, Layout, Integrations, RelayReserve;
  }

  lemma FinalizeDebtExactly(w: World, e: nat, now: int)
    requires Reachable(w)
    ensures Effect(w, FinalizeDebt(e, now)).Some? <==>
      && Due(w, e, now) && !w.distributions[e].data.debtFinalized
      && (w.distributions[e].data.totalDebt == 0
          || Affordable(w, e, BytesFor(w.distributions[e].data.totalValidators), 0))
  {
    hide Inv, DistributionOk, MinimumBalance, NetDebt, FinalizedDebt;
    ReachableInv(w);
    if e in w.distributions {
      InOrder(w, e);
      AllocationCosts(w.distributions[e]);
      if !w.distributions[e].data.debtFinalized {
        NetDebtOf(w.distributions[e]);
      }
    }
  }

  lemma EnableWriteOffExactly(w: World, e: nat)
    ensures Effect(w, EnableWriteOff(e)).Some? <==>
      && !w.config.isPaused && e in w.distributions
      && 0 != w.config.writeOffActivationEpoch <= w.config.nextEpoch
      && w.distributions[e].data.debtFinalized && !w.distributions[e].data.writeOffEnabled
      && Affordable(w, e, BytesFor(w.distributions[e].data.totalValidators), 0)
  {
    hide MinimumBalance, WithWriteOffEnabled;
    if e in w.distributions {
      AllocationCosts(w.distributions[e]);
    }
  }

  /** Rewards become final only after the debt, after enough newer epochs, and with a root unless nothing is owed. */
  lemma FinalizeRewardsExactly(w: World, e: nat, now: int)
    requires Reachable(w)
    ensures Effect(w, FinalizeRewards(e, now)).Some? <==>
      && Due(w, e, now) && !w.distributions[e].data.rewardsFinalized && w.distributions[e].data.debtFinalized
      && var d := w.distributions[e].data;
         && (d.rewardsRoot == NullHash ==>
               && d.totalDebt == d.uncollectibleDebt && d.prepaid2z == d.integrations2z == 0
               && d.integrationsCollected >= d.integrationsSnapshot)
         && 0 != w.config.minimumEpochsToFinalize && e + w.config.minimumEpochsToFinalize <= w.config.nextEpoch
         && Affordable(w, e, BytesFor(d.totalContributors), d.relayLamports * d.totalContributors)
  {
    hide Inv, Ledgers, Layout, Integrations, RelayReserve, MinimumBalance, FinalizedRewards;
    ReachableInv(w);
    EpochsInOrder(w);
    if e in w.distributions {
      InOrder(w, e);
      AllocationCosts(w.distributions[e]);
      RelayFundsFit(w.distributions[e].data.relayLamports, w.distributions[e].data.totalContributors);
    }
  }

  // ---------------------------------------------------------------- 2Z

  /** The swap program must give exactly what is asked, and hold what it answers. */
  lemma SweepExactly(w: World, e: nat, returnedSol: u64, returned2z: u64)
    requires Reachable(w)
    ensures Effect(w, Sweep(e, returnedSol, returned2z)).Some? <==>
      && !w.config.isPaused && e in w.distributions && e == w.journal.data.nextSweepEpoch
      && w.distributions[e].data.rewardsFinalized
      && var debt := w.distributions[e].data.totalDebt - w.distributions[e].data.uncollectibleDebt;
         (debt != 0 ==>
            && debt <= w.journal.data.swappedSol && w.config.swapProgramSet && w.config.swapDestinationSet
            && returnedSol == debt && returned2z <= w.swapTokens)
  {
    hide Balanced, Ledgers, Layout, Integrations, RelayReserve;
    ReachableInv(w);
    if e in w.distributions {
      InOrder(w, e);
    }
  }

  /** A snapshot integration can be collected from exactly once, and neither sum overflows. */
  lemma CollectExactly(w: World, e: nat, program: nat, amount: nat)
    requires Reachable(w)
    ensures Effect(w, CollectIntegration(e, program, amount)).Some? <==>
      && !w.config.isPaused && e in w.distributions && program in w.integrations
      && w.integrations[program] < w.distributions[e].data.integrationsSnapshot && w.integrations[program] < 512
      && w.integrations[program] as nat !in w.distributions[e].data.collectedIntegrations
      && amount <= w.outside2z
  {
    hide Inv, Reachable, CanCollect, CollectionFits, Collected, DistributionOk;
    ReachableInv(w);
    if e in w.distributions && program in w.integrations {
      InOrder(w, e);
      WithinSupply(w);
      CollectableExactly(w.distributions[e], w.integrations[program]);
      if CanCollect(w.distributions[e].data, w.integrations[program]) && amount <= w.outside2z {
        CollectionAlwaysFits(w.distributions[e], w.integrations[program], amount);
      }
      if CollectionFits(w.distributions[e].data, amount) {
        CollectedTokens(w.distributions[e], w.integrations[program], amount);
      }
    }
  }

  lemma CollectableExactly(a: DistributionState, index: u16)
    requires DistributionOk(a)
    ensures CanCollect(a.data, index) <==>
      index < a.data.integrationsSnapshot && index < 512 && index as nat !in a.data.collectedIntegrations
  {
    hide Lifecycle, Layout, RelayReserve, Ledgers;
    GateIsExact(a.data);
    if index < a.data.integrationsSnapshot && index as nat !in a.data.collectedIntegrations {
      var i: nat := index;
      assert i < a.data.integrationsSnapshot && i !in a.data.collectedIntegrations;
    }
  }

  lemma CollectionAlwaysFits(a: DistributionState, index: u16, amount: nat)
    requires DistributionOk(a) && CanCollect(a.data, index) && a.tokens + amount < TWO_64
    ensures CollectionFits(a.data, amount)
  {
    hide Layout, RelayReserve, Counters, Payments;
    NothingDistributed(a);
  }

  /** While the gate is shut the whole pool is still in the token account. */
  lemma NothingDistributed(a: DistributionState)
    requires DistributionOk(a) && !AllIntegrationsCollected(a.data)
    ensures Pool(a.data) <= a.tokens
  {
    hide Layout, RelayReserve, Payments, Integrations;
    NothingRewardedYet(a.data, SetsOf(a), a.tokens);
  }

  lemma CollectedTokens(a: DistributionState, index: u16, amount: nat)
    requires CollectionFits(a.data, amount)
    ensures Collected(a, index, amount).tokens == a.tokens + amount
    ensures Collected(a, index, amount).lamports == a.lamports
  {}

  /** No more than the recorded SOL, and no more 2Z than there is. */
  lemma WithdrawSolExactly(w: World, amount: u64, transferred2z: u64, destination: Address)
    requires Reachable(w)
    ensures Effect(w, WithdrawSol(amount, transferred2z, destination)).Some? <==>
      && !w.config.isPaused && w.config.swapProgramSet && w.config.swapDestinationSet
      && transferred2z <= w.outside2z && amount <= w.journal.data.totalSol
  {
    hide Reachable, Orderly;
    ReachableInv(w);
  }

  // ---------------------------------------------------------------- everything else

  /** A validator can withdraw whatever it has beyond its written-off debt, and nothing else is asked. */
  lemma WithdrawDepositExactly(w: World, node: nat, beneficiary: Address)
    ensures Effect(w, WithdrawDeposit(node, beneficiary)).Some? <==>
      !w.config.isPaused && node in w.deposits && w.deposits[node].data.writtenOff < Balance(w, node)
  {
    hide MinimumBalance;
  }

  /** A new epoch begins after the grace period, with every parameter set and its rent affordable. */
  lemma InitializeDistributionExactly(w: World, now: int, prefunded: nat)
    requires Reachable(w)
    ensures Effect(w, InitializeDistribution(now, prefunded)).Some? <==>
      var c := w.config;
      && !c.isPaused && c.initializationGraceMinutes != 0 && c.calculationGraceMinutes != 0
      && c.burnParams.next != 0 && c.relayLamports != 0
      && c.lastTimestamp + 60 * c.initializationGraceMinutes <= now
      && now + 60 * c.calculationGraceMinutes < TWO_32
      && Max(prefunded, MinimumBalance(DISTRIBUTION_DATA_END)) <= w.outsideLamports
  {
    hide DistributionOk, MinimumBalance, Computed;
    ReachableInv(w);
    WithinSupply(w);
    ComputeSucceeds(w.config.burnParams);
  }

  lemma InitializeIntegrationExactly(w: World, program: nat)
    ensures Effect(w, InitializeIntegration(program)).Some? <==>
      program !in w.integrations && w.journal.data.integrationsCount < 65_535
  {}

  lemma InitializeDepositExactly(w: World, node: nat, prefunded: nat)
    ensures Effect(w, InitializeDeposit(node, prefunded)).Some? <==>
      node !in w.deposits && prefunded + MinimumBalance(DEPOSIT_DATA_END) <= w.outsideLamports
  {
    hide MinimumBalance;
  }

  /** While the program is paused nothing it holds is paid, charged, swept, shared out or withdrawn. */
  lemma PausedMovesNothing(w: World, i: Instruction)
    requires w.config.isPaused && Effect(w, i).Some?
    ensures i.Configure? || i.InitializeContributor? || i.InitializeDeposit? || i.InitializeIntegration?
            || i.SendLamports? || i.Send2z?
  {
    hide CanPay, CanMoveOff, CanDistribute, CanSweep;
  }
}
