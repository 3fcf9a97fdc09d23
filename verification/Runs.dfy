/** Whole runs: the steps that keep the invariant are exactly those whose unchecked additions fit. */
module Runs {
  import opened Units
  import opened Sums
  import opened BurnRates
  import opened Rewards
  import opened Accounts
  import opened Distributions
  import opened DistributionInvariants
  import opened World
  import opened WorldInvariants
  import opened Frames

  /**
   * What the code leaves unchecked: the plain additions on 64 and 128 bits, and that the swap program
   * returns no more 2Z than the journal has recorded. An instruction that fails always fits.
   */
  predicate StepFits(w: World, i: Instruction) {
    match i
    case PayDebt(e, node, amount, proof) =>
      CanPayDebt(w, e, node, amount, proof) ==> w.distributions[e].data.collectedPayments + amount < TWO_64
    case WriteOff(e, node, target, amount, proof) =>
      CanWriteOffDebt(w, e, node, target, amount, proof) ==> WriteOffFits(w, node, target, amount)
    case Sweep(e, returnedSol, returned2z) =>
      CanSweepTokens(w, e, returnedSol, returned2z) && NetDebt(w.distributions[e].data) != Some(0) ==>
        returned2z <= w.journal.data.swap2zBalance
    case WithdrawSol(amount, transferred2z, destination) =>
      CanWithdrawSol(w, amount, transferred2z) ==>
        && w.journal.data.swappedSol + amount < TWO_64
        && w.journal.data.lifetimeSwapped2z + transferred2z < TWO_128
    case DistributeRewards(e, proof, claim, relayer) =>
      CanReward(w, e, proof, claim) ==>
        RewardFits(w.distributions[e].data, claim, w.contributors[claim.contributor])
    case _ => true
  }

  // ---------------------------------------------------------------- steps that fit keep the invariant

  lemma ReplaceStep(w: World, e: nat, b: DistributionState)
    requires Inv(w) && CanReplace(w, e, b)
    requires Keeps(w.distributions[e], b) && Steady(w.distributions[e], b)
    ensures StepOk(w, Replace(w, e, b))
  {
    hide Keeps, Steady, Inv, StepOk;
    var v := Replace(w, e, b);
    SteadyStep(w, e, b, v.outsideLamports, v.outside2z);
  }

  /** The instructions that set the inputs of one distribution. */
  lemma CalculationKeeps(w: World, i: Instruction)
    requires Inv(w) && Effect(w, i).Some?
    requires i.ConfigureDebt? || i.ConfigureRewards? || i.SetEconomicBurnRate?
    ensures Keeps(w.distributions[i.epoch], Prepared(w, i)) && Steady(w.distributions[i.epoch], Prepared(w, i))
  {
    hide DistributionOk, Keeps, Steady, Balanced, Changed, CanReplace;
    OkAt(w, i.epoch);
    var a := w.distributions[i.epoch];
    match i
    case ConfigureDebt(e, now, validators, debt, root) => ConfigureDebtKeeps(a, validators, debt, root);
    case ConfigureRewards(e, now, contributors, root) => ConfigureRewardsKeeps(a, contributors, root);
    case SetEconomicBurnRate(e, rate) => EconomicBurnRateKeeps(a, rate);
  }

  /** The instructions that allocate a bitmap. */
  lemma AllocationKeeps(w: World, i: Instruction)
    requires Inv(w) && Effect(w, i).Some?
    requires i.FinalizeDebt? || i.FinalizeRewards? || i.EnableWriteOff?
    ensures Keeps(w.distributions[i.epoch], Prepared(w, i)) && Steady(w.distributions[i.epoch], Prepared(w, i))
  {
    hide DistributionOk, Keeps, Steady, Balanced, Changed, CanReplace, FinalizedDebt, FinalizedRewards,
      WithWriteOffEnabled, CanFinalizeDebt, CanFinalizeRewards, CanEnableWriteOff;
    OkAt(w, i.epoch);
    var a := w.distributions[i.epoch];
    match i
    case FinalizeDebt(e, now) => FinalizeDebtKeeps(a, now);
    case FinalizeRewards(e, now) => FinalizeRewardsKeeps(a, w.config, now);
    case EnableWriteOff(e) => EnableWriteOffKeeps(a, w.config);
  }

  lemma CollectionKeeps(w: World, i: Instruction)
    requires Inv(w) && Effect(w, i).Some? && i.CollectIntegration?
    ensures Keeps(w.distributions[i.epoch], Prepared(w, i)) && Steady(w.distributions[i.epoch], Prepared(w, i))
    ensures w.distributions[i.epoch].tokens + i.collected < TWO_64
  {
    hide DistributionOk, Keeps, Steady, Changed, CanReplace, CanCollect, Collected;
    OkAt(w, i.epoch);
    WithinSupply(w);
    CollectKeeps(w.distributions[i.epoch], w.integrations[i.program], i.collected);
  }

  lemma PreparationKeeps(w: World, i: Instruction)
    requires Inv(w) && Effect(w, i).Some? && Prepares(i)
    ensures Keeps(w.distributions[i.epoch], Prepared(w, i)) && Steady(w.distributions[i.epoch], Prepared(w, i))
  {
    hide Inv, Effect, Keeps, Steady, Prepared;
    if i.CollectIntegration? {
      CollectionKeeps(w, i);
    } else if i.FinalizeDebt? || i.FinalizeRewards? || i.EnableWriteOff? {
      AllocationKeeps(w, i);
    } else {
      CalculationKeeps(w, i);
    }
  }

  lemma PreparationStep(w: World, i: Instruction)
    requires Inv(w) && Effect(w, i).Some? && Prepares(i)
    ensures StepOk(w, Step(w, i))
  {
    hide Inv, StepOk, Keeps, Steady, Prepared, Replace, CanReplace;
    PreparationKeeps(w, i);
    PreparationIs(w, i);
    ReplaceStep(w, i.epoch, Prepared(w, i));
  }

  lemma StepKeepsInv(w: World, i: Instruction)
    requires Inv(w) && StepFits(w, i)
    ensures StepOk(w, Step(w, i))
  {
    hide Inv, StepOk, DistributionOk, Keeps, Steady, Changed, NewSetting;
    if Effect(w, i).None? {
      NothingStep(w);
    } else {
      match i
      case Configure(s) => ConfigureStep(w, s);
      case InitializeDistribution(now, prefunded) => NewDistributionStep(w, now, prefunded);
      case DistributeRewards(e, proof, claim, relayer) => RewardStep(w, e, proof, claim, relayer);
      case InitializeContributor(key) =>
        NoRecipientsWellformed();
        ContributorStep(w, key, NO_RECIPIENTS);
      case ConfigureRecipients(key, recipients) =>
        PaddedIsActive(recipients);
        ContributorStep(w, key, Padded(recipients));
      case InitializeDeposit(node, prefunded) => NewDepositStep(w, node, prefunded);
      case PayDebt(e, node, amount, proof) => PayStep(w, e, node, amount, proof);
      case WriteOff(e, node, target, amount, proof) => WriteOffStep(w, e, node, target, amount, proof);
      case Sweep(e, returnedSol, returned2z) => SweepStep(w, e, returnedSol, returned2z);
      case WithdrawSol(amount, transferred2z, destination) => WithdrawSolStep(w, amount, transferred2z, destination);
      case WithdrawDeposit(node, beneficiary) => WithdrawDepositStep(w, node, beneficiary);
      case InitializeIntegration(program) => RegisterStep(w, program);
      case SendLamports(to, lamports) => SendStep(w, to, lamports);
      case Send2z(account, tokens) => SendTokensStep(w, account, tokens);
      case _ => PreparationStep(w, i);
    }
  }

  // ---------------------------------------------------------------- steps that do not fit break it

  lemma PayBreaks(w: World, e: nat, node: nat, amount: u64, proof: MerkleProof)
    requires Inv(w) && CanPayDebt(w, e, node, amount, proof)
    requires w.distributions[e].data.collectedPayments + amount >= TWO_64
    ensures !Inv(DebtPaid(w, e, node, amount, proof))
  {
    hide DistributionOk, Evolves, WrittenOffOf, Orderly, Wellformed, ChargedForward;
    WithinSupply(w);
    DistributionSums(w.distributions, e, Paid(w.distributions[e], proof.leafIndex.value, amount));
  }

  lemma WriteOffBreaks(w: World, e: nat, node: nat, target: nat, amount: u64, proof: MerkleProof)
    requires Inv(w) && CanWriteOffDebt(w, e, node, target, amount, proof) && !WriteOffFits(w, node, target, amount)
    ensures !Inv(DebtWrittenOff(w, e, node, target, amount, proof))
  {
    hide DistributionOk, Keeps, WrittenOffOf, Wellformed, Registry, ChargedForward, CanWriteOffFrom, EpochOrder,
      SnapshotsBelow, BurnRateOrder;
    var ds, leaf := w.distributions, DebtLeaf(node, amount);
    OkAt(w, e);
    WriteOffEntries(ds[e], proof, leaf);
    var es := AfterSource(ds, e, proof, leaf);
    DistributionSums(ds, e, WrittenOffFrom(ds[e], proof, leaf));
    ChargedSets(es[target], amount);
    DistributionSums(es, target, Charged(es[target], amount));
    DepositSums(w.deposits, node, DebtWrittenOff(w, e, node, target, amount, proof).deposits[node]);
  }

  lemma ChargedSets(a: DistributionState, amount: u64)
    ensures WrittenOffOf(Charged(a, amount)) == WrittenOffOf(a)
  {}

  lemma SweepBreaks(w: World, e: nat, returnedSol: u64, returned2z: u64)
    requires Inv(w) && CanSweepTokens(w, e, returnedSol, returned2z)
    requires NetDebt(w.distributions[e].data) != Some(0) && returned2z > w.journal.data.swap2zBalance
    ensures !Inv(TokensSwept(w, e, returned2z))
  {
    hide DistributionOk, Evolves, Keeps, WrittenOffOf, DistributionsInOrder, Wellformed, Registry, ChargedForward;
    var a := w.distributions[e];
    WithinSupply(w);
    OkAt(w, e);
    SweepEntries(a, w.journal.data.nextSweepEpoch, returned2z);
    DistributionSums(w.distributions, e, Swept(a, returned2z));
  }

  /** Lamports arriving anywhere leave every entry of the global ledgers alone. */
  lemma SendEntries(w: World, to: Address, lamports: nat)
    requires lamports <= w.outsideLamports
    ensures var v := Send(w, to, lamports);
      && v.journal.data == w.journal.data && v.swapTokens == w.swapTokens
      && MapSum(v.distributions, CollectedOf) == MapSum(w.distributions, CollectedOf)
      && MapSum(v.distributions, SweptDebtOf) == MapSum(w.distributions, SweptDebtOf)
      && MapSum(v.distributions, ConvertedOf) == MapSum(w.distributions, ConvertedOf)
      && (forall e :: e in w.distributions ==>
            && e in v.distributions
            && v.distributions[e].data == w.distributions[e].data
            && v.distributions[e].remaining == w.distributions[e].remaining)
  {
    if to.OfDistribution? && to.epoch in w.distributions {
      var a := w.distributions[to.epoch];
      var b := a.(lamports := a.lamports + lamports);
      MapSumUpdate(w.distributions, to.epoch, b, CollectedOf);
      MapSumUpdate(w.distributions, to.epoch, b, SweptDebtOf);
      MapSumUpdate(w.distributions, to.epoch, b, ConvertedOf);
    }
  }

  lemma WithdrawSolBreaks(w: World, amount: u64, transferred2z: u64, destination: Address)
    requires Inv(w) && CanWithdrawSol(w, amount, transferred2z)
    requires w.journal.data.swappedSol + amount >= TWO_64
             || w.journal.data.lifetimeSwapped2z + transferred2z >= TWO_128
    ensures !Inv(SolWithdrawn(w, amount, transferred2z, destination))
  {
    hide Orderly, ChargedForward, WriteOffLedger, Lamports, Tokens, Send;
    var u := SolDebited(w, amount, transferred2z);
    WithinSupply(w);
    SendEntries(u, destination, amount);
    SolWithdrawnIsSend(w, amount, transferred2z, destination);
  }

  /** A reward that wraps a counter of the pool leaves a ledger that no longer adds up. */
  lemma RewardLedgerBreaks(d: Distribution, s: LeafSets, index: nat, leaf: RewardShare, distributed: u64, burned: u64)
    requires s.rewarded <= Shares(d.rewardsRoot).Keys && index !in s.rewarded
    requires d.distributed2z + d.burned2z == SharesOf(d.rewardsRoot, Pool(d), s.rewarded)
    requires index in Shares(d.rewardsRoot) && Shares(d.rewardsRoot)[index] == leaf && Pool(d) < TWO_64
    requires leaf.unitShare <= SHARE32_MAX && distributed + burned == ShareAmount(Pool(d), leaf.unitShare)
    requires d.distributed2z + distributed >= TWO_64 || d.burned2z + burned >= TWO_64
    ensures WrapAdd64(d.distributed2z, distributed) + WrapAdd64(d.burned2z, burned)
         != SharesOf(d.rewardsRoot, Pool(d), s.rewarded + {index})
  {
    RestrictSumInsert(Shares(d.rewardsRoot), s.rewarded, index, LeafShare(Pool(d)));
  }

  lemma RewardBreaks(w: World, e: nat, proof: MerkleProof, claim: Claim, relayer: Address)
    requires Inv(w) && CanReward(w, e, proof, claim)
    requires !RewardFits(w.distributions[e].data, claim, w.contributors[claim.contributor])
    ensures !Inv(RewardDistributed(w, e, proof, claim, relayer))
  {
    hide Balanced, EpochOrder, SnapshotsBelow, BurnRateOrder, Shape, Counters, Payments, SharesOf, Inv, SetsOf;
    var a, recipients := w.distributions[e], w.contributors[claim.contributor];
    InOrder(w, e);
    RewardAccountBreaks(a, proof, claim, recipients);
    SendEntries(RewardDebited(w, e, proof, claim), relayer, a.data.relayLamports);
    var v := RewardDistributed(w, e, proof, claim, relayer);
    SameLedgers(v.distributions[e], RewardsPaid(a, proof.leafIndex.value, claim, recipients));
    NotInOrder(v, e);
  }

  lemma RewardAccountBreaks(a: DistributionState, proof: MerkleProof, claim: Claim, recipients: seq<RecipientShare>)
    requires DistributionOk(a) && RecipientsWellformed(recipients) && CanDistribute(a, proof, claim, recipients)
    requires !RewardFits(a.data, claim, recipients)
    ensures var b := RewardsPaid(a, proof.leafIndex.value, claim, recipients);
      forall tokens :: !PoolLedger(b.data, SetsOf(b), tokens)
  {
    hide Shape, Counters, Payments, SharesOf, SetsOf;
    var d, index := a.data, proof.leafIndex.value as nat;
    var rate := EffectiveBurnRate(d, claim.economicBurnRate);
    RewardSetsOk(a, proof, claim, recipients);
    RewardSplitsExactly(Pool(d), claim.unitShare, rate, Active(recipients));
    RewardLedgerBreaks(d, SetsOf(a), index, ClaimLeaf(claim).value,
                       Distributed(Pool(d), claim.unitShare, rate, Active(recipients)),
                       Burned(Pool(d), claim.unitShare, rate, Active(recipients)));
  }

  lemma SameLedgers(a: DistributionState, b: DistributionState)
    requires a.data == b.data && a.remaining == b.remaining
    requires forall tokens :: !PoolLedger(b.data, SetsOf(b), tokens)
    ensures !DistributionOk(a)
  {
    hide Shape, Counters, Payments, PoolLedger;
    assert SetsOf(a) == SetsOf(b);
  }

  lemma InOrder(w: World, e: nat)
    requires Inv(w) && e in w.distributions
    ensures DistributionOk(w.distributions[e]) && w.distributions[e].data.dzEpoch == e
  {
    hide DistributionOk;
  }

  lemma NotInOrder(w: World, e: nat)
    requires e in w.distributions && !DistributionOk(w.distributions[e])
    ensures !Inv(w)
  {}

  lemma RewardSetsOk(a: DistributionState, proof: MerkleProof, claim: Claim, recipients: seq<RecipientShare>)
    requires DistributionOk(a) && RecipientsWellformed(recipients) && CanDistribute(a, proof, claim, recipients)
    ensures var index := proof.leafIndex.value as nat;
      && index !in SetsOf(a).rewarded
      && SetsOf(RewardsPaid(a, proof.leafIndex.value, claim, recipients))
         == SetsOf(a).(rewarded := SetsOf(a).rewarded + {index})
  {
    hide CanDistribute, SetsOf;
    RewardSets(a, proof, claim, recipients);
  }

  /** Exactly the steps that fit keep the invariant. */
  lemma StepKeepsInvExactly(w: World, i: Instruction)
    requires Inv(w)
    ensures Inv(Step(w, i)) <==> StepFits(w, i)
    ensures StepFits(w, i) ==> Follows(w, Step(w, i))
  {
    hide Inv, Follows, CanDistribute;
    if StepFits(w, i) {
      StepKeepsInv(w, i);
    } else {
      match i
      case PayDebt(e, node, amount, proof) => PayBreaks(w, e, node, amount, proof);
      case WriteOff(e, node, target, amount, proof) => WriteOffBreaks(w, e, node, target, amount, proof);
      case Sweep(e, returnedSol, returned2z) => SweepBreaks(w, e, returnedSol, returned2z);
      case WithdrawSol(amount, transferred2z, destination) => WithdrawSolBreaks(w, amount, transferred2z, destination);
      case DistributeRewards(e, proof, claim, relayer) => RewardBreaks(w, e, proof, claim, relayer);
    }
  }

  // ---------------------------------------------------------------- runs

  lemma GenesisInv(w: World)
    requires Genesis(w)
    ensures Inv(w)
  {}

  /** Every step of the run fits. */
  predicate RunFits(w: World, run: seq<Instruction>) {
    run == [] ||
    var before := run[..|run| - 1];
    RunFits(w, before) && StepFits(Run(w, before), run[|run| - 1])
  }

  /** A run whose steps fit keeps the invariant; what it leaves follows what it found. */
  lemma {:induction false} RunKeepsInv(w: World, run: seq<Instruction>)
    requires Inv(w) && RunFits(w, run)
    ensures Inv(Run(w, run)) && Follows(w, Run(w, run))
  {
    hide Inv, Follows;
    if run == [] {
      NothingStep(w);
    } else {
      var before := run[..|run| - 1];
      RunKeepsInv(w, before);
      StepKeepsInv(Run(w, before), run[|run| - 1]);
      FollowsTransitive(w, Run(w, before), Run(w, run));
    }
  }

  /** If the invariant holds after every prefix of a run then every step of it fitted: the condition is exact. */
  lemma {:induction false} RunFitsExactly(w: World, run: seq<Instruction>)
    requires Inv(w)
    ensures RunFits(w, run) <==> forall k: nat :: k <= |run| ==> Inv(Run(w, run[..k]))
    decreases |run|
  {
    hide Inv, StepFits;
    if run == [] {
      assert run[..0] == run;
    } else {
      var before := run[..|run| - 1];
      RunFitsExactly(w, before);
      assert forall k: nat :: k <= |before| ==> before[..k] == run[..k];
      assert run[..|run|] == run;
      assert Run(w, run) == Step(Run(w, before), run[|run| - 1]);
      if Inv(Run(w, before)) {
        StepKeepsInvExactly(Run(w, before), run[|run| - 1]);
      }
      assert before == run[..|before|];
    }
  }
}
