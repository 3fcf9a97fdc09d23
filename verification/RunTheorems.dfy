/** What the invariant means for whole runs from the first initialization. */
module RunTheorems {
  import opened Units
  import opened Sums
  import opened Bitmaps
  import opened Accounts
  import opened Distributions
  import opened DistributionInvariants
  import opened World
  import opened WorldInvariants
  import opened Runs
  import opened Frames
  import opened PoolTheorems

  /** Left by some run from genesis whose unchecked additions fit. */
  ghost predicate Reachable(w: World) {
    exists w0, run :: Genesis(w0) && RunFits(w0, run) && w == Run(w0, run)
  }

  lemma ReachableInv(w: World)
    requires Reachable(w)
    ensures Inv(w)
  {
    hide Inv, Genesis, RunFits;
    var w0, run :| Genesis(w0) && RunFits(w0, run) && w == Run(w0, run);
    GenesisInv(w0);
    RunKeepsInv(w0, run);
  }

  /** A distribution before and after the rest of a run. */
  lemma LaterSelf(w: World, run: seq<Instruction>, e: nat)
    requires Reachable(w) && RunFits(w, run) && e in w.distributions
    ensures var v := Run(w, run);
      && e in v.distributions
      && DistributionOk(w.distributions[e]) && DistributionOk(v.distributions[e])
      && Evolves(w.distributions[e], v.distributions[e])
  {
    hide DistributionOk, Evolves, RunFits, Balanced;
    ReachableInv(w);
    RunKeepsInv(w, run);
  }

  // ---------------------------------------------------------------- the SOL ledger

  /** No more debt is swept than was collected: the rest is in the journal or swapped and waiting. */
  lemma SolLedgerHolds(w: World)
    requires Reachable(w)
    ensures var ds, j := w.distributions, w.journal.data;
      && MapSum(ds, CollectedOf) == j.totalSol + j.swappedSol + MapSum(ds, SweptDebtOf)
      && MapSum(ds, SweptDebtOf) <= MapSum(ds, CollectedOf)
  {
    ReachableInv(w);
  }

  lemma SweptDebtFrozen(w: World, run: seq<Instruction>, e: nat)
    requires Reachable(w) && RunFits(w, run) && e in w.distributions && w.distributions[e].data.swept
    ensures var v := Run(w, run);
      e in v.distributions && SweptDebtOf(v.distributions[e]) == SweptDebtOf(w.distributions[e])
  {
    LaterSelf(w, run, e);
  }

  /** What the journal is asked to pay out it has above its rent. */
  lemma WithdrawNeverUnderflows(w: World, amount: u64)
    requires Reachable(w) && amount <= w.journal.data.totalSol
    ensures MinimumBalance(JOURNAL_DATA_LEN) + amount <= w.journal.lamports
  {
    ReachableInv(w);
  }

  // ---------------------------------------------------------------- the null root

  /** Rewards final with a null root: no pool, no net debt, nothing left to collect, nothing to sweep. */
  ghost predicate Barren(a: DistributionState) {
    && Pool(a.data) == 0
    && NetDebt(a.data) == Some(0)
    && (forall index: u16 :: !CanCollect(a.data, index))
    && (forall amount2z: u64 :: Pool(Swept(a, amount2z).data) == 0 && Swept(a, amount2z).tokens == a.tokens)
  }

  lemma NullRootIsBarren(a: DistributionState)
    requires DistributionOk(a) && a.data.rewardsFinalized && a.data.rewardsRoot == NullHash
    ensures Barren(a)
  {
    hide Ledgers, Layout, Integrations, RelayReserve;
  }

  /** Once rewards are final with a null root, no 2Z is or will ever be collected for that epoch. */
  lemma NullRootStrandsNothing(w: World, run: seq<Instruction>, e: nat)
    requires Reachable(w) && RunFits(w, run) && e in w.distributions
    requires w.distributions[e].data.rewardsFinalized && w.distributions[e].data.rewardsRoot == NullHash
    ensures var v := Run(w, run);
      && e in v.distributions && Barren(v.distributions[e])
      && (forall program, amount :: Effect(v, CollectIntegration(e, program, amount)).None?)
  {
    hide DistributionOk, Reachable, Within, SetsOf, CanCollect, Run, RunFits;
    LaterSelf(w, run, e);
    NullRootIsBarren(Run(w, run).distributions[e]);
  }

  // ---------------------------------------------------------------- the reward pool

  /** From the first reward on, the pool and everything that splits it are frozen. */
  lemma PoolFrozen(w: World, run: seq<Instruction>, e: nat)
    requires Reachable(w) && RunFits(w, run) && e in w.distributions && w.distributions[e].data.distributedCount > 0
    ensures var v := Run(w, run);
      && e in v.distributions
      && var d, d' := w.distributions[e].data, v.distributions[e].data;
         && Pool(d') == Pool(d)
         && d'.rewardsRoot == d.rewardsRoot
         && (forall rate: BurnRate :: EffectiveBurnRate(d', rate) == EffectiveBurnRate(d, rate))
  {
    LaterSelf(w, run, e);
  }

  /**
   * What was distributed and burned is exactly the processed leaves' shares of the pool, and what is
   * left of the pool is still in the token account.
   */
  lemma PoolSolvent(w: World, e: nat)
    requires Reachable(w) && e in w.distributions
    ensures var a := w.distributions[e];
      && a.data.distributed2z + a.data.burned2z == SharesOf(a.data.rewardsRoot, Pool(a.data), SetsOf(a).rewarded)
      && Pool(a.data) - (a.data.distributed2z + a.data.burned2z) <= a.tokens
    ensures var a := w.distributions[e];
      HonestRewards(a.data) ==> a.data.distributed2z + a.data.burned2z <= Pool(a.data)
  {
    hide Balanced, SharesOf, HonestRewards;
    ReachableInv(w);
    if HonestRewards(w.distributions[e].data) {
      PaidOutWithinPool(w.distributions[e]);
    }
  }

  // ---------------------------------------------------------------- leaves are processed once

  /** A debt leaf can be settled only while it is not marked, and settling marks it. */
  lemma SettlingMarks(w: World, i: Instruction, e: nat, leaf: nat)
    requires Reachable(w) && SettlesDebt(i, e, leaf) && Effect(w, i).Some?
    ensures e in w.distributions && leaf !in SetsOf(w.distributions[e]).processed
    ensures e in Step(w, i).distributions && leaf in SetsOf(Step(w, i).distributions[e]).processed
  {
    hide Balanced, Ledgers, Shape, SetsOf, Mark, CanMark;
    ReachableInv(w);
    InOrder(w, e);
    var a := w.distributions[e];
    LayoutOf(a);
    match i
    case PayDebt(_, node, amount, proof) =>
      PaySets(a, leaf, amount);
    case WriteOff(_, node, target, amount, proof) =>
      WriteOffSets(a, proof, DebtLeaf(node, amount));
      var es := AfterSource(w.distributions, e, proof, DebtLeaf(node, amount));
      ChargedKeepsSets(es[target], amount);
    case _ =>
  }

  lemma ChargedKeepsSets(a: DistributionState, amount: u64)
    ensures SetsOf(Charged(a, amount)) == SetsOf(a)
  {}

  lemma ReachableStep(w: World, i: Instruction)
    requires Reachable(w) && StepFits(w, i)
    ensures Reachable(Step(w, i))
  {
    hide Genesis, StepFits;
    var w0, run :| Genesis(w0) && RunFits(w0, run) && w == Run(w0, run);
    assert (run + [i])[..|run|] == run;
    assert RunFits(w0, run + [i]) && Run(w0, run + [i]) == Step(w, i);
  }

  lemma {:induction false} ReachableRun(w: World, run: seq<Instruction>)
    requires Reachable(w) && RunFits(w, run)
    ensures Reachable(Run(w, run))
  {
    hide Reachable, StepFits;
    if run != [] {
      ReachableRun(w, run[..|run| - 1]);
      ReachableStep(Run(w, run[..|run| - 1]), run[|run| - 1]);
    }
  }

  /** A debt leaf that was paid or written off is neither paid nor written off again, in any run. */
  lemma NoDebtSettledTwice(w: World, i: Instruction, run: seq<Instruction>, j: Instruction, e: nat, leaf: nat)
    requires Reachable(w) && StepFits(w, i) && Effect(w, i).Some? && SettlesDebt(i, e, leaf)
    requires RunFits(Step(w, i), run) && SettlesDebt(j, e, leaf)
    ensures Effect(Run(Step(w, i), run), j).None?
  {
    hide Reachable, RunFits, StepFits, Effect, DistributionOk;
    var u := Step(w, i);
    ReachableStep(w, i);
    ReachableRun(u, run);
    SettlingMarks(w, i, e, leaf);
    LaterSelf(u, run, e);
    if Effect(Run(u, run), j).Some? {
      SettlingMarks(Run(u, run), j, e, leaf);
      assert false;
    }
  }

  lemma RewardingMarks(w: World, i: Instruction, e: nat, leaf: nat)
    requires Reachable(w) && PaysReward(i, e, leaf) && Effect(w, i).Some?
    ensures e in w.distributions && leaf !in SetsOf(w.distributions[e]).rewarded
    ensures e in Step(w, i).distributions && leaf in SetsOf(Step(w, i).distributions[e]).rewarded
  {
    hide Balanced, Ledgers, Shape, SetsOf, CanDistribute;
    ReachableInv(w);
    InOrder(w, e);
    var a := w.distributions[e];
    var recipients := w.contributors[i.claim.contributor];
    LayoutOf(a);
    RewardSets(a, i.proof, i.claim, recipients);
    RewardThenSend(w, e, i.proof, i.claim, i.relayer);
  }

  lemma RewardThenSend(w: World, e: nat, proof: MerkleProof, claim: Claim, relayer: Address)
    requires CanReward(w, e, proof, claim)
    ensures var v := RewardDistributed(w, e, proof, claim, relayer);
      && e in v.distributions
      && SetsOf(v.distributions[e])
         == SetsOf(RewardsPaid(w.distributions[e], proof.leafIndex.value, claim, w.contributors[claim.contributor]))
  {
    hide CanDistribute, RewardsPaid;
    SendEntries(RewardDebited(w, e, proof, claim), relayer, w.distributions[e].data.relayLamports);
  }

  /** A reward leaf is paid at most once, in any run. */
  lemma NoRewardPaidTwice(w: World, i: Instruction, run: seq<Instruction>, j: Instruction, e: nat, leaf: nat)
    requires Reachable(w) && StepFits(w, i) && Effect(w, i).Some? && PaysReward(i, e, leaf)
    requires RunFits(Step(w, i), run) && PaysReward(j, e, leaf)
    ensures Effect(Run(Step(w, i), run), j).None?
  {
    hide Reachable, RunFits, StepFits, Effect, DistributionOk;
    var u := Step(w, i);
    ReachableStep(w, i);
    ReachableRun(u, run);
    RewardingMarks(w, i, e, leaf);
    LaterSelf(u, run, e);
    if Effect(Run(u, run), j).Some? {
      RewardingMarks(Run(u, run), j, e, leaf);
      assert false;
    }
  }
}
