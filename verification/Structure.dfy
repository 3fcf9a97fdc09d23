/** What holds of the bitmaps in every run, whether or not its additions fit. */
module Structure {
  import opened Units
  import opened Bitmaps
  import opened Rewards
  import opened Accounts
  import opened Distributions
  import opened DistributionInvariants
  import opened World
  import opened Frames

  ghost predicate Structured(a: DistributionState) {
    && Layout(a) && Staged(a.data)
    && SetsOf(a).writtenOff <= SetsOf(a).processed <= Debts(a.data.debtRoot).Keys
  }

  ghost predicate AllStructured(w: World) {
    forall e :: e in w.distributions ==> Structured(w.distributions[e]) && w.distributions[e].data.dzEpoch == e
  }

  /** The leaves an instruction marks in an epoch. */
  ghost function Marked(s: LeafSets, i: Instruction, e: nat): LeafSets {
    match i
    case PayDebt(x, _, _, proof) =>
      if x == e && proof.leafIndex.Some? then s.(processed := s.processed + {proof.leafIndex.value as nat}) else s
    case WriteOff(x, _, _, _, proof) =>
      if x == e && proof.leafIndex.Some? then
        s.(processed := s.processed + {proof.leafIndex.value as nat},
           writtenOff := s.writtenOff + {proof.leafIndex.value as nat})
      else s
    case DistributeRewards(x, proof, _, _) =>
      if x == e && proof.leafIndex.Some? then s.(rewarded := s.rewarded + {proof.leafIndex.value as nat}) else s
    case _ => s
  }

  // ---------------------------------------------------------------- one account

  /** It keeps the structure, marks what it should, and changes the root only while no leaf is marked. */
  ghost predicate Continues(a: DistributionState, b: DistributionState, s: LeafSets) {
    && Structured(b) && SetsOf(b) == s && b.data.dzEpoch == a.data.dzEpoch
    && (b.data.debtRoot == a.data.debtRoot || SetsOf(a).processed == {} == s.processed)
  }

  lemma PreparationContinues(w: World, i: Instruction)
    requires Prepares(i) && Effect(w, i).Some? && Structured(w.distributions[i.epoch])
    ensures Continues(w.distributions[i.epoch], Prepared(w, i), SetsOf(w.distributions[i.epoch]))
  {
    hide Continues, SetsOf, Layout, FinalizedDebt, FinalizedRewards, WithWriteOffEnabled, CanFinalizeDebt,
      CanFinalizeRewards, CanEnableWriteOff, CanReplace, CanCollect, Staged, Structured;
    var a := w.distributions[i.epoch];
    match i
    case ConfigureDebt(_, _, validators, debt, root) => ConfigureDebtContinues(a, validators, debt, root);
    case FinalizeDebt(_, now) => FinalizeDebtContinues(a, now);
    case ConfigureRewards(_, _, contributors, root) => ConfigureRewardsContinues(a, contributors, root);
    case FinalizeRewards(_, now) => FinalizeRewardsContinues(a, w.config, now);
    case SetEconomicBurnRate(_, rate) => EconomicBurnRateContinues(a, rate);
    case EnableWriteOff(_) => EnableWriteOffContinues(a, w.config);
    case CollectIntegration(_, program, amount) => CollectContinues(a, w.integrations[program], amount);
  }

  lemma ConfigureDebtContinues(a: DistributionState, validators: u32, debt: u64, root: Hash)
    requires Structured(a) && !a.data.debtFinalized
    ensures Continues(a, ConfiguredDebt(a, validators, debt, root), SetsOf(a))
  {
    NoLeavesYet(a);
    assert SetsOf(ConfiguredDebt(a, validators, debt, root)) == SetsOf(a);
  }

  lemma FinalizeDebtContinues(a: DistributionState, now: int)
    requires Structured(a) && CanFinalizeDebt(a.data, now)
    ensures Continues(a, FinalizedDebt(a), SetsOf(a))
  {
    FinalizeDebtLayout(a, now);
  }

  lemma ConfigureRewardsContinues(a: DistributionState, contributors: u32, root: Hash)
    requires Structured(a) && !a.data.rewardsFinalized
    ensures Continues(a, ConfiguredRewards(a, contributors, root), SetsOf(a))
  {
    assert SetsOf(ConfiguredRewards(a, contributors, root)) == SetsOf(a);
  }

  lemma FinalizeRewardsContinues(a: DistributionState, c: ProgramConfig, now: int)
    requires Structured(a) && CanFinalizeRewards(c, a.data, now)
    ensures Continues(a, FinalizedRewards(a), SetsOf(a))
  {
    hide Zeros;
    FinalizeRewardsLayout(a, c, now);
    FinalizeRewardsSets(a, c, now);
  }

  lemma EconomicBurnRateContinues(a: DistributionState, rate: BurnRate)
    requires Structured(a)
    ensures Continues(a, WithEconomicBurnRate(a, rate), SetsOf(a))
  {
    assert SetsOf(WithEconomicBurnRate(a, rate)) == SetsOf(a);
  }

  lemma EnableWriteOffContinues(a: DistributionState, c: ProgramConfig)
    requires Structured(a) && CanEnableWriteOff(c, a.data)
    ensures Continues(a, WithWriteOffEnabled(a), SetsOf(a))
  {
    EnableWriteOffLayout(a, c);
    EnableWriteOffSets(a, c);
  }

  lemma CollectContinues(a: DistributionState, index: u16, amount: nat)
    requires Structured(a) && CollectionFits(a.data, amount)
    ensures Continues(a, Collected(a, index, amount), SetsOf(a))
  {
    assert SetsOf(Collected(a, index, amount)) == SetsOf(a);
  }

  lemma PayContinues(a: DistributionState, proof: MerkleProof, leaf: DebtLeaf)
    requires Structured(a) && CanPay(a, proof, leaf)
    ensures Continues(a, Paid(a, proof.leafIndex.value, leaf.amount),
                      SetsOf(a).(processed := SetsOf(a).processed + {proof.leafIndex.value as nat}))
    ensures proof.leafIndex.value as nat !in SetsOf(a).processed
  {
    PaySets(a, proof.leafIndex.value, leaf.amount);
  }

  lemma WriteOffContinues(a: DistributionState, proof: MerkleProof, leaf: DebtLeaf)
    requires Structured(a) && CanWriteOffFrom(a, proof, leaf)
    ensures Continues(a, WrittenOffFrom(a, proof, leaf),
                      SetsOf(a).(processed := SetsOf(a).processed + {proof.leafIndex.value as nat},
                                 writtenOff := SetsOf(a).writtenOff + {proof.leafIndex.value as nat}))
    ensures proof.leafIndex.value as nat !in SetsOf(a).processed
  {
    WriteOffSets(a, proof, leaf);
  }

  lemma ChargeContinues(a: DistributionState, source: u64, amount: u64)
    requires Structured(a) && CanCharge(a.data, source, amount)
    ensures Continues(a, Charged(a, amount), SetsOf(a))
  {
    assert SetsOf(Charged(a, amount)) == SetsOf(a);
  }

  lemma SweepContinues(a: DistributionState, returned2z: u64)
    requires Structured(a)
    ensures Continues(a, Swept(a, returned2z), SetsOf(a))
  {
    assert SetsOf(Swept(a, returned2z)) == SetsOf(a);
  }

  lemma RewardContinues(a: DistributionState, proof: MerkleProof, claim: Claim, recipients: seq<RecipientShare>)
    requires Structured(a) && RecipientsWellformed(recipients) && CanDistribute(a, proof, claim, recipients)
    ensures Continues(a, RewardsPaid(a, proof.leafIndex.value, claim, recipients),
                      SetsOf(a).(rewarded := SetsOf(a).rewarded + {proof.leafIndex.value as nat}))
    ensures proof.leafIndex.value as nat !in SetsOf(a).rewarded
  {
    RewardSets(a, proof, claim, recipients);
  }

  // ---------------------------------------------------------------- one instruction

  lemma AlikeContinues(a: DistributionState, b: DistributionState, c: DistributionState, s: LeafSets)
    requires Continues(a, b, s) && Alike(c, b)
    ensures Continues(a, c, s)
  {
    assert SetsOf(c) == SetsOf(b);
  }

  lemma ContinuesReflexive(a: DistributionState)
    requires Structured(a)
    ensures Continues(a, a, SetsOf(a))
  {}

  lemma ContinuesTwice(a: DistributionState, b: DistributionState, c: DistributionState, s: LeafSets)
    requires Continues(a, b, s) && Continues(b, c, s) && b.data.debtRoot == a.data.debtRoot == c.data.debtRoot
    ensures Continues(a, c, s)
  {
    hide Structured, SetsOf;
  }

  lemma MovedOffContinues(
    ds: map<nat, DistributionState>, e: nat, target: nat, proof: MerkleProof, leaf: DebtLeaf, x: nat)
    requires CanMoveOff(ds, e, target, proof, leaf) && x in ds
    requires forall d :: d in ds ==> Structured(ds[d])
    ensures var s := SetsOf(ds[x]);
      Continues(ds[x], MovedOff(ds, e, target, proof, leaf)[x],
                if x == e then
                  s.(processed := s.processed + {proof.leafIndex.value as nat},
                     writtenOff := s.writtenOff + {proof.leafIndex.value as nat})
                else s)
    ensures proof.leafIndex.Some? && proof.leafIndex.value as nat !in SetsOf(ds[e]).processed
  {
    hide Structured, SetsOf, Continues, CanWriteOffFrom, WrittenOffFrom, CanCharge, Charged;
    var es := AfterSource(ds, e, proof, leaf);
    WriteOffContinues(ds[e], proof, leaf);
    ContinuesReflexive(ds[x]);
    StillStructured(ds[e], WrittenOffFrom(ds[e], proof, leaf), proof);
    OffKeepsRoot(ds[e], proof, leaf);
    if x == target {
      ChargeContinues(es[x], ds[e].data.dzEpoch, leaf.amount);
      ChargeKeepsRoot(es[x], leaf.amount);
      ContinuesTwice(ds[x], es[x], Charged(es[x], leaf.amount), SetsOf(es[x]));
    }
  }

  lemma StillStructured(a: DistributionState, b: DistributionState, proof: MerkleProof)
    ensures forall s :: Continues(a, b, s) ==> Structured(b) && SetsOf(b) == s
  {}

  lemma OffKeepsRoot(a: DistributionState, proof: MerkleProof, leaf: DebtLeaf)
    requires CanWriteOffFrom(a, proof, leaf)
    ensures proof.leafIndex.Some? && WrittenOffFrom(a, proof, leaf).data.debtRoot == a.data.debtRoot
  {}

  lemma ChargeKeepsRoot(a: DistributionState, amount: u64)
    ensures Charged(a, amount).data.debtRoot == a.data.debtRoot
  {}

  lemma WriteOffReady(w: World, i: Instruction)
    requires i.WriteOff? && Effect(w, i).Some?
    ensures CanMoveOff(w.distributions, i.epoch, i.target, i.proof, DebtLeaf(i.node, i.amount))
  {
    hide CanMoveOff, MovedOff;
  }

  lemma PayReady(w: World, i: Instruction)
    requires i.PayDebt? && Effect(w, i).Some?
    ensures CanPay(w.distributions[i.epoch], i.proof, DebtLeaf(i.node, i.amount)) && i.proof.leafIndex.Some?
  {
    hide Paid, CanMark;
  }

  lemma RewardReadyToPay(w: World, i: Instruction)
    requires i.DistributeRewards? && Effect(w, i).Some?
    ensures CanReward(w, i.epoch, i.proof, i.claim) && i.proof.leafIndex.Some?
  {
    hide RewardDistributed, CanMark, VerifiesShare;
  }

  /** The leaf an instruction settles or pays was not marked before. */
  ghost predicate FreshMark(s: LeafSets, i: Instruction, e: nat) {
    && (forall leaf :: SettlesDebt(i, e, leaf) ==> leaf !in s.processed)
    && (forall leaf :: PaysReward(i, e, leaf) ==> leaf !in s.rewarded)
  }

  lemma PayAfter(w: World, i: Instruction, e: nat)
    requires AllStructured(w) && Effect(w, i).Some? && e in w.distributions && i.PayDebt?
    ensures Continues(w.distributions[e], After(w, i, e), Marked(SetsOf(w.distributions[e]), i, e))
    ensures FreshMark(SetsOf(w.distributions[e]), i, e)
  {
    hide Structured, Continues, SetsOf, Effect, CanPay, Paid;
    PayReady(w, i);
    ContinuesReflexive(w.distributions[e]);
    if i.epoch == e {
      PayContinues(w.distributions[e], i.proof, DebtLeaf(i.node, i.amount));
    }
  }

  lemma WriteOffAfter(w: World, i: Instruction, e: nat)
    requires AllStructured(w) && Effect(w, i).Some? && e in w.distributions && i.WriteOff?
    ensures Continues(w.distributions[e], After(w, i, e), Marked(SetsOf(w.distributions[e]), i, e))
    ensures FreshMark(SetsOf(w.distributions[e]), i, e)
  {
    hide Structured, Continues, SetsOf, Effect, CanMoveOff, MovedOff;
    WriteOffReady(w, i);
    MovedOffContinues(w.distributions, i.epoch, i.target, i.proof, DebtLeaf(i.node, i.amount), e);
  }

  lemma RewardAfter(w: World, i: Instruction, e: nat)
    requires AllStructured(w) && Effect(w, i).Some? && e in w.distributions && i.DistributeRewards?
    ensures Continues(w.distributions[e], After(w, i, e), Marked(SetsOf(w.distributions[e]), i, e))
    ensures FreshMark(SetsOf(w.distributions[e]), i, e)
  {
    hide Structured, Continues, SetsOf, Effect, CanDistribute, RewardsPaid;
    RewardReadyToPay(w, i);
    ContinuesReflexive(w.distributions[e]);
    if i.epoch == e {
      RewardContinues(w.distributions[e], i.proof, i.claim, w.contributors[i.claim.contributor]);
    }
  }

  lemma PreparedAfter(w: World, i: Instruction, e: nat)
    requires AllStructured(w) && Effect(w, i).Some? && e in w.distributions && Prepares(i)
    ensures Continues(w.distributions[e], After(w, i, e), SetsOf(w.distributions[e]))
  {
    hide Structured, Continues, SetsOf, Effect, Prepared, After;
    AfterPrepared(w, i, e);
    ContinuesReflexive(w.distributions[e]);
    if i.epoch == e {
      PreparationContinues(w, i);
    }
  }

  lemma OtherAfter(w: World, i: Instruction, e: nat)
    requires AllStructured(w) && Effect(w, i).Some? && e in w.distributions && !Prepares(i)
    requires !i.PayDebt? && !i.WriteOff? && !i.DistributeRewards?
    ensures Continues(w.distributions[e], After(w, i, e), SetsOf(w.distributions[e]))
  {
    hide Structured, Continues, SetsOf, Effect, Swept;
    ContinuesReflexive(w.distributions[e]);
    match i
    case Sweep(_, _, returned2z) => SweepContinues(w.distributions[e], returned2z);
    case Send2z(_, tokens) => AlikeButTokens(w.distributions[e], tokens);
    case _ =>
  }

  lemma AfterContinues(w: World, i: Instruction, e: nat)
    requires AllStructured(w) && Effect(w, i).Some? && e in w.distributions
    ensures Continues(w.distributions[e], After(w, i, e), Marked(SetsOf(w.distributions[e]), i, e))
    ensures FreshMark(SetsOf(w.distributions[e]), i, e)
  {
    hide AllStructured, Continues, SetsOf, Effect, After, Prepares;
    if i.PayDebt? {
      PayAfter(w, i, e);
    } else if i.WriteOff? {
      WriteOffAfter(w, i, e);
    } else if i.DistributeRewards? {
      RewardAfter(w, i, e);
    } else if Prepares(i) {
      PreparedAfter(w, i, e);
    } else {
      OtherAfter(w, i, e);
    }
  }

  lemma AlikeButTokens(a: DistributionState, tokens: nat)
    requires Structured(a)
    ensures Continues(a, a.(tokens := a.tokens + tokens), SetsOf(a))
  {
    assert SetsOf(a.(tokens := a.tokens + tokens)) == SetsOf(a);
  }

  /** One distribution across one step, whatever the step and whether it succeeds. */
  lemma StepContinues(w: World, i: Instruction, e: nat)
    requires AllStructured(w) && e in w.distributions
    ensures e in Step(w, i).distributions
    ensures var s := SetsOf(w.distributions[e]);
      Continues(w.distributions[e], Step(w, i).distributions[e], if Effect(w, i).Some? then Marked(s, i, e) else s)
    ensures Effect(w, i).Some? ==> FreshMark(SetsOf(w.distributions[e]), i, e)
  {
    hide Structured, Continues, SetsOf, Effect, After, Alike, FreshMark, Marked;
    if Effect(w, i).Some? {
      AfterIs(w, i, e);
      AfterContinues(w, i, e);
      AlikeContinues(w.distributions[e], After(w, i, e), Step(w, i).distributions[e],
                     Marked(SetsOf(w.distributions[e]), i, e));
    } else {
      ContinuesReflexive(w.distributions[e]);
    }
  }

  lemma BornStructured(w: World, now: int, prefunded: nat)
    requires CanInitializeDistribution(w, now, prefunded)
    ensures var a := WithNewDistribution(w, now, prefunded).distributions[w.config.nextEpoch];
      Structured(a) && SetsOf(a) == NO_LEAVES && a.data.dzEpoch == w.config.nextEpoch
  {
    hide CreatedLamports;
    var a := WithNewDistribution(w, now, prefunded).distributions[w.config.nextEpoch];
    assert SetsOf(a) == NO_LEAVES;
  }

  /** A distribution that was not there before is empty. */
  lemma BornEmpty(w: World, i: Instruction, e: nat)
    requires e !in w.distributions && e in Step(w, i).distributions
    ensures var a := Step(w, i).distributions[e]; Structured(a) && SetsOf(a) == NO_LEAVES && a.data.dzEpoch == e
  {
    hide Structured, SetsOf, WithNewDistribution, CanInitializeDistribution;
    Born(w, i, e);
    BornStructured(w, i.now, i.prefunded);
  }

  lemma StructureStep(w: World, i: Instruction)
    requires AllStructured(w)
    ensures AllStructured(Step(w, i))
  {
    hide Structured, SetsOf, Step;
    var v := Step(w, i);
    forall e | e in v.distributions
      ensures Structured(v.distributions[e]) && v.distributions[e].data.dzEpoch == e
    {
      if e in w.distributions {
        StepContinues(w, i, e);
      } else {
        BornEmpty(w, i, e);
      }
    }
  }

  /** In every run, fitting or not, the bitmaps keep their structure. */
  lemma {:induction false} StructureRun(w: World, run: seq<Instruction>)
    requires AllStructured(w)
    ensures AllStructured(Run(w, run))
  {
    hide AllStructured, Step;
    if run != [] {
      StructureRun(w, run[..|run| - 1]);
      StructureStep(Run(w, run[..|run| - 1]), run[|run| - 1]);
    }
  }
}
