/**
 * Runs from genesis: one whole epoch to the last reward, and the worlds in which the program does not
 * do what it promises.
 */
module Example {
  import opened Units
  import opened BurnRates
  import opened Rewards
  import opened Accounts
  import opened Distributions
  import opened DistributionInvariants
  import opened World
  import opened WorldInvariants
  import opened Runs
  import opened RunTheorems
  import opened LedgerTheorems
  import opened DepositFlows

  const FRESH: ProgramConfig := ProgramConfig(true, 0, 0, 0, 0, 0, UNSET, NO_FEES, 0, 0, false, false)

  const START: World :=
    World(FRESH, JournalState(Journal(0, 0, 0, 0, 0, 0), MinimumBalance(JOURNAL_DATA_LEN)),
          map[], map[], map[], map[], 0, 0, 1_000_000_000, 1_000, map[])

  const FEES: FeeParameters := FeeParameters(1, 0, 0, 0, 0)

  const CONFIGURED: ProgramConfig :=
    ProgramConfig(false, 0, 0, 1, 1, 1, BurnParams(1, 1, 1, 0, 1, 1), FEES, 5_001, 0, true, true)

  const INITIALIZED: ProgramConfig :=
    CONFIGURED.(nextEpoch := 1, lastTimestamp := 60, burnParams := BurnParams(1, 0, 0, 0, 1, 1))

  const NODE: Pubkey := 7
  const SERVICE: Pubkey := 9
  const DEBT_ROOT: Hash := Digest(map[0 := DebtLeaf(NODE, 100)], map[])
  const REWARDS_ROOT: Hash := Digest(map[], map[0 := RewardShare(SERVICE, 1_000_000_000, 0)])
  const FIRST: MerkleProof := MerkleProof(Some(0), true)
  const ALL: Claim := Claim(SERVICE, 1_000_000_000, 0)

  /** One step further. */
  lemma Then(w: World, i: Instruction) returns (v: World)
    requires Reachable(w) && Effect(w, i).Some? && StepFits(w, i)
    ensures Reachable(v) && v == Effect(w, i).value
  {
    hide Reachable, Effect, StepFits;
    v := Step(w, i);
    ReachableStep(w, i);
  }

  lemma Begin()
    ensures Reachable(START)
  {
    var none: seq<Instruction> := [];
    assert Genesis(START) && RunFits(START, none) && Run(START, none) == START;
  }

  lemma Set(w: World, s: Setting) returns (v: World)
    requires Reachable(w) && NewSetting(w.config, s).Some?
    ensures Reachable(v) && v == w.(config := NewSetting(w.config, s).value)
  {
    hide Reachable, NewSetting;
    v := Then(w, Configure(s));
  }

  lemma Configured() returns (w: World)
    ensures Reachable(w) && w == START.(config := CONFIGURED)
  {
    hide Reachable;
    Begin();
    w := Set(START, Pause(false));
    w := Set(w, CalculationGrace(1));
    w := Set(w, InitializationGrace(1));
    w := Set(w, MinimumEpochs(1));
    w := Set(w, RelayLamports(5_001));
    w := Set(w, Fees(FEES));
    w := Set(w, BurnRateInitial(1, 1, 1, 1));
    w := Set(w, SwapProgram);
    w := Set(w, SwapDestinationCreated);
  }

  /** The distribution of epoch 0, the validator's deposit and the contributor exist. */
  lemma Initialized() returns (w: World)
    ensures Reachable(w) && w.config == INITIALIZED && w.journalAta == 0
    ensures w.distributions.Keys == {0} && w.deposits.Keys == {NODE}
    ensures w.distributions[0] == NewDistribution(CONFIGURED, 1, 120, 0, 0, MinimumBalance(DISTRIBUTION_DATA_END))
    ensures w.deposits[NODE] == DepositState(Deposit(NODE, 0), MinimumBalance(DEPOSIT_DATA_END) + 100)
    ensures w.journal == START.journal && w.outsideLamports >= 900_000_000 && w.outside2z == 1_000 && w.swapTokens == 0
    ensures SERVICE in w.contributors && w.contributors[SERVICE] == Padded([(5, 10_000)])
  {
    hide Reachable;
    w := Configured();
    assert Computed(CONFIGURED.burnParams) == Some(BurnParams(1, 0, 0, 0, 1, 1));
    w := Then(w, InitializeDistribution(60, 0));
    w := Then(w, InitializeDeposit(NODE, 100));
    w := Then(w, InitializeContributor(SERVICE));
    assert AsShares([(5, 10_000)]) == [RecipientShare(5, 10_000)];
    w := Then(w, ConfigureRecipients(SERVICE, [(5, 10_000)]));
  }

  /** What every later stage of the example keeps. */
  ghost predicate Going(w: World, lamports: nat) {
    && Reachable(w) && !w.config.isPaused && w.config.nextEpoch == 1 && w.config.minimumEpochsToFinalize == 1
    && w.config.swapProgramSet && w.config.swapDestinationSet
    && w.distributions.Keys == {0} && w.deposits.Keys == {NODE}
    && w.outsideLamports >= lamports
    && SERVICE in w.contributors && w.contributors[SERVICE] == Padded([(5, 10_000)])
  }

  const NEW: Distribution := NewDistribution(CONFIGURED, 1, 120, 0, 0, 0).data
  const OWED: Distribution := NEW.(debtFinalized := true, debtRoot := DEBT_ROOT, totalValidators := 1, totalDebt := 100,
                                   debtEnd := 1)
  const PAID: Distribution := OWED.(paymentsCount := 1, collectedPayments := 100)
  const READY: Distribution := PAID.(rewardsFinalized := true, rewardsRoot := REWARDS_ROOT, totalContributors := 1,
                                     rewardsStart := 1, rewardsEnd := 2)

  lemma OwedAccount(a: DistributionState)
    requires a == NewDistribution(CONFIGURED, 1, 120, 0, 0, MinimumBalance(DISTRIBUTION_DATA_END))
    ensures CanConfigureDebt(a.data, 120)
    ensures var b := ConfiguredDebt(a, 1, 100, DEBT_ROOT);
      && CanFinalizeDebt(b.data, 120)
      && b.lamports == a.lamports && b.tokens == 0
      && FinalizedDebt(b) == DistributionState(OWED, [0], MinimumBalance(DISTRIBUTION_DATA_END + 1), 0)
  {}

  lemma DebtIsOwed() returns (w: World)
    ensures Going(w, 800_000_000) && w.journal == START.journal && w.outside2z == 1_000 && w.swapTokens == 0
    ensures w.deposits[NODE] == DepositState(Deposit(NODE, 0), MinimumBalance(DEPOSIT_DATA_END) + 100)
    ensures w.distributions[0] == DistributionState(OWED, [0], MinimumBalance(DISTRIBUTION_DATA_END + 1), 0)
  {
    hide Reachable, FinalizedDebt, ConfiguredDebt, CanConfigureDebt, CanFinalizeDebt;
    w := Initialized();
    OwedAccount(w.distributions[0]);
    w := Then(w, ConfigureDebt(0, 120, 1, 100, DEBT_ROOT));
    w := Then(w, FinalizeDebt(0, 120));
  }

  lemma DebtIsPaid() returns (w: World)
    ensures Going(w, 800_000_000) && w.journal.data == Journal(0, 100, 0, 0, 0, 0) && w.journal.lamports >= 100
    ensures w.outside2z == 1_000 && w.swapTokens == 0
    ensures w.distributions[0] == DistributionState(PAID, [1], MinimumBalance(DISTRIBUTION_DATA_END + 1), 0)
  {
    hide Reachable;
    w := DebtIsOwed();
    w := Then(w, PayDebt(0, NODE, 100, FIRST));
  }

  /** The SOL was exchanged for 50 2Z. */
  lemma SolIsSwapped() returns (w: World)
    ensures Going(w, 800_000_000) && w.journal.data == Journal(0, 0, 50, 100, 0, 50) && w.swapTokens == 50
    ensures w.distributions[0] == DistributionState(PAID, [1], MinimumBalance(DISTRIBUTION_DATA_END + 1), 0)
  {
    hide Reachable;
    w := DebtIsPaid();
    w := Then(w, WithdrawSol(100, 50, Elsewhere));
  }

  lemma ReadyAccount(a: DistributionState, c: ProgramConfig)
    requires a == DistributionState(PAID, [1], MinimumBalance(DISTRIBUTION_DATA_END + 1), 0)
    requires c.nextEpoch == 1 && c.minimumEpochsToFinalize == 1
    ensures CanConfigureRewards(a.data, 120)
    ensures var b := ConfiguredRewards(a, 1, REWARDS_ROOT);
      && CanFinalizeRewards(c, b.data, 120)
      && b.lamports == a.lamports && b.tokens == 0
      && FinalizedRewards(b) == DistributionState(READY, [1, 0], MinimumBalance(DISTRIBUTION_DATA_END + 2) + 5_001, 0)
  {}

  lemma RewardsAreFinal() returns (w: World)
    ensures Going(w, 700_000_000) && w.journal.data == Journal(0, 0, 50, 100, 0, 50) && w.swapTokens == 50
    ensures w.distributions[0] == DistributionState(READY, [1, 0], MinimumBalance(DISTRIBUTION_DATA_END + 2) + 5_001, 0)
  {
    hide Reachable, FinalizedRewards, ConfiguredRewards, CanConfigureRewards, CanFinalizeRewards;
    w := SolIsSwapped();
    ReadyAccount(w.distributions[0], w.config);
    w := Then(w, ConfigureRewards(0, 120, 1, REWARDS_ROOT));
    w := Then(w, FinalizeRewards(0, 120));
  }

  const SWEPT: Distribution := READY.(swept := true, converted2z := 50)

  lemma ReadyToSweep()
    ensures CanSweep(READY, 0) && NetDebt(READY) == Some(100)
  {}

  lemma SweptAccount(a: DistributionState)
    requires a.data == READY && NetDebt(READY) == Some(100)
    ensures Swept(a, 50) == a.(data := SWEPT, tokens := a.tokens + 50)
  {
    hide NetDebt;
  }

  lemma TokensAreSwept() returns (w: World)
    ensures Going(w, 700_000_000)
    ensures w.distributions[0]
         == DistributionState(SWEPT, [1, 0], MinimumBalance(DISTRIBUTION_DATA_END + 2) + 5_001, 50)
  {
    hide Reachable, Swept, CanSweep, NetDebt, MinimumBalance;
    w := RewardsAreFinal();
    ReadyToSweep();
    SweptAccount(w.distributions[0]);
    w := Then(w, Sweep(0, 100, 50));
  }

  /** The only leaf takes the whole pool. */
  lemma ClaimAccount(a: DistributionState, recipients: seq<RecipientShare>)
    requires a == DistributionState(SWEPT, [1, 0], MinimumBalance(DISTRIBUTION_DATA_END + 2) + 5_001, 50)
    requires recipients == Padded([(5, 10_000)])
    ensures RecipientsWellformed(recipients) && CanDistribute(a, FIRST, ALL, recipients)
    ensures RewardFits(a.data, ALL, recipients)
    ensures var d := RewardsPaid(a, 0, ALL, recipients).data;
      && AllDebtProcessed(d) && AllRewardsDistributed(d)
      && Pool(d) == 50 && d.distributed2z + d.burned2z == 50
  {
    PaddedIsActive([(5, 10_000)]);
    assert ShareAmount(50, 1_000_000_000) == 50;
    RewardSplitsExactly(50, 1_000_000_000, EffectiveBurnRate(a.data, 0), Active(recipients));
  }

  /** Genesis leads to a distribution whose debt is all paid and whose rewards are all distributed. */
  lemma WholeEpoch() returns (w: World)
    ensures Reachable(w) && 0 in w.distributions
    ensures var d := w.distributions[0].data;
      && AllDebtProcessed(d) && AllRewardsDistributed(d)
      && Pool(d) == 50 && d.distributed2z + d.burned2z == 50
  {
    hide Reachable, RewardFits, RewardsPaid, CanDistribute, RecipientsWellformed;
    w := TokensAreSwept();
    ClaimAccount(w.distributions[0], w.contributors[SERVICE]);
    w := Then(w, DistributeRewards(0, FIRST, ALL, Elsewhere));
  }

  // ---------------------------------------------------------------- enabling write-off late

  /** Rewards are final and the reserve is there; enabling write-off succeeds and takes it. */
  lemma LateEnablingTakesReserve() returns (w: World)
    ensures Reachable(w) && Effect(w, EnableWriteOff(0)).Some?
    ensures Reserved(w.distributions[0]) && !ReserveSpared(w.distributions[0])
    ensures !Reserved(Step(w, EnableWriteOff(0)).distributions[0])
  {
    hide Reachable;
    w := RewardsAreFinal();
    w := Set(w, WriteOffActivation(1));
  }

  // ---------------------------------------------------------------- a withdrawal to the deposit itself

  /** The withdrawal succeeds, and everything stays in the deposit. */
  lemma WithdrawalToItself() returns (w: World)
    ensures Reachable(w) && CanWithdrawDeposit(w, NODE) && w.deposits[NODE].data.writtenOff == 0
    ensures var v := Step(w, WithdrawDeposit(NODE, OfDeposit(NODE))); v == w && Balance(v, NODE) == 100
  {
    hide Reachable;
    w := Initialized();
    WithdrawalLeavesWrittenOff(w, NODE, OfDeposit(NODE));
  }

  // ---------------------------------------------------------------- write-offs that wrap

  const OTHER: Pubkey := 8
  const BAD_ROOT: Hash := Digest(map[0 := DebtLeaf(NODE, U64_MAX), 1 := DebtLeaf(OTHER, 2)], map[])
  const LATER_ROOT: Hash := Digest(map[0 := DebtLeaf(NODE, 200)], map[])
  const SECOND: MerkleProof := MerkleProof(Some(1), true)

  const BAD: Distribution := NEW.(debtFinalized := true, debtRoot := BAD_ROOT, totalValidators := 2,
                                  totalDebt := U64_MAX, debtEnd := 1,
                                  writeOffEnabled := true, writeOffStart := 1, writeOffEnd := 2)

  /** What the examples of this part need of the accounts around the distributions. */
  ghost predicate Around(w: World, lamports: nat) {
    && Reachable(w) && w.config == INITIALIZED.(writeOffActivationEpoch := 1)
    && w.journalAta == 0 && w.journal == START.journal && w.outsideLamports >= lamports
    && w.deposits.Keys == {NODE, OTHER}
    && w.deposits[OTHER] == DepositState(Deposit(OTHER, 0), MinimumBalance(DEPOSIT_DATA_END))
  }

  lemma BadAccount(a: DistributionState, c: ProgramConfig)
    requires a == NewDistribution(CONFIGURED, 1, 120, 0, 0, MinimumBalance(DISTRIBUTION_DATA_END))
    requires WriteOffActivated(c)
    ensures CanConfigureDebt(a.data, 120)
    ensures var b := ConfiguredDebt(a, 2, U64_MAX, BAD_ROOT);
      && CanFinalizeDebt(b.data, 120) && b.lamports == a.lamports && b.tokens == 0
      && var d := FinalizedDebt(b);
         && d.lamports == MinimumBalance(DISTRIBUTION_DATA_END + 1) && d.tokens == 0
         && CanEnableWriteOff(c, d.data)
         && WithWriteOffEnabled(d)
            == DistributionState(BAD, [0, 0], MinimumBalance(DISTRIBUTION_DATA_END + 2), 0)
  {}

  lemma BadDebt() returns (w: World)
    ensures Around(w, 800_000_000) && w.distributions.Keys == {0}
    ensures w.distributions[0] == DistributionState(BAD, [0, 0], MinimumBalance(DISTRIBUTION_DATA_END + 2), 0)
    ensures w.deposits[NODE] == DepositState(Deposit(NODE, 0), MinimumBalance(DEPOSIT_DATA_END) + 100)
  {
    hide Reachable, FinalizedDebt, ConfiguredDebt, WithWriteOffEnabled, CanConfigureDebt, CanFinalizeDebt,
      CanEnableWriteOff;
    w := Initialized();
    w := Set(w, WriteOffActivation(1));
    w := Then(w, InitializeDeposit(OTHER, 0));
    BadAccount(w.distributions[0], w.config);
    w := Then(w, ConfigureDebt(0, 120, 2, U64_MAX, BAD_ROOT));
    w := Then(w, FinalizeDebt(0, 120));
    w := Then(w, EnableWriteOff(0));
  }

  const CHARGED_UP: Distribution := BAD.(writeOffCount := 1, uncollectibleDebt := U64_MAX)

  lemma FirstWriteOff(a: DistributionState)
    requires a.data == BAD && a.remaining == [0, 0] && a.tokens == 0
    ensures var leaf := DebtLeaf(NODE, U64_MAX);
      && CanWriteOffFrom(a, FIRST, leaf)
      && var b := WrittenOffFrom(a, FIRST, leaf);
         && b.data.dzEpoch == 0
         && CanCharge(b.data, 0, U64_MAX)
         && Charged(b, U64_MAX) == DistributionState(CHARGED_UP, [1, 1], a.lamports, 0)
  {}

  /** The first validator's debt, all there is, is written off against its own epoch. */
  lemma AllWrittenOff() returns (w: World)
    ensures Around(w, 800_000_000) && w.distributions.Keys == {0}
    ensures w.distributions[0] == DistributionState(CHARGED_UP, [1, 1], MinimumBalance(DISTRIBUTION_DATA_END + 2), 0)
    ensures w.deposits[NODE] == DepositState(Deposit(NODE, U64_MAX), MinimumBalance(DEPOSIT_DATA_END) + 100)
  {
    hide Reachable, CanWriteOffFrom, WrittenOffFrom, CanCharge, Charged;
    w := BadDebt();
    FirstWriteOff(w.distributions[0]);
    w := Then(w, WriteOff(0, NODE, 0, U64_MAX, FIRST));
  }

  lemma SecondWriteOff(a: DistributionState)
    requires a.data == CHARGED_UP && a.remaining == [1, 1]
    ensures var leaf := DebtLeaf(OTHER, 2);
      && CanWriteOffFrom(a, SECOND, leaf)
      && var b := WrittenOffFrom(a, SECOND, leaf);
         b.data.dzEpoch == 0 && CanCharge(b.data, 0, 2) && Charged(b, 2).data.uncollectibleDebt == 1
  {}

  /**
   * The check after the unchecked charge lets a wrapped sum pass: writing off 2 more leaves 1 of
   * 2^64 - 1 uncollectible lamports, and the double entry is lost.
   */
  lemma ChargeCanWrap() returns (w: World)
    ensures Reachable(w) && Effect(w, WriteOff(0, OTHER, 0, 2, SECOND)).Some?
    ensures var v := Step(w, WriteOff(0, OTHER, 0, 2, SECOND));
      && w.distributions[0].data.uncollectibleDebt == U64_MAX && v.distributions[0].data.uncollectibleDebt == 1
      && !StepFits(w, WriteOff(0, OTHER, 0, 2, SECOND)) && !Inv(v)
  {
    hide Reachable, Inv, CanWriteOffFrom, WrittenOffFrom, CanCharge, Charged, Follows;
    w := AllWrittenOff();
    SecondWriteOff(w.distributions[0]);
    ReachableInv(w);
    StepKeepsInvExactly(w, WriteOff(0, OTHER, 0, 2, SECOND));
  }

  const LATER: Distribution :=
    NewDistribution(INITIALIZED, 1, 180, 0, 0, 0).data.(
      debtFinalized := true, debtRoot := LATER_ROOT, totalValidators := 1, totalDebt := 200, debtEnd := 1,
      writeOffEnabled := true, writeOffStart := 1, writeOffEnd := 2)

  lemma LaterAccount(a: DistributionState, c: ProgramConfig)
    requires a.data == NewDistribution(INITIALIZED, 1, 180, 0, 0, 0).data && a.remaining == [] && a.tokens == 0
    requires a.lamports == MinimumBalance(DISTRIBUTION_DATA_END) && WriteOffActivated(c)
    ensures CanConfigureDebt(a.data, 180)
    ensures var b := ConfiguredDebt(a, 1, 200, LATER_ROOT);
      && CanFinalizeDebt(b.data, 180) && b.lamports == a.lamports && b.tokens == 0
      && var d := FinalizedDebt(b);
         && d.lamports == MinimumBalance(DISTRIBUTION_DATA_END + 1) && d.tokens == 0
         && CanEnableWriteOff(c, d.data)
         && WithWriteOffEnabled(d)
            == DistributionState(LATER, [0, 0], MinimumBalance(DISTRIBUTION_DATA_END + 2), 0)
  {}

  lemma NextEpoch() returns (w: World)
    ensures Reachable(w) && !w.config.isPaused && w.config.nextEpoch == 2 && w.config.writeOffActivationEpoch == 1
    ensures w.distributions.Keys == {0, 1} && w.outsideLamports >= 700_000_000
    ensures var a := w.distributions[1];
      && a.data == NewDistribution(INITIALIZED, 1, 180, 0, 0, 0).data && a.remaining == [] && a.tokens == 0
      && a.lamports == MinimumBalance(DISTRIBUTION_DATA_END)
    ensures NODE in w.deposits
    ensures w.deposits[NODE] == DepositState(Deposit(NODE, U64_MAX), MinimumBalance(DEPOSIT_DATA_END) + 100)
  {
    hide Reachable;
    w := AllWrittenOff();
    w := Then(w, InitializeDistribution(120, 0));
  }

  lemma LaterDebt() returns (w: World)
    ensures Reachable(w) && !w.config.isPaused && w.distributions.Keys == {0, 1}
    ensures w.distributions[1] == DistributionState(LATER, [0, 0], MinimumBalance(DISTRIBUTION_DATA_END + 2), 0)
    ensures NODE in w.deposits
    ensures w.deposits[NODE] == DepositState(Deposit(NODE, U64_MAX), MinimumBalance(DEPOSIT_DATA_END) + 100)
  {
    hide Reachable, FinalizedDebt, ConfiguredDebt, WithWriteOffEnabled, CanConfigureDebt, CanFinalizeDebt,
      CanEnableWriteOff;
    w := NextEpoch();
    LaterAccount(w.distributions[1], w.config);
    w := Then(w, ConfigureDebt(1, 180, 1, 200, LATER_ROOT));
    w := Then(w, FinalizeDebt(1, 180));
    w := Then(w, EnableWriteOff(1));
  }

  lemma LaterWriteOff(a: DistributionState)
    requires a.data == LATER && a.remaining == [0, 0]
    ensures var leaf := DebtLeaf(NODE, 200);
      && CanWriteOffFrom(a, FIRST, leaf)
      && var b := WrittenOffFrom(a, FIRST, leaf);
         b.data.dzEpoch == 1 && CanCharge(b.data, 1, 200) && Charged(b, 200).data.uncollectibleDebt == 200
  {}

  /** A second epoch's write-off fits its distribution but wraps the same validator's deposit: 200 more leaves 199. */
  lemma DepositCanWrap() returns (w: World)
    ensures Reachable(w) && Effect(w, WriteOff(1, NODE, 1, 200, FIRST)).Some?
    ensures var v := Step(w, WriteOff(1, NODE, 1, 200, FIRST));
      && w.deposits[NODE].data.writtenOff == U64_MAX && v.deposits[NODE].data.writtenOff == 199
      && v.distributions[1].data.uncollectibleDebt == 200
      && !StepFits(w, WriteOff(1, NODE, 1, 200, FIRST)) && !Inv(v)
  {
    hide Reachable, Inv, CanWriteOffFrom, WrittenOffFrom, CanCharge, Charged, Follows;
    w := LaterDebt();
    LaterWriteOff(w.distributions[1]);
    ReachableInv(w);
    StepKeepsInvExactly(w, WriteOff(1, NODE, 1, 200, FIRST));
  }
}
