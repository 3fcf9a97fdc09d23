/**
 * The instructions as they run: account objects changed in place, in the order of the source, with
 * checks after changes where the source has them there. What an instruction that fails leaves behind
 * is rolled back by the runtime, so the contracts speak of success only: an instruction succeeds
 * exactly when the step does, and then every account holds what the step says.
 */
module Processor {
  import opened Units
  import opened BurnRates
  import opened Rewards
  import opened Accounts
  import opened Distributions
  import opened World
  import opened WorldInvariants
  import opened AccountObjects

  // ---------------------------------------------------------------- configuration

  /** The other settings: each is checked against its own bounds and changes its own field. */
  method TryConfigureProgram(config: ProgramConfigAccount, setting: Setting) returns (r: ProgramResult)
    requires !setting.BurnRateUpdate? && !setting.BurnRateInitial?
    modifies config
    ensures r.Ok? <==> NewSetting(old(config.data), setting).Some?
    ensures r.Ok? ==> config.data == NewSetting(old(config.data), setting).value
    ensures var c := old(config.data);
      match setting
      case Pause(paused) => r.Ok? && config.data == c.(isPaused := paused)
      case Fees(fees) => r.Ok? && config.data == c.(fees := fees)
      case CalculationGrace(m) =>
        (r.Ok? <==> 0 < m <= 1_440) && (r.Ok? ==> config.data == c.(calculationGraceMinutes := m))
      case InitializationGrace(m) =>
        (r.Ok? <==> 0 < m <= 2_880) && (r.Ok? ==> config.data == c.(initializationGraceMinutes := m))
      case MinimumEpochs(n) =>
        (r.Ok? <==> 0 < n <= 255) && (r.Ok? ==> config.data == c.(minimumEpochsToFinalize := n))
      case RelayLamports(l) => (r.Ok? <==> 5_000 < l) && (r.Ok? ==> config.data == c.(relayLamports := l))
      case WriteOffActivation(e) =>
        (r.Ok? <==> e != 0) && (r.Ok? ==> config.data == c.(writeOffActivationEpoch := e))
      case SwapProgram => r.Ok? && config.data == c.(swapProgramSet := true)
      case SwapDestinationCreated => r.Ok? && config.data == c.(swapDestinationSet := true)
      case _ => true
  {
    match setting {
      case Pause(paused) => config.data := config.data.(isPaused := paused);
      case Fees(fees) => config.data := config.data.(fees := fees);
      case CalculationGrace(minutes) =>
        if minutes == 0 || minutes > 24 * 60 {
          return Err(InvalidInstructionData);
        }
        config.data := config.data.(calculationGraceMinutes := minutes);
      case InitializationGrace(minutes) =>
        if minutes == 0 || minutes > 48 * 60 {
          return Err(InvalidInstructionData);
        }
        config.data := config.data.(initializationGraceMinutes := minutes);
      case MinimumEpochs(epochs) =>
        if epochs == 0 || epochs > 255 {
          return Err(InvalidInstructionData);
        }
        config.data := config.data.(minimumEpochsToFinalize := epochs);
      case RelayLamports(lamports) =>
        if lamports < 5_001 {
          return Err(InvalidInstructionData);
        }
        config.data := config.data.(relayLamports := lamports);
      case WriteOffActivation(epoch) =>
        if epoch == 0 {
          return Err(InvalidInstructionData);
        }
        config.data := config.data.(writeOffActivationEpoch := epoch);
      case SwapProgram => config.data := config.data.(swapProgramSet := true);
      case SwapDestinationCreated => config.data := config.data.(swapDestinationSet := true);
      case _ =>
    }
    return Ok;
  }

  /** Either first parameters, before any epoch, or an update of those in force. */
  method TryConfigureCommunityBurnRate(
    config: ProgramConfigAccount, initialRate: Option<u32>, limit: u32, inc: u32, lim: u32) returns (r: ProgramResult)
    modifies config
    ensures var setting := if initialRate.Some? then BurnRateInitial(initialRate.value, limit, inc, lim)
                           else BurnRateUpdate(limit, inc, lim);
      && (r.Ok? <==> NewSetting(old(config.data), setting).Some?)
      && (r.Ok? ==> config.data == NewSetting(old(config.data), setting).value)
  {
    if NewShare32(limit).None? {
      return Err(InvalidInstructionData);
    }
    if initialRate.Some? {
      if config.data.nextEpoch != 0 || NewShare32(initialRate.value).None? {
        return Err(InvalidInstructionData);
      }
      var params := CommunityBurnRateParameters.New(initialRate.value, limit, inc, lim);
      if params == null {
        return Err(InvalidInstructionData);
      }
      config.data := config.data.(burnParams := params.View());
    } else {
      var params := new CommunityBurnRateParameters(config.data.burnParams);
      var slope := params.CheckedUpdate(limit, inc, lim);
      if slope.None? {
        return Err(InvalidInstructionData);
      }
      config.data := config.data.(burnParams := params.View());
    }
    return Ok;
  }

  method TryConfigureDistributionDebt(
    config: ProgramConfigAccount, distribution: DistributionAccount, validators: u32, debt: u64, root: Hash, now: int)
    returns (r: ProgramResult)
    modifies distribution`data
    ensures r.Ok? <==> !config.data.isPaused && CanConfigureDebt(old(distribution.data), now)
    ensures r.Ok? ==> distribution.View() == ConfiguredDebt(old(distribution.View()), validators, debt, root)
    ensures r.Ok? ==> distribution.data.totalValidators == validators && distribution.data.totalDebt == debt
                      && distribution.data.debtRoot == root
  {
    if config.data.isPaused || distribution.data.debtFinalized || !CalculationAllowed(distribution.data, now) {
      return Err(InvalidAccountData);
    }
    if distribution.data.fees == NO_FEES {
      return Err(InvalidAccountData);
    }
    distribution.data := distribution.data.(totalValidators := validators);
    distribution.data := distribution.data.(totalDebt := debt);
    distribution.data := distribution.data.(debtRoot := root);
    return Ok;
  }

  method TryConfigureDistributionRewards(
    config: ProgramConfigAccount, distribution: DistributionAccount, contributors: u32, root: Hash, now: int)
    returns (r: ProgramResult)
    modifies distribution`data
    ensures r.Ok? <==> !config.data.isPaused && CanConfigureRewards(old(distribution.data), now)
    ensures r.Ok? ==> distribution.View() == ConfiguredRewards(old(distribution.View()), contributors, root)
    ensures r.Ok? ==> distribution.data.totalContributors == contributors && distribution.data.rewardsRoot == root
  {
    if config.data.isPaused || distribution.data.rewardsFinalized || !CalculationAllowed(distribution.data, now) {
      return Err(InvalidAccountData);
    }
    distribution.data := distribution.data.(totalContributors := contributors);
    distribution.data := distribution.data.(rewardsRoot := root);
    return Ok;
  }

  method TrySetDistributionEconomicBurnRate(
    config: ProgramConfigAccount, distribution: DistributionAccount, rate: u32) returns (r: ProgramResult)
    modifies distribution`data
    ensures r.Ok? <==> !config.data.isPaused && !old(distribution.data.rewardsFinalized) && NewShare32(rate).Some?
    ensures r.Ok? ==> distribution.View() == WithEconomicBurnRate(old(distribution.View()), rate)
    ensures r.Ok? ==> distribution.data.economicBurnRate == rate
  {
    if NewShare32(rate).None? {
      return Err(InvalidInstructionData);
    }
    if config.data.isPaused || distribution.data.rewardsFinalized {
      return Err(InvalidAccountData);
    }
    distribution.data := distribution.data.(economicBurnRate := rate);
    return Ok;
  }

  /** The recipients are replaced as a whole or not at all. */
  method TryConfigureContributorRewards(
    config: ProgramConfigAccount, contributor: ContributorRewardsAccount, recipients: seq<(Pubkey, u16)>)
    returns (r: ProgramResult)
    modifies contributor
    ensures r.Ok? <==> !config.data.isPaused && ValidRecipients(recipients)
    ensures r.Ok? ==> contributor.recipients == Padded(recipients)
    ensures r.Err? ==> contributor.recipients == old(contributor.recipients)
  {
    if config.data.isPaused {
      return Err(InvalidAccountData);
    }
    var shares := NewRecipientShares(recipients);
    if shares.None? {
      return Err(InvalidAccountData);
    }
    contributor.recipients := shares.value;
    return Ok;
  }

  // ---------------------------------------------------------------- allocation

  method TryFinalizeDistributionDebt(
    config: ProgramConfigAccount, distribution: DistributionAccount, payer: AccountInfo, now: int)
    returns (r: ProgramResult)
    requires payer != distribution.info
    modifies distribution`data, distribution`remainingData, distribution.info, payer
    ensures r.Ok? <==>
            && !config.data.isPaused
            && CanFinalizeDebt(old(distribution.data), now)
            && FinalizedDebt(old(distribution.View())).lamports <= old(distribution.info.lamports) + old(payer.lamports)
    ensures r.Ok? ==>
              && distribution.View() == FinalizedDebt(old(distribution.View()))
              && payer.lamports + distribution.info.lamports == old(payer.lamports) + old(distribution.info.lamports)
  {
    if config.data.isPaused {
      return Err(InvalidAccountData);
    }
    if distribution.data.debtFinalized || !CalculationAllowed(distribution.data, now) {
      return Err(InvalidAccountData);
    }
    distribution.data := distribution.data.(debtFinalized := true);
    var debt := NetDebt(distribution.data);
    if debt.None? {
      return Err(Panic);
    }
    if debt.value == 0 {
      return Ok;
    }
    var length := DistributionAccount.BitmapLength(distribution.data.totalValidators);
    var start := Truncate32(distribution.remainingData.Length);
    distribution.data := distribution.data.(debtStart := start, debtEnd := SatAdd32(start, length));
    :- distribution.Resize(length);
    var shortfall := distribution.RentShortfall();
    :- Transfer(payer, distribution.info, shortfall);
    return Ok;
  }

  method TryEnableSolanaValidatorDebtWriteOff(
    config: ProgramConfigAccount, distribution: DistributionAccount, payer: AccountInfo)
    returns (r: ProgramResult)
    requires payer != distribution.info
    modifies distribution`data, distribution`remainingData, distribution.info, payer
    ensures r.Ok? <==>
            && !config.data.isPaused
            && CanEnableWriteOff(config.data, old(distribution.data))
            && WithWriteOffEnabled(old(distribution.View())).lamports
               <= old(distribution.info.lamports) + old(payer.lamports)
    ensures r.Ok? ==>
              && distribution.View() == WithWriteOffEnabled(old(distribution.View()))
              && payer.lamports + distribution.info.lamports == old(payer.lamports) + old(distribution.info.lamports)
  {
    if config.data.isPaused || !WriteOffActivated(config.data) {
      return Err(InvalidAccountData);
    }
    if distribution.data.writeOffEnabled {
      return Err(InvalidAccountData);
    }
    distribution.data := distribution.data.(writeOffEnabled := true);
    if !distribution.data.debtFinalized {
      return Err(InvalidAccountData);
    }
    var length := DistributionAccount.BitmapLength(distribution.data.totalValidators);
    var start := Truncate32(distribution.remainingData.Length);
    distribution.data := distribution.data.(writeOffStart := start, writeOffEnd := SatAdd32(start, length));
    :- distribution.Resize(length);
    var shortfall := distribution.RentShortfall();
    :- Transfer(payer, distribution.info, shortfall);
    return Ok;
  }

  method TryFinalizeDistributionRewards(
    config: ProgramConfigAccount, distribution: DistributionAccount, payer: AccountInfo, now: int)
    returns (r: ProgramResult)
    requires payer != distribution.info
    modifies distribution`data, distribution`remainingData, distribution.info, payer
    ensures r.Ok? <==>
            && !config.data.isPaused
            && CanFinalizeRewards(config.data, old(distribution.data), now)
            && FinalizedRewards(old(distribution.View())).lamports
               <= old(distribution.info.lamports) + old(payer.lamports)
    ensures r.Ok? ==>
              && distribution.View() == FinalizedRewards(old(distribution.View()))
              && payer.lamports + distribution.info.lamports == old(payer.lamports) + old(distribution.info.lamports)
  {
    if config.data.isPaused {
      return Err(InvalidAccountData);
    }
    if distribution.data.rewardsFinalized || !CalculationAllowed(distribution.data, now) {
      return Err(InvalidAccountData);
    }
    distribution.data := distribution.data.(rewardsFinalized := true);
    if !distribution.data.debtFinalized {
      return Err(InvalidAccountData);
    }
    if distribution.data.rewardsRoot == NullHash {
      if NetDebt(distribution.data) != Some(0) {
        return Err(InvalidAccountData);
      }
      if TotalCollected(distribution.data) != Some(0) {
        return Err(InvalidAccountData);
      }
      if !AllIntegrationsCollected(distribution.data) {
        return Err(InvalidAccountData);
      }
    }
    if config.data.minimumEpochsToFinalize == 0 {
      return Err(InvalidAccountData);
    }
    if SatAdd64(distribution.data.dzEpoch, config.data.minimumEpochsToFinalize) > config.data.nextEpoch {
      return Err(InvalidAccountData);
    }
    var length := DistributionAccount.BitmapLength(distribution.data.totalContributors);
    var start := Truncate32(distribution.remainingData.Length);
    distribution.data := distribution.data.(rewardsStart := start, rewardsEnd := SatAdd32(start, length));
    :- distribution.Resize(length);
    var shortfall := distribution.RentShortfall();
    :- Transfer(payer, distribution.info, RelayFunds(distribution.data) + shortfall);
    return Ok;
  }

  // ---------------------------------------------------------------- debt

  method TryPaySolanaValidatorDebt(
    config: ProgramConfigAccount, distribution: DistributionAccount, deposit: DepositAccount, journal: JournalAccount,
    amount: u64, proof: MerkleProof, ghost w: World)
    returns (r: ProgramResult)
    requires config.data == w.config && distribution.In(w) && deposit.In(w) && journal.View() == w.journal
    requires deposit.info != journal.info && distribution.info != deposit.info && distribution.info != journal.info
    modifies distribution`data, distribution.remainingData, deposit.info, journal`data, journal.info
    ensures var e, node := distribution.data.dzEpoch, deposit.data.node;
      && e == old(distribution.data.dzEpoch)
      && (r.Ok? <==> CanPayDebt(w, e, node, amount, proof))
      && (r.Ok? ==> DebtPaid(w, e, node, amount, proof)
                    == w.(distributions := w.distributions[e as nat := distribution.View()],
                          deposits := w.deposits[node := deposit.View()],
                          journal := journal.View()))
    ensures r.Ok? ==>
              var root := old(distribution.data.debtRoot);
              && proof.leafIndex.Some? && proof.leafIndex.value in Debts(root)
              && Debts(root)[proof.leafIndex.value] == DebtLeaf(deposit.data.node, amount)
              && deposit.info.lamports == old(deposit.info.lamports) - amount
              && (amount != 0 ==> MinimumBalance(DEPOSIT_DATA_END) <= deposit.info.lamports)
              && journal.info.lamports == old(journal.info.lamports) + amount
  {
    if proof.leafIndex.None? {
      return Err(InvalidInstructionData);
    }
    if config.data.isPaused || !distribution.data.debtFinalized {
      return Err(InvalidAccountData);
    }
    distribution.data := distribution.data.(
      collectedPayments := WrapAdd64(distribution.data.collectedPayments, amount),
      paymentsCount := WrapAdd32(distribution.data.paymentsCount, 1));
    :- TryProcessRemainingDataLeafIndex(
      distribution.remainingData, distribution.data.debtStart, distribution.data.debtEnd, proof.leafIndex.value);
    if !VerifiesDebt(distribution.data.debtRoot, proof, DebtLeaf(deposit.data.node, amount)) {
      return Err(InvalidInstructionData);
    }
    if Excess(deposit.View()) < amount {
      return Err(InvalidAccountData);
    }
    deposit.info.lamports := deposit.info.lamports - amount;
    journal.info.lamports := journal.info.lamports + amount;
    journal.data := journal.data.(totalSol := WrapAdd64(journal.data.totalSol, amount));
    return Ok;
  }

  /** The charged distribution may be the one the debt came from. */
  method TryWriteOffSolanaValidatorDebt(
    config: ProgramConfigAccount, distribution: DistributionAccount, deposit: DepositAccount,
    target: DistributionAccount, amount: u64, proof: MerkleProof, ghost w: World)
    returns (r: ProgramResult)
    requires config.data == w.config && distribution.In(w) && deposit.In(w) && target.In(w)
    requires if distribution.data.dzEpoch == target.data.dzEpoch then distribution == target
             else distribution.Repr() !! target.Repr()
    modifies distribution`data, distribution.remainingData, deposit`data, target`data
    ensures var e, node, t := distribution.data.dzEpoch, deposit.data.node, target.data.dzEpoch;
      && e == old(distribution.data.dzEpoch) && node == old(deposit.data.node) && t == old(target.data.dzEpoch)
      && (r.Ok? <==> CanWriteOffDebt(w, e, node, t, amount, proof))
      && (r.Ok? ==> DebtWrittenOff(w, e, node, t, amount, proof)
                    == w.(distributions := w.distributions[e as nat := distribution.View()][t as nat := target.View()],
                          deposits := w.deposits[node := deposit.View()]))
    ensures r.Ok? ==>
              && deposit.info.lamports < MinimumBalance(DEPOSIT_DATA_END) + amount
              && deposit.data.writtenOff == WrapAdd64(old(deposit.data.writtenOff), amount)
  {
    hide CanWriteOffFrom, CanCharge, WrittenOffFrom, Charged, MinimumBalance;
    if proof.leafIndex.None? {
      assert !CanWriteOffFrom(distribution.View(), proof, DebtLeaf(deposit.data.node, amount)) by {
        NoIndexNoWriteOff(distribution.View(), proof, DebtLeaf(deposit.data.node, amount));
      }
      return Err(InvalidInstructionData);
    }
    if config.data.isPaused {
      return Err(InvalidAccountData);
    }
    deposit.data := deposit.data.(writtenOff := WrapAdd64(deposit.data.writtenOff, amount));
    if Excess(deposit.View()) >= amount {
      return Err(InvalidAccountData);
    }
    :- TryMarkWrittenOff(distribution, proof, DebtLeaf(deposit.data.node, amount));
    :- TryCharge(target, distribution.data.dzEpoch, amount);
    return Ok;
  }

  /** The check comes after the unchecked addition. */
  method TryCharge(target: DistributionAccount, sourceEpoch: u64, amount: u64) returns (r: ProgramResult)
    modifies target`data
    ensures target.data.dzEpoch == old(target.data.dzEpoch)
    ensures r.Ok? <==> CanCharge(old(target.data), sourceEpoch, amount)
    ensures r.Ok? ==> target.View() == Charged(old(target.View()), amount)
  {
    if target.data.dzEpoch < sourceEpoch || target.data.swept || !target.data.debtFinalized {
      return Err(InvalidAccountData);
    }
    target.data := target.data.(uncollectibleDebt := WrapAdd64(target.data.uncollectibleDebt, amount));
    if NetDebt(target.data).None? {
      return Err(ArithmeticOverflow);
    }
    return Ok;
  }

  /** Both bits of the leaf, then the proof. */
  method TryMarkWrittenOff(distribution: DistributionAccount, proof: MerkleProof, leaf: DebtLeaf)
    returns (r: ProgramResult)
    requires proof.leafIndex.Some?
    modifies distribution`data, distribution.remainingData
    ensures distribution.data.dzEpoch == old(distribution.data.dzEpoch)
    ensures r.Ok? <==> CanWriteOffFrom(old(distribution.View()), proof, leaf)
    ensures r.Ok? ==> distribution.View() == WrittenOffFrom(old(distribution.View()), proof, leaf)
  {
    if !distribution.data.writeOffEnabled {
      return Err(InvalidAccountData);
    }
    distribution.data := distribution.data.(writeOffCount := WrapAdd32(distribution.data.writeOffCount, 1));
    var index := proof.leafIndex.value;
    :- TryProcessRemainingDataLeafIndex(
      distribution.remainingData, distribution.data.writeOffStart, distribution.data.writeOffEnd, index);
    :- TryProcessRemainingDataLeafIndex(
      distribution.remainingData, distribution.data.debtStart, distribution.data.debtEnd, index);
    if !VerifiesDebt(distribution.data.debtRoot, proof, leaf) {
      return Err(InvalidInstructionData);
    }
    return Ok;
  }

  // ---------------------------------------------------------------- sweep and swap

  /** The swap program answers with the SOL it dequeued and the 2Z it was sold for. */
  method TrySweepDistributionTokens(
    config: ProgramConfigAccount, distribution: DistributionAccount, journal: JournalAccount,
    swapDestination: TokenAccount, returnedSol: u64, returned2z: u64, ghost w: World)
    returns (r: ProgramResult)
    requires config.data == w.config && distribution.In(w) && journal.View() == w.journal
    requires swapDestination.amount == w.swapTokens && swapDestination != distribution.token
    modifies distribution`data, distribution.token, journal`data, swapDestination
    ensures var e := distribution.data.dzEpoch;
      && e == old(distribution.data.dzEpoch)
      && (r.Ok? <==> CanSweepTokens(w, e, returnedSol, returned2z))
      && (r.Ok? ==> TokensSwept(w, e, returned2z)
                    == w.(distributions := w.distributions[e as nat := distribution.View()],
                          journal := journal.View(),
                          swapTokens := swapDestination.amount))
  {
    if config.data.isPaused || distribution.data.swept {
      return Err(InvalidAccountData);
    }
    distribution.data := distribution.data.(swept := true);
    if !distribution.data.rewardsFinalized {
      return Err(InvalidAccountData);
    }
    if journal.data.nextSweepEpoch != distribution.data.dzEpoch {
      return Err(InvalidAccountData);
    }
    journal.data := journal.data.(nextSweepEpoch := SatAdd64(journal.data.nextSweepEpoch, 1));
    var debt := NetDebt(distribution.data);
    if debt.None? {
      return Err(Panic);
    }
    if debt.value == 0 {
      return Ok;
    }
    if journal.data.swappedSol < debt.value {
      return Err(InvalidAccountData);
    }
    journal.data := journal.data.(swappedSol := journal.data.swappedSol - debt.value);
    if !config.data.swapProgramSet || returnedSol != debt.value {
      return Err(InvalidAccountData);
    }
    distribution.data := distribution.data.(converted2z := returned2z);
    if !config.data.swapDestinationSet {
      return Err(Panic);
    }
    :- TransferTokens(swapDestination, distribution.token, returned2z);
    journal.data := journal.data.(swap2zBalance := WrapSub64(journal.data.swap2zBalance, returned2z));
    return Ok;
  }

  /**
   * The 2Z was transferred to the swap destination by the instruction just before. The SOL may go to
   * any account, the journal's own included.
   */
  method TryWithdrawSol(
    config: ProgramConfigAccount, journal: JournalAccount, destination: AccountInfo, amount: u64, transferred2z: u64,
    ghost w: World)
    returns (r: ProgramResult)
    requires config.data == w.config && journal.View() == w.journal && transferred2z <= w.outside2z
    modifies journal`data, journal.info, destination
    ensures r.Ok? <==> CanWithdrawSol(w, amount, transferred2z)
    ensures r.Ok? ==> journal.data == SolDebited(w, amount, transferred2z).journal.data
    ensures r.Ok? && destination != journal.info ==>
              && journal.View() == SolDebited(w, amount, transferred2z).journal
              && destination.lamports == old(destination.lamports) + amount
    ensures r.Ok? && destination == journal.info ==> journal.info.lamports == old(journal.info.lamports)
  {
    if config.data.isPaused || !config.data.swapProgramSet {
      return Err(InvalidAccountData);
    }
    if !config.data.swapDestinationSet {
      return Err(Panic);
    }
    if journal.data.totalSol < amount {
      return Err(InvalidAccountData);
    }
    journal.data := journal.data.(totalSol := journal.data.totalSol - amount);
    journal.data := journal.data.(swappedSol := WrapAdd64(journal.data.swappedSol, amount));
    journal.data := journal.data.(swap2zBalance := WrapAdd64(journal.data.swap2zBalance, transferred2z));
    journal.data := journal.data.(lifetimeSwapped2z := WrapAdd128(journal.data.lifetimeSwapped2z, transferred2z));
    :- Transfer(journal.info, destination, amount);
    return Ok;
  }

  // ---------------------------------------------------------------- deposits

  /** Lamports sent to the address before are carried over on top of the rent. */
  method TryInitializeSolanaValidatorDeposit(newAccount: AccountInfo, payer: AccountInfo, node: Pubkey)
    returns (r: ProgramResult, deposit: DepositAccount?)
    requires payer != newAccount && payer.lamports + newAccount.lamports < U64_MAX
    modifies payer, newAccount
    ensures r.Ok? <==> MinimumBalance(DEPOSIT_DATA_END) + old(newAccount.lamports)
                       <= old(payer.lamports) + old(newAccount.lamports)
    ensures r.Ok? ==>
              && deposit != null && deposit.info == newAccount
              && deposit.View()
                 == DepositState(Deposit(node, 0), MinimumBalance(DEPOSIT_DATA_END) + old(newAccount.lamports))
              && payer.lamports == old(payer.lamports) - MinimumBalance(DEPOSIT_DATA_END)
  {
    deposit := null;
    var additional := newAccount.lamports;
    r := TryCreateAccount(payer, newAccount, DEPOSIT_DATA_END, additional);
    if r.Ok? {
      deposit := new DepositAccount(newAccount, Deposit(node, 0));
    }
  }

  /** What is left is exactly the rent and the written-off debt, unless the beneficiary is the deposit itself. */
  method TryWithdrawSolanaValidatorDeposit(
    config: ProgramConfigAccount, deposit: DepositAccount, beneficiary: AccountInfo)
    returns (r: ProgramResult)
    modifies deposit.info, beneficiary
    ensures r.Ok? <==> !config.data.isPaused && Withdrawable(old(deposit.View())) != 0
    ensures r.Ok? && beneficiary != deposit.info ==>
              && deposit.info.lamports == MinimumBalance(DEPOSIT_DATA_END) + deposit.data.writtenOff
              && beneficiary.lamports + deposit.info.lamports == old(beneficiary.lamports) + old(deposit.info.lamports)
    ensures r.Ok? && beneficiary == deposit.info ==> deposit.info.lamports == old(deposit.info.lamports)
  {
    if config.data.isPaused {
      return Err(InvalidAccountData);
    }
    var withdrawn := Withdrawable(deposit.View());
    if withdrawn == 0 {
      return Err(InvalidAccountData);
    }
    deposit.info.lamports := deposit.info.lamports - withdrawn;
    beneficiary.lamports := beneficiary.lamports + withdrawn;
    return Ok;
  }

  // ---------------------------------------------------------------- a new distribution

  method TryInitializeDistribution(
    config: ProgramConfigAccount, payer: AccountInfo, newAccount: AccountInfo, token: TokenAccount,
    journal: JournalAccount, journalAta: TokenAccount, now: int)
    returns (r: ProgramResult, distribution: DistributionAccount?)
    requires payer != newAccount && payer.lamports + newAccount.lamports < U64_MAX
    requires token != journalAta && token.amount == 0 && journalAta.amount < TWO_64
    modifies config, payer, newAccount, token, journalAta
    ensures var c := old(config.data);
      var lamports := CreatedLamports(old(newAccount.lamports), 0, DISTRIBUTION_DATA_END);
      && (r.Ok? <==> InitializationAllowed(c, now) && lamports <= old(payer.lamports) + old(newAccount.lamports))
      && (r.Ok? ==>
            && config.data == AfterInitialization(c, now)
            && distribution != null
            && distribution.View()
               == NewDistribution(c, c.burnParams.next, now + c.calculationGraceMinutes * 60,
                                  journal.data.integrationsCount, old(journalAta.amount), lamports)
            && journalAta.amount == 0
            && payer.lamports == old(payer.lamports) + old(newAccount.lamports) - lamports)
  {
    distribution := null;
    if config.data.isPaused || config.data.initializationGraceMinutes == 0 {
      r := Err(InvalidAccountData);
      return;
    }
    var allowed := config.data.lastTimestamp + config.data.initializationGraceMinutes * 60;
    if allowed >= TWO_32 {
      r := Err(Panic);
      return;
    }
    if now < allowed {
      r := Err(InvalidAccountData);
      return;
    }
    if now >= TWO_32 {
      r := Err(Panic);
      return;
    }
    config.data := config.data.(lastTimestamp := now);
    if config.data.calculationGraceMinutes == 0 {
      r := Err(InvalidAccountData);
      return;
    }
    var params := new CommunityBurnRateParameters(config.data.burnParams);
    var rate := params.CheckedCompute();
    config.data := config.data.(burnParams := params.View());
    if rate.None? || config.data.relayLamports == 0 {
      r := Err(InvalidAccountData);
      return;
    }
    var epoch := config.data.nextEpoch;
    config.data := config.data.(nextEpoch := SatAdd64(epoch, 1));
    r := TryCreateAccount(payer, newAccount, DISTRIBUTION_DATA_END, 0);
    if r.Err? {
      return;
    }
    if now + config.data.calculationGraceMinutes * 60 >= TWO_32 {
      r := Err(Panic);
      return;
    }
    var timestamp := now + config.data.calculationGraceMinutes * 60;
    var blank := NewDistribution(config.data.(nextEpoch := epoch), rate.value, timestamp,
                                 journal.data.integrationsCount, 0, 0).data;
    distribution := new DistributionAccount(newAccount, token, blank);
    if journalAta.amount != 0 {
      var amount := journalAta.amount;
      r := TransferTokens(journalAta, token, amount);
      distribution.data := distribution.data.(prepaid2z := WrapAdd64(distribution.data.prepaid2z, amount));
    }
  }

  // ---------------------------------------------------------------- integrations

  /** The integration's program deposits into the distribution's 2Z account during the call. */
  method TryCollectIntegrationRewards(
    config: ProgramConfigAccount, distribution: DistributionAccount, registrationIndex: u16, deposited: nat)
    returns (r: ProgramResult)
    modifies distribution`data, distribution.token
    ensures r.Ok? <==> !config.data.isPaused
                       && CanCollect(old(distribution.data), registrationIndex)
                       && CollectionFits(old(distribution.data), deposited)
    ensures r.Ok? ==> distribution.View() == Collected(old(distribution.View()), registrationIndex, deposited)
    ensures r.Ok? ==>
              && distribution.data.integrations2z == old(distribution.data.integrations2z) + deposited
              && distribution.token.amount == old(distribution.token.amount) + deposited
              && registrationIndex as nat in distribution.data.collectedIntegrations
  {
    if config.data.isPaused || AllIntegrationsCollected(distribution.data) {
      return Err(InvalidAccountData);
    }
    if registrationIndex >= distribution.data.integrationsSnapshot || registrationIndex >= INTEGRATION_BITS {
      return Err(InvalidAccountData);
    }
    if registrationIndex as nat in distribution.data.collectedIntegrations {
      return Err(InvalidAccountData);
    }
    var before := distribution.token.amount;
    distribution.token.amount := distribution.token.amount + deposited;
    var collected := distribution.token.amount - before;
    if distribution.data.integrations2z + collected >= TWO_64 {
      return Err(Panic);
    }
    distribution.data := distribution.data.(integrations2z := distribution.data.integrations2z + collected);
    if distribution.data.integrationsCollected + 1 >= 0x1_0000 {
      return Err(Panic);
    }
    distribution.data := distribution.data.(
      integrationsCollected := distribution.data.integrationsCollected + 1,
      collectedIntegrations := distribution.data.collectedIntegrations + {registrationIndex as nat});
    return Ok;
  }

  lemma NoIndexNoWriteOff(a: DistributionState, proof: MerkleProof, leaf: DebtLeaf)
    requires proof.leafIndex.None?
    ensures !CanWriteOffFrom(a, proof, leaf)
  {}

  // ---------------------------------------------------------------- rewards

  /** Every token account gains its owner's parts; one that serves a single share gains exactly that part. */
  twostate predicate PaidOut(atas: seq<TokenAccount>, shares: seq<RecipientShare>, amount: u64)
    requires |atas| == |shares|
    reads atas
  {
    && (forall ata :: ata in atas ==> ata.amount == old(ata.amount) + SumTo(ata, atas, shares, amount))
    && (forall k: nat :: Single(atas, k) ==>
          atas[k].amount == old(atas[k].amount) + MulScalar16(shares[k].share, amount))
  }

  lemma {:induction false} TransferredPrefix(amount: u64, shares: seq<RecipientShare>, k: nat)
    requires k <= |shares|
    ensures Transferred(amount, shares[..k]) <= Transferred(amount, shares)
    decreases |shares| - k
  {
    if k == |shares| {
      assert shares[..k] == shares;
    } else {
      TransferredPrefix(amount, shares, k + 1);
      assert shares[..k + 1][..k] == shares[..k];
    }
  }

  /** One transfer per recipient, with the running total of what was transferred. */
  method TransferShares(from: TokenAccount, atas: seq<TokenAccount>, shares: seq<RecipientShare>, amount: u64)
    returns (r: ProgramResult, total: u64)
    requires |atas| == |shares| && from !in atas
    requires Transferred(amount, shares) <= amount
    modifies from, atas
    ensures r.Ok? <==> Transferred(amount, shares) <= old(from.amount)
    ensures r.Ok? ==>
              && total == Transferred(amount, shares)
              && from.amount == old(from.amount) - total
              && PaidOut(atas, shares, amount)
  {
    hide SumTo, PartsTo, MulScalar, MulScalar16;
    total := 0;
    assert atas[..0] == [] && shares[..0] == [];
    forall ata | ata in atas
      ensures SumTo(ata, atas[..0], shares[..0], amount) == 0
    {
      SumToNobody(ata, amount);
    }
    for k := 0 to |shares|
      invariant total == Transferred(amount, shares[..k])
      invariant from.amount == old(from.amount) - total
      invariant forall ata :: ata in atas ==>
                  ata.amount == old(ata.amount) + SumTo(ata, atas[..k], shares[..k], amount)
    {
      assert shares[..k + 1][..k] == shares[..k];
      TransferredPrefix(amount, shares, k + 1);
      forall ata | ata in atas
        ensures SumTo(ata, atas[..k + 1], shares[..k + 1], amount)
             == SumTo(ata, atas[..k], shares[..k], amount)
                + if atas[k] == ata then MulScalar16(shares[k].share, amount) else 0
      {
        SumToNext(ata, atas, shares, amount, k);
      }
      var part := MulScalar16(shares[k].share, amount);
      total := total + part;
      r := TransferTokens(from, atas[k], part);
      if r.Err? {
        return;
      }
    }
    assert shares[..|shares|] == shares && atas[..|atas|] == atas;
    forall k: nat | Single(atas, k)
      ensures SumTo(atas[k], atas, shares, amount) == MulScalar16(shares[k].share, amount)
    {
      SumToOne(k, atas, shares, amount);
    }
    r := Ok;
  }

  /** The counters, the burn, and last the relayer, which may be the distribution account itself. */
  method TryBurnAndRelay(distribution: DistributionAccount, relayer: AccountInfo, total: u64, burn: u64)
    returns (r: ProgramResult)
    modifies distribution`data, distribution.token, distribution.info, relayer
    ensures r.Ok? <==>
            && burn <= old(distribution.token.amount)
            && old(distribution.data.relayLamports) <= old(distribution.info.lamports)
    ensures r.Ok? ==>
              var d := old(distribution.data);
              && distribution.data == d.(
                   distributed2z := WrapAdd64(d.distributed2z, total),
                   burned2z := WrapAdd64(d.burned2z, burn),
                   distributedCount := WrapAdd32(d.distributedCount, 1))
              && distribution.token.amount == old(distribution.token.amount) - burn
              && (relayer != distribution.info ==>
                    && distribution.info.lamports == old(distribution.info.lamports) - d.relayLamports
                    && relayer.lamports == old(relayer.lamports) + d.relayLamports)
              && (relayer == distribution.info ==> relayer.lamports == old(relayer.lamports))
  {
    distribution.data := distribution.data.(
      distributed2z := WrapAdd64(distribution.data.distributed2z, total),
      burned2z := WrapAdd64(distribution.data.burned2z, burn),
      distributedCount := WrapAdd32(distribution.data.distributedCount, 1));
    if distribution.token.amount < burn {
      return Err(InsufficientFunds);
    }
    distribution.token.amount := distribution.token.amount - burn;
    if distribution.info.lamports < distribution.data.relayLamports {
      return Err(Panic);
    }
    relayer.lamports := relayer.lamports + distribution.data.relayLamports;
    distribution.info.lamports := distribution.info.lamports - distribution.data.relayLamports;
    return Ok;
  }

  /**
   * Splits one contributor's share: recipients first, then the burn with the dust, then the relayer,
   * which may be the distribution account itself.
   */
  method TryPayReward(
    distribution: DistributionAccount, recipients: seq<RecipientShare>, atas: seq<TokenAccount>, relayer: AccountInfo,
    claim: Claim)
    returns (r: ProgramResult)
    requires RecipientsWellformed(recipients) && |atas| == |Active(recipients)| && ClaimLeaf(claim).Some?
    requires distribution.token !in atas
    modifies distribution`data, distribution.token, distribution.info, relayer, atas
    ensures var d := old(distribution.data);
      r.Ok? <==>
        && TotalCollected(d).Some?
        && Active(recipients) != []
        && ShareAmount(Pool(d), claim.unitShare) <= old(distribution.token.amount)
        && d.relayLamports <= old(distribution.info.lamports)
    ensures r.Ok? ==>
              var d := old(distribution.data);
              var rate := EffectiveBurnRate(d, claim.economicBurnRate);
              var distributed := Distributed(Pool(d), claim.unitShare, rate, Active(recipients));
              var share := ShareAmount(Pool(d), claim.unitShare);
              && distributed <= share
              && distribution.data == d.(
                   distributed2z := WrapAdd64(d.distributed2z, distributed),
                   burned2z := WrapAdd64(d.burned2z, share - distributed),
                   distributedCount := WrapAdd32(d.distributedCount, 1))
              && distribution.token.amount == old(distribution.token.amount) - share
              && (relayer != distribution.info ==>
                    && distribution.info.lamports == old(distribution.info.lamports) - d.relayLamports
                    && relayer.lamports == old(relayer.lamports) + d.relayLamports)
              && (relayer == distribution.info ==> relayer.lamports == old(relayer.lamports))
              && PaidOut(atas, Active(recipients), PayableOf(d, claim))
  {
    hide SumTo, PartsTo, Transferred, Active, SumShares, EffectiveBurnRate, MulScalar, MulScalar16, MulScalar32;
    var pool := TotalCollected(distribution.data);
    if pool.None? {
      return Err(Panic);
    }
    var rate := EffectiveBurnRate(distribution.data, claim.economicBurnRate);
    var share := ShareAmount(pool.value, claim.unitShare);
    var burn := MulScalar32(rate, share);
    var rest: u64 := share - burn;
    var active := Active(recipients);
    if active == [] {
      return Err(InvalidAccountData);
    }
    TransferredTight(rest, active);
    var total: u64;
    r, total := TransferShares(distribution.token, atas, active, rest);
    if r.Err? {
      return;
    }
    r := TryBurnAndRelay(distribution, relayer, total, burn + (rest - total));
  }

  method TryDistributeRewards(
    config: ProgramConfigAccount, distribution: DistributionAccount, recipients: seq<RecipientShare>,
    atas: seq<TokenAccount>, relayer: AccountInfo, claim: Claim, proof: MerkleProof)
    returns (r: ProgramResult)
    requires RecipientsWellformed(recipients) && |atas| == |Active(recipients)|
    requires distribution.token !in atas
    modifies distribution`data, distribution.remainingData, distribution.token, distribution.info, relayer, atas
    ensures r.Ok? <==> !config.data.isPaused && CanDistribute(old(distribution.View()), proof, claim, recipients)
    ensures r.Ok? ==>
              var paid := RewardsPaid(old(distribution.View()), proof.leafIndex.value, claim, recipients);
              if relayer == distribution.info then
                distribution.View() == paid.(lamports := old(distribution.info.lamports))
              else
                && distribution.View() == paid
                && relayer.lamports == old(relayer.lamports) + distribution.data.relayLamports
    ensures r.Ok? ==> PaidOut(atas, Active(recipients), PayableOf(old(distribution.data), claim))
  {
    hide SumTo, PartsTo, Transferred, Active, SumShares, EffectiveBurnRate, MulScalar, MulScalar16, MulScalar32,
      PayableOf;
    if proof.leafIndex.None? {
      return Err(InvalidInstructionData);
    }
    if config.data.isPaused || AllRewardsDistributed(distribution.data) || !distribution.data.swept
       || !AllIntegrationsCollected(distribution.data) {
      return Err(InvalidAccountData);
    }
    :- TryProcessRemainingDataLeafIndex(
      distribution.remainingData, distribution.data.rewardsStart, distribution.data.rewardsEnd, proof.leafIndex.value);
    var leaf := ClaimLeaf(claim);
    if leaf.None? || !VerifiesShare(distribution.data.rewardsRoot, proof, leaf.value) {
      return Err(InvalidInstructionData);
    }
    r := TryPayReward(distribution, recipients, atas, relayer, claim);
  }
}
