/** All accounts together, and the instructions as steps on them. */
module World {
  import opened Units
  import opened BurnRates
  import opened Rewards
  import opened Accounts
  import opened Distributions

  datatype World = World(
    config: ProgramConfig,
    journal: JournalState,
    distributions: map<nat, DistributionState>,    // by epoch
    deposits: map<nat, DepositState>,              // by validator node
    integrations: map<nat, u16>,                   // program to registration index
    contributors: map<nat, seq<RecipientShare>>,   // by service key
    journalAta: nat,                               // 2Z waiting for the next distribution
    swapTokens: nat,                               // 2Z in the swap destination
    outsideLamports: nat,                          // lamports of every other account
    outside2z: nat,                                // 2Z of every other token account
    received2z: map<nat, nat>)                     // 2Z every recipient was paid so far

  /** Where lamports can go. */
  datatype Address = Elsewhere | TheJournal | OfDeposit(node: nat) | OfDistribution(epoch: nat)

  datatype TokenAddress = JournalAta | SwapDestination | TokensOfDistribution(epoch: nat)

  datatype Setting =
    | Pause(paused: bool)
    | Fees(fees: FeeParameters)
    | CalculationGrace(minutes: u16)
    | InitializationGrace(minutes: u16)
    | MinimumEpochs(epochs: u16)
    | RelayLamports(lamports: u32)
    | WriteOffActivation(epoch: u64)
    | BurnRateUpdate(limit: u32, toIncreasing: u32, toLimit: u32)
    | BurnRateInitial(rate: u32, limit: u32, toIncreasing: u32, toLimit: u32)
    | SwapProgram
    | SwapDestinationCreated

  /**
   * An instruction with its arguments and what it reads from outside the program's accounts: the
   * clock, the lamports already at an address it creates, the answer of another program. It is taken
   * to carry the signatures it needs; one that does not fails, and a failed instruction changes nothing.
   */
  datatype Instruction =
    | Configure(setting: Setting)
    | InitializeDistribution(now: int, prefunded: nat)
    | ConfigureDebt(epoch: nat, now: int, validators: u32, debt: u64, root: Hash)
    | FinalizeDebt(epoch: nat, now: int)
    | ConfigureRewards(epoch: nat, now: int, contributors: u32, root: Hash)
    | FinalizeRewards(epoch: nat, now: int)
    | SetEconomicBurnRate(epoch: nat, rate: u32)
    | DistributeRewards(epoch: nat, proof: MerkleProof, claim: Claim, relayer: Address)
    | InitializeContributor(key: nat)
    | ConfigureRecipients(key: nat, recipients: seq<(Pubkey, u16)>)
    | InitializeDeposit(node: nat, prefunded: nat)
    | PayDebt(epoch: nat, node: nat, amount: u64, proof: MerkleProof)
    | EnableWriteOff(epoch: nat)
    | WriteOff(epoch: nat, node: nat, target: nat, amount: u64, proof: MerkleProof)
    | Sweep(epoch: nat, returnedSol: u64, returned2z: u64)
    | WithdrawSol(amount: u64, transferred2z: u64, destination: Address)
    | WithdrawDeposit(node: nat, beneficiary: Address)
    | InitializeIntegration(program: nat)
    | CollectIntegration(epoch: nat, program: nat, collected: nat)
    | SendLamports(to: Address, lamports: nat)
    | Send2z(account: TokenAddress, tokens: nat)

  // ---------------------------------------------------------------- moving lamports and tokens

  /** Lamports from elsewhere arrive at an address. */
  function Send(w: World, to: Address, lamports: nat): World
    requires lamports <= w.outsideLamports
  {
    var rest := w.outsideLamports - lamports;
    match to
    case TheJournal =>
      w.(journal := w.journal.(lamports := w.journal.lamports + lamports), outsideLamports := rest)
    case OfDeposit(n) =>
      if n in w.deposits then
        w.(deposits := w.deposits[n := w.deposits[n].(lamports := w.deposits[n].lamports + lamports)],
           outsideLamports := rest)
      else w
    case OfDistribution(e) =>
      if e in w.distributions then
        var a := w.distributions[e];
        w.(distributions := w.distributions[e := a.(lamports := a.lamports + lamports)], outsideLamports := rest)
      else w
    case Elsewhere => w
  }

  function SendTokens(w: World, to: TokenAddress, tokens: nat): World
    requires tokens <= w.outside2z
  {
    var rest := w.outside2z - tokens;
    match to
    case JournalAta => w.(journalAta := w.journalAta + tokens, outside2z := rest)
    case SwapDestination => w.(swapTokens := w.swapTokens + tokens, outside2z := rest)
    case TokensOfDistribution(e) =>
      if e in w.distributions then
        var a := w.distributions[e];
        w.(distributions := w.distributions[e := a.(tokens := a.tokens + tokens)], outside2z := rest)
      else w
  }

  /** A distribution changes; a payer elsewhere makes up its difference in lamports and 2Z. */
  predicate CanReplace(w: World, e: nat, b: DistributionState) {
    && e in w.distributions
    && b.lamports <= w.distributions[e].lamports + w.outsideLamports
    && b.tokens <= w.distributions[e].tokens + w.outside2z
  }

  function Replace(w: World, e: nat, b: DistributionState): World
    requires CanReplace(w, e, b)
  {
    var a := w.distributions[e];
    w.(distributions := w.distributions[e := b],
       outsideLamports := w.outsideLamports + a.lamports - b.lamports,
       outside2z := w.outside2z + a.tokens - b.tokens)
  }

  predicate Open(w: World, e: nat) {
    !w.config.isPaused && e in w.distributions
  }

  // ---------------------------------------------------------------- configuration

  function NewSetting(c: ProgramConfig, setting: Setting): Option<ProgramConfig> {
    match setting
    case Pause(p) => Some(c.(isPaused := p))
    case Fees(f) => Some(c.(fees := f))
    case CalculationGrace(m) =>
      if m == 0 || m > 24 * 60 then None else Some(c.(calculationGraceMinutes := m))
    case InitializationGrace(m) =>
      if m == 0 || m > 48 * 60 then None else Some(c.(initializationGraceMinutes := m))
    case MinimumEpochs(n) =>
      if n == 0 || n > 255 then None else Some(c.(minimumEpochsToFinalize := n))
    case RelayLamports(l) =>
      if l < 5_001 then None else Some(c.(relayLamports := l))
    case WriteOffActivation(e) =>
      if e == 0 then None else Some(c.(writeOffActivationEpoch := e))
    case BurnRateUpdate(limit, inc, lim) =>
      if NewShare32(limit).None? || !CanUpdate(c.burnParams, limit, inc, lim) then None
      else Some(c.(burnParams := Updated(c.burnParams, limit, inc, lim)))
    case BurnRateInitial(rate, limit, inc, lim) =>
      if c.nextEpoch != 0 || NewShare32(limit).None? || NewShare32(rate).None?
         || Initial(rate, limit, inc, lim).None? then None
      else Some(c.(burnParams := Initial(rate, limit, inc, lim).value))
    case SwapProgram => Some(c.(swapProgramSet := true))
    case SwapDestinationCreated => Some(c.(swapDestinationSet := true))
  }

  // ---------------------------------------------------------------- distributions

  /** The guards of the initialization that only read the configuration and the clock. */
  predicate InitializationAllowed(c: ProgramConfig, now: int) {
    && !c.isPaused
    && c.initializationGraceMinutes != 0
    && c.lastTimestamp + c.initializationGraceMinutes * 60 < TWO_32
    && c.lastTimestamp + c.initializationGraceMinutes * 60 <= now < TWO_32
    && c.calculationGraceMinutes != 0
    && now + c.calculationGraceMinutes * 60 < TWO_32
    && Computed(c.burnParams).Some?
    && c.relayLamports != 0
  }

  function AfterInitialization(c: ProgramConfig, now: int): ProgramConfig
    requires InitializationAllowed(c, now)
  {
    c.(lastTimestamp := now, burnParams := Computed(c.burnParams).value, nextEpoch := SatAdd64(c.nextEpoch, 1))
  }

  /** What `try_create_account` leaves at an address that held `current` lamports. */
  function CreatedLamports(current: nat, additional: nat, dataLen: nat): nat {
    Max(current, additional + MinimumBalance(dataLen))
  }

  predicate CanInitializeDistribution(w: World, now: int, prefunded: nat) {
    && InitializationAllowed(w.config, now)
    && w.config.nextEpoch !in w.distributions
    && CreatedLamports(prefunded, 0, DISTRIBUTION_DATA_END) <= w.outsideLamports
    && w.journalAta < TWO_64
  }

  function WithNewDistribution(w: World, now: int, prefunded: nat): World
    requires CanInitializeDistribution(w, now, prefunded)
  {
    var c := w.config;
    var lamports := CreatedLamports(prefunded, 0, DISTRIBUTION_DATA_END);
    var a := NewDistribution(c, c.burnParams.next, now + c.calculationGraceMinutes * 60,
                             w.journal.data.integrationsCount, w.journalAta, lamports);
    w.(config := AfterInitialization(c, now),
       distributions := w.distributions[c.nextEpoch as nat := a],
       journalAta := 0,
       outsideLamports := w.outsideLamports - lamports)
  }

  predicate CanReward(w: World, e: nat, proof: MerkleProof, claim: Claim) {
    && Open(w, e)
    && claim.contributor in w.contributors
    && RecipientsWellformed(w.contributors[claim.contributor])
    && CanDistribute(w.distributions[e], proof, claim, w.contributors[claim.contributor])
  }

  /** The recipients' 2Z moves elsewhere and the burned 2Z is gone. */
  function RewardDebited(w: World, e: nat, proof: MerkleProof, claim: Claim): World
    requires CanReward(w, e, proof, claim)
  {
    var a := w.distributions[e];
    var recipients := w.contributors[claim.contributor];
    var rate := EffectiveBurnRate(a.data, claim.economicBurnRate);
    RewardSplitsExactly(Pool(a.data), claim.unitShare, rate, Active(recipients));
    w.(distributions := w.distributions[e := RewardsPaid(a, proof.leafIndex.value, claim, recipients)],
       outsideLamports := w.outsideLamports + a.data.relayLamports,
       outside2z := w.outside2z + Distributed(Pool(a.data), claim.unitShare, rate, Active(recipients)),
       received2z := Receiving(w.received2z, Payable(Pool(a.data), claim.unitShare, rate), Active(recipients)))
  }

  /** The relayer is paid last. */
  function RewardDistributed(w: World, e: nat, proof: MerkleProof, claim: Claim, relayer: Address): World
    requires CanReward(w, e, proof, claim)
  {
    Send(RewardDebited(w, e, proof, claim), relayer, w.distributions[e].data.relayLamports)
  }

  // ---------------------------------------------------------------- deposits and debt

  /** The lamports a deposit holds above rent. */
  function Excess(p: DepositState): nat {
    var rent := MinimumBalance(DEPOSIT_DATA_END);
    if rent <= p.lamports then p.lamports - rent else 0
  }

  predicate CanInitializeDeposit(w: World, node: nat, prefunded: nat) {
    node !in w.deposits && CreatedLamports(prefunded, prefunded, DEPOSIT_DATA_END) <= w.outsideLamports
  }

  function WithNewDeposit(w: World, node: nat, prefunded: nat): World
    requires CanInitializeDeposit(w, node, prefunded)
  {
    var lamports := CreatedLamports(prefunded, prefunded, DEPOSIT_DATA_END);
    w.(deposits := w.deposits[node := DepositState(Deposit(node, 0), lamports)],
       outsideLamports := w.outsideLamports - lamports)
  }

  predicate CanPayDebt(w: World, e: nat, node: nat, amount: u64, proof: MerkleProof) {
    && Open(w, e)
    && node in w.deposits
    && CanPay(w.distributions[e], proof, DebtLeaf(node, amount))
    && amount <= Excess(w.deposits[node])
  }

  function DebtPaid(w: World, e: nat, node: nat, amount: u64, proof: MerkleProof): World
    requires CanPayDebt(w, e, node, amount, proof)
  {
    var p := w.deposits[node];
    var j := w.journal;
    w.(distributions := w.distributions[e := Paid(w.distributions[e], proof.leafIndex.value, amount)],
       deposits := w.deposits[node := p.(lamports := p.lamports - amount)],
       journal := JournalState(j.data.(totalSol := WrapAdd64(j.data.totalSol, amount)), j.lamports + amount))
  }

  /** The distributions with the leaf marked at its source. */
  function AfterSource(ds: map<nat, DistributionState>, e: nat, proof: MerkleProof, leaf: DebtLeaf)
    : map<nat, DistributionState>
    requires e in ds && CanWriteOffFrom(ds[e], proof, leaf)
  {
    ds[e := WrittenOffFrom(ds[e], proof, leaf)]
  }

  /** The target is looked up after the source has changed, so the two may be the same account. */
  predicate CanMoveOff(ds: map<nat, DistributionState>, e: nat, target: nat, proof: MerkleProof, leaf: DebtLeaf) {
    && e in ds
    && CanWriteOffFrom(ds[e], proof, leaf)
    && target in ds
    && CanCharge(AfterSource(ds, e, proof, leaf)[target].data, ds[e].data.dzEpoch, leaf.amount)
  }

  function MovedOff(ds: map<nat, DistributionState>, e: nat, target: nat, proof: MerkleProof, leaf: DebtLeaf)
    : map<nat, DistributionState>
    requires CanMoveOff(ds, e, target, proof, leaf)
  {
    var es := AfterSource(ds, e, proof, leaf);
    es[target := Charged(es[target], leaf.amount)]
  }

  predicate CanWriteOffDebt(w: World, e: nat, node: nat, target: nat, amount: u64, proof: MerkleProof) {
    && Open(w, e)
    && node in w.deposits
    && Excess(w.deposits[node]) < amount
    && CanMoveOff(w.distributions, e, target, proof, DebtLeaf(node, amount))
  }

  function DebtWrittenOff(w: World, e: nat, node: nat, target: nat, amount: u64, proof: MerkleProof): World
    requires CanWriteOffDebt(w, e, node, target, amount, proof)
  {
    var p := w.deposits[node];
    w.(distributions := MovedOff(w.distributions, e, target, proof, DebtLeaf(node, amount)),
       deposits := w.deposits[node := p.(data := p.data.(writtenOff := WrapAdd64(p.data.writtenOff, amount)))])
  }

  /** Excess beyond the written-off debt. */
  function Withdrawable(p: DepositState): nat {
    if p.data.writtenOff <= Excess(p) then Excess(p) - p.data.writtenOff else 0
  }

  predicate CanWithdrawDeposit(w: World, node: nat) {
    !w.config.isPaused && node in w.deposits && Withdrawable(w.deposits[node]) != 0
  }

  /** Debit first, then credit: a beneficiary that is the deposit itself gets its own lamports back. */
  function DepositWithdrawn(w: World, node: nat, beneficiary: Address): World
    requires CanWithdrawDeposit(w, node)
  {
    var p := w.deposits[node];
    var amount := Withdrawable(p);
    Send(w.(deposits := w.deposits[node := p.(lamports := p.lamports - amount)],
            outsideLamports := w.outsideLamports + amount),
         beneficiary, amount)
  }

  /** The world between the debit of the deposit and the credit of the beneficiary. */
  function Debited(w: World, node: nat, amount: nat): World
    requires node in w.deposits && amount <= w.deposits[node].lamports
  {
    var p := w.deposits[node];
    w.(deposits := w.deposits[node := p.(lamports := p.lamports - amount)],
       outsideLamports := w.outsideLamports + amount)
  }

  // ---------------------------------------------------------------- the journal and the swap

  predicate CanSweepTokens(w: World, e: nat, returnedSol: u64, returned2z: u64) {
    && Open(w, e)
    && CanSweep(w.distributions[e].data, w.journal.data.nextSweepEpoch)
    && var debt := NetDebt(w.distributions[e].data).value;
       (debt != 0 ==>
          && debt <= w.journal.data.swappedSol
          && w.config.swapProgramSet
          && w.config.swapDestinationSet
          && returnedSol == debt
          && returned2z <= w.swapTokens)
  }

  function TokensSwept(w: World, e: nat, returned2z: u64): World
    requires e in w.distributions && NetDebt(w.distributions[e].data).Some?
    requires var debt := NetDebt(w.distributions[e].data).value;
      debt != 0 ==> debt <= w.journal.data.swappedSol && returned2z <= w.swapTokens
  {
    var a := w.distributions[e];
    var j := w.journal.data.(nextSweepEpoch := SatAdd64(w.journal.data.nextSweepEpoch, 1));
    if NetDebt(a.data) == Some(0) then
      w.(distributions := w.distributions[e := Swept(a, returned2z)], journal := w.journal.(data := j))
    else
      w.(distributions := w.distributions[e := Swept(a, returned2z)],
         journal := w.journal.(data := j.(
           swappedSol := j.swappedSol - NetDebt(a.data).value,
           swap2zBalance := WrapSub64(j.swap2zBalance, returned2z))),
         swapTokens := w.swapTokens - returned2z)
  }

  /** The transfer of 2Z to the swap destination is the instruction just before, in the same transaction. */
  predicate CanWithdrawSol(w: World, amount: u64, transferred2z: u64) {
    && !w.config.isPaused
    && w.config.swapProgramSet
    && w.config.swapDestinationSet
    && transferred2z <= w.outside2z
    && amount <= w.journal.data.totalSol
    && amount <= w.journal.lamports
  }

  function SolWithdrawn(w: World, amount: u64, transferred2z: u64, destination: Address): World
    requires CanWithdrawSol(w, amount, transferred2z)
  {
    var j := w.journal.data;
    var w1 := SendTokens(w, SwapDestination, transferred2z);
    Send(w1.(
           journal := JournalState(
             j.(totalSol := j.totalSol - amount,
                swappedSol := WrapAdd64(j.swappedSol, amount),
                swap2zBalance := WrapAdd64(j.swap2zBalance, transferred2z),
                lifetimeSwapped2z := WrapAdd128(j.lifetimeSwapped2z, transferred2z)),
             w.journal.lamports - amount),
           outsideLamports := w.outsideLamports + amount),
         destination, amount)
  }

  /** The world between the debit of the journal and the credit of the destination. */
  function SolDebited(w: World, amount: u64, transferred2z: u64): World
    requires CanWithdrawSol(w, amount, transferred2z)
  {
    var j := w.journal.data;
    w.(swapTokens := w.swapTokens + transferred2z,
       outside2z := w.outside2z - transferred2z,
       journal := JournalState(
         j.(totalSol := j.totalSol - amount,
            swappedSol := WrapAdd64(j.swappedSol, amount),
            swap2zBalance := WrapAdd64(j.swap2zBalance, transferred2z),
            lifetimeSwapped2z := WrapAdd128(j.lifetimeSwapped2z, transferred2z)),
         w.journal.lamports - amount),
       outsideLamports := w.outsideLamports + amount)
  }

  lemma SolWithdrawnIsSend(w: World, amount: u64, transferred2z: u64, destination: Address)
    requires CanWithdrawSol(w, amount, transferred2z)
    ensures SolWithdrawn(w, amount, transferred2z, destination)
         == Send(SolDebited(w, amount, transferred2z), destination, amount)
  {
    hide Send;
  }

  function WrapAdd128(a: u128, b: u64): u128 {
    if a + b < TWO_128 then a + b else a + b - TWO_128
  }

  // ---------------------------------------------------------------- integrations

  predicate CanRegister(w: World, program: nat) {
    program !in w.integrations && w.journal.data.integrationsCount + 1 < 0x1_0000
  }

  function Registered(w: World, program: nat): World
    requires CanRegister(w, program)
  {
    var j := w.journal.data;
    w.(integrations := w.integrations[program := j.integrationsCount],
       journal := w.journal.(data := j.(integrationsCount := j.integrationsCount + 1)))
  }

  /** The integration answers with a deposit into the distribution's token account. */
  predicate CanCollectFrom(w: World, e: nat, program: nat, amount: nat) {
    && Open(w, e)
    && program in w.integrations
    && CanCollect(w.distributions[e].data, w.integrations[program])
    && CollectionFits(w.distributions[e].data, amount)
    && amount <= w.outside2z
  }

  // ---------------------------------------------------------------- one step

  /** The world after a successful instruction; None when it fails. */
  function Effect(w: World, i: Instruction): Option<World> {
    match i
    case Configure(s) =>
      var c := NewSetting(w.config, s);
      if c.None? then None else Some(w.(config := c.value))
    case InitializeDistribution(now, prefunded) =>
      if CanInitializeDistribution(w, now, prefunded) then Some(WithNewDistribution(w, now, prefunded)) else None
    case ConfigureDebt(e, now, validators, debt, root) =>
      if Open(w, e) && CanConfigureDebt(w.distributions[e].data, now)
      then Changed(w, e, ConfiguredDebt(w.distributions[e], validators, debt, root)) else None
    case FinalizeDebt(e, now) =>
      if Open(w, e) && CanFinalizeDebt(w.distributions[e].data, now)
      then Changed(w, e, FinalizedDebt(w.distributions[e])) else None
    case ConfigureRewards(e, now, contributors, root) =>
      if Open(w, e) && CanConfigureRewards(w.distributions[e].data, now)
      then Changed(w, e, ConfiguredRewards(w.distributions[e], contributors, root)) else None
    case FinalizeRewards(e, now) =>
      if Open(w, e) && CanFinalizeRewards(w.config, w.distributions[e].data, now)
      then Changed(w, e, FinalizedRewards(w.distributions[e])) else None
    case SetEconomicBurnRate(e, rate) =>
      if Open(w, e) && !w.distributions[e].data.rewardsFinalized && NewShare32(rate).Some?
      then Changed(w, e, WithEconomicBurnRate(w.distributions[e], rate)) else None
    case DistributeRewards(e, proof, claim, relayer) =>
      if CanReward(w, e, proof, claim) then Some(RewardDistributed(w, e, proof, claim, relayer)) else None
    case InitializeContributor(key) =>
      if key !in w.contributors then Some(w.(contributors := w.contributors[key := NO_RECIPIENTS])) else None
    case ConfigureRecipients(key, recipients) =>
      if !w.config.isPaused && key in w.contributors && ValidRecipients(recipients)
      then Some(w.(contributors := w.contributors[key := Padded(recipients)])) else None
    case InitializeDeposit(node, prefunded) =>
      if CanInitializeDeposit(w, node, prefunded) then Some(WithNewDeposit(w, node, prefunded)) else None
    case PayDebt(e, node, amount, proof) =>
      if CanPayDebt(w, e, node, amount, proof) then Some(DebtPaid(w, e, node, amount, proof)) else None
    case EnableWriteOff(e) =>
      if Open(w, e) && CanEnableWriteOff(w.config, w.distributions[e].data)
      then Changed(w, e, WithWriteOffEnabled(w.distributions[e])) else None
    case WriteOff(e, node, target, amount, proof) =>
      if CanWriteOffDebt(w, e, node, target, amount, proof)
      then Some(DebtWrittenOff(w, e, node, target, amount, proof)) else None
    case Sweep(e, returnedSol, returned2z) =>
      if CanSweepTokens(w, e, returnedSol, returned2z) then Some(TokensSwept(w, e, returned2z)) else None
    case WithdrawSol(amount, transferred2z, destination) =>
      if CanWithdrawSol(w, amount, transferred2z) then Some(SolWithdrawn(w, amount, transferred2z, destination))
      else None
    case WithdrawDeposit(node, beneficiary) =>
      if CanWithdrawDeposit(w, node) then Some(DepositWithdrawn(w, node, beneficiary)) else None
    case InitializeIntegration(program) =>
      if CanRegister(w, program) then Some(Registered(w, program)) else None
    case CollectIntegration(e, program, amount) =>
      if CanCollectFrom(w, e, program, amount)
      then Changed(w, e, Collected(w.distributions[e], w.integrations[program], amount)) else None
    case SendLamports(to, lamports) =>
      if lamports <= w.outsideLamports then Some(Send(w, to, lamports)) else None
    case Send2z(account, tokens) =>
      if tokens <= w.outside2z then Some(SendTokens(w, account, tokens)) else None
  }

  /** The change goes through when a payer can cover it. */
  function Changed(w: World, e: nat, b: DistributionState): Option<World>
    requires e in w.distributions
  {
    if CanReplace(w, e, b) then Some(Replace(w, e, b)) else None
  }

  /** A failed instruction is rolled back. */
  function Step(w: World, i: Instruction): World {
    Effect(w, i).GetOr(w)
  }

  function Run(w: World, run: seq<Instruction>): World {
    if run == [] then w else Step(Run(w, run[..|run| - 1]), run[|run| - 1])
  }

  /** After the program and its journal are initialized. */
  predicate Genesis(w: World) {
    && w.config == ProgramConfig(true, 0, 0, 0, 0, 0, UNSET, NO_FEES, 0, 0, false, false)
    && w.journal.data == Journal(0, 0, 0, 0, 0, 0)
    && MinimumBalance(JOURNAL_DATA_LEN) <= w.journal.lamports
    && w.distributions == map[]
    && w.deposits == map[]
    && w.integrations == map[]
    && w.contributors == map[]
    && w.received2z == map[]
    && w.journal.lamports + w.outsideLamports < TWO_64
    && w.journalAta + w.swapTokens + w.outside2z < TWO_64
  }
}
