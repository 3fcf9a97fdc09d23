/** What holds of all accounts together after any run, proved one instruction at a time. */
module WorldInvariants {
  import opened Units
  import opened Sums
  import opened Bitmaps
  import opened BurnRates
  import opened Rewards
  import opened Accounts
  import opened Distributions
  import opened DistributionInvariants
  import opened World

  // ---------------------------------------------------------------- the ledgers

  function LamportsOf(a: DistributionState): int {
    a.lamports
  }

  function TokensOf(a: DistributionState): int {
    a.tokens
  }

  function DepositLamports(p: DepositState): int {
    p.lamports
  }

  function DepositWrittenOff(p: DepositState): int {
    p.data.writtenOff
  }

  type Dists = map<nat, DistributionState>
  type Deposits = map<nat, DepositState>

  /** All lamports there are. */
  ghost function Lamports(w: World): int {
    w.journal.lamports + w.outsideLamports
    + MapSum(w.distributions, LamportsOf) + MapSum(w.deposits, DepositLamports)
  }

  /** All 2Z there is. */
  ghost function Tokens(w: World): int {
    w.journalAta + w.swapTokens + w.outside2z + MapSum(w.distributions, TokensOf)
  }

  ghost predicate DistributionsOk(ds: Dists) {
    forall e :: e in ds ==> DistributionOk(ds[e]) && ds[e].data.dzEpoch == e
  }

  ghost predicate DepositsOk(ps: Deposits) {
    forall n :: n in ps ==> ps[n].data.node == n && MinimumBalance(DEPOSIT_DATA_END) <= ps[n].lamports
  }

  ghost predicate ContributorsOk(cs: map<nat, seq<RecipientShare>>) {
    forall c :: c in cs ==> RecipientsWellformed(cs[c])
  }

  /** Distributions exist for exactly the epochs gone by and are swept in order; a minute passes per epoch. */
  ghost predicate EpochOrder(ds: Dists, nextEpoch: nat, nextSweep: nat, lastTimestamp: nat) {
    && (forall e: nat :: e in ds <==> e < nextEpoch)
    && (forall e: nat :: e in ds ==> (ds[e].data.swept <==> e < nextSweep))
    && nextSweep <= nextEpoch
    && 60 * nextEpoch <= lastTimestamp
  }

  /** Every lamport collected as debt is in the journal, swapped, or accounted for by a sweep. */
  ghost predicate SolLedger(ds: Dists, j: Journal) {
    MapSum(ds, CollectedOf) == j.totalSol + j.swappedSol + MapSum(ds, SweptDebtOf)
  }

  ghost predicate JournalCovered(j: JournalState) {
    MinimumBalance(JOURNAL_DATA_LEN) + j.data.totalSol <= j.lamports
  }

  /** Written-off debt is entered once per leaf, once at a deposit and once at a charged distribution. */
  ghost predicate WriteOffLedger(ds: Dists, ps: Deposits) {
    && MapSum(ds, UncollectibleOf) == MapSum(ds, WrittenOffOf)
    && MapSum(ps, DepositWrittenOff) == MapSum(ds, WrittenOffOf)
  }

  /** Up to any epoch, no more debt is charged than was written off from there. */
  ghost predicate ChargedForward(ds: Dists) {
    forall k: nat :: MapSum(Below(ds, k), UncollectibleOf) <= MapSum(Below(ds, k), WrittenOffOf)
  }

  ghost predicate SwapLedger(ds: Dists, j: Journal, swapTokens: nat) {
    && j.lifetimeSwapped2z == j.swap2zBalance + MapSum(ds, ConvertedOf)
    && j.swap2zBalance <= swapTokens
  }

  /** Registration indices are a bijection onto the numbers below the count. */
  ghost predicate Registry(indices: map<nat, u16>, n: nat) {
    && (forall p :: p in indices ==> indices[p] < n)
    && (forall p, q :: p in indices && q in indices && indices[p] == indices[q] ==> p == q)
    && (forall i: u16 :: i < n ==> i in indices.Values)
  }

  ghost predicate SnapshotsBelow(ds: Dists, n: nat) {
    forall e :: e in ds ==> ds[e].data.integrationsSnapshot <= n
  }

  /** Burn rates never fall from one epoch to the next, nor rise above the next one due. */
  ghost predicate BurnRateOrder(ds: Dists, next: nat) {
    && (forall e :: e in ds ==> ds[e].data.communityBurnRate <= next)
    && (forall d, e :: d in ds && e in ds && d <= e ==>
          ds[d].data.communityBurnRate <= ds[e].data.communityBurnRate)
  }

  ghost predicate DistributionsInOrder(ds: Dists, c: ProgramConfig, j: Journal) {
    && DistributionsOk(ds)
    && EpochOrder(ds, c.nextEpoch, j.nextSweepEpoch, c.lastTimestamp)
    && SnapshotsBelow(ds, j.integrationsCount)
    && BurnRateOrder(ds, c.burnParams.next)
  }

  /** What is said of accounts one by one or in pairs. */
  ghost predicate Orderly(w: World) {
    && DistributionsInOrder(w.distributions, w.config, w.journal.data)
    && DepositsOk(w.deposits)
    && ContributorsOk(w.contributors)
    && Registry(w.integrations, w.journal.data.integrationsCount)
    && Wellformed(w.config.burnParams)
  }

  /** What is said of sums over all accounts. */
  ghost predicate Balanced(w: World) {
    && SolLedger(w.distributions, w.journal.data)
    && JournalCovered(w.journal)
    && WriteOffLedger(w.distributions, w.deposits)
    && ChargedForward(w.distributions)
    && SwapLedger(w.distributions, w.journal.data, w.swapTokens)
    && Lamports(w) < TWO_64
    && Tokens(w) < TWO_64
  }

  ghost predicate Inv(w: World) {
    Orderly(w) && Balanced(w)
  }

  /** Lamports are neither made nor lost; 2Z is never made. */
  ghost predicate Conserves(w: World, v: World) {
    Lamports(v) == Lamports(w) && Tokens(v) <= Tokens(w)
  }

  ghost predicate Follows(w: World, v: World) {
    Later(w.distributions, v.distributions) && w.deposits.Keys <= v.deposits.Keys && Conserves(w, v)
  }

  lemma FollowsTransitive(u: World, v: World, w: World)
    requires Follows(u, v) && Follows(v, w)
    ensures Follows(u, w)
  {
    forall e | e in u.distributions
      ensures e in w.distributions && Evolves(u.distributions[e], w.distributions[e])
    {
      assert e in v.distributions;
      EvolvesTransitive(u.distributions[e], v.distributions[e], w.distributions[e]);
    }
  }

  ghost predicate StepOk(w: World, v: World) {
    Inv(v) && Follows(w, v)
  }

  // ---------------------------------------------------------------- one entry changes

  lemma DistributionSums(ds: map<nat, DistributionState>, e: nat, b: DistributionState)
    requires e in ds
    ensures var a, es := ds[e], ds[e := b];
      && MapSum(es, CollectedOf) == MapSum(ds, CollectedOf) + CollectedOf(b) - CollectedOf(a)
      && MapSum(es, SweptDebtOf) == MapSum(ds, SweptDebtOf) + SweptDebtOf(b) - SweptDebtOf(a)
      && MapSum(es, UncollectibleOf) == MapSum(ds, UncollectibleOf) + UncollectibleOf(b) - UncollectibleOf(a)
      && MapSum(es, WrittenOffOf) == MapSum(ds, WrittenOffOf) + WrittenOffOf(b) - WrittenOffOf(a)
      && MapSum(es, ConvertedOf) == MapSum(ds, ConvertedOf) + ConvertedOf(b) - ConvertedOf(a)
      && MapSum(es, LamportsOf) == MapSum(ds, LamportsOf) + b.lamports - a.lamports
      && MapSum(es, TokensOf) == MapSum(ds, TokensOf) + b.tokens - a.tokens
  {
    MapSumUpdate(ds, e, b, CollectedOf);
    MapSumUpdate(ds, e, b, SweptDebtOf);
    MapSumUpdate(ds, e, b, UncollectibleOf);
    MapSumUpdate(ds, e, b, WrittenOffOf);
    MapSumUpdate(ds, e, b, ConvertedOf);
    MapSumUpdate(ds, e, b, LamportsOf);
    MapSumUpdate(ds, e, b, TokensOf);
  }

  lemma BelowSums(ds: map<nat, DistributionState>, e: nat, b: DistributionState, k: nat)
    requires e in ds
    ensures MapSum(Below(ds[e := b], k), UncollectibleOf)
         == MapSum(Below(ds, k), UncollectibleOf) + (if e < k then UncollectibleOf(b) - UncollectibleOf(ds[e]) else 0)
    ensures MapSum(Below(ds[e := b], k), WrittenOffOf)
         == MapSum(Below(ds, k), WrittenOffOf) + (if e < k then WrittenOffOf(b) - WrittenOffOf(ds[e]) else 0)
  {
    BelowSumUpdate(ds, k, e, b, UncollectibleOf);
    BelowSumUpdate(ds, k, e, b, WrittenOffOf);
  }

  /** No account holds more than there is. */
  lemma WithinSupply(w: World)
    requires Inv(w)
    ensures w.journal.lamports + w.outsideLamports < TWO_64
    ensures w.journalAta + w.swapTokens + w.outside2z < TWO_64
    ensures forall e :: e in w.distributions ==>
      w.distributions[e].tokens + w.journalAta + w.swapTokens + w.outside2z < TWO_64
    ensures forall n :: n in w.deposits ==> w.deposits[n].lamports + w.journal.lamports < TWO_64
  {
    MapSumNonNegative(w.distributions, LamportsOf);
    MapSumNonNegative(w.distributions, TokensOf);
    MapSumNonNegative(w.deposits, DepositLamports);
    forall e | e in w.distributions
      ensures w.distributions[e].tokens + w.journalAta + w.swapTokens + w.outside2z < TWO_64
    {
      MapSumAtLeast(w.distributions, e, TokensOf);
    }
    forall n | n in w.deposits
      ensures w.deposits[n].lamports + w.journal.lamports < TWO_64
    {
      MapSumAtLeast(w.deposits, n, DepositLamports);
    }
  }

  // ---------------------------------------------------------------- steps that leave the ledgers alone

  lemma ChangeKeepsOk(ds: Dists, e: nat, b: DistributionState)
    requires DistributionsOk(ds) && e in ds && DistributionOk(b) && b.data.dzEpoch == e
    ensures DistributionsOk(ds[e := b])
  {}

  /** One distribution is replaced by a later self that is swept just if it was. */
  lemma ChangeKeepsOrder(ds: Dists, e: nat, b: DistributionState, next: nat, sweep: nat, t: nat, n: nat, rate: nat)
    requires EpochOrder(ds, next, sweep, t) && SnapshotsBelow(ds, n) && BurnRateOrder(ds, rate)
    requires e in ds && DataEvolves(ds[e].data, b.data) && b.data.swept == ds[e].data.swept
    ensures var es := ds[e := b]; EpochOrder(es, next, sweep, t) && SnapshotsBelow(es, n) && BurnRateOrder(es, rate)
  {}

  /** The two together. */
  lemma ChangeInOrder(ds: Dists, c: ProgramConfig, j: Journal, e: nat, b: DistributionState)
    requires DistributionsInOrder(ds, c, j) && e in ds
    requires Keeps(ds[e], b) && b.data.swept == ds[e].data.swept
    ensures DistributionsInOrder(ds[e := b], c, j) && Later(ds, ds[e := b])
  {
    ChangeKeepsOk(ds, e, b);
    ChangeKeepsOrder(ds, e, b, c.nextEpoch, j.nextSweepEpoch, c.lastTimestamp, j.integrationsCount, c.burnParams.next);
    OneLater(ds, e, b);
  }

  /** Every distribution is still there, as a later self. */
  ghost predicate Later(ds: Dists, es: Dists) {
    forall d :: d in ds ==> d in es && Evolves(ds[d], es[d])
  }

  lemma OneLater(ds: Dists, e: nat, b: DistributionState)
    requires e in ds && Evolves(ds[e], b)
    ensures Later(ds, ds[e := b])
  {
    forall d | d in ds
      ensures Evolves(ds[d], ds[e := b][d])
    {
      EvolvesReflexive(ds[d]);
    }
  }

  lemma AllLater(ds: Dists)
    ensures Later(ds, ds)
  {
    forall d | d in ds
      ensures Evolves(ds[d], ds[d])
    {
      EvolvesReflexive(ds[d]);
    }
  }

  /**
   * A distribution changes without touching the global ledgers. Its lamports come from or go
   * elsewhere; 2Z may disappear but not appear.
   */
  lemma SteadyStep(w: World, e: nat, b: DistributionState, lamports: nat, tokens: nat)
    requires Inv(w) && e in w.distributions
    requires Keeps(w.distributions[e], b) && Steady(w.distributions[e], b)
    requires lamports + b.lamports == w.outsideLamports + w.distributions[e].lamports
    requires tokens + b.tokens <= w.outside2z + w.distributions[e].tokens
    ensures StepOk(w, w.(distributions := w.distributions[e := b], outsideLamports := lamports, outside2z := tokens))
  {
    ChangeInOrder(w.distributions, w.config, w.journal.data, e, b);
    SteadyBalance(w, e, b, lamports, tokens);
  }

  lemma SteadyBalance(w: World, e: nat, b: DistributionState, lamports: nat, tokens: nat)
    requires Balanced(w) && e in w.distributions && Steady(w.distributions[e], b)
    requires lamports + b.lamports == w.outsideLamports + w.distributions[e].lamports
    requires tokens + b.tokens <= w.outside2z + w.distributions[e].tokens
    ensures var v := w.(distributions := w.distributions[e := b], outsideLamports := lamports, outside2z := tokens);
      Balanced(v) && Conserves(w, v)
  {
    DistributionSums(w.distributions, e, b);
    SteadyCharges(w.distributions, e, b);
  }

  lemma SteadyCharges(ds: Dists, e: nat, b: DistributionState)
    requires ChargedForward(ds) && e in ds
    requires UncollectibleOf(b) == UncollectibleOf(ds[e]) && WrittenOffOf(b) == WrittenOffOf(ds[e])
    ensures ChargedForward(ds[e := b])
  {
    var es := ds[e := b];
    forall k: nat
      ensures MapSum(Below(es, k), UncollectibleOf) <= MapSum(Below(es, k), WrittenOffOf)
    {
      BelowSums(ds, e, b, k);
    }
  }

  lemma DepositSums(ps: map<nat, DepositState>, n: nat, p: DepositState)
    ensures MapSum(ps[n := p], DepositLamports)
         == MapSum(ps, DepositLamports) + p.lamports - (if n in ps then ps[n].lamports else 0)
    ensures MapSum(ps[n := p], DepositWrittenOff)
         == MapSum(ps, DepositWrittenOff) + p.data.writtenOff - (if n in ps then ps[n].data.writtenOff else 0)
  {
    MapSumUpdate(ps, n, p, DepositLamports);
    MapSumUpdate(ps, n, p, DepositWrittenOff);
  }

  lemma SendToDistribution(w: World, e: nat, lamports: nat, tokens: nat)
    requires Inv(w) && e in w.distributions && lamports <= w.outsideLamports && tokens <= w.outside2z
    ensures var a := w.distributions[e];
      StepOk(w, w.(
        distributions := w.distributions[e := a.(lamports := a.lamports + lamports, tokens := a.tokens + tokens)],
        outsideLamports := w.outsideLamports - lamports, outside2z := w.outside2z - tokens))
  {
    hide DistributionOk, Evolves, Steady, Balanced;
    var a := w.distributions[e];
    FundingKeeps(a, lamports, tokens);
    SteadyStep(w, e, a.(lamports := a.lamports + lamports, tokens := a.tokens + tokens),
               w.outsideLamports - lamports, w.outside2z - tokens);
  }

  lemma SendToDeposit(w: World, n: nat, lamports: nat)
    requires Inv(w) && n in w.deposits && lamports <= w.outsideLamports
    ensures StepOk(w, Send(w, OfDeposit(n), lamports))
  {
    hide DistributionOk, Evolves;
    AllLater(w.distributions);
    DepositSums(w.deposits, n, w.deposits[n].(lamports := w.deposits[n].lamports + lamports));
  }

  lemma SendToJournal(w: World, lamports: nat)
    requires Inv(w) && lamports <= w.outsideLamports
    ensures StepOk(w, Send(w, TheJournal, lamports))
  {
    hide DistributionOk, Evolves;
    AllLater(w.distributions);
  }

  lemma NothingStep(w: World)
    requires Inv(w)
    ensures StepOk(w, w)
  {
    hide DistributionOk, Evolves;
    AllLater(w.distributions);
  }

  lemma SendStep(w: World, to: Address, lamports: nat)
    requires Inv(w) && lamports <= w.outsideLamports
    ensures StepOk(w, Send(w, to, lamports))
  {
    hide Inv, Follows;
    NothingStep(w);
    match to
    case TheJournal => SendToJournal(w, lamports);
    case OfDeposit(n) =>
      if n in w.deposits {
        SendToDeposit(w, n, lamports);
      }
    case OfDistribution(e) =>
      if e in w.distributions {
        SendToDistribution(w, e, lamports, 0);
      }
    case Elsewhere =>
  }

  lemma SendTokensAside(w: World, to: TokenAddress, tokens: nat)
    requires Inv(w) && tokens <= w.outside2z && !to.TokensOfDistribution?
    ensures StepOk(w, SendTokens(w, to, tokens))
  {
    hide DistributionOk, Evolves;
    AllLater(w.distributions);
  }

  lemma SendTokensStep(w: World, to: TokenAddress, tokens: nat)
    requires Inv(w) && tokens <= w.outside2z
    ensures StepOk(w, SendTokens(w, to, tokens))
  {
    hide Inv, Follows;
    NothingStep(w);
    match to
    case TokensOfDistribution(e) =>
      if e in w.distributions {
        SendToDistribution(w, e, 0, tokens);
      }
    case _ =>
      SendTokensAside(w, to, tokens);
  }

  /** A setting moves neither the epoch counter nor, once there is a distribution, the rate that is due. */
  lemma SettingKeeps(c: ProgramConfig, setting: Setting)
    requires Wellformed(c.burnParams) && NewSetting(c, setting).Some?
    ensures var d := NewSetting(c, setting).value;
      && d.nextEpoch == c.nextEpoch && d.lastTimestamp == c.lastTimestamp
      && Wellformed(d.burnParams)
      && (c.nextEpoch != 0 ==> d.burnParams.next == c.burnParams.next)
  {
    match setting
    case BurnRateUpdate(limit, inc, lim) =>
      UpdateKeeps(c.burnParams, limit, inc, lim);
    case BurnRateInitial(rate, limit, inc, lim) =>
      UpdateKeeps(UNSET.(next := rate), limit, inc, lim);
    case _ =>
  }

  lemma ConfigureStep(w: World, setting: Setting)
    requires Inv(w) && NewSetting(w.config, setting).Some?
    ensures StepOk(w, w.(config := NewSetting(w.config, setting).value))
  {
    hide DistributionOk, Evolves, NewSetting;
    SettingKeeps(w.config, setting);
    AllLater(w.distributions);
  }

  lemma ContributorStep(w: World, key: nat, recipients: seq<RecipientShare>)
    requires Inv(w) && RecipientsWellformed(recipients)
    ensures StepOk(w, w.(contributors := w.contributors[key := recipients]))
  {
    hide DistributionOk, Evolves;
    AllLater(w.distributions);
  }

  lemma NewDepositStep(w: World, node: nat, prefunded: nat)
    requires Inv(w) && CanInitializeDeposit(w, node, prefunded)
    ensures StepOk(w, WithNewDeposit(w, node, prefunded))
  {
    hide DistributionOk, Evolves;
    var v := WithNewDeposit(w, node, prefunded);
    AllLater(w.distributions);
    DepositSums(w.deposits, node, v.deposits[node]);
  }

  lemma RegisterStep(w: World, program: nat)
    requires Inv(w) && CanRegister(w, program)
    ensures StepOk(w, Registered(w, program))
  {
    hide DistributionOk, Evolves;
    AllLater(w.distributions);
    RegistryGrows(w.integrations, w.journal.data.integrationsCount, program);
  }

  /** The next index is the old count, so the indices stay a bijection. */
  lemma RegistryGrows(indices: map<nat, u16>, n: u16, program: nat)
    requires Registry(indices, n) && program !in indices
    ensures Registry(indices[program := n], n + 1)
  {
    var grown := indices[program := n];
    assert program in grown && grown[program] == n;
    forall i: u16 | i < n + 1
      ensures i in grown.Values
    {
      if i < n {
        assert i in indices.Values;
        var p :| p in indices && indices[p] == i;
        assert p in grown && grown[p] == i;
      }
    }
  }

  /** The deposit keeps its rent; what leaves it is elsewhere. */
  lemma DebitDeposit(w: World, node: nat, amount: nat)
    requires Inv(w) && node in w.deposits && amount <= Excess(w.deposits[node])
    ensures StepOk(w, Debited(w, node, amount))
  {
    hide DistributionOk, Evolves;
    AllLater(w.distributions);
    DepositSums(w.deposits, node, w.deposits[node].(lamports := w.deposits[node].lamports - amount));
  }

  /** The beneficiary may be any account, the deposit itself included. */
  lemma WithdrawDepositStep(w: World, node: nat, beneficiary: Address)
    requires Inv(w) && CanWithdrawDeposit(w, node)
    ensures StepOk(w, DepositWithdrawn(w, node, beneficiary))
  {
    hide Inv, Follows;
    var amount := Withdrawable(w.deposits[node]);
    var u := Debited(w, node, amount);
    DebitDeposit(w, node, amount);
    SendStep(u, beneficiary, amount);
    FollowsTransitive(w, u, Send(u, beneficiary, amount));
  }

  // ---------------------------------------------------------------- a new distribution

  /** Each epoch takes at least a minute and time fits 32 bits, so the epoch counter never saturates. */
  lemma EpochsFit(w: World, now: int)
    requires Inv(w) && InitializationAllowed(w.config, now)
    ensures var c := AfterInitialization(w.config, now);
      c.nextEpoch == w.config.nextEpoch + 1 && 60 * c.nextEpoch <= c.lastTimestamp
  {}

  lemma NewDistributionSums(ds: Dists, e: nat, b: DistributionState)
    requires e !in ds
    requires CollectedOf(b) == SweptDebtOf(b) == UncollectibleOf(b) == WrittenOffOf(b) == ConvertedOf(b) == 0
    ensures var es := ds[e := b];
      && MapSum(es, CollectedOf) == MapSum(ds, CollectedOf)
      && MapSum(es, SweptDebtOf) == MapSum(ds, SweptDebtOf)
      && MapSum(es, UncollectibleOf) == MapSum(ds, UncollectibleOf)
      && MapSum(es, WrittenOffOf) == MapSum(ds, WrittenOffOf)
      && MapSum(es, ConvertedOf) == MapSum(ds, ConvertedOf)
      && MapSum(es, LamportsOf) == MapSum(ds, LamportsOf) + b.lamports
      && MapSum(es, TokensOf) == MapSum(ds, TokensOf) + b.tokens
  {
    MapSumUpdate(ds, e, b, CollectedOf);
    MapSumUpdate(ds, e, b, SweptDebtOf);
    MapSumUpdate(ds, e, b, UncollectibleOf);
    MapSumUpdate(ds, e, b, WrittenOffOf);
    MapSumUpdate(ds, e, b, ConvertedOf);
    MapSumUpdate(ds, e, b, LamportsOf);
    MapSumUpdate(ds, e, b, TokensOf);
  }

  lemma NewCharges(ds: Dists, e: nat, b: DistributionState)
    requires ChargedForward(ds) && e !in ds && UncollectibleOf(b) == WrittenOffOf(b) == 0
    ensures ChargedForward(ds[e := b])
  {
    var es := ds[e := b];
    forall k: nat
      ensures MapSum(Below(es, k), UncollectibleOf) <= MapSum(Below(es, k), WrittenOffOf)
    {
      if e < k {
        assert Below(es, k) == Below(ds, k)[e := b];
        MapSumUpdate(Below(ds, k), e, b, UncollectibleOf);
        MapSumUpdate(Below(ds, k), e, b, WrittenOffOf);
      } else {
        assert Below(es, k) == Below(ds, k);
      }
    }
  }

  lemma NewInOrder(ds: Dists, c: ProgramConfig, j: Journal, d: ProgramConfig, b: DistributionState)
    requires DistributionsInOrder(ds, c, j)
    requires d.nextEpoch == c.nextEpoch + 1 && 60 * d.nextEpoch <= d.lastTimestamp
    requires c.burnParams.next <= d.burnParams.next
    requires DistributionOk(b) && b.data.dzEpoch == c.nextEpoch && !b.data.swept
    requires b.data.integrationsSnapshot == j.integrationsCount && b.data.communityBurnRate == c.burnParams.next
    ensures DistributionsInOrder(ds[c.nextEpoch as nat := b], d, j)
    ensures Later(ds, ds[c.nextEpoch as nat := b])
  {
    hide DistributionOk, Evolves;
    AllLater(ds);
  }

  lemma NewDistributionOrder(w: World, now: int, prefunded: nat)
    requires Inv(w) && CanInitializeDistribution(w, now, prefunded)
    ensures var v := WithNewDistribution(w, now, prefunded);
      Orderly(v) && Later(w.distributions, v.distributions)
  {
    hide DistributionOk, Evolves, Wellformed, Computed, DistributionsInOrder, Later, Registry, Balanced;
    var c, v := w.config, WithNewDistribution(w, now, prefunded);
    ComputeKeeps(c.burnParams);
    EpochsFit(w, now);
    NewIsOk(c, c.burnParams.next, now + c.calculationGraceMinutes * 60, w.journal.data.integrationsCount,
            w.journalAta, CreatedLamports(prefunded, 0, DISTRIBUTION_DATA_END));
    NewInOrder(w.distributions, c, w.journal.data, v.config, v.distributions[c.nextEpoch]);
  }

  lemma NewDistributionBalance(w: World, now: int, prefunded: nat)
    requires Inv(w) && CanInitializeDistribution(w, now, prefunded)
    ensures var v := WithNewDistribution(w, now, prefunded); Balanced(v) && Conserves(w, v)
  {
    hide DistributionOk, WrittenOffOf, DistributionsOk, SnapshotsBelow, BurnRateOrder, Computed, ChargedForward;
    var c, v := w.config, WithNewDistribution(w, now, prefunded);
    var b := v.distributions[c.nextEpoch];
    NewIsOk(c, c.burnParams.next, now + c.calculationGraceMinutes * 60, w.journal.data.integrationsCount,
            w.journalAta, CreatedLamports(prefunded, 0, DISTRIBUTION_DATA_END));
    NewDistributionSums(w.distributions, c.nextEpoch, b);
    NewCharges(w.distributions, c.nextEpoch, b);
  }

  lemma NewDistributionStep(w: World, now: int, prefunded: nat)
    requires Inv(w) && CanInitializeDistribution(w, now, prefunded)
    ensures StepOk(w, WithNewDistribution(w, now, prefunded))
  {
    hide Orderly, Balanced, Later, Conserves;
    NewDistributionOrder(w, now, prefunded);
    NewDistributionBalance(w, now, prefunded);
  }

  // ---------------------------------------------------------------- payment

  lemma PayEntries(a: DistributionState, proof: MerkleProof, leaf: DebtLeaf)
    requires DistributionOk(a) && CanPay(a, proof, leaf)
    requires a.data.collectedPayments + leaf.amount < TWO_64
    ensures var b := Paid(a, proof.leafIndex.value, leaf.amount);
      && CollectedOf(b) == CollectedOf(a) + leaf.amount
      && SweptDebtOf(b) == SweptDebtOf(a)
      && UncollectibleOf(b) == UncollectibleOf(a)
      && WrittenOffOf(b) == WrittenOffOf(a)
      && ConvertedOf(b) == ConvertedOf(a)
  {
    PaySets(a, proof.leafIndex.value, leaf.amount);
  }

  lemma OkAt(w: World, e: nat)
    requires Orderly(w) && e in w.distributions
    ensures DistributionOk(w.distributions[e])
  {}

  lemma PayOrder(w: World, e: nat, node: nat, amount: u64, proof: MerkleProof)
    requires Orderly(w) && CanPayDebt(w, e, node, amount, proof)
    requires w.distributions[e].data.collectedPayments + amount < TWO_64
    ensures var v := DebtPaid(w, e, node, amount, proof);
      Orderly(v) && Later(w.distributions, v.distributions)
  {
    hide DistributionOk, Evolves, Keeps, EpochOrder, SnapshotsBelow, BurnRateOrder, Registry, Later;
    var a := w.distributions[e];
    PayKeeps(a, proof, DebtLeaf(node, amount));
    ChangeInOrder(w.distributions, w.config, w.journal.data, e, Paid(a, proof.leafIndex.value, amount));
  }

  /** The lamports move from the deposit to the journal, and so does the debt from one sum to the other. */
  lemma PayBalance(w: World, e: nat, node: nat, amount: u64, proof: MerkleProof)
    requires Inv(w) && CanPayDebt(w, e, node, amount, proof)
    requires w.distributions[e].data.collectedPayments + amount < TWO_64
    ensures var v := DebtPaid(w, e, node, amount, proof); Balanced(v) && Conserves(w, v)
  {
    hide DistributionOk, WrittenOffOf, Orderly, ChargedForward, CanMark, Mark, VerifiesDebt;
    var a := w.distributions[e];
    var b := Paid(a, proof.leafIndex.value, amount);
    OkAt(w, e);
    PayEntries(a, proof, DebtLeaf(node, amount));
    WithinSupply(w);
    DistributionSums(w.distributions, e, b);
    DepositSums(w.deposits, node, w.deposits[node].(lamports := w.deposits[node].lamports - amount));
    SteadyCharges(w.distributions, e, b);
  }

  lemma PayStep(w: World, e: nat, node: nat, amount: u64, proof: MerkleProof)
    requires Inv(w) && CanPayDebt(w, e, node, amount, proof)
    requires w.distributions[e].data.collectedPayments + amount < TWO_64
    ensures StepOk(w, DebtPaid(w, e, node, amount, proof))
  {
    hide Orderly, Balanced, Later, Conserves;
    PayOrder(w, e, node, amount, proof);
    PayBalance(w, e, node, amount, proof);
  }

  // ---------------------------------------------------------------- write off

  lemma LaterTransitive(ds: Dists, es: Dists, fs: Dists)
    requires Later(ds, es) && Later(es, fs)
    ensures Later(ds, fs)
  {
    forall d | d in ds
      ensures d in fs && Evolves(ds[d], fs[d])
    {
      assert d in es;
      EvolvesTransitive(ds[d], es[d], fs[d]);
    }
  }

  lemma WriteOffEntries(a: DistributionState, proof: MerkleProof, leaf: DebtLeaf)
    requires DistributionOk(a) && CanWriteOffFrom(a, proof, leaf)
    ensures var b := WrittenOffFrom(a, proof, leaf);
      && Keeps(a, b) && b.data.swept == a.data.swept
      && CollectedOf(b) == CollectedOf(a)
      && SweptDebtOf(b) == SweptDebtOf(a)
      && UncollectibleOf(b) == UncollectibleOf(a)
      && WrittenOffOf(b) == WrittenOffOf(a) + leaf.amount
      && ConvertedOf(b) == ConvertedOf(a)
      && b.lamports == a.lamports && b.tokens == a.tokens
  {
    WriteOffKeeps(a, proof, leaf);
  }

  lemma ChargeEntries(a: DistributionState, source: u64, amount: u64)
    requires DistributionOk(a) && CanCharge(a.data, source, amount) && a.data.uncollectibleDebt + amount < TWO_64
    ensures var b := Charged(a, amount);
      && Keeps(a, b) && b.data.swept == a.data.swept
      && CollectedOf(b) == CollectedOf(a)
      && SweptDebtOf(b) == SweptDebtOf(a)
      && UncollectibleOf(b) == UncollectibleOf(a) + amount
      && WrittenOffOf(b) == WrittenOffOf(a)
      && ConvertedOf(b) == ConvertedOf(a)
      && b.lamports == a.lamports && b.tokens == a.tokens
  {
    ChargeKeeps(a, source, amount);
  }

  /** The two unchecked additions of a write-off stay within 64 bits. */
  predicate WriteOffFits(w: World, node: nat, target: nat, amount: u64) {
    && node in w.deposits && target in w.distributions
    && w.distributions[target].data.uncollectibleDebt + amount < TWO_64
    && w.deposits[node].data.writtenOff + amount < TWO_64
  }

  /** Source and target change one after the other; both stay in order, also when they are one account. */
  lemma WriteOffInOrder(
    ds: Dists, c: ProgramConfig, j: Journal, e: nat, target: nat, proof: MerkleProof, leaf: DebtLeaf)
    requires DistributionsInOrder(ds, c, j) && CanMoveOff(ds, e, target, proof, leaf)
    requires ds[target].data.uncollectibleDebt + leaf.amount < TWO_64
    ensures var fs := MovedOff(ds, e, target, proof, leaf); DistributionsInOrder(fs, c, j) && Later(ds, fs)
  {
    hide DistributionOk, Evolves, Keeps, EpochOrder, SnapshotsBelow, BurnRateOrder, Later, CanWriteOffFrom, CanCharge;
    WriteOffEntries(ds[e], proof, leaf);
    var es := AfterSource(ds, e, proof, leaf);
    ChangeInOrder(ds, c, j, e, WrittenOffFrom(ds[e], proof, leaf));
    ChargeEntries(es[target], ds[e].data.dzEpoch, leaf.amount);
    ChangeInOrder(es, c, j, target, Charged(es[target], leaf.amount));
    LaterTransitive(ds, es, MovedOff(ds, e, target, proof, leaf));
  }

  lemma WriteOffSums(ds: Dists, e: nat, target: nat, proof: MerkleProof, leaf: DebtLeaf)
    requires DistributionsOk(ds) && ChargedForward(ds) && CanMoveOff(ds, e, target, proof, leaf)
    requires ds[target].data.uncollectibleDebt + leaf.amount < TWO_64
    ensures var fs := MovedOff(ds, e, target, proof, leaf);
      && MapSum(fs, CollectedOf) == MapSum(ds, CollectedOf)
      && MapSum(fs, SweptDebtOf) == MapSum(ds, SweptDebtOf)
      && MapSum(fs, UncollectibleOf) == MapSum(ds, UncollectibleOf) + leaf.amount
      && MapSum(fs, WrittenOffOf) == MapSum(ds, WrittenOffOf) + leaf.amount
      && MapSum(fs, ConvertedOf) == MapSum(ds, ConvertedOf)
      && MapSum(fs, LamportsOf) == MapSum(ds, LamportsOf)
      && MapSum(fs, TokensOf) == MapSum(ds, TokensOf)
      && ChargedForward(fs)
  {
    hide DistributionOk, Keeps, WrittenOffOf, ChargedForward, CanWriteOffFrom;
    WriteOffEntries(ds[e], proof, leaf);
    var b := WrittenOffFrom(ds[e], proof, leaf);
    var es := AfterSource(ds, e, proof, leaf);
    KeepsIsOk(ds[e], b);
    ChargeEntries(es[target], ds[e].data.dzEpoch, leaf.amount);
    var c := Charged(es[target], leaf.amount);
    DistributionSums(ds, e, b);
    DistributionSums(es, target, c);
    OneForward(ds, e, b, target, c, leaf.amount);
  }

  lemma KeepsIsOk(a: DistributionState, b: DistributionState)
    requires Keeps(a, b)
    ensures DistributionOk(b) && b.data.dzEpoch == a.data.dzEpoch
  {}

  /** An amount entered at a source and charged at the same or a later epoch keeps every prefix in order. */
  lemma OneForward(ds: Dists, e: nat, b: DistributionState, target: nat, c: DistributionState, amount: nat)
    requires ChargedForward(ds) && e in ds && target in ds && e <= target
    requires UncollectibleOf(b) == UncollectibleOf(ds[e]) && WrittenOffOf(b) == WrittenOffOf(ds[e]) + amount
    requires UncollectibleOf(c) == UncollectibleOf(ds[e := b][target]) + amount
    requires WrittenOffOf(c) == WrittenOffOf(ds[e := b][target])
    ensures ChargedForward(ds[e := b][target := c])
  {
    hide WrittenOffOf;
    var es := ds[e := b];
    var fs := es[target := c];
    forall k: nat
      ensures MapSum(Below(fs, k), UncollectibleOf) <= MapSum(Below(fs, k), WrittenOffOf)
    {
      BelowSums(ds, e, b, k);
      BelowSums(es, target, c, k);
    }
  }

  lemma WriteOffOrder(w: World, e: nat, node: nat, target: nat, amount: u64, proof: MerkleProof)
    requires Orderly(w) && CanWriteOffDebt(w, e, node, target, amount, proof) && WriteOffFits(w, node, target, amount)
    ensures var v := DebtWrittenOff(w, e, node, target, amount, proof);
      Orderly(v) && Later(w.distributions, v.distributions)
  {
    hide DistributionsInOrder, Registry, Later, CanMoveOff, MovedOff;
    OffAreThere(w.distributions, e, target, proof, DebtLeaf(node, amount));
    WriteOffInOrder(w.distributions, w.config, w.journal.data, e, target, proof, DebtLeaf(node, amount));
  }

  lemma OffAreThere(ds: Dists, e: nat, target: nat, proof: MerkleProof, leaf: DebtLeaf)
    requires CanMoveOff(ds, e, target, proof, leaf)
    ensures e in ds && target in ds
  {}

  /** Each side of the ledger grows by the leaf's amount, also when source and target are one account. */
  lemma WriteOffBalance(w: World, e: nat, node: nat, target: nat, amount: u64, proof: MerkleProof)
    requires Inv(w) && CanWriteOffDebt(w, e, node, target, amount, proof) && WriteOffFits(w, node, target, amount)
    ensures var v := DebtWrittenOff(w, e, node, target, amount, proof); Balanced(v) && Conserves(w, v)
  {
    hide WrittenOffOf, DistributionsOk, Wellformed, Registry, ChargedForward, CanMoveOff, MovedOff;
    OffAreThere(w.distributions, e, target, proof, DebtLeaf(node, amount));
    WriteOffSums(w.distributions, e, target, proof, DebtLeaf(node, amount));
    DepositSums(w.deposits, node, DebtWrittenOff(w, e, node, target, amount, proof).deposits[node]);
  }

  lemma WriteOffStep(w: World, e: nat, node: nat, target: nat, amount: u64, proof: MerkleProof)
    requires Inv(w) && CanWriteOffDebt(w, e, node, target, amount, proof) && WriteOffFits(w, node, target, amount)
    ensures StepOk(w, DebtWrittenOff(w, e, node, target, amount, proof))
  {
    hide Orderly, Balanced, Later, Conserves;
    WriteOffOrder(w, e, node, target, amount, proof);
    WriteOffBalance(w, e, node, target, amount, proof);
  }

  // ---------------------------------------------------------------- sweep and swap

  lemma SweepEntries(a: DistributionState, next: u64, returned2z: u64)
    requires DistributionOk(a) && CanSweep(a.data, next) && a.tokens + returned2z < TWO_64
    ensures var b := Swept(a, returned2z);
      var debt := NetDebt(a.data).value;
      && Keeps(a, b) && b.data.swept && !a.data.swept
      && CollectedOf(b) == CollectedOf(a)
      && SweptDebtOf(a) == 0 && SweptDebtOf(b) == debt
      && UncollectibleOf(b) == UncollectibleOf(a)
      && WrittenOffOf(b) == WrittenOffOf(a)
      && ConvertedOf(a) == 0
      && b.lamports == a.lamports
      && (if debt == 0 then ConvertedOf(b) == 0 && b.tokens == a.tokens
          else ConvertedOf(b) == returned2z && b.tokens == a.tokens + returned2z)
  {
    SweepKeeps(a, next, returned2z);
    assert SetsOf(Swept(a, returned2z)) == SetsOf(a);
  }

  lemma SweepInOrder(ds: Dists, c: ProgramConfig, j: Journal, e: nat, b: DistributionState)
    requires DistributionsInOrder(ds, c, j) && e in ds && e == j.nextSweepEpoch
    requires Keeps(ds[e], b) && b.data.swept
    ensures DistributionsInOrder(ds[e := b], c, j.(nextSweepEpoch := SatAdd64(j.nextSweepEpoch, 1)))
    ensures Later(ds, ds[e := b])
  {
    hide DistributionOk, SetsOf;
    OneLater(ds, e, b);
  }

  lemma SweepOrder(w: World, e: nat, returnedSol: u64, returned2z: u64)
    requires Inv(w) && CanSweepTokens(w, e, returnedSol, returned2z)
    ensures var v := TokensSwept(w, e, returned2z);
      Orderly(v) && Later(w.distributions, v.distributions)
  {
    hide DistributionOk, Evolves, Keeps, EpochOrder, SnapshotsBelow, BurnRateOrder, Registry, Later,
      Balanced, DistributionsOk, Swept;
    SweepReady(w, e, returnedSol, returned2z);
    SweepInOrder(w.distributions, w.config, w.journal.data, e, SweptState(w, e, returned2z));
  }

  function SweptState(w: World, e: nat, returned2z: u64): DistributionState
    requires e in w.distributions
  {
    Swept(w.distributions[e], returned2z)
  }

  lemma SweepReady(w: World, e: nat, returnedSol: u64, returned2z: u64)
    requires Inv(w) && CanSweepTokens(w, e, returnedSol, returned2z)
    ensures e == w.journal.data.nextSweepEpoch
    ensures Keeps(w.distributions[e], SweptState(w, e, returned2z)) && SweptState(w, e, returned2z).data.swept
  {
    hide DistributionOk, Evolves, Keeps;
    WithinSupply(w);
    OkAt(w, e);
    SweepDebtless(w.distributions[e], w.journal.data.nextSweepEpoch, returned2z);
  }

  /** With no net debt the returned amount does not matter; otherwise it fits. */
  lemma SweepDebtless(a: DistributionState, next: u64, returned2z: u64)
    requires DistributionOk(a) && CanSweep(a.data, next)
    requires NetDebt(a.data) != Some(0) ==> a.tokens + returned2z < TWO_64
    requires a.tokens < TWO_64
    ensures Keeps(a, Swept(a, returned2z)) && Swept(a, returned2z).data.swept
  {
    hide DistributionOk, Keeps;
    if NetDebt(a.data) == Some(0) {
      SweepEntries(a, next, 0);
      assert Swept(a, returned2z) == Swept(a, 0);
    } else {
      SweepEntries(a, next, returned2z);
    }
  }

  lemma SweepBalance(w: World, e: nat, returnedSol: u64, returned2z: u64)
    requires Inv(w) && CanSweepTokens(w, e, returnedSol, returned2z)
    requires NetDebt(w.distributions[e].data) != Some(0) ==> returned2z <= w.journal.data.swap2zBalance
    ensures var v := TokensSwept(w, e, returned2z); Balanced(v) && Conserves(w, v)
  {
    hide DistributionOk, Evolves, Keeps, WrittenOffOf, DistributionsInOrder, Wellformed, Registry, ChargedForward;
    var a := w.distributions[e];
    var moved := if NetDebt(a.data) == Some(0) then 0 else returned2z;
    WithinSupply(w);
    OkAt(w, e);
    SweepEntries(a, w.journal.data.nextSweepEpoch, moved);
    assert Swept(a, moved) == Swept(a, returned2z);
    DistributionSums(w.distributions, e, Swept(a, moved));
    SteadyCharges(w.distributions, e, Swept(a, moved));
  }

  lemma SweepStep(w: World, e: nat, returnedSol: u64, returned2z: u64)
    requires Inv(w) && CanSweepTokens(w, e, returnedSol, returned2z)
    requires NetDebt(w.distributions[e].data) != Some(0) ==> returned2z <= w.journal.data.swap2zBalance
    ensures StepOk(w, TokensSwept(w, e, returned2z))
  {
    hide Orderly, Balanced, Later, Conserves;
    SweepOrder(w, e, returnedSol, returned2z);
    SweepBalance(w, e, returnedSol, returned2z);
  }

  lemma SolDebitStep(w: World, amount: u64, transferred2z: u64)
    requires Inv(w) && CanWithdrawSol(w, amount, transferred2z)
    requires w.journal.data.swappedSol + amount < TWO_64
    requires w.journal.data.lifetimeSwapped2z + transferred2z < TWO_128
    ensures StepOk(w, SolDebited(w, amount, transferred2z))
  {
    hide DistributionOk, Evolves, DistributionsOk, SnapshotsBelow, BurnRateOrder;
    AllLater(w.distributions);
    WithinSupply(w);
  }

  lemma WithdrawSolStep(w: World, amount: u64, transferred2z: u64, destination: Address)
    requires Inv(w) && CanWithdrawSol(w, amount, transferred2z)
    requires w.journal.data.swappedSol + amount < TWO_64
    requires w.journal.data.lifetimeSwapped2z + transferred2z < TWO_128
    ensures StepOk(w, SolWithdrawn(w, amount, transferred2z, destination))
  {
    hide Inv, Follows, Send, CanWithdrawSol;
    var u := SolDebited(w, amount, transferred2z);
    SolDebitStep(w, amount, transferred2z);
    SendStep(u, destination, amount);
    FollowsTransitive(w, u, Send(u, destination, amount));
    SolWithdrawnIsSend(w, amount, transferred2z, destination);
  }

  // ---------------------------------------------------------------- rewards

  /** The record of what recipients were paid is no account's balance. */
  lemma RecordStep(w: World, u: World, received2z: map<nat, nat>)
    requires StepOk(w, u)
    ensures StepOk(w, u.(received2z := received2z))
  {
    hide DistributionOk, Evolves, DistributionsInOrder, Wellformed, Registry;
  }

  lemma RewardDebitStep(w: World, e: nat, proof: MerkleProof, claim: Claim)
    requires Inv(w) && CanReward(w, e, proof, claim)
    requires RewardFits(w.distributions[e].data, claim, w.contributors[claim.contributor])
    ensures StepOk(w, RewardDebited(w, e, proof, claim))
  {
    hide DistributionOk, Evolves, Keeps, Steady, StepOk;
    var a := w.distributions[e];
    var recipients := w.contributors[claim.contributor];
    OkAt(w, e);
    RewardKeeps(a, proof, claim, recipients);
    var u := RewardDebited(w, e, proof, claim);
    RewardSplitsExactly(Pool(a.data), claim.unitShare, EffectiveBurnRate(a.data, claim.economicBurnRate),
                        Active(recipients));
    SteadyStep(w, e, RewardsPaid(a, proof.leafIndex.value, claim, recipients), u.outsideLamports, u.outside2z);
    RecordStep(w, u.(received2z := w.received2z), u.received2z);
  }

  lemma RewardStep(w: World, e: nat, proof: MerkleProof, claim: Claim, relayer: Address)
    requires Inv(w) && CanReward(w, e, proof, claim)
    requires RewardFits(w.distributions[e].data, claim, w.contributors[claim.contributor])
    ensures StepOk(w, RewardDistributed(w, e, proof, claim, relayer))
  {
    hide Inv, Follows, CanDistribute;
    var u := RewardDebited(w, e, proof, claim);
    RewardDebitStep(w, e, proof, claim);
    SendStep(u, relayer, w.distributions[e].data.relayLamports);
    FollowsTransitive(w, u, RewardDistributed(w, e, proof, claim, relayer));
  }
}
