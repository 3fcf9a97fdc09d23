/** Which accounts an instruction touches, and what it leaves in a distribution besides lamports. */
module Frames {
  import opened Units
  import opened Rewards
  import opened Accounts
  import opened Distributions
  import opened World

  lemma FailureChangesNothing(w: World, i: Instruction)
    requires Effect(w, i).None?
    ensures Step(w, i) == w
  {
    hide Effect;
  }

  // ---------------------------------------------------------------- instructions on one distribution

  predicate Prepares(i: Instruction) {
    || i.ConfigureDebt? || i.FinalizeDebt? || i.ConfigureRewards? || i.FinalizeRewards?
    || i.SetEconomicBurnRate? || i.EnableWriteOff? || i.CollectIntegration?
  }

  function Prepared(w: World, i: Instruction): DistributionState
    requires Prepares(i) && Effect(w, i).Some?
  {
    var a := w.distributions[i.epoch];
    match i
    case ConfigureDebt(_, _, validators, debt, root) => ConfiguredDebt(a, validators, debt, root)
    case FinalizeDebt(_, _) => FinalizedDebt(a)
    case ConfigureRewards(_, _, contributors, root) => ConfiguredRewards(a, contributors, root)
    case FinalizeRewards(_, _) => FinalizedRewards(a)
    case SetEconomicBurnRate(_, rate) => WithEconomicBurnRate(a, rate)
    case EnableWriteOff(_) => WithWriteOffEnabled(a)
    case CollectIntegration(_, program, amount) => Collected(a, w.integrations[program], amount)
  }

  lemma PreparationIs(w: World, i: Instruction)
    requires Prepares(i) && Effect(w, i).Some?
    ensures CanReplace(w, i.epoch, Prepared(w, i)) && Step(w, i) == Replace(w, i.epoch, Prepared(w, i))
  {
    hide CanReplace, Replace, FinalizedDebt, FinalizedRewards, WithWriteOffEnabled, Collected, ConfiguredDebt,
      ConfiguredRewards, WithEconomicBurnRate, CanConfigureDebt, CanFinalizeDebt, CanConfigureRewards,
      CanFinalizeRewards, CanEnableWriteOff;
  }

  // ---------------------------------------------------------------- instructions on one leaf

  predicate SettlesDebt(i: Instruction, e: nat, leaf: nat) {
    match i
    case PayDebt(e', _, _, proof) => e' == e && proof.leafIndex.Some? && proof.leafIndex.value == leaf
    case WriteOff(e', _, _, _, proof) => e' == e && proof.leafIndex.Some? && proof.leafIndex.value == leaf
    case _ => false
  }

  predicate PaysReward(i: Instruction, e: nat, leaf: nat) {
    i.DistributeRewards? && i.epoch == e && i.proof.leafIndex.Some? && i.proof.leafIndex.value == leaf
  }

  // ---------------------------------------------------------------- lamports that are sent on

  /** The same but for lamports. */
  predicate Alike(a: DistributionState, b: DistributionState) {
    a.data == b.data && a.remaining == b.remaining && a.tokens == b.tokens
  }

  ghost predicate AllAlike(ds: map<nat, DistributionState>, es: map<nat, DistributionState>) {
    es.Keys == ds.Keys && forall e :: e in ds ==> Alike(es[e], ds[e])
  }

  ghost predicate SameDeposits(ps: map<nat, DepositState>, qs: map<nat, DepositState>) {
    qs.Keys == ps.Keys && forall n :: n in ps ==> qs[n].data == ps[n].data
  }

  lemma OneAlike(ds: map<nat, DistributionState>, e: nat, lamports: nat)
    requires e in ds
    ensures AllAlike(ds, ds[e := ds[e].(lamports := lamports)])
  {}

  lemma OneSame(ps: map<nat, DepositState>, n: nat, lamports: nat)
    requires n in ps
    ensures SameDeposits(ps, ps[n := ps[n].(lamports := lamports)])
  {}

  /** What sending lamports leaves alone. */
  ghost predicate SentOnly(w: World, v: World) {
    && AllAlike(w.distributions, v.distributions) && SameDeposits(w.deposits, v.deposits)
    && v.config == w.config && v.journal.data == w.journal.data
    && v.integrations == w.integrations && v.contributors == w.contributors && v.received2z == w.received2z
    && v.journalAta == w.journalAta && v.swapTokens == w.swapTokens && v.outside2z == w.outside2z
  }

  /** Sending lamports changes no account's data and no token account. */
  lemma SendFrame(w: World, to: Address, lamports: nat)
    requires lamports <= w.outsideLamports
    ensures SentOnly(w, Send(w, to, lamports))
  {
    hide AllAlike, SameDeposits;
    Unsent(w.distributions, w.deposits);
    match to
    case OfDistribution(e) =>
      if e in w.distributions {
        OneAlike(w.distributions, e, w.distributions[e].lamports + lamports);
      }
    case OfDeposit(n) =>
      if n in w.deposits {
        OneSame(w.deposits, n, w.deposits[n].lamports + lamports);
      }
    case _ =>
  }

  lemma Unsent(ds: map<nat, DistributionState>, ps: map<nat, DepositState>)
    ensures AllAlike(ds, ds) && SameDeposits(ps, ps)
  {}

  predicate Sends(i: Instruction) {
    i.DistributeRewards? || i.WithdrawSol? || i.WithdrawDeposit? || i.SendLamports?
  }

  /** The world before the lamports are sent on, where they go and how many. */
  function BeforeSend(w: World, i: Instruction): (World, Address, nat)
    requires Sends(i) && Effect(w, i).Some?
  {
    match i
    case DistributeRewards(e, proof, claim, relayer) =>
      (RewardDebited(w, e, proof, claim), relayer, w.distributions[e].data.relayLamports)
    case WithdrawSol(amount, transferred2z, destination) =>
      (SolDebited(w, amount, transferred2z), destination, amount)
    case WithdrawDeposit(node, beneficiary) =>
      var amount := Withdrawable(w.deposits[node]);
      (Debited(w, node, amount), beneficiary, amount)
    case SendLamports(to, lamports) => (w, to, lamports)
  }

  lemma SendingIs(w: World, i: Instruction)
    requires Sends(i) && Effect(w, i).Some?
    ensures var (u, to, lamports) := BeforeSend(w, i);
      && lamports <= u.outsideLamports && Step(w, i) == Send(u, to, lamports)
  {
    hide Send, CanDistribute, RewardsPaid, Receiving, Payable, MinimumBalance;
    match i
    case WithdrawSol(amount, transferred2z, destination) => SolWithdrawnIsSend(w, amount, transferred2z, destination);
    case _ =>
  }

  // ---------------------------------------------------------------- the other instructions

  /** What an instruction that neither prepares a distribution nor sends lamports on leaves alone. */
  ghost predicate LeavesAlone(w: World, v: World, i: Instruction) {
    && v.received2z == w.received2z
    && (!i.Configure? && !i.InitializeDistribution? ==> v.config == w.config)
    && (!i.InitializeDeposit? && !i.PayDebt? && !i.WriteOff? ==> v.deposits == w.deposits)
    && (!i.PayDebt? && !i.Sweep? && !i.InitializeIntegration? ==> v.journal == w.journal)
    && (!i.InitializeDistribution? && !i.Send2z? ==> v.journalAta == w.journalAta)
    && (!i.Sweep? && !i.Send2z? ==> v.swapTokens == w.swapTokens)
  }

  lemma PayFrame(w: World, e: nat, node: nat, amount: u64, proof: MerkleProof)
    requires Effect(w, PayDebt(e, node, amount, proof)).Some?
    ensures CanPayDebt(w, e, node, amount, proof)
    ensures Step(w, PayDebt(e, node, amount, proof)) == DebtPaid(w, e, node, amount, proof)
    ensures DebtPaid(w, e, node, amount, proof).distributions
         == w.distributions[e := Paid(w.distributions[e], proof.leafIndex.value, amount)]
  {
    hide Paid, CanPay;
  }

  lemma SweepFrame(w: World, e: nat, returnedSol: u64, returned2z: u64)
    requires Effect(w, Sweep(e, returnedSol, returned2z)).Some?
    ensures CanSweepTokens(w, e, returnedSol, returned2z)
    ensures Step(w, Sweep(e, returnedSol, returned2z)) == TokensSwept(w, e, returned2z)
    ensures TokensSwept(w, e, returned2z).distributions == w.distributions[e := Swept(w.distributions[e], returned2z)]
  {
    hide Swept;
  }

  lemma Send2zFrame(w: World, to: TokenAddress, tokens: nat)
    requires Effect(w, Send2z(to, tokens)).Some?
    ensures tokens <= w.outside2z && Step(w, Send2z(to, tokens)) == SendTokens(w, to, tokens)
  {}

  lemma TokenFrame(w: World, i: Instruction)
    requires (i.Sweep? || i.Send2z?) && Effect(w, i).Some?
    ensures LeavesAlone(w, Step(w, i), i)
  {
    hide Effect, Step, CanSweepTokens, NetDebt, Swept;
    match i
    case Sweep(e, returnedSol, returned2z) => SweepFrame(w, e, returnedSol, returned2z);
    case Send2z(to, tokens) => Send2zFrame(w, to, tokens);
    case _ =>
  }

  lemma DebtFrame(w: World, i: Instruction)
    requires (i.PayDebt? || i.WriteOff?) && Effect(w, i).Some?
    ensures LeavesAlone(w, Step(w, i), i)
  {
    hide CanPay, Paid, CanMoveOff, MovedOff, MinimumBalance;
  }


  lemma ConfigurationFrame(w: World, i: Instruction)
    requires !Prepares(i) && !Sends(i) && !i.PayDebt? && !i.WriteOff? && !i.Sweep? && !i.Send2z?
    requires Effect(w, i).Some?
    ensures LeavesAlone(w, Step(w, i), i)
  {
    hide NewSetting, ValidRecipients, Padded, CreatedLamports, CanRegister, NewDistribution, InitializationAllowed,
      AfterInitialization;
  }

  lemma MoveFrame(w: World, i: Instruction)
    requires !Prepares(i) && !Sends(i) && Effect(w, i).Some?
    ensures LeavesAlone(w, Step(w, i), i)
  {
    hide Effect, Step, LeavesAlone, Prepares, Sends;
    if i.PayDebt? || i.WriteOff? {
      DebtFrame(w, i);
    } else if i.Sweep? || i.Send2z? {
      TokenFrame(w, i);
    } else {
      ConfigurationFrame(w, i);
    }
  }

  // ---------------------------------------------------------------- one distribution across one instruction

  /** What a distribution becomes, lamports aside. */
  function After(w: World, i: Instruction, e: nat): DistributionState
    requires Effect(w, i).Some? && e in w.distributions
  {
    var a := w.distributions[e];
    match i
    case PayDebt(x, node, amount, proof) => if x == e then Paid(a, proof.leafIndex.value, amount) else a
    case WriteOff(x, node, target, amount, proof) =>
      MovedOff(w.distributions, x, target, proof, DebtLeaf(node, amount))[e]
    case Sweep(x, _, returned2z) => if x == e then Swept(a, returned2z) else a
    case DistributeRewards(x, proof, claim, _) =>
      if x == e then RewardsPaid(a, proof.leafIndex.value, claim, w.contributors[claim.contributor]) else a
    case Send2z(to, tokens) => if to == TokensOfDistribution(e) then a.(tokens := a.tokens + tokens) else a
    case _ => if Prepares(i) && i.epoch == e then Prepared(w, i) else a
  }

  lemma AfterPrepared(w: World, i: Instruction, e: nat)
    requires Prepares(i) && Effect(w, i).Some? && e in w.distributions
    ensures After(w, i, e) == if i.epoch == e then Prepared(w, i) else w.distributions[e]
  {
    hide Effect, Prepared;
  }

  lemma AfterSettled(w: World, i: Instruction, e: nat)
    requires Effect(w, i).Some? && e in w.distributions
    ensures i.PayDebt? ==>
      var a := w.distributions[e];
      After(w, i, e) == if i.epoch == e then Paid(a, i.proof.leafIndex.value, i.amount) else a
    ensures i.Sweep? ==>
      After(w, i, e) == if i.epoch == e then Swept(w.distributions[e], i.returned2z) else w.distributions[e]
    ensures i.Send2z? ==>
      var a := w.distributions[e];
      After(w, i, e) == if i.account == TokensOfDistribution(e) then a.(tokens := a.tokens + i.tokens) else a
  {
    hide Paid, Swept;
  }

  /** Before lamports are sent on only a reward has changed a distribution. */
  lemma AfterBeforeSend(w: World, i: Instruction, e: nat)
    requires Sends(i) && Effect(w, i).Some? && e in w.distributions
    ensures e in BeforeSend(w, i).0.distributions && BeforeSend(w, i).0.distributions[e] == After(w, i, e)
  {
    hide Effect, RewardsPaid, Receiving, Payable;
  }

  lemma AfterSending(w: World, i: Instruction, e: nat)
    requires Sends(i) && Effect(w, i).Some? && e in w.distributions
    ensures e in Step(w, i).distributions && Alike(Step(w, i).distributions[e], After(w, i, e))
  {
    hide Send, Effect, Step, After, BeforeSend, Alike;
    SendingIs(w, i);
    var (u, to, lamports) := BeforeSend(w, i);
    AfterBeforeSend(w, i, e);
    SendFrame(u, to, lamports);
  }

  lemma AfterPreparing(w: World, i: Instruction, e: nat)
    requires Prepares(i) && Effect(w, i).Some? && e in w.distributions
    ensures e in Step(w, i).distributions && Alike(Step(w, i).distributions[e], After(w, i, e))
  {
    hide Effect, Step, Prepared, CanReplace;
    PreparationIs(w, i);
  }

  lemma AfterSettling(w: World, i: Instruction, e: nat)
    requires i.PayDebt? || i.Sweep? || i.Send2z?
    requires Effect(w, i).Some? && e in w.distributions
    ensures e in Step(w, i).distributions && Alike(Step(w, i).distributions[e], After(w, i, e))
  {
    hide Effect, Step, Paid, Swept, CanPayDebt, CanSweepTokens, DebtPaid, TokensSwept, After;
    AfterSettled(w, i, e);
    match i
    case PayDebt(x, node, amount, proof) => PayFrame(w, x, node, amount, proof);
    case Sweep(x, returnedSol, returned2z) => SweepFrame(w, x, returnedSol, returned2z);
    case Send2z(to, tokens) => Send2zFrame(w, to, tokens);
    case _ =>
  }

  lemma AfterWritingOff(w: World, i: Instruction, e: nat)
    requires i.WriteOff? && Effect(w, i).Some? && e in w.distributions
    ensures e in Step(w, i).distributions && Step(w, i).distributions[e] == After(w, i, e)
  {
    hide CanWriteOffFrom, WrittenOffFrom, CanCharge, Charged, Excess;
  }

  lemma AfterOthers(w: World, i: Instruction, e: nat)
    requires !Sends(i) && !Prepares(i) && !i.PayDebt? && !i.WriteOff? && !i.Sweep? && !i.Send2z?
    requires Effect(w, i).Some? && e in w.distributions
    ensures e in Step(w, i).distributions && Step(w, i).distributions[e] == w.distributions[e] == After(w, i, e)
  {
    hide NewSetting, ValidRecipients, Padded, CreatedLamports, CanRegister, NewDistribution, InitializationAllowed,
      AfterInitialization;
  }

  lemma AfterIs(w: World, i: Instruction, e: nat)
    requires Effect(w, i).Some? && e in w.distributions
    ensures e in Step(w, i).distributions && Alike(Step(w, i).distributions[e], After(w, i, e))
  {
    hide Effect, Step, After;
    if Sends(i) {
      AfterSending(w, i, e);
    } else if Prepares(i) {
      AfterPreparing(w, i, e);
    } else if i.PayDebt? || i.Sweep? || i.Send2z? {
      AfterSettling(w, i, e);
    } else if i.WriteOff? {
      AfterWritingOff(w, i, e);
    } else {
      AfterOthers(w, i, e);
    }
  }

  lemma KeysAfterSettling(w: World, i: Instruction)
    requires i.PayDebt? || i.Sweep? || i.Send2z?
    requires Effect(w, i).Some?
    ensures Step(w, i).distributions.Keys == w.distributions.Keys
  {
    hide Effect, Step, Paid, Swept, CanPayDebt, CanSweepTokens, DebtPaid, TokensSwept;
    match i
    case PayDebt(x, node, amount, proof) => PayFrame(w, x, node, amount, proof); PayIsOpen(w, x, node, amount, proof);
    case Sweep(x, returnedSol, returned2z) =>
      SweepFrame(w, x, returnedSol, returned2z);
      SweepIsOpen(w, x, returnedSol, returned2z);
    case Send2z(to, tokens) => Send2zFrame(w, to, tokens);
    case _ =>
  }

  lemma PayIsOpen(w: World, e: nat, node: nat, amount: u64, proof: MerkleProof)
    requires CanPayDebt(w, e, node, amount, proof)
    ensures e in w.distributions && node in w.deposits
  {}

  lemma SweepIsOpen(w: World, e: nat, returnedSol: u64, returned2z: u64)
    requires CanSweepTokens(w, e, returnedSol, returned2z)
    ensures e in w.distributions
  {}

  /** A distribution that was not there before is the next epoch's, just initialized. */
  lemma Born(w: World, i: Instruction, e: nat)
    requires e !in w.distributions && e in Step(w, i).distributions
    ensures i.InitializeDistribution? && Effect(w, i).Some? && e == w.config.nextEpoch
  {
    hide Effect, Send, Prepared, CanReward, CanWithdrawSol, RewardDebited, SolDebited, Withdrawable, Receiving;
    if Effect(w, i).Some? {
      if Sends(i) {
        SendingIs(w, i);
        var (u, to, lamports) := BeforeSend(w, i);
        SendFrame(u, to, lamports);
        BeforeSendKeys(w, i);
      } else if Prepares(i) {
        PreparationIs(w, i);
      } else if i.WriteOff? {
        OffBears(w, i, e);
      } else if i.PayDebt? || i.Sweep? || i.Send2z? {
        KeysAfterSettling(w, i);
      } else if !i.InitializeDistribution? {
        OthersBear(w, i, e);
      } else {
        NextIsBorn(w, i, e);
      }
    }
  }

  lemma BeforeSendKeys(w: World, i: Instruction)
    requires Sends(i) && Effect(w, i).Some?
    ensures BeforeSend(w, i).0.distributions.Keys == w.distributions.Keys
  {
    hide RewardsPaid, Receiving, Payable, CanDistribute, MinimumBalance;
  }

  lemma OffBears(w: World, i: Instruction, e: nat)
    requires i.WriteOff? && Effect(w, i).Some? && e !in w.distributions
    ensures e !in Step(w, i).distributions
  {
    hide CanWriteOffFrom, WrittenOffFrom, CanCharge, Charged, Excess;
  }

  lemma OthersBear(w: World, i: Instruction, e: nat)
    requires !Sends(i) && !Prepares(i) && !i.PayDebt? && !i.WriteOff? && !i.Sweep? && !i.Send2z?
    requires !i.InitializeDistribution?
    requires Effect(w, i).Some? && e !in w.distributions
    ensures e !in Step(w, i).distributions
  {
    hide NewSetting, ValidRecipients, Padded, CreatedLamports, CanRegister;
  }

  lemma NextIsBorn(w: World, i: Instruction, e: nat)
    requires i.InitializeDistribution? && Effect(w, i).Some?
    requires e !in w.distributions && e in Step(w, i).distributions
    ensures e == w.config.nextEpoch
  {
    hide CreatedLamports, NewDistribution, InitializationAllowed, AfterInitialization;
  }
}
