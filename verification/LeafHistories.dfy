/** In every run, fitting or not: each mark is one success, and the marks under a validator are its payments. */
module LeafHistories {
  import opened Sums
  import opened Bitmaps
  import opened Rewards
  import opened Accounts
  import opened Distributions
  import opened DistributionInvariants
  import opened World
  import opened WorldInvariants
  import opened Runs
  import opened Frames
  import opened Structure
  import opened DepositFlows
  import opened Histories

  lemma {:induction false} RunTalliesAlways(
    w: World, run: seq<Instruction>, reading: World -> int, entry: (World, Instruction) -> int)
    requires AllStructured(w)
    requires forall u, i :: AllStructured(u) ==> reading(Step(u, i)) == reading(u) + entry(u, i)
    ensures reading(Run(w, run)) == reading(w) + Total(w, run, entry)
  {
    hide AllStructured, Step;
    if run != [] {
      var before := run[..|run| - 1];
      RunTalliesAlways(w, before, reading, entry);
      StructureRun(w, before);
      assert Run(w, run) == Step(Run(w, before), run[|run| - 1]);
    }
  }

  lemma GenesisStructured(w: World)
    requires Genesis(w)
    ensures AllStructured(w)
  {}

  // ---------------------------------------------------------------- one mark, one success

  ghost function SettledMark(e: nat, leaf: nat): World -> int {
    (w: World) => if e in w.distributions && leaf in SetsOf(w.distributions[e]).processed then 1 else 0
  }

  function Settlement(e: nat, leaf: nat): (World, Instruction) -> int {
    (w: World, i: Instruction) => if Effect(w, i).Some? && SettlesDebt(i, e, leaf) then 1 else 0
  }

  ghost function RewardedMark(e: nat, leaf: nat): World -> int {
    (w: World) => if e in w.distributions && leaf in SetsOf(w.distributions[e]).rewarded then 1 else 0
  }

  function RewardPayment(e: nat, leaf: nat): (World, Instruction) -> int {
    (w: World, i: Instruction) => if Effect(w, i).Some? && PaysReward(i, e, leaf) then 1 else 0
  }

  lemma MarkStep(w: World, i: Instruction, e: nat, leaf: nat)
    requires AllStructured(w)
    ensures SettledMark(e, leaf)(Step(w, i)) == SettledMark(e, leaf)(w) + Settlement(e, leaf)(w, i)
    ensures RewardedMark(e, leaf)(Step(w, i)) == RewardedMark(e, leaf)(w) + RewardPayment(e, leaf)(w, i)
  {
    hide AllStructured, Structured, SetsOf, Effect, Step;
    if e in w.distributions {
      StepContinues(w, i, e);
    } else {
      SettlingNeedsEpoch(w, i, e, leaf);
      if e in Step(w, i).distributions {
        BornEmpty(w, i, e);
      }
    }
  }

  lemma SettlingNeedsEpoch(w: World, i: Instruction, e: nat, leaf: nat)
    ensures (SettlesDebt(i, e, leaf) || PaysReward(i, e, leaf)) && Effect(w, i).Some? ==> e in w.distributions
  {
    hide CanPay, CanMoveOff, CanDistribute, MovedOff, Paid, RewardDistributed;
  }

  /**
   * In any run from genesis the times a debt leaf was paid or written off are one if its bit is set and
   * none if it is clear, and so for rewards.
   */
  lemma MarksAreHistory(w: World, run: seq<Instruction>, e: nat, leaf: nat)
    requires Genesis(w)
    ensures Total(w, run, Settlement(e, leaf)) == SettledMark(e, leaf)(Run(w, run))
    ensures Total(w, run, RewardPayment(e, leaf)) == RewardedMark(e, leaf)(Run(w, run))
  {
    hide AllStructured, SetsOf, Step;
    GenesisStructured(w);
    forall u, i | AllStructured(u)
      ensures SettledMark(e, leaf)(Step(u, i)) == SettledMark(e, leaf)(u) + Settlement(e, leaf)(u, i)
      ensures RewardedMark(e, leaf)(Step(u, i)) == RewardedMark(e, leaf)(u) + RewardPayment(e, leaf)(u, i)
    {
      MarkStep(u, i, e, leaf);
    }
    RunTalliesAlways(w, run, SettledMark(e, leaf), Settlement(e, leaf));
    RunTalliesAlways(w, run, RewardedMark(e, leaf), RewardPayment(e, leaf));
  }

  // ---------------------------------------------------------------- one bit, one collection

  function CollectedBit(e: nat, index: nat): World -> int {
    (w: World) => if e in w.distributions && index in w.distributions[e].data.collectedIntegrations then 1 else 0
  }

  function Collection(e: nat, index: nat): (World, Instruction) -> int {
    (w: World, i: Instruction) =>
      if Effect(w, i).Some? && i.CollectIntegration? && i.epoch == e
         && i.program in w.integrations && w.integrations[i.program] == index then 1 else 0
  }

  lemma CollectionReady(w: World, i: Instruction)
    requires i.CollectIntegration? && Effect(w, i).Some?
    ensures i.epoch in w.distributions && i.program in w.integrations
    ensures w.integrations[i.program] as nat !in w.distributions[i.epoch].data.collectedIntegrations
    ensures Prepared(w, i).data.collectedIntegrations
         == w.distributions[i.epoch].data.collectedIntegrations + {w.integrations[i.program] as nat}
  {
    hide CanReplace;
  }

  lemma OthersCollectNothing(w: World, i: Instruction, e: nat)
    requires Effect(w, i).Some? && e in w.distributions && !(i.CollectIntegration? && i.epoch == e)
    ensures After(w, i, e).data.collectedIntegrations == w.distributions[e].data.collectedIntegrations
  {
    hide Effect, Prepared, Mark, CanMark;
    if Prepares(i) {
      PreparedCollectsNothing(w, i);
    }
  }

  lemma PreparedCollectsNothing(w: World, i: Instruction)
    requires Prepares(i) && Effect(w, i).Some?
    ensures !i.CollectIntegration? ==>
      Prepared(w, i).data.collectedIntegrations == w.distributions[i.epoch].data.collectedIntegrations
  {
    hide CanFinalizeDebt, CanFinalizeRewards, CanEnableWriteOff, CanConfigureDebt, CanConfigureRewards, MinimumBalance,
      CanReplace, CanCollect;
  }

  lemma CollectionStepAt(w: World, i: Instruction, e: nat, index: nat)
    requires e in w.distributions && Effect(w, i).Some?
    ensures CollectedBit(e, index)(Step(w, i)) == CollectedBit(e, index)(w) + Collection(e, index)(w, i)
  {
    hide Effect, Step, After, Prepared;
    AfterIs(w, i, e);
    if i.CollectIntegration? && i.epoch == e {
      CollectionReady(w, i);
      AfterPrepared(w, i, e);
    } else {
      OthersCollectNothing(w, i, e);
    }
  }

  lemma CollectionStep(w: World, i: Instruction, e: nat, index: nat)
    ensures CollectedBit(e, index)(Step(w, i)) == CollectedBit(e, index)(w) + Collection(e, index)(w, i)
  {
    hide Effect, Step;
    if Effect(w, i).None? {
      FailureChangesNothing(w, i);
    } else if e in w.distributions {
      CollectionStepAt(w, i, e, index);
    } else {
      if i.CollectIntegration? {
        CollectionReady(w, i);
      }
      if e in Step(w, i).distributions {
        Born(w, i, e);
        BornUncollected(w, i.now, i.prefunded);
      }
    }
  }

  lemma BornUncollected(w: World, now: int, prefunded: nat)
    requires Effect(w, InitializeDistribution(now, prefunded)).Some?
    ensures var v := Step(w, InitializeDistribution(now, prefunded));
      w.config.nextEpoch in v.distributions && v.distributions[w.config.nextEpoch].data.collectedIntegrations == {}
  {
    hide CreatedLamports, InitializationAllowed, AfterInitialization;
  }

  /** In any run from genesis an integration was collected from once if its bit is set and never if it is clear. */
  lemma CollectionsAreHistory(w: World, run: seq<Instruction>, e: nat, index: nat)
    requires Genesis(w)
    ensures Total(w, run, Collection(e, index)) == CollectedBit(e, index)(Run(w, run))
  {
    hide AllStructured, Step;
    GenesisStructured(w);
    forall u, i | AllStructured(u)
      ensures CollectedBit(e, index)(Step(u, i)) == CollectedBit(e, index)(u) + Collection(e, index)(u, i)
    {
      CollectionStep(u, i, e, index);
    }
    RunTalliesAlways(w, run, CollectedBit(e, index), Collection(e, index));
  }

  // ---------------------------------------------------------------- sums over distributions, step by step

  /** The sum changes by what one distribution's entry changes; new distributions start at zero. */
  lemma {:induction false} SumAcross(ds: Dists, es: Dists, f: DistributionState -> int, e: nat, delta: int)
    requires ds.Keys <= es.Keys && (e !in ds ==> delta == 0)
    requires forall d :: d in ds ==> f(es[d]) == f(ds[d]) + if d == e then delta else 0
    requires forall d :: d in es && d !in ds ==> f(es[d]) == 0
    ensures MapSum(es, f) == MapSum(ds, f) + delta
    decreases |es|
  {
    if es == map[] {
      assert ds == map[];
    } else {
      var d :| d in es;
      MapSumRemove(es, d, f);
      if d in ds {
        MapSumRemove(ds, d, f);
      } else {
        assert ds - {d} == ds;
      }
      SumAcross(ds - {d}, es - {d}, f, e, if d == e then 0 else delta);
    }
  }

  // ---------------------------------------------------------------- one validator

  function AmountFor(n: nat): DebtLeaf -> int {
    (leaf: DebtLeaf) => if leaf.node == n then leaf.amount else 0
  }

  /** The debt of validator n among the leaves in s. */
  ghost function DebtFor(root: Hash, s: set<nat>, n: nat): int {
    MapSum(Restrict(Debts(root), s), AmountFor(n))
  }

  /** What validator n has paid of a distribution's debt, and what was written off for it. */
  ghost function PaidBy(n: nat): DistributionState -> int {
    (a: DistributionState) => DebtFor(a.data.debtRoot, SetsOf(a).processed - SetsOf(a).writtenOff, n)
  }

  ghost function OffFor(n: nat): DistributionState -> int {
    (a: DistributionState) => DebtFor(a.data.debtRoot, SetsOf(a).writtenOff, n)
  }

  function WrittenOffFor(w: World, i: Instruction, n: nat): nat {
    match i
    case WriteOff(_, node, _, amount, _) => if node == n && Effect(w, i).Some? then amount else 0
    case _ => 0
  }

  lemma NoneFor(root: Hash, n: nat)
    ensures DebtFor(root, {}, n) == 0
  {
    RestrictEmpty(Debts(root), AmountFor(n));
  }

  /** Marking a committed leaf adds its amount to its own validator. */
  lemma OneMoreFor(root: Hash, s: LeafSets, index: nat, n: nat)
    requires s.writtenOff <= s.processed && index in Debts(root) && index !in s.processed
    ensures DebtFor(root, s.processed + {index} - s.writtenOff, n)
         == DebtFor(root, s.processed - s.writtenOff, n) + AmountFor(n)(Debts(root)[index])
    ensures s.processed + {index} - (s.writtenOff + {index}) == s.processed - s.writtenOff
    ensures DebtFor(root, s.writtenOff + {index}, n)
         == DebtFor(root, s.writtenOff, n) + AmountFor(n)(Debts(root)[index])
  {
    assert s.processed + {index} - s.writtenOff == (s.processed - s.writtenOff) + {index};
    RestrictSumInsert(Debts(root), s.processed - s.writtenOff, index, AmountFor(n));
    RestrictSumInsert(Debts(root), s.writtenOff, index, AmountFor(n));
  }

  /** While nothing is marked the sums are zero; otherwise the root stays and only marking changes them. */
  lemma SameMarksSameDebt(a: DistributionState, b: DistributionState, s: LeafSets, n: nat)
    requires Continues(a, b, s) && Structured(a)
    requires s.processed == SetsOf(a).processed && s.writtenOff == SetsOf(a).writtenOff
    ensures PaidBy(n)(b) == PaidBy(n)(a) && OffFor(n)(b) == OffFor(n)(a)
  {
    hide Layout, DebtFor, LeavesIn;
    if b.data.debtRoot != a.data.debtRoot {
      NoneFor(a.data.debtRoot, n);
      NoneFor(b.data.debtRoot, n);
      var none: set<nat> := {};
      assert SetsOf(a).writtenOff == none && none - none == none;
    }
  }

  /** The leaf a settlement names is the one committed, validator and amount. */
  lemma SettledLeaf(w: World, i: Instruction)
    requires (i.PayDebt? || i.WriteOff?) && Effect(w, i).Some?
    ensures i.epoch in w.distributions && i.proof.leafIndex.Some?
    ensures var root, index := w.distributions[i.epoch].data.debtRoot, i.proof.leafIndex.value as nat;
      index in Debts(root) && Debts(root)[index] == DebtLeaf(i.node, i.amount)
  {
    hide CanMark, MovedOff, Paid, Mark, CanCharge;
  }

  lemma MarkedDebt(w: World, i: Instruction, e: nat, n: nat)
    requires AllStructured(w) && Effect(w, i).Some? && (i.PayDebt? || i.WriteOff?) && i.epoch == e
    requires e in w.distributions && e in Step(w, i).distributions
    requires Continues(w.distributions[e], Step(w, i).distributions[e], Marked(SetsOf(w.distributions[e]), i, e))
    requires FreshMark(SetsOf(w.distributions[e]), i, e)
    ensures PaidBy(n)(Step(w, i).distributions[e]) == PaidBy(n)(w.distributions[e]) + PaidForDebt(w, i, n)
    ensures OffFor(n)(Step(w, i).distributions[e]) == OffFor(n)(w.distributions[e]) + WrittenOffFor(w, i, n)
  {
    hide Layout, DebtFor, SetsOf, Step, Effect, Staged;
    SettledLeaf(w, i);
    var a, index := w.distributions[e], i.proof.leafIndex.value as nat;
    assert SettlesDebt(i, e, index);
    OneMoreFor(a.data.debtRoot, SetsOf(a), index, n);
  }

  lemma ValidatorStepAt(w: World, i: Instruction, e: nat, n: nat)
    requires AllStructured(w) && e in w.distributions
    ensures e in Step(w, i).distributions
    ensures var mine := (i.PayDebt? || i.WriteOff?) && i.epoch == e;
      && PaidBy(n)(Step(w, i).distributions[e])
         == PaidBy(n)(w.distributions[e]) + (if mine then PaidForDebt(w, i, n) else 0)
      && OffFor(n)(Step(w, i).distributions[e])
         == OffFor(n)(w.distributions[e]) + (if mine then WrittenOffFor(w, i, n) else 0)
  {
    hide Structured, SetsOf, Step, Effect, Continues, PaidBy, OffFor, FreshMark;
    StepContinues(w, i, e);
    if (i.PayDebt? || i.WriteOff?) && i.epoch == e && Effect(w, i).Some? {
      MarkedDebt(w, i, e, n);
    } else {
      var s := SetsOf(w.distributions[e]);
      NotMarkedHere(w, i, e, s);
      NothingSettled(w, i, n);
      SameMarksSameDebt(w.distributions[e], Step(w, i).distributions[e],
                        if Effect(w, i).Some? then Marked(s, i, e) else s, n);
    }
  }

  lemma NotMarkedHere(w: World, i: Instruction, e: nat, s: LeafSets)
    ensures !((i.PayDebt? || i.WriteOff?) && i.epoch == e) ==>
      Marked(s, i, e).processed == s.processed && Marked(s, i, e).writtenOff == s.writtenOff
  {}

  lemma NothingSettled(w: World, i: Instruction, n: nat)
    ensures Effect(w, i).None? ==> PaidForDebt(w, i, n) == 0 && WrittenOffFor(w, i, n) == 0
  {
    hide Effect;
  }

  lemma BornDebtless(a: DistributionState, n: nat)
    requires SetsOf(a) == NO_LEAVES
    ensures PaidBy(n)(a) == 0 && OffFor(n)(a) == 0
  {
    NoneFor(a.data.debtRoot, n);
    var none: set<nat> := {};
    assert none - none == none;
  }

  /** Over all distributions, a validator's sums move by exactly its own payment or write-off. */
  lemma ValidatorStep(w: World, i: Instruction, n: nat)
    requires AllStructured(w)
    ensures MapSum(Step(w, i).distributions, PaidBy(n)) == MapSum(w.distributions, PaidBy(n)) + PaidForDebt(w, i, n)
    ensures MapSum(Step(w, i).distributions, OffFor(n)) == MapSum(w.distributions, OffFor(n)) + WrittenOffFor(w, i, n)
  {
    hide Structured, SetsOf, Step, Effect, PaidBy, OffFor;
    var ds, es := w.distributions, Step(w, i).distributions;
    forall e | e in ds || e in es
      ensures e in es
      ensures e !in ds ==> PaidBy(n)(es[e]) == 0 && OffFor(n)(es[e]) == 0
    {
      if e in ds {
        ValidatorStepAt(w, i, e, n);
      } else {
        BornEmpty(w, i, e);
        BornDebtless(es[e], n);
      }
    }
    var mine := i.PayDebt? || i.WriteOff?;
    var e0 := if mine then i.epoch else 0;
    var paid, off := PaidForDebt(w, i, n), WrittenOffFor(w, i, n);
    SettlementsOnly(w, i, n);
    forall e | e in ds
      ensures PaidBy(n)(es[e]) == PaidBy(n)(ds[e]) + if e == e0 then paid else 0
      ensures OffFor(n)(es[e]) == OffFor(n)(ds[e]) + if e == e0 then off else 0
    {
      ValidatorStepAt(w, i, e, n);
    }
    SumAcross(ds, es, PaidBy(n), e0, paid);
    SumAcross(ds, es, OffFor(n), e0, off);
  }

  lemma SettlementsOnly(w: World, i: Instruction, n: nat)
    ensures !(i.PayDebt? || i.WriteOff?) || Effect(w, i).None? || i.epoch !in w.distributions ==>
      PaidForDebt(w, i, n) == 0 && WrittenOffFor(w, i, n) == 0
  {
    hide Effect;
    if (i.PayDebt? || i.WriteOff?) && Effect(w, i).Some? {
      SettledLeaf(w, i);
    }
  }

  function TotalWrittenOffFor(w: World, run: seq<Instruction>, n: nat): nat {
    if run == [] then 0
    else
      var before := run[..|run| - 1];
      TotalWrittenOffFor(w, before, n) + WrittenOffFor(Run(w, before), run[|run| - 1], n)
  }

  /**
   * In any run from genesis, fitting or not, what a validator's deposit paid is exactly the amounts of
   * its own leaves that are marked as paid, in whatever epochs; and so for what was written off for it.
   */
  lemma {:induction false} ValidatorsPayTheirOwn(w: World, run: seq<Instruction>, n: nat)
    requires Genesis(w)
    ensures TotalPaid(w, run, n) == MapSum(Run(w, run).distributions, PaidBy(n))
    ensures TotalWrittenOffFor(w, run, n) == MapSum(Run(w, run).distributions, OffFor(n))
  {
    hide AllStructured, Step, PaidBy, OffFor, PaidForDebt, WrittenOffFor;
    if run == [] {
      assert w.distributions == map[];
    } else {
      var before := run[..|run| - 1];
      ValidatorsPayTheirOwn(w, before, n);
      GenesisStructured(w);
      StructureRun(w, before);
      ValidatorStep(Run(w, before), run[|run| - 1], n);
    }
  }

  // ---------------------------------------------------------------- the deposit's own record

  function OffAt(w: World, n: nat): int {
    if n in w.deposits then w.deposits[n].data.writtenOff else 0
  }

  lemma SendingKeepsOff(w: World, i: Instruction, n: nat)
    requires Sends(i) && Effect(w, i).Some?
    ensures OffAt(Step(w, i), n) == OffAt(w, n)
  {
    hide Send, Step, CanDistribute, RewardsPaid, CanWithdrawSol, Receiving, Payable;
    SendingIs(w, i);
    var (u, to, lamports) := BeforeSend(w, i);
    SendFrame(u, to, lamports);
  }

  lemma PreparingKeepsOff(w: World, i: Instruction, n: nat)
    requires Prepares(i) && Effect(w, i).Some?
    ensures OffAt(Step(w, i), n) == OffAt(w, n)
  {
    hide Step, Effect, Prepared, CanReplace;
    PreparationIs(w, i);
  }

  lemma SettlingOff(w: World, i: Instruction, n: nat)
    requires (i.PayDebt? || i.WriteOff?) && StepFits(w, i)
    ensures OffAt(Step(w, i), n) == OffAt(w, n) + WrittenOffFor(w, i, n)
  {
    hide CanPay, Paid, MovedOff, CanMoveOff, MinimumBalance;
  }

  lemma OthersKeepOff(w: World, i: Instruction, n: nat)
    requires !Sends(i) && !Prepares(i) && !i.PayDebt? && !i.WriteOff? && Effect(w, i).Some?
    ensures OffAt(Step(w, i), n) == OffAt(w, n)
  {
    hide NewSetting, ValidRecipients, Padded, CreatedLamports, CanRegister, NewDistribution, InitializationAllowed,
      AfterInitialization, Swept, CanSweepTokens, NetDebt;
  }

  lemma DepositOffStep(w: World, i: Instruction, n: nat)
    requires StepFits(w, i)
    ensures OffAt(Step(w, i), n) == OffAt(w, n) + WrittenOffFor(w, i, n)
  {
    hide Step, Effect, OffAt, StepFits;
    if Effect(w, i).None? {
      FailureChangesNothing(w, i);
      SettlementsOnly(w, i, n);
    } else if i.PayDebt? || i.WriteOff? {
      SettlingOff(w, i, n);
    } else {
      SettlementsOnly(w, i, n);
      if Sends(i) {
        SendingKeepsOff(w, i, n);
      } else if Prepares(i) {
        PreparingKeepsOff(w, i, n);
      } else {
        OthersKeepOff(w, i, n);
      }
    }
  }

  /** In runs that fit, the deposit's written-off debt is exactly the amounts of its own written-off leaves. */
  lemma {:induction false} DepositsOweTheirOwn(w: World, run: seq<Instruction>, n: nat)
    requires Genesis(w) && RunFits(w, run)
    ensures OffAt(Run(w, run), n) == TotalWrittenOffFor(w, run, n) == MapSum(Run(w, run).distributions, OffFor(n))
  {
    hide Step, OffAt, StepFits, WrittenOffFor, OffFor;
    ValidatorsPayTheirOwn(w, run, n);
    if run == [] {
      NoDeposits(w, n);
    } else {
      var before := run[..|run| - 1];
      DepositsOweTheirOwn(w, before, n);
      DepositOffStep(Run(w, before), run[|run| - 1], n);
    }
  }

  lemma NoDeposits(w: World, n: nat)
    requires Genesis(w)
    ensures OffAt(w, n) == 0
  {}
}
