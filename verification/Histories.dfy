/** What the accounts say is what the instructions of the run did: totals over whole runs. */
module Histories {
  import opened Units
  import opened Bitmaps
  import opened BurnRates
  import opened Rewards
  import opened Accounts
  import opened Distributions
  import opened DistributionInvariants
  import opened World
  import opened WorldInvariants
  import opened Runs
  import opened Frames

  /** The sum of what each step of a run contributes. */
  function Total(w: World, run: seq<Instruction>, entry: (World, Instruction) -> int): int {
    if run == [] then 0
    else
      var before := run[..|run| - 1];
      Total(w, before, entry) + entry(Run(w, before), run[|run| - 1])
  }

  // ---------------------------------------------------------------- the books of one epoch

  /** Payments collected, debt written off here, debt charged here, 2Z of the pool, 2Z beyond what is owed. */
  datatype Books = Books(collected: int, writtenOff: int, charged: int, pool: int, gifts: int) {
    function Plus(b: Books): Books {
      Books(collected + b.collected, writtenOff + b.writtenOff, charged + b.charged, pool + b.pool, gifts + b.gifts)
    }
  }

  lemma PlusNothing(b: Books)
    ensures NO_BOOKS.Plus(b) == b == b.Plus(NO_BOOKS)
  {}

  const NO_BOOKS: Books := Books(0, 0, 0, 0, 0)

  ghost function BooksOf(a: DistributionState): Books {
    Books(a.data.collectedPayments, WrittenOffOf(a), a.data.uncollectibleDebt, TotalCollected(a.data).GetOr(0),
          a.tokens + a.data.distributed2z + a.data.burned2z - TotalCollected(a.data).GetOr(0))
  }

  ghost function BooksAt(w: World, e: nat): Books {
    if e in w.distributions then BooksOf(w.distributions[e]) else NO_BOOKS
  }

  /** 2Z that left the journal's account when the epoch began, or the swap destination when it was swept. */
  function Moved2z(w: World, i: Instruction, e: nat): int {
    match i
    case InitializeDistribution(_, _) => if w.config.nextEpoch == e then w.journalAta - Step(w, i).journalAta else 0
    case Sweep(x, _, _) => if x == e then w.swapTokens - Step(w, i).swapTokens else 0
    case CollectIntegration(x, _, amount) => if x == e then amount else 0
    case _ => 0
  }

  /** What an instruction enters in the books of an epoch, read off its arguments and the balances it moves. */
  function EntryOf(w: World, i: Instruction, e: nat): Books {
    if Effect(w, i).None? then NO_BOOKS
    else
      match i
      case PayDebt(x, _, amount, _) => if x == e then NO_BOOKS.(collected := amount) else NO_BOOKS
      case WriteOff(x, _, target, amount, _) =>
        NO_BOOKS.(writtenOff := if x == e then amount else 0, charged := if target == e then amount else 0)
      case Send2z(to, tokens) =>
        if to == TokensOfDistribution(e) && e in w.distributions then NO_BOOKS.(gifts := tokens) else NO_BOOKS
      case _ => NO_BOOKS.(pool := Moved2z(w, i, e))
  }

  lemma AlikeBooks(a: DistributionState, b: DistributionState)
    requires Alike(a, b)
    ensures BooksOf(a) == BooksOf(b)
  {}

  lemma PayBooks(a: DistributionState, proof: MerkleProof, leaf: DebtLeaf)
    requires DistributionOk(a) && CanPay(a, proof, leaf) && a.data.collectedPayments + leaf.amount < TWO_64
    ensures BooksOf(Paid(a, proof.leafIndex.value, leaf.amount)) == BooksOf(a).Plus(NO_BOOKS.(collected := leaf.amount))
  {
    hide DistributionOk, CanPay, WrittenOffOf;
    PayEntries(a, proof, leaf);
  }

  lemma OffBooks(a: DistributionState, proof: MerkleProof, leaf: DebtLeaf)
    requires DistributionOk(a) && CanWriteOffFrom(a, proof, leaf)
    ensures BooksOf(WrittenOffFrom(a, proof, leaf)) == BooksOf(a).Plus(NO_BOOKS.(writtenOff := leaf.amount))
  {
    hide DistributionOk, CanWriteOffFrom, WrittenOffOf;
    WriteOffEntries(a, proof, leaf);
  }

  lemma ChargeBooks(a: DistributionState, amount: u64)
    requires a.data.uncollectibleDebt + amount < TWO_64
    ensures BooksOf(Charged(a, amount)) == BooksOf(a).Plus(NO_BOOKS.(charged := amount))
  {
    ChargedSets(a, amount);
    hide WrittenOffOf;
  }

  lemma PreparedBooks(a: DistributionState, b: DistributionState)
    requires Steady(a, b) && SamePool(a, b)
    ensures BooksOf(b) == BooksOf(a)
  {
    hide WrittenOffOf;
  }

  lemma CollectBooks(a: DistributionState, index: u16, amount: nat)
    requires DistributionOk(a) && CanCollect(a.data, index) && CollectionFits(a.data, amount)
    requires a.tokens + amount < TWO_64
    ensures BooksOf(Collected(a, index, amount)) == BooksOf(a).Plus(NO_BOOKS.(pool := amount))
  {
    hide Steady, WrittenOffOf, Shape, Ledgers;
    CollectKeeps(a, index, amount);
    SteadyOff(a, Collected(a, index, amount));
    PoolFits(a);
    PoolFits(Collected(a, index, amount));
  }

  lemma SteadyOff(a: DistributionState, b: DistributionState)
    requires Steady(a, b)
    ensures WrittenOffOf(b) == WrittenOffOf(a)
  {}

  lemma PoolFits(a: DistributionState)
    requires DistributionOk(a)
    ensures Pool(a.data) < TWO_64
  {}

  lemma SweepBooks(a: DistributionState, next: u64, returned2z: u64)
    requires DistributionOk(a) && CanSweep(a.data, next) && a.tokens + returned2z < TWO_64
    ensures BooksOf(Swept(a, returned2z))
         == BooksOf(a).Plus(NO_BOOKS.(pool := if NetDebt(a.data) == Some(0) then 0 else returned2z))
  {
    hide WrittenOffOf, Shape, Ledgers, Evolves;
    SweepEntries(a, next, returned2z);
    PoolFits(a);
    PoolFits(Swept(a, returned2z));
  }

  lemma RewardBooks(a: DistributionState, proof: MerkleProof, claim: Claim, recipients: seq<RecipientShare>)
    requires DistributionOk(a) && RecipientsWellformed(recipients) && CanDistribute(a, proof, claim, recipients)
    requires RewardFits(a.data, claim, recipients)
    ensures BooksOf(RewardsPaid(a, proof.leafIndex.value, claim, recipients)) == BooksOf(a)
  {
    hide WrittenOffOf, DistributionOk, Keeps, Steady, Burned, CanMark, VerifiesShare;
    RewardKeeps(a, proof, claim, recipients);
    SteadyOff(a, RewardsPaid(a, proof.leafIndex.value, claim, recipients));
    RewardSplitsExactly(Pool(a.data), claim.unitShare, EffectiveBurnRate(a.data, claim.economicBurnRate),
                        Active(recipients));
  }

  // ---------------------------------------------------------------- one step in the books

  lemma PreparingBooks(w: World, i: Instruction)
    requires Inv(w) && Effect(w, i).Some? && Prepares(i) && !i.CollectIntegration?
    ensures BooksOf(Prepared(w, i)) == BooksOf(w.distributions[i.epoch])
  {
    hide Inv, Steady, Keeps, BooksOf;
    PreparationKeeps(w, i);
    PreparedSame(w, i);
    PreparedBooks(w.distributions[i.epoch], Prepared(w, i));
  }

  predicate SamePool(a: DistributionState, b: DistributionState) {
    && b.tokens == a.tokens && Pool(b.data) == Pool(a.data)
    && b.data.distributed2z == a.data.distributed2z && b.data.burned2z == a.data.burned2z
  }

  lemma PreparedSame(w: World, i: Instruction)
    requires Effect(w, i).Some? && Prepares(i) && !i.CollectIntegration?
    ensures SamePool(w.distributions[i.epoch], Prepared(w, i))
  {
    hide CanFinalizeDebt, CanFinalizeRewards, CanEnableWriteOff, CanConfigureDebt, CanConfigureRewards, MinimumBalance;
  }

  lemma CollectionBooks(w: World, i: Instruction)
    requires Inv(w) && Effect(w, i).Some? && i.CollectIntegration?
    ensures BooksOf(Prepared(w, i)) == BooksOf(w.distributions[i.epoch]).Plus(NO_BOOKS.(pool := i.collected))
  {
    hide BooksOf, DistributionOk, Balanced, Keeps, Steady, CanCollect, Collected;
    CollectionKeeps(w, i);
    OkAt(w, i.epoch);
    CollectBooks(w.distributions[i.epoch], w.integrations[i.program], i.collected);
  }

  lemma PayEntry(w: World, e: nat, node: nat, amount: u64, proof: MerkleProof)
    requires Inv(w) && CanPayDebt(w, e, node, amount, proof) && StepFits(w, PayDebt(e, node, amount, proof))
    ensures BooksOf(Paid(w.distributions[e], proof.leafIndex.value, amount))
         == BooksOf(w.distributions[e]).Plus(NO_BOOKS.(collected := amount))
  {
    hide BooksOf, DistributionOk, Balanced, CanPay, Paid;
    OkAt(w, e);
    PayBooks(w.distributions[e], proof, DebtLeaf(node, amount));
  }

  lemma OffEntry(w: World, e: nat, node: nat, target: nat, amount: u64, proof: MerkleProof, x: nat)
    requires Inv(w) && CanWriteOffDebt(w, e, node, target, amount, proof) && x in w.distributions
    requires StepFits(w, WriteOff(e, node, target, amount, proof))
    ensures BooksOf(MovedOff(w.distributions, e, target, proof, DebtLeaf(node, amount))[x])
         == BooksOf(w.distributions[x]).Plus(
              NO_BOOKS.(writtenOff := if x == e then amount else 0, charged := if x == target then amount else 0))
  {
    hide BooksOf, DistributionOk, Balanced, CanWriteOffFrom, WrittenOffFrom, CanCharge, Charged, Excess;
    var ds, leaf := w.distributions, DebtLeaf(node, amount);
    OkAt(w, e);
    OffBooks(ds[e], proof, leaf);
    OffKeepsDebt(ds[e], proof, leaf);
    if x == target {
      ChargeBooks(AfterSource(ds, e, proof, leaf)[x], amount);
    }
  }

  lemma OffKeepsDebt(a: DistributionState, proof: MerkleProof, leaf: DebtLeaf)
    requires CanWriteOffFrom(a, proof, leaf)
    ensures WrittenOffFrom(a, proof, leaf).data.uncollectibleDebt == a.data.uncollectibleDebt
  {}

  lemma SweepEntry(w: World, e: nat, returnedSol: u64, returned2z: u64)
    requires Inv(w) && CanSweepTokens(w, e, returnedSol, returned2z)
    ensures BooksOf(Swept(w.distributions[e], returned2z))
         == BooksOf(w.distributions[e]).Plus(NO_BOOKS.(pool := w.swapTokens - TokensSwept(w, e, returned2z).swapTokens))
  {
    hide BooksOf, DistributionsInOrder, Swept, SolLedger, SwapLedger, WriteOffLedger, ChargedForward;
    InOrder(w, e);
    WithinSupply(w);
    var a := w.distributions[e];
    if NetDebt(a.data) == Some(0) {
      SweepBooks(a, w.journal.data.nextSweepEpoch, 0);
      SweptNothing(a, returned2z);
    } else {
      SweepBooks(a, w.journal.data.nextSweepEpoch, returned2z);
    }
  }

  lemma SweptNothing(a: DistributionState, returned2z: u64)
    requires NetDebt(a.data) == Some(0)
    ensures Swept(a, returned2z) == Swept(a, 0)
  {}

  lemma RewardEntry(w: World, e: nat, proof: MerkleProof, claim: Claim, relayer: Address)
    requires Inv(w) && CanReward(w, e, proof, claim) && StepFits(w, DistributeRewards(e, proof, claim, relayer))
    ensures BooksOf(RewardsPaid(w.distributions[e], proof.leafIndex.value, claim, w.contributors[claim.contributor]))
         == BooksOf(w.distributions[e])
  {
    hide BooksOf, DistributionOk, Balanced, RewardFits, RewardsPaid;
    OkAt(w, e);
    RewardBooks(w.distributions[e], proof, claim, w.contributors[claim.contributor]);
  }

  lemma GiftBooks(a: DistributionState, tokens: nat)
    ensures BooksOf(a.(tokens := a.tokens + tokens)) == BooksOf(a).Plus(NO_BOOKS.(gifts := tokens))
  {
    hide DebtOf;
    assert SetsOf(a.(tokens := a.tokens + tokens)) == SetsOf(a);
  }

  /** The books of an epoch that exists. */
  lemma BooksAfter(w: World, i: Instruction, e: nat)
    requires Inv(w) && StepFits(w, i) && Effect(w, i).Some? && e in w.distributions
    ensures BooksOf(After(w, i, e)) == BooksOf(w.distributions[e]).Plus(EntryOf(w, i, e))
  {
    hide Inv, BooksOf, Prepared, CanReward, RewardsPaid, CanPayDebt, CanWriteOffDebt, MovedOff, CanSweepTokens, Paid,
      Swept, TokensSwept, CanInitializeDistribution, StepFits;
    if Prepares(i) {
      if i.CollectIntegration? {
        CollectionBooks(w, i);
      } else {
        PreparingBooks(w, i);
      }
    } else {
      match i
      case PayDebt(x, node, amount, proof) => PayEntry(w, x, node, amount, proof);
      case WriteOff(x, node, target, amount, proof) => OffEntry(w, x, node, target, amount, proof, e);
      case Sweep(x, returnedSol, returned2z) => SweepEntry(w, x, returnedSol, returned2z);
      case DistributeRewards(x, proof, claim, relayer) => RewardEntry(w, x, proof, claim, relayer);
      case Send2z(to, tokens) => GiftBooks(w.distributions[e], tokens);
      case _ => EntryElsewhere(w, i, e);
    }
  }

  /** Only its own beginning enters anything else in the books of an epoch. */
  lemma EntryElsewhere(w: World, i: Instruction, e: nat)
    requires Inv(w) && Effect(w, i).Some? && e in w.distributions
    requires !Prepares(i) && !i.PayDebt? && !i.WriteOff? && !i.Sweep? && !i.Send2z?
    ensures EntryOf(w, i, e) == NO_BOOKS
  {
    hide Balanced, DistributionOk, Step, CanReward;
  }

  lemma BirthBooks(w: World, now: int, prefunded: nat)
    requires CanInitializeDistribution(w, now, prefunded)
    ensures var v := WithNewDistribution(w, now, prefunded);
      BooksOf(v.distributions[w.config.nextEpoch]) == NO_BOOKS.(pool := w.journalAta - v.journalAta)
  {
    hide CreatedLamports, Computed, DebtOf;
    var a := WithNewDistribution(w, now, prefunded).distributions[w.config.nextEpoch];
    assert SetsOf(a) == NO_LEAVES;
    NoLeavesSum(a.data.debtRoot, 0);
  }

  lemma Birth(w: World, i: Instruction, e: nat)
    requires e !in w.distributions && i.InitializeDistribution? && Effect(w, i).Some? && e == w.config.nextEpoch
    ensures BooksAt(Step(w, i), e) == EntryOf(w, i, e)
  {
    hide BooksOf, WithNewDistribution, CanInitializeDistribution;
    BirthBooks(w, i.now, i.prefunded);
    BornThere(w, i.now, i.prefunded);
  }

  lemma BornThere(w: World, now: int, prefunded: nat)
    requires CanInitializeDistribution(w, now, prefunded)
    ensures w.config.nextEpoch in WithNewDistribution(w, now, prefunded).distributions
  {
    hide CreatedLamports, Computed;
  }

  /** An epoch that does not exist and does not begin has nothing to enter. */
  lemma NoEpochNoEntry(w: World, i: Instruction, e: nat)
    requires e !in w.distributions && (i.InitializeDistribution? ==> w.config.nextEpoch != e)
    ensures EntryOf(w, i, e) == NO_BOOKS
  {
    hide Step, CanSweep, CanPay, CanWriteOffFrom, CanCharge, CanCollect, CanReplace, CanInitializeDistribution;
  }

  lemma BooksStepThere(w: World, i: Instruction, e: nat)
    requires Inv(w) && StepFits(w, i) && Effect(w, i).Some? && e in w.distributions
    ensures e in Step(w, i).distributions
    ensures BooksOf(Step(w, i).distributions[e]) == BooksOf(w.distributions[e]).Plus(EntryOf(w, i, e))
  {
    hide Inv, BooksOf, After, StepFits, Effect, EntryOf, Alike, Step;
    AfterIs(w, i, e);
    AlikeBooks(Step(w, i).distributions[e], After(w, i, e));
    BooksAfter(w, i, e);
  }

  lemma NotBorn(w: World, i: Instruction, e: nat)
    requires e !in w.distributions && (i.InitializeDistribution? ==> w.config.nextEpoch != e)
    ensures e !in Step(w, i).distributions
  {
    hide Step, Effect;
    if e in Step(w, i).distributions {
      Born(w, i, e);
    }
  }

  lemma BooksStep(w: World, i: Instruction, e: nat)
    requires Inv(w) && StepFits(w, i)
    ensures BooksAt(Step(w, i), e) == BooksAt(w, e).Plus(EntryOf(w, i, e))
  {
    hide Inv, BooksOf, StepFits, Effect, EntryOf, Step, Books.Plus;
    PlusNothing(BooksAt(w, e));
    PlusNothing(EntryOf(w, i, e));
    if Effect(w, i).None? {
      NothingEntered(w, i, e);
    } else if e in w.distributions {
      BooksStepThere(w, i, e);
    } else if i.InitializeDistribution? && w.config.nextEpoch == e {
      Birth(w, i, e);
    } else {
      NoEpochNoEntry(w, i, e);
      NotBorn(w, i, e);
    }
  }

  lemma NothingEntered(w: World, i: Instruction, e: nat)
    requires Effect(w, i).None?
    ensures EntryOf(w, i, e) == NO_BOOKS && Step(w, i) == w
  {
    hide Effect;
  }

  function TotalEntries(w: World, run: seq<Instruction>, e: nat): Books {
    if run == [] then NO_BOOKS
    else
      var before := run[..|run| - 1];
      TotalEntries(w, before, e).Plus(EntryOf(Run(w, before), run[|run| - 1], e))
  }

  /**
   * Since genesis: an epoch collected what was paid in it, wrote off what was written off from it and is
   * charged what was written off against it; its pool is all 2Z that moved in for it, and what its token
   * account holds beyond the unpaid rest of the pool is what was sent there by plain transfers.
   */
  lemma {:induction false} BooksAreHistory(w: World, run: seq<Instruction>, e: nat)
    requires Genesis(w) && RunFits(w, run)
    ensures BooksAt(Run(w, run), e) == TotalEntries(w, run, e)
  {
    hide Inv, StepFits, Step, BooksAt, EntryOf;
    if run == [] {
      EmptyBooks(w, e);
    } else {
      var before := run[..|run| - 1];
      BooksAreHistory(w, before, e);
      GenesisInv(w);
      RunKeepsInv(w, before);
      BooksStep(Run(w, before), run[|run| - 1], e);
    }
  }

  lemma EmptyBooks(w: World, e: nat)
    requires Genesis(w)
    ensures BooksAt(w, e) == NO_BOOKS
  {}
}
