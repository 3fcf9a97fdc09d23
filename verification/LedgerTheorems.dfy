/** Lifecycle, order, gates and double entry in every reachable world. */
module LedgerTheorems {
  import opened Units
  import opened Sums
  import opened Bitmaps
  import opened Accounts
  import opened Distributions
  import opened DistributionInvariants
  import opened World
  import opened WorldInvariants
  import opened Runs
  import opened DebtTheorems
  import opened RunTheorems

  // ---------------------------------------------------------------- lifecycle and order

  /** Each stage was reached through the ones before it, and the net debt never underflows. */
  lemma LifecycleSafe(w: World, e: nat)
    requires Reachable(w) && e in w.distributions
    ensures var d := w.distributions[e].data;
      && (d.distributedCount > 0 ==> d.swept)
      && (d.swept ==> d.rewardsFinalized)
      && (d.rewardsFinalized ==> d.debtFinalized)
      && (d.writeOffEnabled ==> d.debtFinalized)
      && NetDebt(d).Some?
  {
    hide Balanced, Ledgers, Layout;
    ReachableInv(w);
  }

  /** Whatever was final stays as it was, and the bitmaps only grow. */
  lemma FinalStaysFinal(w: World, run: seq<Instruction>, e: nat)
    requires Reachable(w) && RunFits(w, run) && e in w.distributions
    ensures var v := Run(w, run);
      && e in v.distributions
      && DataEvolves(w.distributions[e].data, v.distributions[e].data)
      && Within(SetsOf(w.distributions[e]), SetsOf(v.distributions[e]))
  {
    hide DistributionOk, DataEvolves, Within;
    LaterSelf(w, run, e);
  }

  /** Distributions exist for exactly the epochs gone by; exactly the first of them are swept. */
  lemma EpochsInOrder(w: World)
    requires Reachable(w)
    ensures var next, sweep := w.config.nextEpoch, w.journal.data.nextSweepEpoch;
      && (forall e: nat :: e in w.distributions <==> e < next)
      && (forall e: nat :: e in w.distributions ==> (w.distributions[e].data.swept <==> e < sweep))
      && sweep <= next
      && next < U64_MAX
  {
    hide DistributionOk, Balanced;
    ReachableInv(w);
  }

  /** Community burn rates never fall with the epoch and never exceed the limit in force. */
  lemma BurnRatesRise(w: World, d: nat, e: nat)
    requires Reachable(w) && d in w.distributions && e in w.distributions && d <= e
    ensures var p := w.config.burnParams;
      && w.distributions[d].data.communityBurnRate <= w.distributions[e].data.communityBurnRate <= p.next <= p.limit
      && p.toIncreasing <= p.toLimit
  {
    hide DistributionOk, Balanced;
    ReachableInv(w);
  }

  // ---------------------------------------------------------------- bitmaps and counters

  /** All three slices are in bounds and share no byte, and each counter is the size of its set. */
  lemma BitmapsAndCounters(w: World, e: nat)
    requires Reachable(w) && e in w.distributions
    ensures var a := w.distributions[e];
      var d, s := a.data, SetsOf(a);
      && d.debtStart <= d.debtEnd <= |a.remaining|
      && d.writeOffStart <= d.writeOffEnd <= |a.remaining|
      && d.rewardsStart <= d.rewardsEnd <= |a.remaining|
      && Apart(d.debtStart, d.debtEnd, d.writeOffStart, d.writeOffEnd)
      && Apart(d.debtStart, d.debtEnd, d.rewardsStart, d.rewardsEnd)
      && Apart(d.writeOffStart, d.writeOffEnd, d.rewardsStart, d.rewardsEnd)
      && |s.processed| == d.paymentsCount + d.writeOffCount
      && |s.writtenOff| == d.writeOffCount
      && s.writtenOff <= s.processed
      && |s.rewarded| == d.distributedCount
      && (d.rewardsFinalized ==> d.distributedCount <= d.totalContributors)
  {
    hide Balanced, SetsOf, Payments, PoolLedger;
    ReachableInv(w);
    RangesDisjoint(w.distributions[e]);
  }

  // ---------------------------------------------------------------- write-offs

  /** Double entry: charged debt, deposits' written-off debt and the leaves under write-off bits agree. */
  lemma WriteOffDoubleEntry(w: World, k: nat)
    requires Reachable(w)
    ensures MapSum(w.distributions, UncollectibleOf) == MapSum(w.distributions, WrittenOffOf)
    ensures MapSum(w.deposits, DepositWrittenOff) == MapSum(w.distributions, WrittenOffOf)
    ensures MapSum(Below(w.distributions, k), UncollectibleOf) <= MapSum(Below(w.distributions, k), WrittenOffOf)
  {
    hide DistributionOk, WrittenOffOf;
    ReachableInv(w);
  }

  // ---------------------------------------------------------------- integrations

  /** The count gate is the set gate; past 512 integrations it can never open. */
  lemma GateIsExact(d: Distribution)
    requires Integrations(d)
    ensures AllIntegrationsCollected(d) <==>
              forall i: nat :: i < d.integrationsSnapshot ==> i in d.collectedIntegrations
    ensures d.integrationsSnapshot > INTEGRATION_BITS ==> !AllIntegrationsCollected(d)
  {
    SetBelow(d.collectedIntegrations, INTEGRATION_BITS);
    SetBelow(d.collectedIntegrations, d.integrationsSnapshot);
    if AllIntegrationsCollected(d) {
      FullSet(d.collectedIntegrations, d.integrationsSnapshot);
    } else if forall i: nat :: i < d.integrationsSnapshot ==> i in d.collectedIntegrations {
      AllBelow(d.collectedIntegrations, d.integrationsSnapshot);
      assert false;
    }
  }

  /** Rewards open exactly when every program registered before the distribution has been collected from. */
  lemma IntegrationGate(w: World, e: nat)
    requires Reachable(w) && e in w.distributions
    ensures var d := w.distributions[e].data;
      AllIntegrationsCollected(d) <==> AllCollectedFrom(w.integrations, d)
  {
    hide Balanced, Ledgers, Layout, RelayReserve, Lifecycle, AllIntegrationsCollected, AllCollectedFrom;
    ReachableInv(w);
    RegistryGate(w.integrations, w.journal.data.integrationsCount, w.distributions[e].data);
  }

  ghost predicate AllCollectedFrom(indices: map<nat, u16>, d: Distribution) {
    forall p :: p in indices && indices[p] < d.integrationsSnapshot ==> indices[p] as nat in d.collectedIntegrations
  }

  lemma RegistryGate(indices: map<nat, u16>, n: nat, d: Distribution)
    requires Registry(indices, n) && Integrations(d) && d.integrationsSnapshot <= n
    ensures AllIntegrationsCollected(d) <==> AllCollectedFrom(indices, d)
  {
    hide AllIntegrationsCollected;
    GateIsExact(d);
    if AllCollectedFrom(indices, d) {
      forall i: nat | i < d.integrationsSnapshot
        ensures i in d.collectedIntegrations
      {
        OneOwner(indices, n, i);
      }
    }
  }

  /** Every index below the count belongs to exactly one registered program. */
  lemma OneOwner(indices: map<nat, u16>, n: nat, i: u16)
    requires Registry(indices, n) && i < n
    ensures exists p :: p in indices && indices[p] == i && forall q :: q in indices && indices[q] == i ==> q == p
  {
    assert i in indices.Values;
    var p :| p in indices && indices[p] == i;
  }

  // ---------------------------------------------------------------- 2Z and lamports

  /** Every 2Z ever swapped is still tracked or was swept into a distribution; the destination holds what is tracked. */
  lemma SwapLedgerHolds(w: World)
    requires Reachable(w)
    ensures var j := w.journal.data;
      && j.lifetimeSwapped2z == j.swap2zBalance + MapSum(w.distributions, ConvertedOf)
      && j.swap2zBalance <= w.swapTokens
  {
    hide DistributionOk, Orderly;
    ReachableInv(w);
  }

  /** No run makes or loses a lamport, or makes any 2Z. */
  lemma SupplyConserved(w: World, run: seq<Instruction>)
    requires Reachable(w) && RunFits(w, run)
    ensures Lamports(Run(w, run)) == Lamports(w) && Tokens(Run(w, run)) <= Tokens(w)
  {
    hide DistributionOk, Inv, Reachable, Later;
    ReachableInv(w);
    RunKeepsInv(w, run);
  }

  // ---------------------------------------------------------------- the relayers' reserve

  /** Unless write-off was enabled late, every relayer still to come can be paid on top of rent. */
  lemma RelayersCovered(w: World, e: nat)
    requires Reachable(w) && e in w.distributions
    requires w.distributions[e].data.rewardsFinalized && !EnabledLate(w.distributions[e].data)
    ensures AllRelayersCovered(w.distributions[e])
  {
    hide Inv, DistributionOk, EnabledLate, AllRelayersCovered;
    ReachableInv(w);
    InOrder(w, e);
    ReserveOf(w.distributions[e]);
    ReserveCovers(w.distributions[e]);
  }

  /** On top of rent there is enough for all rewards still to come, and so for the next. */
  ghost predicate AllRelayersCovered(a: DistributionState) {
    var left := a.data.totalContributors - a.data.distributedCount;
    && MinimumBalance(DataLen(a)) + a.data.relayLamports * left <= a.lamports
    && (left > 0 ==> MinimumBalance(DataLen(a)) + a.data.relayLamports <= a.lamports)
  }

  lemma ReserveCovers(a: DistributionState)
    requires Reserved(a) && a.data.rewardsFinalized
    ensures AllRelayersCovered(a)
  {
    hide MinimumBalance;
    var left := a.data.totalContributors - a.data.distributedCount;
    if left > 0 {
      MulMonotone(1, left, a.data.relayLamports);
    }
  }

  lemma ReserveOf(a: DistributionState)
    requires DistributionOk(a) && !EnabledLate(a.data)
    ensures Reserved(a)
  {
    hide Lifecycle, Layout, Integrations, Ledgers, EnabledLate, Reserved;
  }

  /** Write-off enabled before the rewards are final is never late. */
  lemma EarlyIsNeverLate(w: World, run: seq<Instruction>, e: nat)
    requires Reachable(w) && RunFits(w, run) && e in w.distributions
    requires w.distributions[e].data.writeOffEnabled && !w.distributions[e].data.rewardsFinalized
    ensures var v := Run(w, run); e in v.distributions && !EnabledLate(v.distributions[e].data)
  {
    hide Ledgers, Integrations, RelayReserve, Within, SetsOf;
    LaterSelf(w, run, e);
  }

  /** What the account must hold before write-off is enabled late: the new rent on top of the reserve. */
  predicate ReserveSpared(a: DistributionState) {
    RelayDue(a.data) == 0
    || MinimumBalance(DataLen(a) + BytesFor(a.data.totalValidators)) + RelayDue(a.data) <= a.lamports
  }

  /** Enabled late, the top-up counts the reserve toward the new rent. */
  lemma LateReserveExactly(a: DistributionState, c: ProgramConfig)
    requires DistributionOk(a) && a.data.rewardsFinalized && CanEnableWriteOff(c, a.data)
    ensures Reserved(WithWriteOffEnabled(a)) <==> ReserveSpared(a)
  {
    hide Lifecycle, Integrations, RelayReserve, Payments, PoolLedger, MinimumBalance, RelayDue, SetsOf;
    EnableWriteOffLayout(a, c);
    DueNonNegative(a.data);
    SameDue(a.data, WithWriteOffEnabled(a).data);
  }

  /** Once write-off is enabled, a reserve that is there stays there in every run. */
  lemma ReserveLasts(w: World, run: seq<Instruction>, e: nat)
    requires Reachable(w) && RunFits(w, run) && e in w.distributions
    requires w.distributions[e].data.writeOffEnabled && Reserved(w.distributions[e])
    ensures var v := Run(w, run); e in v.distributions && Reserved(v.distributions[e])
  {
    hide Reachable, DistributionOk, DataEvolves, Within, Reserved;
    LaterSelf(w, run, e);
  }

  /** Write-off enabled after the rewards are final spares the relayers in every run exactly under that condition. */
  lemma LateEnablingExactly(w: World, e: nat)
    requires Reachable(w) && Effect(w, EnableWriteOff(e)).Some? && w.distributions[e].data.rewardsFinalized
    ensures var u := Step(w, EnableWriteOff(e));
      (forall run :: RunFits(u, run) ==> e in Run(u, run).distributions && Reserved(Run(u, run).distributions[e]))
      <==> ReserveSpared(w.distributions[e])
  {
    hide Reachable, Inv, DistributionOk, Reserved, ReserveSpared, WithWriteOffEnabled;
    var i := EnableWriteOff(e);
    var u := Step(w, i);
    ReachableInv(w);
    InOrder(w, e);
    ReachableStep(w, i);
    LateReserveExactly(w.distributions[e], w.config);
    EnabledNow(w.distributions[e]);
    if ReserveSpared(w.distributions[e]) {
      forall run | RunFits(u, run)
        ensures e in Run(u, run).distributions && Reserved(Run(u, run).distributions[e])
      {
        ReserveLasts(u, run, e);
      }
    } else {
      var none: seq<Instruction> := [];
      assert RunFits(u, none) && Run(u, none) == u;
      assert !Reserved(Run(u, none).distributions[e]);
      assert !(forall run :: RunFits(u, run) ==>
                 e in Run(u, run).distributions && Reserved(Run(u, run).distributions[e]));
    }
  }

  lemma EnabledNow(a: DistributionState)
    ensures WithWriteOffEnabled(a).data.writeOffEnabled
  {}

  lemma DueNonNegative(d: Distribution)
    requires d.distributedCount <= d.totalContributors
    ensures 0 <= RelayDue(d)
  {
    MulNonNegative(d.relayLamports, d.totalContributors - d.distributedCount);
  }

  lemma SameDue(d: Distribution, e: Distribution)
    requires d.rewardsFinalized == e.rewardsFinalized && d.relayLamports == e.relayLamports
    requires d.totalContributors == e.totalContributors && d.distributedCount == e.distributedCount
    ensures RelayDue(d) == RelayDue(e)
  {}
}
