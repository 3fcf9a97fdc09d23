/** What has to wait for what: the accountants' grace period, the spacing of epochs, the write-off feature. */
module Timing {
  import opened Units
  import opened Sums
  import opened BurnRates
  import opened Accounts
  import opened Distributions
  import opened DistributionInvariants
  import opened World
  import opened WorldInvariants
  import opened Runs
  import opened Frames
  import opened Structure
  import opened RunTheorems
  import opened BurnRateRuns

  // ---------------------------------------------------------------- a distribution is born

  /** What a new distribution records of the configuration, the journal and the clock. */
  lemma BornWith(w: World, now: int, prefunded: nat)
    requires Inv(w) && Effect(w, InitializeDistribution(now, prefunded)).Some?
    ensures var v, e := Step(w, InitializeDistribution(now, prefunded)), w.config.nextEpoch;
      && e !in w.distributions && e in v.distributions
      && var a := v.distributions[e];
         && a.data.dzEpoch == e && a.data.fees == w.config.fees && a.data.relayLamports == w.config.relayLamports
         && a.data.calculationAllowedTimestamp == now + 60 * w.config.calculationGraceMinutes
         && a.data.integrationsSnapshot == w.journal.data.integrationsCount
         && a.data.communityBurnRate == w.config.burnParams.next
         && !a.data.debtFinalized && !a.data.rewardsFinalized && !a.data.writeOffEnabled && !a.data.swept
         && a.data.totalDebt == a.data.totalValidators == a.data.totalContributors == 0
         && a.remaining == [] && a.tokens == w.journalAta && v.journalAta == 0
         && a.lamports == Max(prefunded, MinimumBalance(DISTRIBUTION_DATA_END))
    ensures var v := Step(w, InitializeDistribution(now, prefunded));
      v.config.lastTimestamp == now && v.config.nextEpoch == w.config.nextEpoch + 1
  {
    hide DistributionOk, Balanced, Computed, MinimumBalance;
    EpochsFit(w, now);
  }

  predicate Calculates(i: Instruction, e: nat, now: int) {
    match i
    case ConfigureDebt(x, t, _, _, _) => x == e && t == now
    case FinalizeDebt(x, t) => x == e && t == now
    case ConfigureRewards(x, t, _, _) => x == e && t == now
    case FinalizeRewards(x, t) => x == e && t == now
    case _ => false
  }

  lemma CalculationNeedsTime(w: World, i: Instruction, e: nat, now: int)
    requires Calculates(i, e, now) && Effect(w, i).Some?
    ensures e in w.distributions && w.distributions[e].data.calculationAllowedTimestamp <= now
  {
    hide CanReplace, NothingOwed, NetDebt;
  }

  /** Nobody sets or finalizes debt or rewards of an epoch before the grace period that began with it is over. */
  lemma CalculationWaits(w: World, t0: int, prefunded: nat, run: seq<Instruction>, i: Instruction, now: int)
    requires Reachable(w) && Effect(w, InitializeDistribution(t0, prefunded)).Some?
    requires var u := Step(w, InitializeDistribution(t0, prefunded));
      RunFits(u, run) && Calculates(i, w.config.nextEpoch, now) && Effect(Run(u, run), i).Some?
    ensures t0 + 60 * w.config.calculationGraceMinutes <= now
  {
    hide Reachable, Effect, Step, RunFits, Inv, DistributionOk, SetsOf;
    var j := InitializeDistribution(t0, prefunded);
    var u := Step(w, j);
    ReachableInv(w);
    BornWith(w, t0, prefunded);
    AlwaysFits(w, j);
    ReachableStep(w, j);
    LaterSelf(u, run, w.config.nextEpoch);
    CalculationNeedsTime(Run(u, run), i, w.config.nextEpoch, now);
  }

  lemma AlwaysFits(w: World, i: Instruction)
    requires i.InitializeDistribution? || i.EnableWriteOff?
    ensures StepFits(w, i)
  {}

  // ---------------------------------------------------------------- the clock

  /** The recorded time of the last initialization never goes back. */
  lemma ClockStep(w: World, i: Instruction)
    ensures w.config.lastTimestamp <= Step(w, i).config.lastTimestamp
  {
    hide Effect, Step, Prepares, Sends;
    if Effect(w, i).None? {
      FailureChangesNothing(w, i);
    } else if Prepares(i) {
      PreparationKeepsConfig(w, i);
    } else if Sends(i) {
      SendingKeepsConfig(w, i);
    } else if i.Configure? || i.InitializeDistribution? {
      ConfigurationClock(w, i);
    } else {
      MovementKeepsConfig(w, i);
    }
  }

  lemma ConfigurationClock(w: World, i: Instruction)
    requires i.Configure? || i.InitializeDistribution?
    ensures w.config.lastTimestamp <= Step(w, i).config.lastTimestamp
  {
    hide CreatedLamports, NewDistribution;
  }

  lemma {:induction false} ClockRun(w: World, run: seq<Instruction>)
    ensures w.config.lastTimestamp <= Run(w, run).config.lastTimestamp
  {
    hide Step;
    if run != [] {
      ClockRun(w, run[..|run| - 1]);
      ClockStep(Run(w, run[..|run| - 1]), run[|run| - 1]);
    }
  }

  /** Two epochs begin at least the grace period in force at the second apart, in any run. */
  lemma EpochsAreSpaced(
    w: World, t0: int, prefunded: nat, run: seq<Instruction>, t1: int, prefunded': nat)
    requires Effect(w, InitializeDistribution(t0, prefunded)).Some?
    requires var v := Run(Step(w, InitializeDistribution(t0, prefunded)), run);
      Effect(v, InitializeDistribution(t1, prefunded')).Some?
    ensures var v := Run(Step(w, InitializeDistribution(t0, prefunded)), run);
      0 < v.config.initializationGraceMinutes && t0 + 60 * v.config.initializationGraceMinutes <= t1
  {
    hide Step, Run;
    var u := Step(w, InitializeDistribution(t0, prefunded));
    InitializationClock(w, t0, prefunded);
    ClockRun(u, run);
    InitializationClock(Run(u, run), t1, prefunded');
  }

  lemma InitializationClock(w: World, now: int, prefunded: nat)
    requires Effect(w, InitializeDistribution(now, prefunded)).Some?
    ensures Step(w, InitializeDistribution(now, prefunded)).config.lastTimestamp == now
    ensures 0 < w.config.initializationGraceMinutes
    ensures w.config.lastTimestamp + 60 * w.config.initializationGraceMinutes <= now
  {
    hide CreatedLamports, NewDistribution;
  }

  // ---------------------------------------------------------------- the write-off feature

  /** While the feature was never configured no distribution has write-off enabled. */
  ghost predicate Dormant(w: World) {
    w.config.writeOffActivationEpoch == 0 ==>
      forall e :: e in w.distributions ==> !w.distributions[e].data.writeOffEnabled
  }

  /** An activation epoch that was set is never unset. */
  lemma ActivationStays(w: World, i: Instruction)
    requires w.config.writeOffActivationEpoch != 0
    ensures Step(w, i).config.writeOffActivationEpoch != 0
  {
    hide Effect, Step, Prepares, Sends;
    if Effect(w, i).None? {
      FailureChangesNothing(w, i);
    } else if Prepares(i) {
      PreparationKeepsConfig(w, i);
    } else if Sends(i) {
      SendingKeepsConfig(w, i);
    } else if i.Configure? || i.InitializeDistribution? {
      ConfigurationActivation(w, i);
    } else {
      MovementKeepsConfig(w, i);
    }
  }

  lemma ConfigurationActivation(w: World, i: Instruction)
    requires (i.Configure? || i.InitializeDistribution?) && w.config.writeOffActivationEpoch != 0
    ensures Step(w, i).config.writeOffActivationEpoch != 0
  {
    hide CreatedLamports, NewDistribution, InitializationAllowed;
  }

  lemma EnablingNeedsFeature(w: World, i: Instruction, e: nat)
    requires Effect(w, i).Some? && e in w.distributions
    requires !w.distributions[e].data.writeOffEnabled && After(w, i, e).data.writeOffEnabled
    ensures w.config.writeOffActivationEpoch != 0
  {
    hide MinimumBalance;
  }

  lemma BornDisabled(w: World, i: Instruction, e: nat)
    requires e !in w.distributions && e in Step(w, i).distributions
    ensures !Step(w, i).distributions[e].data.writeOffEnabled
  {
    hide Step, Effect, SetsOf;
    BornEmpty(w, i, e);
    Born(w, i, e);
    NewIsDisabled(w, i.now, i.prefunded);
  }

  lemma NewIsDisabled(w: World, now: int, prefunded: nat)
    requires Effect(w, InitializeDistribution(now, prefunded)).Some?
    ensures var v := Step(w, InitializeDistribution(now, prefunded));
      w.config.nextEpoch in v.distributions && !v.distributions[w.config.nextEpoch].data.writeOffEnabled
  {
    hide CreatedLamports, InitializationAllowed, AfterInitialization;
  }

  lemma DormantStep(w: World, i: Instruction)
    requires Dormant(w)
    ensures Dormant(Step(w, i))
  {
    hide Step, Effect, After, Alike;
    var v := Step(w, i);
    if v.config.writeOffActivationEpoch == 0 {
      if w.config.writeOffActivationEpoch != 0 {
        ActivationStays(w, i);
      }
      forall e | e in v.distributions
        ensures !v.distributions[e].data.writeOffEnabled
      {
        if Effect(w, i).None? {
          FailureChangesNothing(w, i);
        } else if e in w.distributions {
          AfterIs(w, i, e);
          SameFlag(v.distributions[e], After(w, i, e));
          if After(w, i, e).data.writeOffEnabled {
            EnablingNeedsFeature(w, i, e);
          }
        } else {
          BornDisabled(w, i, e);
        }
      }
    }
  }

  lemma SameFlag(a: DistributionState, b: DistributionState)
    requires Alike(a, b)
    ensures a.data.writeOffEnabled == b.data.writeOffEnabled
  {}

  lemma {:induction false} DormantRun(w: World, run: seq<Instruction>)
    requires Genesis(w)
    ensures Dormant(Run(w, run))
  {
    hide Dormant, Step;
    if run == [] {
      NoneYet(w);
    } else {
      DormantRun(w, run[..|run| - 1]);
      DormantStep(Run(w, run[..|run| - 1]), run[|run| - 1]);
    }
  }

  lemma NoneYet(w: World)
    requires Genesis(w)
    ensures Dormant(w)
  {}

  lemma NothingOff(a: DistributionState)
    requires DistributionOk(a) && !a.data.writeOffEnabled
    ensures WrittenOffOf(a) == 0
  {
    hide DebtOf, Ledgers, Integrations, RelayReserve, Lifecycle;
    NoLeavesYet(a);
    NoLeavesSum(a.data.debtRoot, 0);
  }

  lemma AllZero(ds: Dists, f: DistributionState -> int)
    requires forall e :: e in ds ==> f(ds[e]) == 0
    ensures MapSum(ds, f) == 0
    decreases |ds|
  {
    if ds != map[] {
      var e :| e in ds;
      MapSumRemove(ds, e, f);
      AllZero(ds - {e}, f);
    }
  }

  /** Until the write-off feature is configured, no lamport of debt is written off or charged anywhere. */
  lemma NothingWrittenOffBefore(w: World, run: seq<Instruction>)
    requires Genesis(w) && RunFits(w, run) && Run(w, run).config.writeOffActivationEpoch == 0
    ensures var v := Run(w, run);
      && (forall e :: e in v.distributions ==> v.distributions[e].data.uncollectibleDebt == 0)
      && (forall n :: n in v.deposits ==> v.deposits[n].data.writtenOff == 0)
  {
    hide DistributionOk, WrittenOffOf, ChargedForward, RunFits, EpochOrder, SnapshotsBelow, BurnRateOrder;
    var v := Run(w, run);
    DormantRun(w, run);
    GenesisInv(w);
    RunKeepsInv(w, run);
    forall e | e in v.distributions
      ensures WrittenOffOf(v.distributions[e]) == 0
    {
      NothingOff(v.distributions[e]);
    }
    AllZero(v.distributions, WrittenOffOf);
    forall e | e in v.distributions
      ensures v.distributions[e].data.uncollectibleDebt == 0
    {
      MapSumAtLeast(v.distributions, e, UncollectibleOf);
    }
    forall n | n in v.deposits
      ensures v.deposits[n].data.writtenOff == 0
    {
      MapSumAtLeast(v.deposits, n, DepositWrittenOff);
    }
  }
}
