/** The closed form of the burn rate, read off the distributions of a run. */
module BurnRateRuns {
  import opened Units
  import opened BurnRates
  import opened Rewards
  import opened Accounts
  import opened Distributions
  import opened DistributionInvariants
  import opened World
  import opened WorldInvariants
  import opened Runs
  import opened Frames
  import opened RunTheorems

  predicate SetsBurnRate(i: Instruction) {
    i.Configure? && (i.setting.BurnRateUpdate? || i.setting.BurnRateInitial?)
  }

  /** No instruction of the run succeeds in setting the burn rate. */
  predicate Undisturbed(w: World, run: seq<Instruction>) {
    run == [] ||
    var before := run[..|run| - 1];
    Undisturbed(w, before) && (SetsBurnRate(run[|run| - 1]) ==> Effect(Run(w, before), run[|run| - 1]).None?)
  }

  lemma PreparationKeepsConfig(w: World, i: Instruction)
    requires Prepares(i)
    ensures Step(w, i).config == w.config
  {
    hide Effect, Step, Prepared, CanReplace;
    if Effect(w, i).None? {
      FailureChangesNothing(w, i);
    } else {
      PreparationIs(w, i);
    }
  }

  lemma SendingKeepsConfig(w: World, i: Instruction)
    requires Sends(i)
    ensures Step(w, i).config == w.config
  {
    hide Step, Send, CanDistribute, CanWithdrawSol, RewardsPaid, Receiving, Payable, Withdrawable;
    if Effect(w, i).None? {
      FailureChangesNothing(w, i);
    } else {
      SendingIs(w, i);
      var (u, to, lamports) := BeforeSend(w, i);
      SendFrame(u, to, lamports);
    }
  }

  lemma MovementKeepsConfig(w: World, i: Instruction)
    requires !Prepares(i) && !Sends(i) && !i.Configure? && !i.InitializeDistribution?
    ensures Step(w, i).config == w.config
  {
    hide Effect, Step;
    if Effect(w, i).None? {
      FailureChangesNothing(w, i);
    } else {
      MoveFrame(w, i);
    }
  }

  lemma SettingKeepsRates(w: World, i: Instruction)
    requires i.Configure? && !SetsBurnRate(i)
    ensures Step(w, i).config.burnParams == w.config.burnParams && Step(w, i).config.nextEpoch == w.config.nextEpoch
  {}

  /** Only a new distribution moves the burn rate and the epoch. */
  lemma OthersKeepRates(w: World, i: Instruction)
    requires !SetsBurnRate(i) && !i.InitializeDistribution?
    ensures Step(w, i).config.burnParams == w.config.burnParams && Step(w, i).config.nextEpoch == w.config.nextEpoch
  {
    hide Step, SetsBurnRate;
    if Prepares(i) {
      PreparationKeepsConfig(w, i);
    } else if Sends(i) {
      SendingKeepsConfig(w, i);
    } else if i.Configure? {
      SettingKeepsRates(w, i);
    } else {
      MovementKeepsConfig(w, i);
    }
  }

  /** A new distribution records the rate that was due and leaves the next computation behind. */
  lemma NewRate(w: World, now: int, prefunded: nat)
    requires Inv(w) && CanInitializeDistribution(w, now, prefunded)
    ensures var v := Step(w, InitializeDistribution(now, prefunded));
      && Computed(w.config.burnParams) == Some(v.config.burnParams)
      && v.config.nextEpoch == w.config.nextEpoch + 1
      && w.config.nextEpoch in v.distributions
      && v.distributions[w.config.nextEpoch].data.communityBurnRate == w.config.burnParams.next
  {
    hide Inv, Computed, NewDistribution;
    EpochsFit(w, now);
    NewDistributionRate(w.config, w.config.burnParams.next, now + w.config.calculationGraceMinutes * 60,
                        w.journal.data.integrationsCount, w.journalAta,
                        CreatedLamports(prefunded, 0, DISTRIBUTION_DATA_END));
  }

  lemma NewDistributionRate(
    c: ProgramConfig, rate: BurnRate, timestamp: u32, snapshot: u16, prepaid: u64, lamports: nat)
    ensures NewDistribution(c, rate, timestamp, snapshot, prepaid, lamports).data.communityBurnRate == rate
  {}

  /** The rates recorded from a given epoch on are those of the closed form, and so is the rate that is due. */
  ghost predicate Follow(w: World, first: nat, p: BurnParams, limit: BurnRate, inc: EpochDuration, lim: EpochDuration)
    requires CanUpdate(p, limit, inc, lim)
  {
    && first <= w.config.nextEpoch
    && ComputedTimes(Updated(p, limit, inc, lim), w.config.nextEpoch - first) == Some(w.config.burnParams)
    && forall e: nat :: first <= e < w.config.nextEpoch ==>
         && e in w.distributions
         && w.distributions[e].data.communityBurnRate == ClosedRate(p.next, limit, inc, lim, e - first)
  }

  /** A recorded rate stays recorded. */
  lemma RatesStay(w: World, v: World, e: nat)
    requires Follows(w, v) && e in w.distributions
    ensures e in v.distributions
    ensures v.distributions[e].data.communityBurnRate == w.distributions[e].data.communityBurnRate
  {
    hide Within, ReserveStays;
  }

  lemma FollowStep(
    w: World, i: Instruction, first: nat, p: BurnParams, limit: BurnRate, inc: EpochDuration, lim: EpochDuration)
    requires Inv(w) && StepFits(w, i) && (SetsBurnRate(i) ==> Effect(w, i).None?)
    requires p.next != 0 && CanUpdate(p, limit, inc, lim) && Follow(w, first, p, limit, inc, lim)
    ensures Follow(Step(w, i), first, p, limit, inc, lim)
  {
    hide Inv, StepFits, Follows, Effect, Computed, ClosedRate, Updated;
    var v := Step(w, i);
    var n := w.config.nextEpoch - first;
    StepKeepsInv(w, i);
    forall e: nat | first <= e < w.config.nextEpoch
      ensures e in v.distributions
      ensures v.distributions[e].data.communityBurnRate == ClosedRate(p.next, limit, inc, lim, e - first)
    {
      RatesStay(w, v, e);
    }
    if Effect(w, i).Some? {
      match i
      case InitializeDistribution(now, prefunded) =>
        InitializationSucceeds(w, now, prefunded);
        NewRate(w, now, prefunded);
        BurnRateClosedForm(p, limit, inc, lim, n);
        assert ComputedTimes(Updated(p, limit, inc, lim), n + 1) == Some(v.config.burnParams);
      case _ => OthersKeepRates(w, i);
    }
  }

  lemma InitializationSucceeds(w: World, now: int, prefunded: nat)
    requires Effect(w, InitializeDistribution(now, prefunded)).Some?
    ensures CanInitializeDistribution(w, now, prefunded)
  {}

  lemma {:induction false} FollowRun(
    w: World, run: seq<Instruction>, first: nat, p: BurnParams, limit: BurnRate, inc: EpochDuration, lim: EpochDuration)
    requires Inv(w) && RunFits(w, run) && Undisturbed(w, run)
    requires p.next != 0 && CanUpdate(p, limit, inc, lim) && Follow(w, first, p, limit, inc, lim)
    ensures Follow(Run(w, run), first, p, limit, inc, lim)
  {
    hide Inv, StepFits, Follow, Step, SetsBurnRate, Effect, Follows;
    if run != [] {
      var before := run[..|run| - 1];
      FollowRun(w, before, first, p, limit, inc, lim);
      RunKeepsInv(w, before);
      FollowStep(Run(w, before), run[|run| - 1], first, p, limit, inc, lim);
    }
  }

  /**
   * From parameters just updated, and not updated again, the k-th new distribution records the closed
   * form's k-th rate, whatever else happens in between.
   */
  lemma DistributionsFollowClosedForm(
    u: World, p: BurnParams, limit: BurnRate, inc: EpochDuration, lim: EpochDuration, run: seq<Instruction>, k: nat)
    requires Reachable(u) && p.next != 0 && CanUpdate(p, limit, inc, lim)
    requires u.config.burnParams == Updated(p, limit, inc, lim)
    requires RunFits(u, run) && Undisturbed(u, run) && u.config.nextEpoch + k < Run(u, run).config.nextEpoch
    ensures var v := Run(u, run);
      && u.config.nextEpoch + k in v.distributions
      && v.distributions[u.config.nextEpoch + k].data.communityBurnRate == ClosedRate(p.next, limit, inc, lim, k)
  {
    hide Inv, Reachable, RunFits, Undisturbed, Follow, ClosedRate, Updated, Run;
    ReachableInv(u);
    StartsToFollow(u, p, limit, inc, lim);
    FollowRun(u, run, u.config.nextEpoch, p, limit, inc, lim);
    FollowsAt(Run(u, run), u.config.nextEpoch, p, limit, inc, lim, k);
  }

  lemma StartsToFollow(u: World, p: BurnParams, limit: BurnRate, inc: EpochDuration, lim: EpochDuration)
    requires CanUpdate(p, limit, inc, lim) && u.config.burnParams == Updated(p, limit, inc, lim)
    ensures Follow(u, u.config.nextEpoch, p, limit, inc, lim)
  {}

  lemma FollowsAt(
    v: World, first: nat, p: BurnParams, limit: BurnRate, inc: EpochDuration, lim: EpochDuration, k: nat)
    requires CanUpdate(p, limit, inc, lim) && Follow(v, first, p, limit, inc, lim)
    requires first + k < v.config.nextEpoch
    ensures first + k in v.distributions
    ensures v.distributions[first + k].data.communityBurnRate == ClosedRate(p.next, limit, inc, lim, k)
  {
    hide ClosedRate, Updated, ComputedTimes;
  }

  /** A setting of the burn rate that succeeds leaves such parameters, from the rate in force or the initial one. */
  lemma SettingUpdates(w: World, setting: Setting)
    requires setting.BurnRateUpdate? || setting.BurnRateInitial?
    requires Reachable(w) && Effect(w, Configure(setting)).Some?
    ensures var u := Step(w, Configure(setting));
      var p := if setting.BurnRateInitial? then UNSET.(next := setting.rate) else w.config.burnParams;
      && Reachable(u) && u.config.nextEpoch == w.config.nextEpoch
      && setting.limit <= SHARE32_MAX && CanUpdate(p, setting.limit, setting.toIncreasing, setting.toLimit)
      && u.config.burnParams == Updated(p, setting.limit, setting.toIncreasing, setting.toLimit)
  {
    hide Reachable;
    ReachableStep(w, Configure(setting));
  }
}
