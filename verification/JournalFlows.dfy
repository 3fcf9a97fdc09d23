/** Where the journal's SOL and the swapped 2Z come from and go to, over whole runs. */
module JournalFlows {
  import opened Units
  import opened Rewards
  import opened Accounts
  import opened Distributions
  import opened World
  import opened WorldInvariants
  import opened Runs
  import opened Frames

  /** SOL to be swapped, SOL swapped, 2Z ever swapped, 2Z at the destination beyond what is recorded, lamports. */
  datatype Flows = Flows(waiting: int, swapped: int, lifetime: int, gifts: int, lamports: int) {
    function Plus(f: Flows): Flows {
      Flows(waiting + f.waiting, swapped + f.swapped, lifetime + f.lifetime, gifts + f.gifts, lamports + f.lamports)
    }
  }

  const NO_FLOWS: Flows := Flows(0, 0, 0, 0, 0)

  function FlowsOf(w: World): Flows {
    var j := w.journal.data;
    Flows(j.totalSol, j.swappedSol, j.lifetimeSwapped2z, w.swapTokens - j.swap2zBalance, w.journal.lamports)
  }

  function ToJournal(to: Address, lamports: nat): int {
    if to == TheJournal then lamports else 0
  }

  /** What an instruction moves through the journal, read off its arguments and the debt it sweeps. */
  function FlowOf(w: World, i: Instruction): Flows {
    if Effect(w, i).None? then NO_FLOWS
    else
      match i
      case PayDebt(_, _, amount, _) => NO_FLOWS.(waiting := amount, lamports := amount)
      case WithdrawSol(amount, transferred2z, destination) =>
        Flows(0 - amount, amount, transferred2z, 0, ToJournal(destination, amount) - amount)
      case Sweep(e, _, _) =>
        NO_FLOWS.(swapped := w.distributions[e].data.uncollectibleDebt - w.distributions[e].data.totalDebt)
      case DistributeRewards(e, _, _, relayer) =>
        NO_FLOWS.(lamports := ToJournal(relayer, w.distributions[e].data.relayLamports))
      case WithdrawDeposit(node, beneficiary) =>
        NO_FLOWS.(lamports := ToJournal(beneficiary, Withdrawable(w.deposits[node])))
      case SendLamports(to, lamports) => NO_FLOWS.(lamports := ToJournal(to, lamports))
      case Send2z(to, tokens) => if to == SwapDestination then NO_FLOWS.(gifts := tokens) else NO_FLOWS
      case _ => NO_FLOWS
  }

  lemma SendFlows(w: World, to: Address, lamports: nat)
    requires lamports <= w.outsideLamports
    ensures FlowsOf(Send(w, to, lamports)) == FlowsOf(w).Plus(NO_FLOWS.(lamports := ToJournal(to, lamports)))
  {}

  lemma WithdrawSolFlows(w: World, amount: u64, transferred2z: u64, destination: Address)
    requires Inv(w) && Effect(w, WithdrawSol(amount, transferred2z, destination)).Some?
    requires StepFits(w, WithdrawSol(amount, transferred2z, destination))
    ensures var i := WithdrawSol(amount, transferred2z, destination);
      FlowsOf(Step(w, i)) == FlowsOf(w).Plus(FlowOf(w, i))
  {
    hide Send, Orderly, Step, Follows;
    var i := WithdrawSol(amount, transferred2z, destination);
    SendingIs(w, i);
    SendFlows(SolDebited(w, amount, transferred2z), destination, amount);
    WithinSupply(w);
  }

  lemma SendingFlows(w: World, i: Instruction)
    requires Sends(i) && !i.WithdrawSol? && Effect(w, i).Some?
    ensures FlowsOf(Step(w, i)) == FlowsOf(w).Plus(FlowOf(w, i))
  {
    hide Send, Step, CanDistribute, RewardsPaid, Receiving, Payable;
    SendingIs(w, i);
    var (u, to, lamports) := BeforeSend(w, i);
    SendFlows(u, to, lamports);
  }

  lemma PayFlows(w: World, i: Instruction)
    requires Inv(w) && i.PayDebt? && Effect(w, i).Some?
    ensures FlowsOf(Step(w, i)) == FlowsOf(w).Plus(FlowOf(w, i))
  {
    hide Orderly, CanPay, Paid, MinimumBalance;
    WithinSupply(w);
  }

  lemma SweepFlows(w: World, i: Instruction)
    requires Inv(w) && i.Sweep? && Effect(w, i).Some? && StepFits(w, i)
    ensures FlowsOf(Step(w, i)) == FlowsOf(w).Plus(FlowOf(w, i))
  {
    hide Inv, Swept;
  }

  lemma OtherFlows(w: World, i: Instruction)
    requires !Sends(i) && !Prepares(i) && !i.PayDebt? && !i.Sweep? && Effect(w, i).Some?
    ensures FlowsOf(Step(w, i)) == FlowsOf(w).Plus(FlowOf(w, i))
  {
    hide Effect, Step;
    if i.Send2z? {
      Send2zFrame(w, i.account, i.tokens);
    } else if i.InitializeIntegration? {
      RegistrationFlows(w, i);
    } else {
      MoveFrame(w, i);
    }
  }

  lemma RegistrationFlows(w: World, i: Instruction)
    requires i.InitializeIntegration? && Effect(w, i).Some?
    ensures FlowsOf(Step(w, i)) == FlowsOf(w)
  {}

  lemma PreparingFlows(w: World, i: Instruction)
    requires Prepares(i) && Effect(w, i).Some?
    ensures FlowsOf(Step(w, i)) == FlowsOf(w).Plus(FlowOf(w, i))
  {
    hide Effect, Step, Prepared, CanReplace;
    PreparationIs(w, i);
  }

  lemma FlowStep(w: World, i: Instruction)
    requires Inv(w) && StepFits(w, i)
    ensures FlowsOf(Step(w, i)) == FlowsOf(w).Plus(FlowOf(w, i))
  {
    hide Inv, Step, StepFits, Sends, Prepares, FlowsOf, FlowOf, Flows.Plus, Effect;
    if Effect(w, i).None? {
      FailureFlows(w, i);
    } else if i.WithdrawSol? {
      WithdrawSolFlows(w, i.amount, i.transferred2z, i.destination);
    } else if Sends(i) {
      SendingFlows(w, i);
    } else if Prepares(i) {
      PreparingFlows(w, i);
    } else if i.PayDebt? {
      PayFlows(w, i);
    } else if i.Sweep? {
      SweepFlows(w, i);
    } else {
      OtherFlows(w, i);
    }
  }

  lemma FailureFlows(w: World, i: Instruction)
    requires Effect(w, i).None?
    ensures FlowsOf(Step(w, i)) == FlowsOf(w).Plus(FlowOf(w, i))
  {
    hide Effect;
  }

  function TotalFlows(w: World, run: seq<Instruction>): Flows {
    if run == [] then NO_FLOWS
    else
      var before := run[..|run| - 1];
      TotalFlows(w, before).Plus(FlowOf(Run(w, before), run[|run| - 1]))
  }

  /**
   * Since genesis: the SOL waiting is what was paid and not withdrawn, the SOL swapped is what was
   * withdrawn and not swept, the lifetime counter is every 2Z transferred for it, the swap destination
   * holds the recorded 2Z and the plain transfers to it, and every lamport of the journal is accounted for.
   */
  lemma {:induction false} FlowsAreHistory(w: World, run: seq<Instruction>)
    requires Genesis(w) && RunFits(w, run)
    ensures FlowsOf(Run(w, run)) == FlowsOf(w).Plus(TotalFlows(w, run))
  {
    hide Inv, StepFits, Step, FlowOf, FlowsOf;
    if run != [] {
      var before := run[..|run| - 1];
      FlowsAreHistory(w, before);
      GenesisInv(w);
      RunKeepsInv(w, before);
      FlowStep(Run(w, before), run[|run| - 1]);
    }
  }
}
