/** Where the lamports of a validator's deposit come from and go to, over whole runs. */
module DepositFlows {
  import opened Accounts
  import opened Distributions
  import opened DistributionInvariants
  import opened World
  import opened WorldInvariants
  import opened Runs
  import opened Frames

  /** The lamports of a deposit above rent; none before it is created. */
  function Balance(w: World, n: nat): int {
    if n in w.deposits then w.deposits[n].lamports - MinimumBalance(DEPOSIT_DATA_END) else 0
  }

  function Sent(to: Address, n: nat, lamports: nat): nat {
    if to == OfDeposit(n) then lamports else 0
  }

  /** What one instruction brings to a deposit that exists, or that it creates. */
  function Received(w: World, i: Instruction, n: nat): nat {
    if Effect(w, i).None? then 0
    else
      match i
      case InitializeDeposit(node, prefunded) => if node == n then prefunded else 0
      case SendLamports(to, lamports) => if n in w.deposits then Sent(to, n, lamports) else 0
      case DistributeRewards(e, _, _, relayer) =>
        if n in w.deposits then Sent(relayer, n, w.distributions[e].data.relayLamports) else 0
      case WithdrawSol(amount, _, destination) => if n in w.deposits then Sent(destination, n, amount) else 0
      case WithdrawDeposit(node, beneficiary) =>
        if n in w.deposits then Sent(beneficiary, n, Withdrawable(w.deposits[node])) else 0
      case _ => 0
  }

  /** What one instruction takes from a deposit to pay debt. */
  function PaidForDebt(w: World, i: Instruction, n: nat): nat {
    match i
    case PayDebt(_, node, amount, _) => if node == n && Effect(w, i).Some? then amount else 0
    case _ => 0
  }

  /** What one instruction withdraws from a deposit for a beneficiary. */
  function Withdrawn(w: World, i: Instruction, n: nat): nat {
    match i
    case WithdrawDeposit(node, _) => if node == n && Effect(w, i).Some? then Withdrawable(w.deposits[n]) else 0
    case _ => 0
  }

  lemma SendBalance(w: World, to: Address, lamports: nat, n: nat)
    requires lamports <= w.outsideLamports
    ensures Balance(Send(w, to, lamports), n) == Balance(w, n) + if n in w.deposits then Sent(to, n, lamports) else 0
    ensures Send(w, to, lamports).deposits.Keys == w.deposits.Keys
  {}

  /** Creation leaves exactly what was there before above the rent. */
  lemma CreationKeepsPrefunding(w: World, node: nat, prefunded: nat)
    requires CanInitializeDeposit(w, node, prefunded)
    ensures Balance(WithNewDeposit(w, node, prefunded), node) == prefunded
  {}

  predicate TouchesDeposits(i: Instruction) {
    || i.DistributeRewards? || i.WithdrawSol? || i.WithdrawDeposit? || i.SendLamports?
    || i.InitializeDeposit? || i.PayDebt? || i.WriteOff?
  }

  lemma OthersKeepDeposits(w: World, i: Instruction)
    requires !TouchesDeposits(i)
    ensures Step(w, i).deposits == w.deposits
  {
    hide Effect, Step, Prepared, CanReplace;
    if Effect(w, i).None? {
      FailureChangesNothing(w, i);
    } else if Prepares(i) {
      PreparationIs(w, i);
    } else {
      MoveFrame(w, i);
    }
  }

  lemma DebtBalance(w: World, i: Instruction, n: nat)
    requires i.PayDebt? || i.WriteOff?
    ensures Balance(Step(w, i), n) == Balance(w, n) - PaidForDebt(w, i, n)
  {
    hide CanPay, Paid, MovedOff, CanMoveOff, MinimumBalance;
  }

  lemma SendingBalance(w: World, i: Instruction, n: nat)
    requires i.DistributeRewards? || i.WithdrawSol? || i.SendLamports?
    ensures Balance(Step(w, i), n) == Balance(w, n) + Received(w, i, n)
  {
    hide CanDistribute, RewardsPaid, Balance, Send;
    if Effect(w, i).Some? {
      match i
      case DistributeRewards(e, proof, claim, relayer) =>
        var u := RewardDebited(w, e, proof, claim);
        SendBalance(u, relayer, w.distributions[e].data.relayLamports, n);
        SameBalance(u, w, n);
      case WithdrawSol(amount, transferred2z, destination) =>
        var u := SolDebited(w, amount, transferred2z);
        SolWithdrawnIsSend(w, amount, transferred2z, destination);
        SendBalance(u, destination, amount, n);
        SameBalance(u, w, n);
      case SendLamports(to, lamports) => SendBalance(w, to, lamports, n);
      case _ =>
    }
  }

  lemma SameBalance(u: World, w: World, n: nat)
    requires u.deposits == w.deposits
    ensures Balance(u, n) == Balance(w, n)
  {}

  /** The balance changes by what arrives, what is paid and what is withdrawn, and by nothing else. */
  lemma StepBalance(w: World, i: Instruction, n: nat)
    ensures Balance(Step(w, i), n) == Balance(w, n) + Received(w, i, n) - PaidForDebt(w, i, n) - Withdrawn(w, i, n)
  {
    hide CanReward, CanWithdrawSol, MinimumBalance, SolWithdrawn, RewardDistributed, Effect;
    match i
    case WithdrawDeposit(node, beneficiary) => WithdrawalBalance(w, node, beneficiary, n);
    case InitializeDeposit(node, prefunded) => CreationBalance(w, node, prefunded, n);
    case PayDebt(_, _, _, _) => DebtBalance(w, i, n);
    case WriteOff(_, _, _, _, _) => DebtBalance(w, i, n);
    case DistributeRewards(_, _, _, _) => SendingBalance(w, i, n);
    case WithdrawSol(_, _, _) => SendingBalance(w, i, n);
    case SendLamports(_, _) => SendingBalance(w, i, n);
    case _ =>
      OthersKeepDeposits(w, i);
      SameBalance(Step(w, i), w, n);
  }

  lemma WithdrawalBalance(w: World, node: nat, beneficiary: Address, n: nat)
    ensures var i := WithdrawDeposit(node, beneficiary);
      Balance(Step(w, i), n) == Balance(w, n) + Received(w, i, n) - Withdrawn(w, i, n)
  {
    hide Send, Step, MinimumBalance;
    if CanWithdrawDeposit(w, node) {
      var amount := Withdrawable(w.deposits[node]);
      SendingIs(w, WithdrawDeposit(node, beneficiary));
      SendBalance(Debited(w, node, amount), beneficiary, amount, n);
    } else {
      FailureChangesNothing(w, WithdrawDeposit(node, beneficiary));
    }
  }

  lemma CreationBalance(w: World, node: nat, prefunded: nat, n: nat)
    ensures var i := InitializeDeposit(node, prefunded); Balance(Step(w, i), n) == Balance(w, n) + Received(w, i, n)
  {
    if CanInitializeDeposit(w, node, prefunded) {
      CreationKeepsPrefunding(w, node, prefunded);
    }
  }

  // ---------------------------------------------------------------- runs

  function TotalReceived(w: World, run: seq<Instruction>, n: nat): nat {
    if run == [] then 0
    else
      var before := run[..|run| - 1];
      TotalReceived(w, before, n) + Received(Run(w, before), run[|run| - 1], n)
  }

  function TotalPaid(w: World, run: seq<Instruction>, n: nat): nat {
    if run == [] then 0
    else
      var before := run[..|run| - 1];
      TotalPaid(w, before, n) + PaidForDebt(Run(w, before), run[|run| - 1], n)
  }

  function TotalWithdrawn(w: World, run: seq<Instruction>, n: nat): nat {
    if run == [] then 0
    else
      var before := run[..|run| - 1];
      TotalWithdrawn(w, before, n) + Withdrawn(Run(w, before), run[|run| - 1], n)
  }

  lemma {:induction false} RunBalance(w: World, run: seq<Instruction>, n: nat)
    ensures Balance(Run(w, run), n)
         == Balance(w, n) + TotalReceived(w, run, n) - TotalPaid(w, run, n) - TotalWithdrawn(w, run, n)
  {
    hide Step, Received, PaidForDebt, Withdrawn, Balance;
    if run != [] {
      var before := run[..|run| - 1];
      RunBalance(w, before, n);
      StepBalance(Run(w, before), run[|run| - 1], n);
    }
  }

  /** Since genesis: what a deposit received is what it paid, what was withdrawn, and what it holds above its rent. */
  lemma DepositConserved(w: World, run: seq<Instruction>, n: nat)
    requires Genesis(w) && RunFits(w, run)
    ensures TotalReceived(w, run, n) == TotalPaid(w, run, n) + TotalWithdrawn(w, run, n) + Balance(Run(w, run), n)
    ensures 0 <= Balance(Run(w, run), n)
  {
    hide DistributionOk, Balanced, RunFits, TotalReceived, TotalPaid, TotalWithdrawn;
    RunBalance(w, run, n);
    GenesisInv(w);
    RunKeepsInv(w, run);
  }

  /**
   * A withdrawal leaves exactly the rent and the written-off debt, unless the beneficiary is the
   * deposit itself, which then keeps everything.
   */
  lemma WithdrawalLeavesWrittenOff(w: World, node: nat, beneficiary: Address)
    requires CanWithdrawDeposit(w, node)
    ensures var v := Step(w, WithdrawDeposit(node, beneficiary));
      && node in v.deposits
      && (beneficiary != OfDeposit(node) <==> Balance(v, node) == w.deposits[node].data.writtenOff)
      && (beneficiary == OfDeposit(node) ==> v == w)
  {
    hide MinimumBalance;
    var amount := Withdrawable(w.deposits[node]);
    SendBalance(Debited(w, node, amount), beneficiary, amount, node);
    if beneficiary == OfDeposit(node) {
      var v := DepositWithdrawn(w, node, beneficiary);
      assert v.deposits == w.deposits;
    }
  }
}
