/** Debt under an honest root: the committed list has the configured length and adds up to the configured debt. */
module DebtTheorems {
  import opened Units
  import opened Sums
  import opened Bitmaps
  import opened Accounts
  import opened Distributions
  import opened DistributionInvariants

  ghost predicate HonestDebt(d: Distribution) {
    && (forall k: nat :: k in Debts(d.debtRoot) <==> k < d.totalValidators)
    && MapSum(Debts(d.debtRoot), LeafAmount) == d.totalDebt
  }

  function Unprocessed(d: Distribution, s: LeafSets): set<nat> {
    Debts(d.debtRoot).Keys - s.processed
  }

  /** Every lamport of debt is paid, written off or still to be processed, and only one of these. */
  lemma DebtPartition(d: Distribution, s: LeafSets)
    requires HonestDebt(d) && Counters(d, s) && Payments(d, s)
    ensures d.collectedPayments + DebtOf(d.debtRoot, s.writtenOff) + DebtOf(d.debtRoot, Unprocessed(d, s))
         == d.totalDebt
  {
    var m := Debts(d.debtRoot);
    var settled := Restrict(m, s.processed);
    MapSumSplit(m, s.processed, LeafAmount);
    assert m - s.processed == Restrict(m, Unprocessed(d, s));
    MapSumSplit(settled, s.writtenOff, LeafAmount);
    assert Restrict(settled, s.writtenOff) == Restrict(m, s.writtenOff);
    assert settled - s.writtenOff == Restrict(m, s.processed - s.writtenOff);
  }

  lemma DebtNonNegative(root: Hash, s: set<nat>)
    ensures 0 <= DebtOf(root, s)
  {
    MapSumNonNegative(Restrict(Debts(root), s), LeafAmount);
  }

  /** The unchecked addition of a payment cannot wrap. */
  lemma HonestPaymentFits(a: DistributionState, proof: MerkleProof, leaf: DebtLeaf)
    requires DistributionOk(a) && HonestDebt(a.data) && CanPay(a, proof, leaf)
    ensures a.data.collectedPayments + leaf.amount <= a.data.totalDebt < TWO_64
  {
    var d, s, index := a.data, SetsOf(a), proof.leafIndex.value as nat;
    var rest := Restrict(Debts(d.debtRoot), Unprocessed(d, s));
    PaySets(a, index, leaf.amount);
    DebtPartition(d, s);
    DebtNonNegative(d.debtRoot, s.writtenOff);
    MapSumAtLeast(rest, index, LeafAmount);
  }

  /** The count gate is the set gate. */
  lemma AllProcessedExactly(d: Distribution, s: LeafSets)
    requires HonestDebt(d) && Counters(d, s) && Payments(d, s)
    ensures AllDebtProcessed(d) <==> forall i: nat :: i < d.totalValidators ==> i in s.processed
    ensures AllDebtProcessed(d) ==> d.collectedPayments + DebtOf(d.debtRoot, s.writtenOff) == d.totalDebt
  {
    SetBelow(s.processed, d.totalValidators);
    if AllDebtProcessed(d) {
      FullSet(s.processed, d.totalValidators);
      assert Unprocessed(d, s) == {};
      DebtPartition(d, s);
      RestrictEmpty(Debts(d.debtRoot), LeafAmount);
    } else if forall i: nat :: i < d.totalValidators ==> i in s.processed {
      AllBelow(s.processed, d.totalValidators);
      assert false;
    }
  }

  lemma {:induction false} AllBelow(s: set<nat>, n: nat)
    requires forall i: nat :: i < n ==> i in s
    ensures n <= |s|
    decreases n
  {
    if n != 0 {
      AllBelow(s - {n - 1}, n - 1);
    }
  }

  // ---------------------------------------------------------------- the unchecked charge

  /** A charge that succeeds raises the uncollectible debt by the amount exactly when the sum fits 64 bits. */
  lemma ChargeAddsExactly(a: DistributionState, source: u64, amount: u64)
    requires CanCharge(a.data, source, amount)
    ensures Charged(a, amount).data.uncollectibleDebt == a.data.uncollectibleDebt + amount
            <==> a.data.uncollectibleDebt + amount < TWO_64
    ensures a.data.uncollectibleDebt + amount < TWO_64 ==> a.data.uncollectibleDebt + amount <= a.data.totalDebt
  {}
}
