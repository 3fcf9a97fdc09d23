/** The 2Z pool under an honest rewards root: the shares of the committed list add up to at most, or exactly, one. */
module PoolTheorems {
  import opened Units
  import opened Sums
  import opened Bitmaps
  import opened Rewards
  import opened Accounts
  import opened Distributions
  import opened DistributionInvariants

  function UnitShareOf(leaf: RewardShare): int {
    leaf.unitShare
  }

  ghost function AllShares(d: Distribution): int {
    MapSum(Shares(d.rewardsRoot), UnitShareOf)
  }

  ghost predicate HonestRewards(d: Distribution) {
    && (forall k: nat :: k in Shares(d.rewardsRoot) <==> k < d.totalContributors)
    && AllShares(d) <= SHARE32_MAX
  }

  /** n floored shares sum to q, exact shares to s: never above, and below by less than one unit per share. */
  ghost predicate Tight(q: int, s: int, n: int, pool: int) {
    q * SHARE32_MAX <= s * pool <= (q + n) * SHARE32_MAX - n
  }

  lemma OneShareTight(leaf: RewardShare, pool: u64)
    requires leaf.unitShare <= SHARE32_MAX
    ensures Tight(LeafShare(pool)(leaf), leaf.unitShare, 1, pool)
  {}

  lemma TogetherTight(q: int, s: int, n: int, q': int, s': int, n': int, pool: int)
    requires Tight(q, s, n, pool) && Tight(q', s', n', pool)
    ensures Tight(q + q', s + s', n + n', pool)
  {
    Distribute(s, s', pool);
  }

  /** The leaves' shares of a pool are tight. */
  lemma {:induction false} SharesScaled(m: map<nat, RewardShare>, pool: u64)
    requires forall k :: k in m ==> m[k].unitShare <= SHARE32_MAX
    ensures Tight(MapSum(m, LeafShare(pool)), MapSum(m, UnitShareOf), |m|, pool)
    decreases |m|
  {
    if m == map[] {
      assert |m| == 0;
    } else {
      hide LeafShare, Tight;
      var k :| k in m;
      var rest := m - {k};
      MapSumRemove(m, k, LeafShare(pool));
      MapSumRemove(m, k, UnitShareOf);
      SharesScaled(rest, pool);
      OneShareTight(m[k], pool);
      TogetherTight(LeafShare(pool)(m[k]), m[k].unitShare, 1,
                    MapSum(rest, LeafShare(pool)), MapSum(rest, UnitShareOf), |rest|, pool);
      assert |rest| + 1 == |m|;
    }
  }

  lemma UnitSharesBounded(m: map<nat, RewardShare>)
    requires MapSum(m, UnitShareOf) <= SHARE32_MAX
    ensures forall k :: k in m ==> m[k].unitShare <= SHARE32_MAX
  {
    forall k | k in m
      ensures m[k].unitShare <= SHARE32_MAX
    {
      MapSumAtLeast(m, k, UnitShareOf);
    }
  }

  /** Shares that add up to at most one never exceed the pool. */
  lemma AllWithinPool(m: map<nat, RewardShare>, pool: u64)
    requires MapSum(m, UnitShareOf) <= SHARE32_MAX
    ensures MapSum(m, LeafShare(pool)) <= pool
  {
    UnitSharesBounded(m);
    SharesScaled(m, pool);
    MulMonotone(MapSum(m, UnitShareOf), SHARE32_MAX, pool);
  }

  lemma SharesNonNegative(m: map<nat, RewardShare>, pool: u64)
    ensures 0 <= MapSum(m, LeafShare(pool)) && 0 <= MapSum(m, UnitShareOf)
  {
    MapSumNonNegative(m, LeafShare(pool));
    MapSumNonNegative(m, UnitShareOf);
  }

  /** Whatever was paid out, the share of any other leaf is still within the pool. */
  lemma NextWithinPool(d: Distribution, s: set<nat>, index: nat)
    requires HonestRewards(d) && Pool(d) < TWO_64 && index in Shares(d.rewardsRoot) && index !in s
    ensures SharesOf(d.rewardsRoot, Pool(d), s) + LeafShare(Pool(d))(Shares(d.rewardsRoot)[index]) <= Pool(d)
  {
    var m, pool := Shares(d.rewardsRoot), Pool(d);
    AllWithinPool(m, pool);
    RestrictSumInsert(m, s, index, LeafShare(pool));
    MapSumSplit(m, s + {index}, LeafShare(pool));
    SharesNonNegative(m - (s + {index}), pool);
  }

  /** What has been distributed and burned never exceeds the pool. */
  lemma PaidOutWithinPool(a: DistributionState)
    requires DistributionOk(a) && HonestRewards(a.data)
    ensures a.data.distributed2z + a.data.burned2z <= Pool(a.data)
  {
    var m, pool, s := Shares(a.data.rewardsRoot), Pool(a.data), SetsOf(a).rewarded;
    AllWithinPool(m, pool);
    MapSumSplit(m, s, LeafShare(pool));
    SharesNonNegative(m - s, pool);
  }

  /** The token account covers every reward still to come. */
  lemma NextRewardCovered(a: DistributionState, index: nat)
    requires DistributionOk(a) && HonestRewards(a.data)
    requires index in Shares(a.data.rewardsRoot) && index !in SetsOf(a).rewarded
    ensures Shares(a.data.rewardsRoot)[index].unitShare <= SHARE32_MAX
    ensures ShareAmount(Pool(a.data), Shares(a.data.rewardsRoot)[index].unitShare) <= a.tokens
  {
    UnitSharesBounded(Shares(a.data.rewardsRoot));
    NextWithinPool(a.data, SetsOf(a).rewarded, index);
  }

  /** The unchecked additions of a reward cannot wrap. */
  lemma HonestRewardFits(a: DistributionState, proof: MerkleProof, claim: Claim, recipients: seq<RecipientShare>)
    requires DistributionOk(a) && HonestRewards(a.data)
    requires RecipientsWellformed(recipients) && CanDistribute(a, proof, claim, recipients)
    ensures RewardFits(a.data, claim, recipients)
  {
    var d, index := a.data, proof.leafIndex.value as nat;
    RewardSets(a, proof, claim, recipients);
    NextWithinPool(d, SetsOf(a).rewarded, index);
    RewardSplitsExactly(Pool(d), claim.unitShare, EffectiveBurnRate(d, claim.economicBurnRate), Active(recipients));
  }

  /** The count gate is the set gate. */
  lemma AllRewardedExactly(a: DistributionState)
    requires DistributionOk(a) && HonestRewards(a.data)
    ensures AllRewardsDistributed(a.data) <==> SetsOf(a).rewarded == Shares(a.data.rewardsRoot).Keys
  {
    var d, s := a.data, SetsOf(a).rewarded;
    KeysBelow(Shares(d.rewardsRoot).Keys, d.totalContributors);
    SetBelow(s, d.totalContributors);
    if AllRewardsDistributed(d) {
      FullSet(s, d.totalContributors);
    }
  }

  lemma {:induction false} KeysBelow(keys: set<nat>, n: nat)
    requires forall k: nat :: k in keys <==> k < n
    ensures |keys| == n
    decreases n
  {
    if n != 0 {
      KeysBelow(keys - {n - 1}, n - 1);
    } else {
      assert keys == {};
    }
  }

  /** When the shares make exactly one and every leaf is done, less than one unit per contributor is left. */
  lemma ResidueIsSmall(a: DistributionState)
    requires DistributionOk(a) && HonestRewards(a.data) && AllShares(a.data) == SHARE32_MAX
    requires AllRewardsDistributed(a.data)
    ensures 0 <= Pool(a.data) - (a.data.distributed2z + a.data.burned2z) < a.data.totalContributors
  {
    var d, m, pool := a.data, Shares(a.data.rewardsRoot), Pool(a.data);
    AllRewardedExactly(a);
    KeysBelow(m.Keys, d.totalContributors);
    assert Restrict(m, SetsOf(a).rewarded) == m;
    UnitSharesBounded(m);
    SharesScaled(m, pool);
    if m == map[] {
      assert false;
    }
  }
}
