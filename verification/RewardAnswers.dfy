/** What a successful reward does, seen from outside: which rate burns, who receives what, whose leaf it was. */
module RewardAnswers {
  import opened Units
  import opened Sums
  import opened Bitmaps
  import opened Rewards
  import opened Accounts
  import opened Distributions
  import opened World
  import opened WorldInvariants
  import opened Runs
  import opened Frames
  import opened LeafHistories

  lemma FloorMonotone(r: UnitShare32, s: UnitShare32, x: u64)
    requires r <= s
    ensures MulScalar32(r, x) <= MulScalar32(s, x)
  {
    var p: int, q: int := MulScalar32(r, x), MulScalar32(s, x);
    MulMonotone(r, s, x);
    if q + 1 <= p {
      MulMonotone(q + 1, p, SHARE32_MAX);
      assert false;
    }
  }

  /** The greatest of three rates, without saying how it is found. */
  ghost predicate TakenOut(cut: int, share: u64, a: BurnRate, b: BurnRate, c: BurnRate) {
    && MulScalar32(a, share) <= cut && MulScalar32(b, share) <= cut && MulScalar32(c, share) <= cut
    && cut in {MulScalar32(a, share), MulScalar32(b, share), MulScalar32(c, share)}
  }

  lemma GreatestIsTaken(d: Distribution, rate: BurnRate, share: u64)
    ensures TakenOut(MulScalar32(EffectiveBurnRate(d, rate), share), share,
                     rate, d.economicBurnRate, d.communityBurnRate)
  {
    hide EffectiveBurnRate, MulScalar32;
    var taken := EffectiveBurnRate(d, rate);
    FloorMonotone(rate, taken, share);
    FloorMonotone(d.economicBurnRate, taken, share);
    FloorMonotone(d.communityBurnRate, taken, share);
  }

  /** The committed leaf is the claimant's own, with the claimed share and rate, and not blocked. */
  lemma RewardedLeaf(w: World, e: nat, proof: MerkleProof, claim: Claim, relayer: Address)
    requires Effect(w, DistributeRewards(e, proof, claim, relayer)).Some?
    ensures e in w.distributions && proof.leafIndex.Some?
    ensures var leaves := Shares(w.distributions[e].data.rewardsRoot);
      && proof.leafIndex.value in leaves
      && var leaf := leaves[proof.leafIndex.value];
         && leaf.contributor == claim.contributor && leaf.unitShare == claim.unitShare <= SHARE32_MAX
         && leaf.EconomicBurnRate() == claim.economicBurnRate <= SHARE32_MAX && !leaf.IsBlocked()
    ensures claim.contributor in w.contributors && Active(w.contributors[claim.contributor]) != []
    ensures w.distributions[e].data.swept && TotalCollected(w.distributions[e].data).Some?
    ensures RecipientsWellformed(w.contributors[claim.contributor])
  {
    hide CanMark, RewardDistributed, RecipientsWellformed;
  }

  /** What one reward changes, in terms of the amount its recipients share and the amount burned. */
  ghost predicate Answer(w: World, v: World, e: nat, claim: Claim, payable: u64, burn: u64)
    requires e in w.distributions && e in v.distributions && claim.contributor in w.contributors
    requires TotalCollected(w.distributions[e].data).Some?
    requires claim.unitShare <= SHARE32_MAX && claim.economicBurnRate <= SHARE32_MAX
  {
    var a, b := w.distributions[e], v.distributions[e];
    var active := Active(w.contributors[claim.contributor]);
    var share := MulScalar32(claim.unitShare, TotalCollected(a.data).value);
    && payable <= share && burn <= share
    && TakenOut(share - payable, share, claim.economicBurnRate, a.data.economicBurnRate, a.data.communityBurnRate)
    && share - payable <= burn <= share - payable + |active| - 1
    && b.data.burned2z == WrapAdd64(a.data.burned2z, burn)
    && b.data.distributed2z == WrapAdd64(a.data.distributed2z, share - burn)
    && b.tokens == a.tokens - share
    && (forall key: nat :: Received(v.received2z, key)
                           == Received(w.received2z, key) + SumTo(key, Keys(active), active, payable))
    && (forall k: nat :: Single(Keys(active), k) ==>
          Received(v.received2z, active[k].key)
          == Received(w.received2z, active[k].key) + MulScalar16(active[k].share, payable))
  }

  lemma ReceivedParts(m: map<nat, nat>, amount: u64, shares: seq<RecipientShare>)
    ensures forall key: nat ::
      Received(Receiving(m, amount, shares), key) == Received(m, key) + SumTo(key, Keys(shares), shares, amount)
    ensures forall k: nat :: Single(Keys(shares), k) ==>
      Received(Receiving(m, amount, shares), shares[k].key)
      == Received(m, shares[k].key) + MulScalar16(shares[k].share, amount)
  {
    forall key: nat
      ensures Received(Receiving(m, amount, shares), key) == Received(m, key) + SumTo(key, Keys(shares), shares, amount)
    {
      ReceivingAt(m, amount, shares, key);
    }
    forall k: nat | Single(Keys(shares), k)
      ensures SumTo(shares[k].key, Keys(shares), shares, amount) == MulScalar16(shares[k].share, amount)
    {
      SumToOne(k, Keys(shares), shares, amount);
    }
  }

  /** The account's side of the answer. */
  lemma RewardAccount(
    a: DistributionState, index: u32, proof: MerkleProof, claim: Claim, recipients: seq<RecipientShare>)
    requires RecipientsWellformed(recipients) && CanDistribute(a, proof, claim, recipients)
    requires proof.leafIndex == Some(index)
    ensures var d := a.data;
      var rate := EffectiveBurnRate(d, claim.economicBurnRate);
      var share := MulScalar32(claim.unitShare, TotalCollected(d).value);
      var payable := Payable(Pool(d), claim.unitShare, rate);
      var burn := Burned(Pool(d), claim.unitShare, rate, Active(recipients));
      var b := RewardsPaid(a, index, claim, recipients);
      && share - payable == MulScalar32(rate, share)
      && share - payable <= burn <= share - payable + |Active(recipients)| - 1 && burn <= share
      && b.data.burned2z == WrapAdd64(d.burned2z, burn)
      && b.data.distributed2z == WrapAdd64(d.distributed2z, share - burn)
      && b.tokens == a.tokens - share
  {
    hide CanMark, Mark, VerifiesShare, MulScalar32, Distributed, Burned, EffectiveBurnRate;
    RewardSplitsExactly(Pool(a.data), claim.unitShare, EffectiveBurnRate(a.data, claim.economicBurnRate),
                        Active(recipients));
  }

  /**
   * Every successful reward: the greatest of the claim's, the epoch's and the community's rate is taken
   * out of the contributor's share of the pool, each recipient receives its part of the rest, and the
   * dust, less than one unit per recipient, is burned with the former.
   */
  lemma RewardAnswer(w: World, e: nat, proof: MerkleProof, claim: Claim, relayer: Address)
    returns (payable: u64, burn: u64)
    requires Effect(w, DistributeRewards(e, proof, claim, relayer)).Some?
    ensures e in w.distributions && claim.contributor in w.contributors
    ensures TotalCollected(w.distributions[e].data).Some?
    ensures claim.unitShare <= SHARE32_MAX && claim.economicBurnRate <= SHARE32_MAX
    ensures var v := Step(w, DistributeRewards(e, proof, claim, relayer));
      e in v.distributions && Answer(w, v, e, claim, payable, burn)
  {
    hide Effect, Step, RewardsPaid, Receiving, MulScalar32, EffectiveBurnRate, TakenOut, Send, CanDistribute, SumTo,
      Burned, Payable, Active, Keys, RecipientsWellformed, Distributed;
    var i := DistributeRewards(e, proof, claim, relayer);
    RewardedLeaf(w, e, proof, claim, relayer);
    RewardGuard(w, e, proof, claim, relayer);
    var a, recipients := w.distributions[e], w.contributors[claim.contributor];
    var rate := EffectiveBurnRate(a.data, claim.economicBurnRate);
    payable := Payable(Pool(a.data), claim.unitShare, rate);
    RewardAccount(a, proof.leafIndex.value, proof, claim, recipients);
    burn := Burned(Pool(a.data), claim.unitShare, rate, Active(recipients));
    GreatestIsTaken(a.data, claim.economicBurnRate, MulScalar32(claim.unitShare, TotalCollected(a.data).value));
    ReceivedParts(w.received2z, payable, Active(recipients));
    AfterIs(w, i, e);
    RewardRecord(w, e, proof, claim, relayer);
  }

  lemma RewardGuard(w: World, e: nat, proof: MerkleProof, claim: Claim, relayer: Address)
    requires Effect(w, DistributeRewards(e, proof, claim, relayer)).Some?
    ensures CanReward(w, e, proof, claim)
  {
    hide CanDistribute, RewardDistributed;
  }

  lemma RewardRecord(w: World, e: nat, proof: MerkleProof, claim: Claim, relayer: Address)
    requires Effect(w, DistributeRewards(e, proof, claim, relayer)).Some? && CanReward(w, e, proof, claim)
    ensures var a, recipients := w.distributions[e], w.contributors[claim.contributor];
      Step(w, DistributeRewards(e, proof, claim, relayer)).received2z
      == Receiving(w.received2z,
                   Payable(Pool(a.data), claim.unitShare, EffectiveBurnRate(a.data, claim.economicBurnRate)),
                   Active(recipients))
  {
    hide Step, Send, CanDistribute, RewardsPaid, Receiving, Payable;
    SendingIs(w, DistributeRewards(e, proof, claim, relayer));
    SendFrame(RewardDebited(w, e, proof, claim), relayer, w.distributions[e].data.relayLamports);
  }

  /** The relayer's lamports come out of the distribution, unless the relayer is the distribution. */
  lemma RelayerPaid(w: World, e: nat, proof: MerkleProof, claim: Claim, relayer: Address)
    requires Effect(w, DistributeRewards(e, proof, claim, relayer)).Some?
    ensures e in w.distributions
    ensures var v := Step(w, DistributeRewards(e, proof, claim, relayer));
      var relay := w.distributions[e].data.relayLamports;
      && e in v.distributions
      && v.distributions[e].lamports
         == w.distributions[e].lamports - (if relayer == OfDistribution(e) then 0 else relay)
      && (relayer == Elsewhere ==> v.outsideLamports == w.outsideLamports + relay)
  {
    hide CanDistribute, Receiving, Payable, Mark, RecipientsWellformed;
  }

  // ---------------------------------------------------------------- all recipients together

  function DistributedOf(a: DistributionState): int {
    a.data.distributed2z
  }

  lemma OthersRecordNothing(w: World, i: Instruction)
    requires !i.DistributeRewards?
    ensures Step(w, i).received2z == w.received2z
  {
    hide Effect, Step, Prepared, CanReplace, Send;
    if Effect(w, i).None? {
      FailureChangesNothing(w, i);
    } else if Sends(i) {
      SendingIs(w, i);
      var (u, to, lamports) := BeforeSend(w, i);
      SendFrame(u, to, lamports);
    } else if Prepares(i) {
      PreparationIs(w, i);
    } else {
      MoveFrame(w, i);
    }
  }

  lemma PreparationPaysNobody(w: World, i: Instruction)
    requires Prepares(i) && Effect(w, i).Some?
    ensures DistributedOf(Prepared(w, i)) == DistributedOf(w.distributions[i.epoch])
  {
    hide CanFinalizeDebt, CanFinalizeRewards, CanEnableWriteOff, CanConfigureDebt, CanConfigureRewards, MinimumBalance,
      CanCollect, CanReplace;
  }

  lemma OthersPayNobody(w: World, i: Instruction, e: nat)
    requires Effect(w, i).Some? && e in w.distributions && !(i.DistributeRewards? && i.epoch == e)
    ensures DistributedOf(After(w, i, e)) == DistributedOf(w.distributions[e])
  {
    hide Effect, Prepared, CanMark, Mark;
    if Prepares(i) {
      PreparationPaysNobody(w, i);
    }
  }

  lemma BornPaidNobody(w: World, i: Instruction, e: nat)
    requires e !in w.distributions && e in Step(w, i).distributions
    ensures DistributedOf(Step(w, i).distributions[e]) == 0
  {
    hide CreatedLamports, InitializationAllowed, AfterInitialization, Effect;
    Born(w, i, e);
    BornBlank(w, i.now, i.prefunded);
  }

  lemma BornBlank(w: World, now: int, prefunded: nat)
    requires Effect(w, InitializeDistribution(now, prefunded)).Some?
    ensures w.config.nextEpoch in Step(w, InitializeDistribution(now, prefunded)).distributions
    ensures Step(w, InitializeDistribution(now, prefunded)).distributions[w.config.nextEpoch].data.distributed2z == 0
  {
    hide CreatedLamports, InitializationAllowed, AfterInitialization;
  }

  /** One step moves both totals by the same amount. */
  lemma RecordStepBalances(w: World, i: Instruction)
    requires Inv(w) && StepFits(w, i)
    ensures MapSum(Step(w, i).received2z, AsInt) - MapSum(w.received2z, AsInt)
         == MapSum(Step(w, i).distributions, DistributedOf) - MapSum(w.distributions, DistributedOf)
  {
    hide Inv, Effect, Step, After, StepFits;
    var ds, es := w.distributions, Step(w, i).distributions;
    var paid := MapSum(Step(w, i).received2z, AsInt) - MapSum(w.received2z, AsInt);
    if Effect(w, i).None? {
      FailureChangesNothing(w, i);
    } else {
      forall d | d in es && d !in ds
        ensures DistributedOf(es[d]) == 0
      {
        BornPaidNobody(w, i, d);
      }
      forall d | d in ds
        ensures d in es && DistributedOf(es[d]) == DistributedOf(After(w, i, d))
      {
        AfterIs(w, i, d);
      }
      if i.DistributeRewards? {
        RewardRecorded(w, i);
      } else {
        OthersRecordNothing(w, i);
      }
      var e := if i.DistributeRewards? then i.epoch else 0;
      forall d | d in ds
        ensures DistributedOf(es[d]) == DistributedOf(ds[d]) + if d == e then paid else 0
      {
        if !(i.DistributeRewards? && d == e) {
          OthersPayNobody(w, i, d);
        }
      }
      SumAcross(ds, es, DistributedOf, e, paid);
    }
  }

  lemma RewardRecorded(w: World, i: Instruction)
    requires i.DistributeRewards? && Effect(w, i).Some? && StepFits(w, i)
    ensures i.epoch in w.distributions
    ensures MapSum(Step(w, i).received2z, AsInt) - MapSum(w.received2z, AsInt)
         == DistributedOf(After(w, i, i.epoch)) - DistributedOf(w.distributions[i.epoch])
  {
    hide Effect, Step, Receiving, Payable, CanDistribute, Transferred, Burned, EffectiveBurnRate, Active, Mark;
    RewardedLeaf(w, i.epoch, i.proof, i.claim, i.relayer);
    RewardGuard(w, i.epoch, i.proof, i.claim, i.relayer);
    RewardRecord(w, i.epoch, i.proof, i.claim, i.relayer);
    var a, recipients := w.distributions[i.epoch], w.contributors[i.claim.contributor];
    var rate := EffectiveBurnRate(a.data, i.claim.economicBurnRate);
    ReceivingTotal(w.received2z, Payable(Pool(a.data), i.claim.unitShare, rate), Active(recipients));
  }

  /** In runs that fit, all that recipients ever received is all that the distributions distributed. */
  lemma {:induction false} ReceivedIsDistributed(w: World, run: seq<Instruction>)
    requires Genesis(w) && RunFits(w, run)
    ensures MapSum(Run(w, run).received2z, AsInt) == MapSum(Run(w, run).distributions, DistributedOf)
  {
    hide Inv, Step, StepFits;
    if run == [] {
      assert w.received2z == map[] && w.distributions == map[];
    } else {
      var before := run[..|run| - 1];
      ReceivedIsDistributed(w, before);
      GenesisInv(w);
      RunKeepsInv(w, before);
      RecordStepBalances(Run(w, before), run[|run| - 1]);
    }
  }
}
