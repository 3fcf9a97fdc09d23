/** Reward shares, their recipients, and the split of one contributor's share of the 2Z pool. */
module Rewards {
  import opened Units
  import opened Sums

  type Pubkey = nat
  const DEFAULT_PUBKEY: Pubkey := 0

  // ---------------------------------------------------------------- the Merkle leaf

  const BLOCKED_BIT: int := 0x8000_0000
  const BURN_RATE_SPAN: int := 0x4000_0000

  /**
   * A leaf of the rewards tree. One 32-bit word holds the blocked flag in its top bit and the burn
   * rate in its low 30 bits; masks are written as the quotients and remainders they are.
   */
  datatype RewardShare = RewardShare(contributor: Pubkey, unitShare: u32, packed: u32) {
    predicate IsBlocked() {
      packed >= BLOCKED_BIT
    }

    function EconomicBurnRate(): u32 {
      packed % BURN_RATE_SPAN
    }

    function CheckedUnitShare(): Option<UnitShare32> {
      NewShare32(unitShare)
    }

    function CheckedEconomicBurnRate(): Option<UnitShare32> {
      NewShare32(EconomicBurnRate())
    }
  }

  function NewRewardShare(contributor: Pubkey, unitShare: u32, block: bool, rate: u32): Option<RewardShare> {
    if NewShare32(unitShare).None? || NewShare32(rate).None? then None
    else
      Some(RewardShare(contributor, unitShare, rate + if block then BLOCKED_BIT else 0))
  }

  /** Packing loses nothing. */
  lemma PackingRoundTrip(contributor: Pubkey, unitShare: u32, block: bool, rate: u32)
    requires NewRewardShare(contributor, unitShare, block, rate).Some?
    ensures var leaf := NewRewardShare(contributor, unitShare, block, rate).value;
      && leaf.IsBlocked() == block
      && leaf.CheckedEconomicBurnRate() == Some(rate)
      && leaf.CheckedUnitShare() == Some(unitShare)
  {}

  // ---------------------------------------------------------------- recipients

  const MAX_RECIPIENTS: nat := 8

  datatype RecipientShare = RecipientShare(key: Pubkey, share: UnitShare16)

  const NO_RECIPIENT: RecipientShare := RecipientShare(DEFAULT_PUBKEY, 0)

  /** The field of a contributor rewards account nobody has configured yet. */
  const NO_RECIPIENTS: seq<RecipientShare> :=
    [NO_RECIPIENT, NO_RECIPIENT, NO_RECIPIENT, NO_RECIPIENT, NO_RECIPIENT, NO_RECIPIENT, NO_RECIPIENT, NO_RECIPIENT]

  function SumShares(shares: seq<RecipientShare>): nat {
    if shares == [] then 0 else SumShares(shares[..|shares| - 1]) + shares[|shares| - 1].share
  }

  predicate ValidRecipient(r: (Pubkey, u16)) {
    r.0 != DEFAULT_PUBKEY && 0 < r.1 <= SHARE16_MAX
  }

  /** What `RecipientShares::new` accepts: at most 8 named recipients whose positive shares make 100%. */
  predicate ValidRecipients(rs: seq<(Pubkey, u16)>) {
    && |rs| <= MAX_RECIPIENTS
    && (forall r :: r in rs ==> ValidRecipient(r))
    && SumShares(AsShares(rs)) == SHARE16_MAX
  }

  function AsShares(rs: seq<(Pubkey, u16)>): (shares: seq<RecipientShare>)
    requires forall r :: r in rs ==> ValidRecipient(r)
    ensures |shares| == |rs|
  {
    seq(|rs|, i requires 0 <= i < |rs| && ValidRecipient(rs[i]) => RecipientShare(rs[i].0, rs[i].1))
  }

  function Active(shares: seq<RecipientShare>): seq<RecipientShare> {
    if shares == [] then []
    else
      var last := shares[|shares| - 1];
      Active(shares[..|shares| - 1]) + if last.key != DEFAULT_PUBKEY then [last] else []
  }

  /** The named recipients followed by default entries. */
  function Padded(rs: seq<(Pubkey, u16)>): seq<RecipientShare>
    requires ValidRecipients(rs)
  {
    AsShares(rs) + NO_RECIPIENTS[|rs|..]
  }

  method NewRecipientShares(recipients: seq<(Pubkey, u16)>) returns (r: Option<seq<RecipientShare>>)
    ensures r.Some? <==> ValidRecipients(recipients)
    ensures r.Some? ==> r.value == Padded(recipients)
  {
    if |recipients| > MAX_RECIPIENTS {
      return None;
    }
    var out := new RecipientShare[MAX_RECIPIENTS](_ => NO_RECIPIENT);
    var total: UnitShare16 := 0;
    for i := 0 to |recipients|
      invariant forall named :: named in recipients[..i] ==> ValidRecipient(named)
      invariant out[..i] == AsShares(recipients[..i])
      invariant forall j :: i <= j < MAX_RECIPIENTS ==> out[j] == NO_RECIPIENT
      invariant total == SumShares(out[..i])
    {
      var (key, share) := recipients[i];
      if key == DEFAULT_PUBKEY || NewShare16(share).None? || share == 0 {
        assert !ValidRecipient(recipients[i]);
        return None;
      }
      ghost var before := out[..i];
      out[i] := RecipientShare(key, share);
      assert out[..i + 1] == before + [RecipientShare(key, share)];
      assert AsShares(recipients[..i + 1]) == AsShares(recipients[..i]) + [RecipientShare(key, share)];
      if total + share > SHARE16_MAX {
        if ValidRecipients(recipients) {
          SharesOfPrefix(recipients, i + 1);
          assert false;
        }
        return None;
      }
      total := total + share;
    }
    assert recipients[..|recipients|] == recipients;
    if total != SHARE16_MAX {
      return None;
    }
    return Some(out[..]);
  }

  lemma {:induction false} SharesOfPrefix(rs: seq<(Pubkey, u16)>, n: nat)
    requires n <= |rs|
    requires forall r :: r in rs ==> ValidRecipient(r)
    ensures SumShares(AsShares(rs[..n])) <= SumShares(AsShares(rs))
    decreases |rs| - n
  {
    if n == |rs| {
      assert rs[..n] == rs;
    } else {
      SharesOfPrefix(rs, n + 1);
      assert AsShares(rs[..n + 1])[..n] == AsShares(rs[..n]);
    }
  }

  /** Padding with default entries does not change what is active. */
  lemma {:induction false} ActiveOfPadded(all: seq<RecipientShare>, named: seq<RecipientShare>)
    requires |named| <= |all| && all[..|named|] == named
    requires forall i :: 0 <= i < |named| ==> named[i].key != DEFAULT_PUBKEY
    requires forall i :: |named| <= i < |all| ==> all[i].key == DEFAULT_PUBKEY
    ensures Active(all) == named
    decreases |all|
  {
    if all != [] {
      var n := |all| - 1;
      if |named| == |all| {
        ActiveOfPadded(all[..n], named[..n]);
        assert named == named[..n] + [named[n]];
      } else {
        ActiveOfPadded(all[..n], named);
      }
    }
  }

  /** The only values the account field ever holds. */
  predicate RecipientsWellformed(shares: seq<RecipientShare>) {
    Active(shares) == [] || (|Active(shares)| <= MAX_RECIPIENTS && SumShares(Active(shares)) == SHARE16_MAX)
  }

  lemma NoRecipientsWellformed()
    ensures Active(NO_RECIPIENTS) == []
  {
    ActiveOfPadded(NO_RECIPIENTS, []);
  }

  /** What the constructor accepts is what becomes active. */
  lemma PaddedIsActive(rs: seq<(Pubkey, u16)>)
    requires ValidRecipients(rs)
    ensures |Padded(rs)| == MAX_RECIPIENTS
    ensures Active(Padded(rs)) == AsShares(rs) && RecipientsWellformed(Padded(rs))
  {
    forall i | 0 <= i < |rs|
      ensures AsShares(rs)[i].key != DEFAULT_PUBKEY
    {
      assert rs[i] in rs;
    }
    ActiveOfPadded(Padded(rs), AsShares(rs));
  }

  // ---------------------------------------------------------------- the split

  /** Everything the recipients receive out of an amount. */
  function Transferred(amount: u64, shares: seq<RecipientShare>): nat {
    if shares == [] then 0
    else
      var n := |shares| - 1;
      Transferred(amount, shares[..n]) + MulScalar16(shares[n].share, amount)
  }

  function ShareAmount(pool: u64, unitShare: UnitShare32): u64 {
    MulScalar32(unitShare, pool)
  }

  /** What is left for the recipients once the burn rate's part is taken. */
  function Payable(pool: u64, unitShare: UnitShare32, rate: BurnRate): u64 {
    ShareAmount(pool, unitShare) - MulScalar32(rate, ShareAmount(pool, unitShare))
  }

  function Distributed(pool: u64, unitShare: UnitShare32, rate: BurnRate, shares: seq<RecipientShare>): nat {
    Transferred(Payable(pool, unitShare, rate), shares)
  }

  /** The burned amount: the proportional part plus the dust the recipients' shares leave over. */
  function Burned(pool: u64, unitShare: UnitShare32, rate: BurnRate, shares: seq<RecipientShare>): int {
    MulScalar32(rate, ShareAmount(pool, unitShare))
    + (Payable(pool, unitShare, rate) - Distributed(pool, unitShare, rate, shares))
  }

  // ---------------------------------------------------------------- who receives what

  function Same(x: int): int {
    x
  }

  /** The parts of an amount that belong to one of the owners: one entry per share that is theirs. */
  ghost function PartsTo<T>(x: T, owners: seq<T>, shares: seq<RecipientShare>, amount: u64): map<nat, int>
    requires |owners| == |shares|
  {
    map k: nat | k < |shares| && owners[k] == x :: MulScalar16(shares[k].share, amount)
  }

  ghost function SumTo<T>(x: T, owners: seq<T>, shares: seq<RecipientShare>, amount: u64): int
    requires |owners| == |shares|
  {
    MapSum(PartsTo(x, owners, shares, amount), Same)
  }

  /** One share more adds its part to its owner. */
  lemma SumToNext<T>(x: T, owners: seq<T>, shares: seq<RecipientShare>, amount: u64, n: nat)
    requires |owners| == |shares| && n < |shares|
    ensures SumTo(x, owners[..n + 1], shares[..n + 1], amount)
         == SumTo(x, owners[..n], shares[..n], amount)
            + if owners[n] == x then MulScalar16(shares[n].share, amount) else 0
  {
    var before := PartsTo(x, owners[..n], shares[..n], amount);
    var after := PartsTo(x, owners[..n + 1], shares[..n + 1], amount);
    if owners[n] == x {
      assert after == before[n := MulScalar16(shares[n].share, amount) as int];
      MapSumUpdate(before, n, MulScalar16(shares[n].share, amount) as int, Same);
    } else {
      assert after == before;
    }
  }

  /** No other share belongs to the owner of this one. */
  ghost predicate Single<T>(owners: seq<T>, k: nat) {
    k < |owners| && forall j :: 0 <= j < |owners| && owners[j] == owners[k] ==> j == k
  }

  /** An owner of a single share receives exactly its part. */
  lemma SumToOne<T>(k: nat, owners: seq<T>, shares: seq<RecipientShare>, amount: u64)
    requires |owners| == |shares| && Single(owners, k)
    ensures SumTo(owners[k], owners, shares, amount) == MulScalar16(shares[k].share, amount)
  {
    var parts := PartsTo(owners[k], owners, shares, amount);
    MapSumRemove(parts, k, Same);
    assert parts - {k} == map[];
  }

  lemma SumToNobody<T>(x: T, amount: u64)
    ensures SumTo(x, [], [], amount) == 0
  {
    var nobody: seq<T> := [];
    assert PartsTo(x, nobody, [], amount) == map[];
  }

  function Keys(shares: seq<RecipientShare>): (keys: seq<Pubkey>)
    ensures |keys| == |shares|
  {
    seq(|shares|, i requires 0 <= i < |shares| => shares[i].key)
  }

  function Received(m: map<nat, nat>, key: nat): nat {
    if key in m then m[key] else 0
  }

  /** The record of what every recipient was paid, after one more amount is shared out. */
  function Receiving(m: map<nat, nat>, amount: u64, shares: seq<RecipientShare>): map<nat, nat> {
    if shares == [] then m
    else
      var n := |shares| - 1;
      var before := Receiving(m, amount, shares[..n]);
      before[shares[n].key := Received(before, shares[n].key) + MulScalar16(shares[n].share, amount)]
  }

  /** Every recipient's record grows by the parts under its key. */
  lemma {:induction false} ReceivingAt(m: map<nat, nat>, amount: u64, shares: seq<RecipientShare>, key: nat)
    ensures Received(Receiving(m, amount, shares), key)
         == Received(m, key) + SumTo(key, Keys(shares), shares, amount)
    decreases |shares|
  {
    if shares == [] {
      SumToNobody(key, amount);
      assert Keys(shares) == [];
    } else {
      var n := |shares| - 1;
      ReceivingAt(m, amount, shares[..n], key);
      SumToNext(key, Keys(shares), shares, amount, n);
      assert Keys(shares)[..n] == Keys(shares[..n]) && Keys(shares)[..n + 1] == Keys(shares);
      assert shares[..n + 1] == shares;
    }
  }

  function AsInt(x: nat): int {
    x
  }

  /** All records together grow by all that is transferred. */
  lemma {:induction false} ReceivingTotal(m: map<nat, nat>, amount: u64, shares: seq<RecipientShare>)
    ensures MapSum(Receiving(m, amount, shares), AsInt) == MapSum(m, AsInt) + Transferred(amount, shares)
    decreases |shares|
  {
    if shares != [] {
      var n := |shares| - 1;
      var before := Receiving(m, amount, shares[..n]);
      ReceivingTotal(m, amount, shares[..n]);
      MapSumUpdate<nat>(before, shares[n].key, Received(before, shares[n].key) + MulScalar16(shares[n].share, amount),
                        AsInt);
    }
  }

  // ---------------------------------------------------------------- exact and tight

  lemma {:induction false} TransferredScaled(amount: u64, shares: seq<RecipientShare>)
    ensures Transferred(amount, shares) * SHARE16_MAX <= SumShares(shares) * amount
    ensures SumShares(shares) * amount <= (Transferred(amount, shares) + |shares|) * SHARE16_MAX - |shares|
    decreases |shares|
  {
    if shares != [] {
      var n := |shares| - 1;
      TransferredScaled(amount, shares[..n]);
      Distribute(SumShares(shares[..n]), shares[n].share, amount);
    }
  }

  lemma Distribute(a: int, b: int, x: int)
    ensures (a + b) * x == a * x + b * x
  {}

  /** No recipient list summing to 100% is paid more than the amount, or short by a unit per recipient. */
  lemma TransferredTight(amount: u64, shares: seq<RecipientShare>)
    requires shares != [] && SumShares(shares) == SHARE16_MAX
    ensures Transferred(amount, shares) <= amount < Transferred(amount, shares) + |shares|
  {
    TransferredScaled(amount, shares);
  }

  /**
   * One reward: transfers plus burn make exactly the contributor's share of the pool; the burn is at
   * least the burn rate's part and exceeds it by less than one unit per recipient.
   */
  lemma RewardSplitsExactly(pool: u64, unitShare: UnitShare32, rate: BurnRate, shares: seq<RecipientShare>)
    requires shares != [] && |shares| <= MAX_RECIPIENTS && SumShares(shares) == SHARE16_MAX
    ensures Distributed(pool, unitShare, rate, shares) + Burned(pool, unitShare, rate, shares)
         == ShareAmount(pool, unitShare)
    ensures var due := MulScalar32(rate, ShareAmount(pool, unitShare));
      due <= Burned(pool, unitShare, rate, shares) <= due + |shares| - 1 <= due + MAX_RECIPIENTS - 1
  {
    TransferredTight(Payable(pool, unitShare, rate), shares);
  }
}
