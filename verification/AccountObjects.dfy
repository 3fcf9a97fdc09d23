/** The accounts as the objects the instructions update in place, and the primitive changes to them. */
module AccountObjects {
  import opened Units
  import opened Bitmaps
  import opened Rewards
  import opened Accounts
  import opened Distributions
  import opened World

  datatype ProgramError = InvalidAccountData | InvalidInstructionData | ArithmeticOverflow | InsufficientFunds
                        | InvalidRealloc | Panic

  datatype ProgramResult = Ok | Err(error: ProgramError) {
    predicate IsFailure() {
      Err?
    }

    function PropagateFailure(): ProgramResult
      requires Err?
    {
      this
    }
  }

  /** The part of an account the runtime keeps. */
  class AccountInfo {
    var lamports: nat

    constructor (lamports: nat)
      ensures this.lamports == lamports
    {
      this.lamports := lamports;
    }
  }

  class TokenAccount {
    var amount: nat

    constructor (amount: nat)
      ensures this.amount == amount
    {
      this.amount := amount;
    }
  }

  class ProgramConfigAccount {
    var data: ProgramConfig

    constructor (data: ProgramConfig)
      ensures this.data == data
    {
      this.data := data;
    }
  }

  class ContributorRewardsAccount {
    var recipients: seq<RecipientShare>

    constructor ()
      ensures recipients == NO_RECIPIENTS
    {
      recipients := NO_RECIPIENTS;
    }
  }

  class JournalAccount {
    const info: AccountInfo
    var data: Journal

    constructor (info: AccountInfo, data: Journal)
      ensures this.info == info && this.data == data
    {
      this.info, this.data := info, data;
    }

    function View(): JournalState
      reads this, info
    {
      JournalState(data, info.lamports)
    }
  }

  class DepositAccount {
    const info: AccountInfo
    var data: Deposit

    constructor (info: AccountInfo, data: Deposit)
      ensures this.info == info && this.data == data
    {
      this.info, this.data := info, data;
    }

    function View(): DepositState
      reads this, info
    {
      DepositState(data, info.lamports)
    }

    /** This object is the deposit of its node in a world. */
    ghost predicate In(w: World)
      reads this, info
    {
      data.node in w.deposits && w.deposits[data.node] == View()
    }
  }

  /** A distribution: the record at the front of the account's data, the bytes after it, and its 2Z account. */
  class DistributionAccount {
    const info: AccountInfo
    const token: TokenAccount
    var data: Distribution
    var remainingData: array<bv8>

    constructor (info: AccountInfo, token: TokenAccount, data: Distribution)
      ensures this.info == info && this.token == token && this.data == data
      ensures fresh(remainingData) && remainingData.Length == 0
    {
      this.info, this.token, this.data := info, token, data;
      remainingData := new bv8[0];
    }

    ghost function Repr(): set<object>
      reads this
    {
      {this, info, token, remainingData}
    }

    function View(): DistributionState
      reads this, info, token, remainingData
    {
      DistributionState(data, remainingData[..], info.lamports, token.amount)
    }

    /** This object is the distribution of its epoch in a world. */
    ghost predicate In(w: World)
      reads this, info, token, remainingData
    {
      data.dzEpoch in w.distributions && w.distributions[data.dzEpoch] == View()
    }

    /** `resize`: a longer buffer with zeros at its end. */
    method Resize(n: nat) returns (r: ProgramResult)
      modifies this`remainingData
      ensures r.Ok? <==> n <= MAX_DATA_INCREASE
      ensures r.Ok? ==> remainingData[..] == old(remainingData[..]) + Zeros(n)
      ensures r.Ok? ==> fresh(remainingData)
    {
      if n > MAX_DATA_INCREASE {
        return Err(InvalidRealloc);
      }
      var longer := new bv8[remainingData.Length + n](_ => 0);
      for i := 0 to remainingData.Length
        modifies longer
        invariant forall k :: 0 <= k < i ==> longer[k] == remainingData[k]
        invariant forall k :: i <= k < longer.Length ==> longer[k] == 0
      {
        longer[i] := remainingData[i];
      }
      remainingData := longer;
      return Ok;
    }

    /** `ceil(n / 8)` as the allocations compute it, in 32 bits. */
    static method BitmapLength(n: u32) returns (length: u32)
      ensures length == BytesFor(n)
    {
      if n % 8 == 0 {
        length := n / 8;
      } else {
        length := n / 8 + 1;
      }
    }

    /** What the payer owes for growing the account: rent for the new length, less what is already there. */
    method RentShortfall() returns (lamports: nat)
      ensures lamports == TopUp(View(), 0)
    {
      var rent := MinimumBalance(DISTRIBUTION_DATA_END + remainingData.Length);
      lamports := if info.lamports < rent then rent - info.lamports else 0;
    }
  }

  /** A transfer by the system program; the two accounts may be one. */
  method Transfer(from: AccountInfo, to: AccountInfo, lamports: nat) returns (r: ProgramResult)
    modifies from, to
    ensures r.Ok? <==> lamports <= old(from.lamports)
    ensures r.Err? ==> from.lamports == old(from.lamports) && to.lamports == old(to.lamports)
    ensures r.Ok? && from != to ==>
              from.lamports == old(from.lamports) - lamports && to.lamports == old(to.lamports) + lamports
    ensures r.Ok? && from == to ==> from.lamports == old(from.lamports)
  {
    if from.lamports < lamports {
      return Err(InsufficientFunds);
    }
    from.lamports := from.lamports - lamports;
    to.lamports := to.lamports + lamports;
    return Ok;
  }

  /** A transfer by the token program. */
  method TransferTokens(from: TokenAccount, to: TokenAccount, amount: nat) returns (r: ProgramResult)
    requires from != to
    modifies from, to
    ensures r.Ok? <==> amount <= old(from.amount)
    ensures r.Ok? ==> from.amount == old(from.amount) - amount && to.amount == old(to.amount) + amount
    ensures r.Err? ==> from.amount == old(from.amount) && to.amount == old(to.amount)
  {
    if from.amount < amount {
      return Err(InsufficientFunds);
    }
    from.amount := from.amount - amount;
    to.amount := to.amount + amount;
    return Ok;
  }

  /** Sets the bit of a leaf in a slice of the account's bytes, once. */
  method TryProcessRemainingDataLeafIndex(data: array<bv8>, lo: nat, hi: nat, leafIndex: u32) returns (r: ProgramResult)
    modifies data
    ensures r.Ok? <==> CanMark(old(data[..]), lo, hi, leafIndex)
    ensures r.Ok? ==> data[..] == Mark(old(data[..]), lo, hi, leafIndex)
    ensures r.Err? ==> data[..] == old(data[..])
  {
    if !(lo <= hi <= data.Length) {
      return Err(Panic);  // the slice
    }
    var byteIndex := leafIndex / 8;
    if byteIndex >= hi - lo {
      return Err(InvalidInstructionData);
    }
    var leafByte := data[lo + byteIndex];
    var leafBit := leafIndex % 8;
    if Bit(leafByte, leafBit) {
      return Err(InvalidAccountData);
    }
    data[lo + byteIndex] := SetBit(leafByte, leafBit);
    return Ok;
  }

  /**
   * Creates an account of a given length at an address that may already hold lamports: either the
   * system program funds a fresh one, or the missing part is transferred to it.
   */
  method TryCreateAccount(payer: AccountInfo, newAccount: AccountInfo, dataLen: nat, additionalLamports: u64)
    returns (r: ProgramResult)
    requires payer != newAccount
    requires payer.lamports + newAccount.lamports < U64_MAX && MinimumBalance(dataLen) < TWO_64
    modifies payer, newAccount
    ensures r.Ok? ==>
              && newAccount.lamports >= old(newAccount.lamports)
              && newAccount.lamports >= additionalLamports + MinimumBalance(dataLen)
              && newAccount.lamports in {old(newAccount.lamports), additionalLamports + MinimumBalance(dataLen)}
    ensures var target := CreatedLamports(old(newAccount.lamports), additionalLamports, dataLen);
      && (r.Ok? <==> target <= old(payer.lamports) + old(newAccount.lamports))
      && (r.Ok? ==> newAccount.lamports == target
                    && payer.lamports == old(payer.lamports) + old(newAccount.lamports) - target)
  {
    var lamports := SatAdd64(additionalLamports, MinimumBalance(dataLen));
    if newAccount.lamports == 0 {
      r := Transfer(payer, newAccount, lamports);
    } else {
      var difference := if lamports <= newAccount.lamports then 0 else lamports - newAccount.lamports;
      if difference != 0 {
        r := Transfer(payer, newAccount, difference);
      } else {
        r := Ok;
      }
    }
  }
}
