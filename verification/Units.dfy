/** Machine integers of the on-chain program and its fixed-point share arithmetic. */
module Units {
  const TWO_32: int := 0x1_0000_0000
  const TWO_64: int := 0x1_0000_0000_0000_0000
  const TWO_128: int := TWO_64 * TWO_64

  type u16 = x: int | 0 <= x < 0x1_0000
  type u32 = x: int | 0 <= x < TWO_32
  type u64 = x: int | 0 <= x < TWO_64
  type u128 = x: int | 0 <= x < TWO_128

  const U32_MAX: u32 := TWO_32 - 1
  const U64_MAX: u64 := TWO_64 - 1

  datatype Option<+T> = None | Some(value: T) {
    function GetOr(other: T): T {
      if Some? then value else other
    }
  }

  // The `+=` and `-=` of a release build: no overflow check, so the result wraps.

  function WrapAdd64(a: u64, b: u64): u64 {
    if a + b < TWO_64 then a + b else a + b - TWO_64
  }

  function WrapSub64(a: u64, b: u64): u64 {
    if b <= a then a - b else a - b + TWO_64
  }

  function WrapAdd32(a: u32, b: u32): u32 {
    if a + b < TWO_32 then a + b else a + b - TWO_32
  }

  // The saturating operations.

  function SatAdd64(a: u64, b: u64): u64 {
    if a + b < TWO_64 then a + b else U64_MAX
  }

  function SatAdd32(a: u32, b: u32): u32 {
    if a + b < TWO_32 then a + b else U32_MAX
  }

  function SatSub32(a: u32, b: u32): u32 {
    if b <= a then a - b else 0
  }

  function SatMul128(a: u64, b: u64): u128 {
    MulNonNegative(a, b);
    if a * b < TWO_128 then a * b else TWO_128 - 1
  }

  lemma MulNonNegative(a: int, b: int)
    requires 0 <= a && 0 <= b
    ensures 0 <= a * b
  {}

  function Min(a: int, b: int): int {
    if a <= b then a else b
  }

  function Max(a: int, b: int): int {
    if a <= b then b else a
  }

  // ---------------------------------------------------------------- unit shares

  const SHARE16_MAX: int := 10_000
  const SHARE32_MAX: int := 1_000_000_000

  /** 1 is 0.01%. */
  type UnitShare16 = x: int | 0 <= x <= SHARE16_MAX

  /** 1 is 0.0000001%. */
  type UnitShare32 = x: int | 0 <= x <= SHARE32_MAX

  type BurnRate = UnitShare32
  type EpochDuration = u32

  function NewShare16(value: u16): Option<UnitShare16> {
    if value <= SHARE16_MAX then Some(value) else None
  }

  function NewShare32(value: u32): Option<UnitShare32> {
    if value <= SHARE32_MAX then Some(value) else None
  }

  /** `mul_scalar` at either scale: the product is formed in 128 bits, saturating, then divided. */
  function MulScalar(share: int, unit: int, x: u64): (r: u64)
    requires 0 <= share <= unit && 0 < unit < TWO_32
    ensures r <= x
    ensures r * unit <= share * x < (r + 1) * unit
  {
    ProductFits(share, unit, x);
    FloorOfProduct(share, unit, x);
    SatMul128(share, x) / unit
  }

  function MulScalar16(share: UnitShare16, x: u64): (r: u64)
    ensures r <= x
    ensures r * SHARE16_MAX <= share * x < (r + 1) * SHARE16_MAX
  {
    MulScalar(share, SHARE16_MAX, x)
  }

  function MulScalar32(share: UnitShare32, x: u64): (r: u64)
    ensures r <= x
    ensures r * SHARE32_MAX <= share * x < (r + 1) * SHARE32_MAX
  {
    MulScalar(share, SHARE32_MAX, x)
  }

  /** The 128-bit product never saturates. */
  lemma ProductFits(share: int, unit: int, x: u64)
    requires 0 <= share <= unit < TWO_32
    ensures 0 <= share * x <= unit * x < TWO_128
  {
    assert share * x <= unit * x by { MulMonotone(share, unit, x); }
    assert unit * x <= TWO_32 * x by { MulMonotone(unit, TWO_32, x); }
  }

  lemma MulMonotone(a: int, b: int, x: int)
    requires a <= b && 0 <= x
    ensures a * x <= b * x
  {}

  lemma FloorOfProduct(share: int, unit: int, x: int)
    requires 0 <= share <= unit && 0 < unit && 0 <= x
    ensures var q := share * x / unit; 0 <= q <= x && q * unit <= share * x < (q + 1) * unit
  {
    var q := share * x / unit;
    assert share * x == q * unit + share * x % unit;
    assert share * x <= unit * x by { MulMonotone(share, unit, x); }
    if q > x {
      MulMonotone(x + 1, q, unit);
      assert false;
    }
  }
}
