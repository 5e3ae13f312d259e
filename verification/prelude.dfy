/** Types shared by every module of the model. */
module Prelude {

  type byte = x: int | 0 <= x < 256
  type u32 = x: int | 0 <= x <= 0xFFFF_FFFF
  type u16 = x: int | 0 <= x <= 0xFFFF

  const U32_MAX: u32 := 0xFFFF_FFFF

  datatype Option<+T> = None | Some(value: T)

  datatype Result<+T, +E> = Ok(value: T) | Err(error: E)

  /** Which end of the connection this library is playing. */
  datatype Side = Client | Server

  function Min(a: int, b: int): int {
    if a <= b then a else b
  }

  function Max(a: int, b: int): int {
    if a <= b then b else a
  }

  /** `u32::saturating_add`. */
  function SatAdd(a: u32, b: u32): u32 {
    if a + b <= U32_MAX then a + b else U32_MAX
  }

  /** `u32::saturating_sub`. */
  function SatSub(a: u32, b: u32): u32 {
    if b <= a then a - b else 0
  }

  function Sum(xs: seq<nat>): nat {
    if xs == [] then 0 else xs[0] + Sum(xs[1..])
  }

  lemma SumAppend(xs: seq<nat>, ys: seq<nat>)
    ensures Sum(xs + ys) == Sum(xs) + Sum(ys)
  {
    if xs == [] {
      assert xs + ys == ys;
    } else {
      assert (xs + ys)[1..] == xs[1..] + ys;
    }
  }

  /** A big-endian 32-bit integer. */
  function U32(b: seq<byte>): (n: u32)
    requires |b| == 4
  {
    0x100_0000 * b[0] as int + 0x1_0000 * b[1] as int + 0x100 * b[2] as int + b[3] as int
  }

  function Be32(n: u32): (b: seq<byte>)
    ensures |b| == 4 && U32(b) == n
  {
    var q1 := n / 0x100;
    var q2 := q1 / 0x100;
    [q2 / 0x100, q2 % 0x100, q1 % 0x100, n % 0x100]
  }

  lemma Be32Inverts(b: seq<byte>)
    requires |b| == 4
    ensures Be32(U32(b)) == b
  {
    var q2 := 0x100 * b[0] as int + b[1] as int;
    var q1 := 0x100 * q2 + b[2] as int;
    assert U32(b) == 0x100 * q1 + b[3] as int;
    Digits(q1, b[3]);
    Digits(q2, b[2]);
    Digits(b[0], b[1]);
  }

  lemma Digits(q: nat, r: byte)
    ensures (0x100 * q + r as int) / 0x100 == q && (0x100 * q + r as int) % 0x100 == r
  {
  }
}
