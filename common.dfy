/** Machine integer types and small helpers shared by every component. */
module Common {

  /** C `uint8_t`, as a mathematical integer: bit operations are written as arithmetic. */
  type byte = x: int | 0 <= x < 0x100

  /** C `uint16_t` / `uint32_t` / `int16_t` values, as mathematical integers. */
  type u16 = x: int | 0 <= x < 0x1_0000
  type u32 = x: int | 0 <= x < 0x1_0000_0000
  type i16 = x: int | -0x8000 <= x < 0x8000

  const U16_MOD: int := 0x1_0000
  const U32_MOD: int := 0x1_0000_0000
  const SIZE_T_MOD: int := 0x1_0000_0000_0000_0000

  datatype Option<T> = None | Some(value: T)

  /** `std::clamp(x, lo, hi)` and `std::max(lo, std::min(hi, x))`, which agree when lo <= hi. */
  function Clamp(x: int, lo: int, hi: int): (r: int)
    requires lo <= hi
    ensures lo <= r <= hi
    ensures lo <= x <= hi ==> r == x
    ensures x < lo ==> r == lo
    ensures x > hi ==> r == hi
  {
    if x < lo then lo else if x > hi then hi else x
  }

  /** C's integer division, which truncates toward zero (Dafny's `/` is Euclidean). */
  function TruncDiv(a: int, b: int): (q: int)
    requires b > 0
    // C's definition: a == q * b + rem, |rem| < b, and rem is 0 or has the sign of a
    ensures a >= 0 ==> 0 <= a - q * b < b
    ensures a < 0 ==> -b < a - q * b <= 0
  {
    if a >= 0 then a / b else -((-a) / b)
  }

  /** Conversion of a (possibly negative) C integer to `size_t` (64-bit wrap-around). */
  function ToSizeT(x: int): (r: nat)
    requires -SIZE_T_MOD <= x < SIZE_T_MOD
    ensures r < SIZE_T_MOD
    ensures (r - x) % SIZE_T_MOD == 0   // the representative of x modulo 2^64 in [0, 2^64)
  {
    if x >= 0 then x else x + SIZE_T_MOD
  }

  /** Conversion of a `size_t` to `int` (32-bit two's complement wrap-around). */
  function ToInt32(x: nat): (r: int)
    requires x < SIZE_T_MOD
    ensures -0x8000_0000 <= r < 0x8000_0000
    ensures x < 0x8000_0000 ==> r == x
  {
    var low := x % 0x1_0000_0000;
    if low < 0x8000_0000 then low else low - 0x1_0000_0000
  }

  /** `n` zero bytes, what `memset(p, 0, n)` writes. */
  function Zeros(n: nat): (z: seq<byte>)
    ensures |z| == n
    ensures forall i :: 0 <= i < n ==> z[i] == 0
  {
    seq(n, _ => 0)
  }

  /** `memcpy(dst, src, |src|)`: the first |src| bytes of `dst` become `src`, the rest stay. */
  method CopyInto(dst: array<byte>, src: seq<byte>)
    requires |src| <= dst.Length
    modifies dst
    ensures dst[..|src|] == src
    ensures dst[|src|..] == old(dst[|src|..])
  {
    forall i | 0 <= i < |src| {
      dst[i] := src[i];
    }
  }

  /** `memset(dst, 0, n)`: the first n bytes of `dst` become zero, the rest stay. */
  method ZeroFill(dst: array<byte>, n: nat)
    requires n <= dst.Length
    modifies dst
    ensures dst[..n] == Zeros(n)
    ensures dst[n..] == old(dst[n..])
  {
    forall i | 0 <= i < n {
      dst[i] := 0;
    }
  }
}
