/** Fixed-width integer helpers shared by the firmware model: powers of two,
    C unsigned wrap-around, two's-complement reinterpretation and
    little-endian byte images. */
module Bits {

  datatype Option<T> = None | Some(value: T)

  type u8 = x: int | 0 <= x < 0x100
  type u16 = x: int | 0 <= x < 0x1_0000
  type u32 = x: int | 0 <= x < 0x1_0000_0000
  type u64 = x: int | 0 <= x < 0x1_0000_0000_0000_0000

  const U32_LIMIT: nat := 0x1_0000_0000
  const U64_LIMIT: nat := 0x1_0000_0000_0000_0000

  function Min(a: int, b: int): int
  {
    if a <= b then a else b
  }

  /** 2^n as an exact integer (the model's reading of `pow(2, n)`). */
  function Pow2(n: nat): (r: nat)
    ensures r >= 1
  {
    if n == 0 then 1 else 2 * Pow2(n - 1)
  }

  lemma {:induction false} Pow2Add(a: nat, b: nat)
    ensures Pow2(a + b) == Pow2(a) * Pow2(b)
  {
    if a > 0 {
      Pow2Add(a - 1, b);
    }
  }

  /** The value an unsigned 32-bit C expression ends with. */
  function Wrap32(x: int): (r: u32)
    ensures 0 <= x < U32_LIMIT ==> r == x
  {
    x % U32_LIMIT
  }

  /** The value an unsigned 64-bit C expression ends with. */
  function Wrap64(x: int): (r: u64)
    ensures 0 <= x < U64_LIMIT ==> r == x
  {
    x % U64_LIMIT
  }

  /** A 32-bit pattern read as a two's-complement `int`. */
  function ToInt32(x: u32): (r: int)
    ensures -0x8000_0000 <= r < 0x8000_0000
    ensures Wrap32(r) == x
  {
    if x < 0x8000_0000 then x else x - U32_LIMIT
  }

  /** `n` bytes of `x`, least significant first. */
  function LeBytes(x: nat, n: nat): (r: seq<u8>)
    ensures |r| == n
  {
    if n == 0 then [] else [x % 256] + LeBytes(x / 256, n - 1)
  }

  /** The number a little-endian byte string stands for. */
  function LeValue(s: seq<u8>): nat
  {
    if s == [] then 0 else s[0] + 256 * LeValue(s[1..])
  }

  lemma {:induction false} LeRoundTrip(x: nat, n: nat)
    requires x < Pow2(8 * n)
    ensures LeValue(LeBytes(x, n)) == x
  {
    if n > 0 {
      assert Pow2(8 * n) == 256 * Pow2(8 * (n - 1)) by {
        Pow2Add(8, 8 * (n - 1));
        assert Pow2(8) == 256;
      }
      LeRoundTrip(x / 256, n - 1);
      assert LeBytes(x, n)[1..] == LeBytes(x / 256, n - 1);
    }
  }

  /** A multiple of `k` strictly between `-k` and `k` is zero. */
  lemma SmallMultiple(a: int, k: int)
    requires k > 0 && -k < a * k < k
    ensures a == 0
  {
  }

  /** A value packed as `lo + hi * k` with `lo < k` unpacks to `lo` and `hi`. */
  lemma PackSplit(lo: int, hi: int, k: int)
    requires k > 0 && 0 <= lo < k
    ensures (lo + hi * k) / k == hi && (lo + hi * k) % k == lo
  {
    var x := lo + hi * k;
    var q, r := x / k, x % k;
    assert x == q * k + r;
    assert (q - hi) * k == lo - r;
    SmallMultiple(q - hi, k);
  }

  /** Every value unpacks into a low part below `k` and a quotient. */
  lemma UnpackJoin(x: int, k: int, n: int)
    requires k > 0 && 0 <= x < k * n
    ensures x == x % k + (x / k) * k
    ensures 0 <= x / k < n
  {
  }

  lemma Pow2Of16()
    ensures Pow2(8) == 0x100 && Pow2(16) == 0x1_0000
  {
    assert Pow2(8) == 0x100;
    Pow2Add(8, 8);
  }

  lemma Pow2Of32()
    ensures Pow2(32) == U32_LIMIT
  {
    Pow2Of16();
    Pow2Add(16, 16);
  }

  lemma Pow2Of64()
    ensures Pow2(64) == U64_LIMIT
  {
    Pow2Of32();
    Pow2Add(32, 32);
  }
}
