/** Byte images of C structures: a buffer with a run of bytes stored at an
    offset, and the loops that store them. */
module Bytes {
  import opened Bits

  /** `s` with the bytes `b` written from offset `at` on. */
  function Put(s: seq<u8>, at: nat, b: seq<u8>): (r: seq<u8>)
    requires at + |b| <= |s|
    ensures |r| == |s|
    ensures r[at..at + |b|] == b
    ensures forall i :: 0 <= i < |s| && !(at <= i < at + |b|) ==> r[i] == s[i]
  {
    s[..at] + b + s[at + |b|..]
  }

  /** A write elsewhere leaves the slice `[lo, hi)` alone. */
  lemma PutKeeps(s: seq<u8>, at: nat, b: seq<u8>, lo: nat, hi: nat)
    requires at + |b| <= |s| && lo <= hi <= |s|
    requires hi <= at || at + |b| <= lo
    ensures Put(s, at, b)[lo..hi] == s[lo..hi]
  {
    assert forall i :: lo <= i < hi ==> Put(s, at, b)[i] == s[i];
  }

  /** A store of the `n` little-endian bytes of `x` at offset `at`, as
      `sys_write8/16/32` or a `memcpy` of an integer field does it. */
  method WriteLe(buf: array<u8>, at: nat, x: nat, n: nat)
    requires at + n <= buf.Length
    modifies buf
    ensures buf[..] == Put(old(buf[..]), at, LeBytes(x, n))
  {
    var i := 0;
    var v := x;
    while i < n
      invariant 0 <= i <= n
      invariant LeBytes(x, n) == LeBytes(x, i) + LeBytes(v, n - i)
      invariant buf[..] == Put(old(buf[..]), at, LeBytes(x, i))
    {
      LeBytesSplit(x, i, v, n);
      buf[at + i] := v % 256;
      assert buf[..] == Put(old(buf[..]), at, LeBytes(x, i + 1));
      v := v / 256;
      i := i + 1;
    }
  }

  /** One more byte of the little-endian image. */
  lemma {:induction false} LeBytesSplit(x: nat, i: nat, v: nat, n: nat)
    requires i < n && LeBytes(x, n) == LeBytes(x, i) + LeBytes(v, n - i)
    ensures LeBytes(x, i + 1) == LeBytes(x, i) + [v % 256]
    ensures LeBytes(x, n) == LeBytes(x, i + 1) + LeBytes(v / 256, n - i - 1)
  {
    assert LeBytes(v, n - i) == [v % 256] + LeBytes(v / 256, n - i - 1);
    LeBytesPrefix(x, i + 1, n);
    assert LeBytes(x, n)[..i + 1] == LeBytes(x, i) + [v % 256];
  }

  /** The first `k` bytes of an `n`-byte image are the `k`-byte image. */
  lemma {:induction false} LeBytesPrefix(x: nat, k: nat, n: nat)
    requires k <= n
    ensures LeBytes(x, n)[..k] == LeBytes(x, k)
    decreases k
  {
    if k > 0 {
      LeBytesPrefix(x / 256, k - 1, n - 1);
      assert LeBytes(x, n)[..k] == [x % 256] + LeBytes(x / 256, n - 1)[..k - 1];
    }
  }

  /** `memcpy(buf + at, b, |b|)`. */
  method Copy(buf: array<u8>, at: nat, b: seq<u8>)
    requires at + |b| <= buf.Length
    modifies buf
    ensures buf[..] == Put(old(buf[..]), at, b)
  {
    var i := 0;
    while i < |b|
      invariant 0 <= i <= |b|
      invariant buf[..] == Put(old(buf[..]), at, b[..i])
    {
      buf[at + i] := b[i];
      assert b[..i + 1] == b[..i] + [b[i]];
      i := i + 1;
    }
    assert b[..|b|] == b;
  }

  /** `memset(buf, v, buf.Length)`. */
  method Fill(buf: array<u8>, v: u8)
    modifies buf
    ensures buf[..] == seq(buf.Length, _ => v)
  {
    var i := 0;
    while i < buf.Length
      invariant 0 <= i <= buf.Length
      invariant forall j :: 0 <= j < i ==> buf[j] == v
    {
      buf[i] := v;
      i := i + 1;
    }
  }

  /** `std::vector::resize`: the leading bytes kept, zeros appended. */
  function Resized(v: seq<u8>, n: nat): (r: seq<u8>)
    ensures |r| == n
    ensures forall i :: 0 <= i < n && i < |v| ==> r[i] == v[i]
    ensures forall i :: |v| <= i < n ==> r[i] == 0
  {
    if n <= |v| then v[..n] else v + seq(n - |v|, _ => 0)
  }
}
