/** Get Log Page (rpu-app/src/cmds/get_log.c): the length and offset the
    command asks for, and the SMART / Health Information page, the only
    log this firmware returns, built in a static 512-byte buffer. */
module GetLog {
  import opened Bits
  import opened CmdLayout
  import opened RpuCmd
  import opened Bytes

  const SMART_RESP_SIZE: u32 := 512
  const LID_SMART: nat := 0x02

  /** `cdw10.lid`, bits 7:0. */
  function Lid(cdw10: u32): (l: u8)
  {
    cdw10 % 0x100
  }

  /** `(numdu << 16) | numdl`: NUMDL is bits 31:16 of cdw10, NUMDU bits 15:0
      of cdw11; the number of dwords, 0's based. */
  function Numd(cdw10: u32, cdw11: u32): (n: u32)
    ensures n / 0x1_0000 == cdw11 % 0x1_0000 && n % 0x1_0000 == cdw10 / 0x1_0000
  {
    PackSplit(cdw10 / 0x1_0000, cdw11 % 0x1_0000, 0x1_0000);
    cdw10 / 0x1_0000 + (cdw11 % 0x1_0000) * 0x1_0000
  }

  /** `len = (len + 1) * 4`, in `uint32_t`: the byte count asked for, which
      wraps for the largest dword counts. */
  function RequestedLen(cdw10: u32, cdw11: u32): (len: u32)
    ensures Numd(cdw10, cdw11) < 0x3FFF_FFFF ==> len == 4 * (Numd(cdw10, cdw11) + 1)
    ensures len % 4 == 0
  {
    Wrap32((Wrap32(Numd(cdw10, cdw11) + 1)) * 4)
  }

  /** A count of 2^30 dwords or more wraps: 0x3FFF_FFFF (0's based) and
      the all-ones count both ask for 0 bytes. */
  lemma RequestedLenWraps()
    ensures RequestedLen(0xFFFF_0000, 0x3FFF) == 0
    ensures RequestedLen(0xFFFF_0000, 0xFFFF) == 0
  {
  }

  /** `(len > SMART_RESP_SIZE) ? SMART_RESP_SIZE : len`. */
  function ReturnedLen(len: u32): (n: u32)
    ensures n <= SMART_RESP_SIZE && n <= len
    ensures n == len || n == SMART_RESP_SIZE
    ensures len <= SMART_RESP_SIZE ==> n == len
  {
    if len > SMART_RESP_SIZE then SMART_RESP_SIZE else len
  }

  /** `((uint64_t)cdw13 << 32) | cdw12`: logged when non-zero, never used. */
  function Offset(cdw12: u32, cdw13: u32): (off: u64)
    ensures off / U32_LIMIT == cdw13 && off % U32_LIMIT == cdw12
    ensures off == 0 <==> cdw12 == 0 && cdw13 == 0
  {
    PackSplit(cdw12, cdw13, U32_LIMIT);
    cdw12 + cdw13 * U32_LIMIT
  }

  /** The image `fill_smart_struct` leaves: zeros, then, little-endian, the
      composite temperature 298 K at byte 1, available spare 100% at byte 3,
      the spare threshold 5% at byte 4, 2000 at byte 128 (the Power On
      Hours counter of the SMART / Health Information log), 10 at byte 144
      (its Unsafe Shutdowns counter) and a zero 32-bit word at each of
      bytes 148, 152 and 156. */
  function SmartImage(): (img: seq<u8>)
    ensures |img| == SMART_RESP_SIZE
  {
    var s0 := seq(SMART_RESP_SIZE, _ => 0);
    var s1 := Put(s0, 1, LeBytes(298, 2));
    var s2 := Put(s1, 3, [100]);
    var s3 := Put(s2, 4, [5]);
    var s4 := Put(s3, 128, LeBytes(2000, 4));
    var s5 := Put(s4, 144, LeBytes(10, 4));
    var s6 := Put(s5, 148, LeBytes(0, 4));
    var s7 := Put(s6, 152, LeBytes(0, 4));
    Put(s7, 156, LeBytes(0, 4))
  }

  /** The image before the three trailing zero words are written. */
  function SmartFront(): (img: seq<u8>)
    ensures |img| == SMART_RESP_SIZE
  {
    var s0 := seq(SMART_RESP_SIZE, _ => 0);
    var s1 := Put(s0, 1, LeBytes(298, 2));
    var s2 := Put(s1, 3, [100]);
    var s3 := Put(s2, 4, [5]);
    var s4 := Put(s3, 128, LeBytes(2000, 4));
    Put(s4, 144, LeBytes(10, 4))
  }

  lemma SmartImageFront()
    ensures SmartImage()[..148] == SmartFront()[..148]
  {
    var s5 := SmartFront();
    var s6 := Put(s5, 148, LeBytes(0, 4));
    var s7 := Put(s6, 152, LeBytes(0, 4));
    PutKeeps(s5, 148, LeBytes(0, 4), 0, 148);
    PutKeeps(s6, 152, LeBytes(0, 4), 0, 148);
    PutKeeps(s7, 156, LeBytes(0, 4), 0, 148);
  }

  /** The composite temperature, 298 K, and the available spare and its
      threshold, 100% and 5%. */
  lemma SmartTemperatureAndSpare()
    ensures LeValue(SmartImage()[1..3]) == 298
    ensures SmartImage()[3] == 100 && SmartImage()[4] == 5
  {
    var t := LeBytes(298, 2);
    var s0: seq<u8> := seq(SMART_RESP_SIZE, _ => 0);
    var s1 := Put(s0, 1, t);
    var s2 := Put(s1, 3, [100]);
    var s3 := Put(s2, 4, [5]);
    var s4 := Put(s3, 128, LeBytes(2000, 4));
    var s5 := Put(s4, 144, LeBytes(10, 4));
    assert s5 == SmartFront();
    PutKeeps(s1, 3, [100], 1, 3);
    PutKeeps(s2, 4, [5], 1, 4);
    PutKeeps(s3, 128, LeBytes(2000, 4), 1, 5);
    PutKeeps(s4, 144, LeBytes(10, 4), 1, 5);
    assert s5[1..5] == s3[1..5];
    assert s3[1..3] == t;
    SmartImageFront();
    assert SmartImage()[1..5] == s5[1..5] by {
      assert SmartImage()[..148][1..5] == SmartImage()[1..5];
      assert s5[..148][1..5] == s5[1..5];
    }
    assert SmartImage()[1..3] == t by {
      assert SmartImage()[1..5][..2] == SmartImage()[1..3];
      assert s3[1..5][..2] == s3[1..3];
    }
    Pow2Of16();
    LeRoundTrip(298, 2);
  }

  /** Power On Hours, the 16-byte counter at byte 128 of the SMART /
      Health Information log, reads 2000 in its low word. */
  lemma SmartPowerOnHours()
    ensures LeValue(SmartImage()[128..132]) == 2000
  {
    var s0: seq<u8> := seq(SMART_RESP_SIZE, _ => 0);
    var s1 := Put(s0, 1, LeBytes(298, 2));
    var s2 := Put(s1, 3, [100]);
    var s3 := Put(s2, 4, [5]);
    var s4 := Put(s3, 128, LeBytes(2000, 4));
    PutKeeps(s4, 144, LeBytes(10, 4), 128, 132);
    SmartImageFront();
    assert SmartImage()[128..132] == SmartFront()[128..132];
    Pow2Of32();
    LeRoundTrip(2000, 4);
  }

  /** Unsafe Shutdowns, the 16-byte counter at byte 144 of the SMART /
      Health Information log, reads 10 in its low word. */
  lemma SmartUnsafeShutdowns()
    ensures LeValue(SmartImage()[144..148]) == 10
  {
    SmartImageFront();
    assert SmartImage()[144..148] == SmartFront()[144..148];
    Pow2Of32();
    LeRoundTrip(10, 4);
  }

  /** The bytes of the image outside its fields are zero. */
  predicate GapsZero(s: seq<u8>)
    requires |s| == SMART_RESP_SIZE
  {
    && s[0] == 0
    && (forall i :: 5 <= i < 128 ==> s[i] == 0)
    && (forall i :: 132 <= i < 144 ==> s[i] == 0)
    && (forall i :: 148 <= i < 512 ==> s[i] == 0)
  }

  /** Every other byte is zero. */
  lemma SmartZeros()
    ensures SmartImage()[0] == 0
    ensures forall i :: 5 <= i < 128 ==> SmartImage()[i] == 0
    ensures forall i :: 132 <= i < 144 ==> SmartImage()[i] == 0
    ensures forall i :: 148 <= i < 512 ==> SmartImage()[i] == 0
  {
    var z := LeBytes(0, 4);
    assert z == [0, 0, 0, 0];
    var s0: seq<u8> := seq(SMART_RESP_SIZE, _ => 0);
    assert GapsZero(s0);
    var s1 := Put(s0, 1, LeBytes(298, 2));
    assert GapsZero(s1);
    var s2 := Put(s1, 3, [100]);
    assert GapsZero(s2);
    var s3 := Put(s2, 4, [5]);
    assert GapsZero(s3);
    var s4 := Put(s3, 128, LeBytes(2000, 4));
    assert GapsZero(s4);
    var s5 := Put(s4, 144, LeBytes(10, 4));
    assert GapsZero(s5);
    var s6 := Put(s5, 148, z);
    assert GapsZero(s6);
    var s7 := Put(s6, 152, z);
    assert GapsZero(s7);
    var s8 := Put(s7, 156, z);
    assert GapsZero(s8);
    assert s8 == SmartImage();
  }

  /** `fill_smart_struct`: clear the buffer, then write the fields. */
  method FillSmart(buf: array<u8>)
    requires buf.Length == SMART_RESP_SIZE
    modifies buf
    ensures buf[..] == SmartImage()
  {
    var i := 0;
    while i < SMART_RESP_SIZE
      invariant 0 <= i <= SMART_RESP_SIZE
      invariant forall j :: 0 <= j < i ==> buf[j] == 0
    {
      buf[i] := 0;
      i := i + 1;
    }
    assert buf[..] == seq(SMART_RESP_SIZE, _ => 0);
    WriteLe(buf, 1, 298, 2);
    WriteLe(buf, 3, 100, 1);
    assert LeBytes(100, 1) == [100];
    WriteLe(buf, 4, 5, 1);
    assert LeBytes(5, 1) == [5];
    WriteLe(buf, 128, 2000, 4);
    WriteLe(buf, 144, 10, 4);
    WriteLe(buf, 148, 0, 4);
    WriteLe(buf, 152, 0, 4);
    WriteLe(buf, 156, 0, 4);
  }

  /** `get_smart_log`: the page goes back clamped to its size, from byte 0
      whatever the offset. */
  method GetSmartLog(c: Cmd, len: u32, off: u64, cqAddr: u64)
    requires c.Valid()
    modifies c.tc.smartBuf, c`cq, c.tc.dma
    ensures c.tc.smartBuf[..] == SmartImage()
    ensures ReturnedData(c, c.tc.smartAddr, ReturnedLen(len), cqAddr)
  {
    var n := if len > SMART_RESP_SIZE then SMART_RESP_SIZE else len;
    FillSmart(c.tc.smartBuf);
    c.ReturnData(c.tc.smartAddr, n, cqAddr);
  }

  /** `nvme_cmd_adm_get_log`: only the SMART page is answered; any other
      log identifier gets neither data nor a completion. */
  method GetLogPage(c: Cmd, cqAddr: u64)
    requires c.Valid()
    modifies c.tc.smartBuf, c`cq, c.tc.dma
    ensures Lid(c.sq[10]) == LID_SMART ==>
      && c.tc.smartBuf[..] == SmartImage()
      && ReturnedData(c, c.tc.smartAddr, ReturnedLen(RequestedLen(c.sq[10], c.sq[11])), cqAddr)
    ensures Lid(c.sq[10]) != LID_SMART ==> unchanged(c, c.tc.dma, c.tc.smartBuf)
  {
    var len := RequestedLen(c.sq[10], c.sq[11]);
    var off := Offset(c.sq[12], c.sq[13]);
    if Lid(c.sq[10]) == LID_SMART {
      GetSmartLog(c, len, off, cqAddr);
    }
  }
}
