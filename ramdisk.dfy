/** The RAM-backed block device of rpu-app/src/ramdisk.c: `BLK_CNT` blocks
    of 512 bytes at the start of an SRAM region.  A lookup hands out the
    address of the first block of a range, or nothing. */
module Ramdisk {
  import opened Bits

  /** `BLK_SIZE`, `1 << BLK_SHIFT`. */
  const BLK_SIZE: nat := 512

  class Disk {
    /** The SRAM base address and `BLK_CNT`, both from the device tree. */
    const base: u32
    const blkCnt: nat
    const buffer: array<u8>

    predicate Valid()
    {
      && buffer.Length == blkCnt * BLK_SIZE
      && 1 <= blkCnt
      && base + blkCnt * BLK_SIZE <= U32_LIMIT
    }

    constructor Make(base: u32, blkCnt: nat, buffer: array<u8>)
      requires buffer.Length == blkCnt * BLK_SIZE && 1 <= blkCnt && base + blkCnt * BLK_SIZE <= U32_LIMIT
      ensures Valid() && this.base == base && this.blkCnt == blkCnt && this.buffer == buffer
    {
      this.base, this.blkCnt, this.buffer := base, blkCnt, buffer;
    }

    /** `&ramdisk_buffer[lba*BLK_SIZE]`, for a block inside the disk. */
    function BlockAddr(lba: nat): (a: u32)
      requires Valid() && lba < blkCnt
      ensures base <= a && a + BLK_SIZE <= base + blkCnt * BLK_SIZE
      ensures (a - base) % BLK_SIZE == 0 && (a - base) / BLK_SIZE == lba
    {
      PackSplit(0, lba, BLK_SIZE);
      base + lba * BLK_SIZE
    }

    /** `ramdisk_read` as written: only the first block is checked, the
        block count is ignored. */
    function ReadAsWritten(lba: u32, nlb: u32): (r: Option<u32>)
      requires Valid()
      ensures r.Some? <==> lba < blkCnt
      ensures r.Some? ==> r.value == BlockAddr(lba)
    {
      if lba < blkCnt then Some(BlockAddr(lba)) else None
    }

    /** `ramdisk_write` as written: the 32-bit sum `lba + nlb` must lie
        below `BLK_CNT`, one block short of the end. */
    function WriteAsWritten(lba: u32, nlb: u32): (r: Option<u32>)
      requires Valid()
      ensures r.Some? <==> lba < blkCnt && Wrap32(lba as int + nlb) < blkCnt
      ensures r.Some? ==> r.value == BlockAddr(lba)
    {
      if lba < blkCnt && Wrap32(lba as int + nlb) < blkCnt then Some(BlockAddr(lba)) else None
    }

    /** The range `[lba, lba + nlb)` of a lookup lies inside the disk. */
    predicate InDisk(lba: nat, nlb: nat)
    {
      lba + nlb <= blkCnt
    }

    /** The lookup both functions evidently intend: the first block of a
        non-empty range that lies inside the disk. */
    function Lookup(lba: u32, nlb: u32): (r: Option<u32>)
      requires Valid()
      ensures r.Some? <==> 1 <= nlb && InDisk(lba, nlb)
      ensures r.Some? ==>
        && r.value == BlockAddr(lba)
        && r.value + nlb * BLK_SIZE <= base + blkCnt * BLK_SIZE
    {
      if 1 <= nlb && lba as int + nlb <= blkCnt then Some(BlockAddr(lba)) else None
    }

    /** The corrected `ramdisk_read`. */
    function Read(lba: u32, nlb: u32): (r: Option<u32>)
      requires Valid()
      ensures r == Lookup(lba, nlb)
      ensures r.Some? ==> ReadAsWritten(lba, nlb) == r
    {
      Lookup(lba, nlb)
    }

    /** The corrected `ramdisk_write`; for the at most 65536 blocks a
        command can name it accepts every write the code accepts, and the
        ranges ending on the last block besides. */
    function Write(lba: u32, nlb: u32): (r: Option<u32>)
      requires Valid()
      ensures r == Lookup(lba, nlb)
      ensures 1 <= nlb <= 0x1_0000 && WriteAsWritten(lba, nlb).Some? ==> r == WriteAsWritten(lba, nlb)
    {
      Lookup(lba, nlb)
    }

    /** A read of two blocks starting at the last one passes the check of
        the code, and its second block lies past the end of the disk. */
    lemma ReadPastEnd()
      requires Valid()
      ensures blkCnt - 1 < U32_LIMIT
      ensures ReadAsWritten(blkCnt - 1, 2).Some? && !InDisk(blkCnt - 1, 2)
      ensures Read(blkCnt - 1, 2) == None
    {
    }

    /** A write of the last block alone is refused by the code, although it
        fits. */
    lemma LastBlockRefused()
      requires Valid()
      ensures blkCnt - 1 < U32_LIMIT
      ensures WriteAsWritten(blkCnt - 1, 1) == None && InDisk(blkCnt - 1, 1)
      ensures Write(blkCnt - 1, 1) == Some(BlockAddr(blkCnt - 1))
    {
    }

    /** Inside a disk that fits in the address space the 32-bit sum never
        wraps, so the code's write test is exactly "ends before the last
        block". */
    lemma WriteAsWrittenExact(lba: u32, nlb: u32)
      requires Valid()
      requires nlb <= 0x1_0000
      ensures WriteAsWritten(lba, nlb).Some? <==> lba as int + nlb < blkCnt
    {
      if lba < blkCnt {
        assert lba as int + nlb < U32_LIMIT;
      }
    }

    /** `ramdisk_init`: byte `i` of the first block becomes `i` truncated to
        eight bits; the rest of the disk is left as it was. */
    method Init()
      requires Valid()
      modifies buffer
      ensures forall i :: 0 <= i < BLK_SIZE ==> buffer[i] == i % 0x100
      ensures forall i :: BLK_SIZE <= i < buffer.Length ==> buffer[i] == old(buffer[i])
    {
      var i := 0;
      while i < BLK_SIZE
        invariant 0 <= i <= BLK_SIZE
        invariant forall j :: 0 <= j < i ==> buffer[j] == j % 0x100
        invariant forall j :: i <= j < buffer.Length ==> buffer[j] == old(buffer[j])
      {
        buffer[i] := i % 0x100;
        i := i + 1;
      }
    }
  }
}
