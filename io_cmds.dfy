/** The two I/O commands of rpu-app/src/cmds/read.c and write.c, served
    from the ramdisk: a read goes back with `nvme_cmd_return_data`, a write
    first pulls the host's data with `nvme_cmd_get_data`; a range the
    ramdisk refuses ends in a plain `nvme_cmd_return`. */
module IoCmds {
  import opened Bits
  import opened CmdLayout
  import opened RpuCmd
  import Ramdisk

  /** `cdw10`: the low 32 bits of the starting LBA. */
  function Lba(sq: seq<u32>): (lba: u32)
    requires |sq| == SQ_ENTRY_DWORDS
  {
    sq[10]
  }

  /** `cdw12.nlb + 1`: the field is 0's based, bits 15:0 of dword 12. */
  function Nlb(sq: seq<u32>): (n: nat)
    requires |sq| == SQ_ENTRY_DWORDS
    ensures 1 <= n <= 0x1_0000
    ensures n - 1 == sq[12] % 0x1_0000
  {
    sq[12] % 0x1_0000 + 1
  }

  /** A host that packs `nlb - 1` into bits 15:0 next to other fields gets
      `nlb` blocks. */
  lemma NlbField(sq: seq<u32>, nlb: nat, rest: nat)
    requires |sq| == SQ_ENTRY_DWORDS
    requires 1 <= nlb <= 0x1_0000 && rest < 0x1_0000
    requires sq[12] == (nlb - 1) + 0x1_0000 * rest
    ensures Nlb(sq) == nlb
  {
    PackSplit(nlb - 1, rest, 0x1_0000);
  }

  /** `nlb * BLK_SIZE`, the byte count of the transfer; at most 32 MiB,
      so the 32-bit product never wraps. */
  function XferBytes(nlb: nat): (n: u32)
    requires 1 <= nlb <= 0x1_0000
    ensures n == nlb * Ramdisk.BLK_SIZE && n <= 0x200_0000
  {
    nlb * Ramdisk.BLK_SIZE
  }

  /** `nvme_cmd_io_read`, with the ramdisk's own bounds test, which looks
      at the first block only (see `TransferExtent`). */
  method IoRead(c: Cmd, disk: Ramdisk.Disk, cqAddr: u64)
    requires c.Valid() && disk.Valid()
    modifies c`cq, c.tc.dma
    ensures match disk.ReadAsWritten(Lba(c.sq), Nlb(c.sq))
      case Some(buf) => ReturnedData(c, buf, XferBytes(Nlb(c.sq)), cqAddr)
      case None => Returned(c, cqAddr)
  {
    var lba := Lba(c.sq);
    var nlb := Nlb(c.sq);
    var buf := disk.ReadAsWritten(lba, nlb);
    if buf.Some? {
      c.ReturnData(buf.value, XferBytes(nlb), cqAddr);
    } else {
      c.Return(cqAddr);
    }
  }

  /** `nvme_cmd_io_write`, with the ramdisk's own bounds test: the
      completion is left to the code that runs once the data is in. */
  method IoWrite(c: Cmd, disk: Ramdisk.Disk, cqAddr: u64)
    requires c.Valid() && disk.Valid()
    modifies c`cq, c.tc.dma, c.tc`pending
    ensures c.Valid()
    ensures match disk.WriteAsWritten(Lba(c.sq), Nlb(c.sq))
      case Some(buf) =>
        && c.tc.pending == old(c.tc.pending) + [GetData(c.id, buf, XferBytes(Nlb(c.sq)))]
        && unchanged(c, c.tc.dma)
      case None =>
        && Returned(c, cqAddr)
        && c.tc.pending == old(c.tc.pending)
  {
    var lba := Lba(c.sq);
    var nlb := Nlb(c.sq);
    var buf := disk.WriteAsWritten(lba, nlb);
    if buf.Some? {
      c.tc.pending := c.tc.pending + [GetData(c.id, buf.value, XferBytes(nlb))];
    } else {
      c.Return(cqAddr);
    }
  }

  /** Where the transfers of the two commands lie: a read the code serves
      starts at its first block and ends inside the disk exactly when the
      whole range is on it (otherwise it runs past the end); a write the
      code accepts always ends inside the disk, and the corrected lookup
      accepts it too, at the same address. */
  lemma TransferExtent(disk: Ramdisk.Disk, sq: seq<u32>)
    requires disk.Valid() && |sq| == SQ_ENTRY_DWORDS
    ensures var r := disk.ReadAsWritten(Lba(sq), Nlb(sq));
      r.Some? ==>
        && r.value == disk.BlockAddr(Lba(sq))
        && (r.value + XferBytes(Nlb(sq)) <= disk.base + disk.blkCnt * Ramdisk.BLK_SIZE <==> disk.InDisk(Lba(sq), Nlb(sq)))
        && (disk.InDisk(Lba(sq), Nlb(sq)) <==> disk.Read(Lba(sq), Nlb(sq)) == r)
    ensures var w := disk.WriteAsWritten(Lba(sq), Nlb(sq));
      w.Some? ==>
        && w.value + XferBytes(Nlb(sq)) <= disk.base + disk.blkCnt * Ramdisk.BLK_SIZE
        && disk.Write(Lba(sq), Nlb(sq)) == w
  {
    var lba := Lba(sq);
    var nlb := Nlb(sq);
    disk.WriteAsWrittenExact(lba, nlb);
    if lba < disk.blkCnt {
      var a := disk.BlockAddr(lba);
      assert a == disk.base + lba * Ramdisk.BLK_SIZE;
      ExtentEnd(disk.base, lba, nlb, disk.blkCnt);
    }
  }

  /** The end of `nlb` blocks from block `lba` lies inside a disk of
      `blkCnt` blocks exactly when the range does. */
  lemma ExtentEnd(base: nat, lba: nat, nlb: nat, blkCnt: nat)
    ensures base + lba * Ramdisk.BLK_SIZE + nlb * Ramdisk.BLK_SIZE <= base + blkCnt * Ramdisk.BLK_SIZE
      <==> lba + nlb <= blkCnt
  {
    assert lba * Ramdisk.BLK_SIZE + nlb * Ramdisk.BLK_SIZE == (lba + nlb) * Ramdisk.BLK_SIZE;
  }
}
