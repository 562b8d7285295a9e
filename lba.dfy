/** `io_cmd_read_lba` and `io_cmd_write_lba` of apu-app/src/cmds/lba.cpp,
    with the entry layout of apu-app/src/lba.h: an LBA range of the
    ramdisk becomes the input or the output window of an accelerator. */
module Lba {
  import opened Bits
  import opened ApuState
  import CmdLayout

  /** `RAMDISK_BASE` and `RAMDISK_PAGE`. */
  const RAMDISK_BASE: nat := 0x6800_0000
  const RAMDISK_PAGE: nat := 4096

  /** `(cdw13 << 32) | cdw12` in 64 bits: the two dwords side by side. */
  function LbaOf(cmd: seq<u32>): (lba: u64)
    requires |cmd| == CmdLayout.SQ_ENTRY_DWORDS
    ensures lba % U32_LIMIT == cmd[12] && lba / U32_LIMIT == cmd[13]
  {
    PackSplit(cmd[12], cmd[13], U32_LIMIT);
    assert cmd[13] * U32_LIMIT <= (U32_LIMIT - 1) * U32_LIMIT;
    cmd[12] + cmd[13] * U32_LIMIT
  }

  /** `cdw14.nlb`, bits 15:0, used as the block count as it is (no +1). */
  function Blocks(cmd: seq<u32>): (n: u16)
    requires |cmd| == CmdLayout.SQ_ENTRY_DWORDS
  {
    cmd[14] % 0x1_0000
  }

  /** `cdw15`: the accelerator the window is for. */
  function AccId(cmd: seq<u32>): (id: u32)
    requires |cmd| == CmdLayout.SQ_ENTRY_DWORDS
  {
    cmd[15]
  }

  /** `lba * RAMDISK_PAGE + RAMDISK_BASE` in 64 bits. */
  function Address(lba: u64): (a: u64)
    ensures lba * RAMDISK_PAGE + RAMDISK_BASE < U64_LIMIT ==> a == lba * RAMDISK_PAGE + RAMDISK_BASE
  {
    Wrap64(lba * RAMDISK_PAGE + RAMDISK_BASE)
  }

  /** The base the setter receives: its parameter is `unsigned int`, so the
      address is cut to its low 32 bits. */
  function WindowBase(lba: u64): (b: u32)
  {
    Address(lba) % U32_LIMIT
  }

  /** `len * RAMDISK_PAGE`: whole pages, never more than 256 MiB, so the
      32-bit product does not wrap. */
  function WindowSize(cmd: seq<u32>): (n: u32)
    requires |cmd| == CmdLayout.SQ_ENTRY_DWORDS
    ensures n == Blocks(cmd) * RAMDISK_PAGE && n % RAMDISK_PAGE == 0 && n < 0x1000_0000
  {
    Blocks(cmd) * RAMDISK_PAGE
  }

  /** Cutting a 64-bit wrap-around to 32 bits is cutting the exact value. */
  lemma LowWord(x: nat)
    ensures (x % U64_LIMIT) % U32_LIMIT == x % U32_LIMIT
  {
    var q := x / U64_LIMIT;
    var r := x % U64_LIMIT;
    assert x == r + (q * U32_LIMIT) * U32_LIMIT;
    PackSplit(r % U32_LIMIT, r / U32_LIMIT + q * U32_LIMIT, U32_LIMIT);
  }

  /** The window base is the exact address modulo 2^32. */
  lemma WindowBaseExact(lba: u64)
    ensures WindowBase(lba) == (lba * RAMDISK_PAGE + RAMDISK_BASE) % U32_LIMIT
    ensures lba < 0x9_8000 ==> WindowBase(lba) == RAMDISK_BASE + lba * RAMDISK_PAGE
  {
    LowWord(lba * RAMDISK_PAGE + RAMDISK_BASE);
  }

  /** Below LBA 0x9_8000 distinct LBAs give distinct windows (the ramdisk
      addresses fit in 32 bits there). */
  lemma WindowBaseInjective(lba1: u64, lba2: u64)
    requires lba1 < 0x9_8000 && lba2 < 0x9_8000 && lba1 != lba2
    ensures WindowBase(lba1) != WindowBase(lba2)
  {
    WindowBaseExact(lba1);
    WindowBaseExact(lba2);
  }

  /** LBAs 2^20 apart give the same base: the truncation aliases them. */
  lemma WindowBaseAliases(lba: u64)
    requires lba + 0x10_0000 < U64_LIMIT
    ensures WindowBase(lba + 0x10_0000) == WindowBase(lba)
  {
    WindowBaseExact(lba);
    WindowBaseExact(lba + 0x10_0000);
    var x := lba * RAMDISK_PAGE + RAMDISK_BASE;
    assert (lba + 0x10_0000) * RAMDISK_PAGE + RAMDISK_BASE == x % U32_LIMIT + (x / U32_LIMIT + 1) * U32_LIMIT;
    PackSplit(x % U32_LIMIT, x / U32_LIMIT + 1, U32_LIMIT);
  }

  /** The first LBA whose window wraps: its base is physical address 0. */
  lemma FirstWrappedWindow()
    ensures WindowBase(0x9_7FFF) == 0xFFFF_F000 && WindowBase(0x9_8000) == 0
  {
    WindowBaseExact(0x9_7FFF);
    WindowBaseExact(0x9_8000);
  }

  /** After a read-LBA command: the list is the same, the addressed
      accelerator's input window is the command's range and the rest of
      it is as before, every other accelerator is unchanged, and an id
      past the list changes none of them. */
  twostate predicate InputWindowSet(apu: Apu, cmd: seq<u32>)
    requires |cmd| == CmdLayout.SQ_ENTRY_DWORDS
    reads apu`accs, apu.accs
  {
    && apu.accs == old(apu.accs)
    && (forall i :: 0 <= i < |apu.accs| && i != AccId(cmd) ==> unchanged(apu.accs[i]))
    && (AccId(cmd) < |apu.accs| ==>
         var a := apu.accs[AccId(cmd)];
         && a.ramdiskIn && a.ramdiskInBase == WindowBase(LbaOf(cmd)) && a.ramdiskInSize == WindowSize(cmd)
         && a.OutputKept() && a.RunKept())
  }

  /** The same for a write-LBA command and the output window. */
  twostate predicate OutputWindowSet(apu: Apu, cmd: seq<u32>)
    requires |cmd| == CmdLayout.SQ_ENTRY_DWORDS
    reads apu`accs, apu.accs
  {
    && apu.accs == old(apu.accs)
    && (forall i :: 0 <= i < |apu.accs| && i != AccId(cmd) ==> unchanged(apu.accs[i]))
    && (AccId(cmd) < |apu.accs| ==>
         var a := apu.accs[AccId(cmd)];
         && a.ramdiskOut && a.ramdiskOutBase == WindowBase(LbaOf(cmd)) && a.ramdiskOutSize == WindowSize(cmd)
         && a.InputKept() && a.RunKept())
  }

  /** `io_cmd_read_lba`. */
  method ReadLba(apu: Apu, cmd: seq<u32>)
    requires apu.Valid() && |cmd| == CmdLayout.SQ_ENTRY_DWORDS
    modifies apu.accs
    ensures InputWindowSet(apu, cmd)
  {
    var lba := LbaOf(cmd);
    var len := Blocks(cmd);
    var addr := Address(lba);
    var id := AccId(cmd);
    if id < |apu.accs| {
      apu.accs[id].AddRamdiskIn(addr % U32_LIMIT, len * RAMDISK_PAGE);
    }
  }

  /** `io_cmd_write_lba`. */
  method WriteLba(apu: Apu, cmd: seq<u32>)
    requires apu.Valid() && |cmd| == CmdLayout.SQ_ENTRY_DWORDS
    modifies apu.accs
    ensures OutputWindowSet(apu, cmd)
  {
    var lba := LbaOf(cmd);
    var len := Blocks(cmd);
    var addr := Address(lba);
    var id := AccId(cmd);
    if id < |apu.accs| {
      apu.accs[id].AddRamdiskOut(addr % U32_LIMIT, len * RAMDISK_PAGE);
    }
  }
}
