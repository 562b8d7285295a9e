/** The RPU's two-channel DMA engine (rpu-app/src/dma.c, rpu-app/src/dma.h).
    Host-to-memory transfers run on the read channel, memory-to-host ones
    on the write channel; each channel keeps a FIFO of descriptors taken
    from one shared pool, and the head of a FIFO is the transfer the
    hardware is working on.  Register reads are inputs; register writes go
    into an abstract register map and into a log in the order they are
    issued. */
module Dma {
  import opened Bits

  const REG_EN: nat := 0x000
  const READ_BASE: nat := 0x100
  const WRITE_BASE: nat := 0x200
  const REG_PCIE_ADDRL: nat := 0x00
  const REG_PCIE_ADDRH: nat := 0x04
  const REG_AXI_ADDRL: nat := 0x08
  const REG_AXI_ADDRH: nat := 0x0C
  const REG_LEN: nat := 0x10
  const REG_TAG: nat := 0x14
  const REG_STATUS: nat := 0x18
  const SLAB_ENTRIES: nat := 256

  const TAG_HOST_TO_MEM: u32 := 0xAA
  const TAG_MEM_TO_HOST: u32 := 0x55
  const ENOMEM: int := 12

  /** The completion routines the firmware hands to the engine. */
  datatype CallbackFn =
    | AdmEntryFetched   // nvme_tc_adm_dma_handler, tc.c
    | CompletionPosted  // cq_cb, cmd.c
    | DataFetched       // a command's own transfer callback, e.g. vendor_cb

  /** A routine and the untyped argument it is called with. */
  datatype Callback = Callback(fn: CallbackFn, arg: nat)

  /** `nvme_dma_xfer_def_t` without its FIFO link. */
  datatype Desc = Desc(cb: Option<Callback>, host: u64, local: u32, len: u32, tag: u32)

  /** One call `desc->cb(desc->cb_arg, desc->local_addr)`. */
  datatype Fired = Fired(cb: Callback, local: u32)

  datatype RegWrite = RegWrite(addr: nat, value: u32)

  /** Bit 31 of a channel status register. */
  predicate StatusValid(status: u32)
  {
    status >= 0x8000_0000
  }

  lemma StatusValidIsBit31(status: u32)
    ensures StatusValid(status) <==> (status / 0x8000_0000) % 2 == 1
  {
  }

  /** `nvme_dma_xfer_fill_desc`: a zero-initialised descriptor with the given
      fields, or none when the pool has no free entry. */
  function FillDesc(free: nat, host: u64, local: u32, len: u32, tag: u32, cb: Option<Callback>): (d: Option<Desc>)
    ensures d.Some? <==> free > 0
    ensures d.Some? ==> d.value == Desc(cb, host, local, len, tag)
  {
    if free > 0 then Some(Desc(cb, host, local, len, tag)) else None
  }

  /** `nvme_dma_setup_xfer`: the register writes, in program order, that
      load descriptor `d` into the channel at offset `off`. */
  function SetupXfer(d: Desc, off: nat): (w: seq<RegWrite>)
    ensures |w| == 6
    ensures w[5] == RegWrite(off + REG_TAG, d.tag)
    ensures forall i :: 0 <= i < 5 ==> w[i].addr != off + REG_TAG
  {
    [RegWrite(off + REG_PCIE_ADDRL, d.host % U32_LIMIT),
     RegWrite(off + REG_PCIE_ADDRH, (d.host / U32_LIMIT) % U32_LIMIT),
     RegWrite(off + REG_AXI_ADDRL, d.local),
     RegWrite(off + REG_AXI_ADDRH, 0),
     RegWrite(off + REG_LEN, d.len),
     RegWrite(off + REG_TAG, d.tag)]
  }

  function ApplyWrites(regs: map<nat, u32>, ws: seq<RegWrite>): map<nat, u32>
    decreases |ws|
  {
    if ws == [] then regs else ApplyWrites(regs[ws[0].addr := ws[0].value], ws[1..])
  }

  /** A register no write targets keeps its value. */
  lemma {:induction false} ApplyWritesElsewhere(regs: map<nat, u32>, ws: seq<RegWrite>, a: nat)
    requires forall i :: 0 <= i < |ws| ==> ws[i].addr != a
    ensures a in ApplyWrites(regs, ws) <==> a in regs
    ensures a in regs ==> ApplyWrites(regs, ws)[a] == regs[a]
    decreases |ws|
  {
    if ws != [] {
      ApplyWritesElsewhere(regs[ws[0].addr := ws[0].value], ws[1..], a);
    }
  }

  /** The last write to a register decides its value. */
  lemma {:induction false} ApplyWritesLast(regs: map<nat, u32>, ws: seq<RegWrite>, i: nat)
    requires i < |ws|
    requires forall j :: i < j < |ws| ==> ws[j].addr != ws[i].addr
    ensures ws[i].addr in ApplyWrites(regs, ws)
    ensures ApplyWrites(regs, ws)[ws[i].addr] == ws[i].value
    decreases |ws|
  {
    if i == 0 {
      ApplyWritesElsewhere(regs[ws[0].addr := ws[0].value], ws[1..], ws[0].addr);
    } else {
      ApplyWritesLast(regs[ws[0].addr := ws[0].value], ws[1..], i - 1);
    }
  }

  /** The channel at `off` holds transfer `d`. */
  predicate Loaded(regs: map<nat, u32>, off: nat, d: Desc)
  {
    && off + REG_PCIE_ADDRL in regs && off + REG_PCIE_ADDRH in regs
    && off + REG_AXI_ADDRL in regs && off + REG_AXI_ADDRH in regs
    && off + REG_LEN in regs && off + REG_TAG in regs
    && regs[off + REG_PCIE_ADDRL] + regs[off + REG_PCIE_ADDRH] * U32_LIMIT == d.host
    && regs[off + REG_AXI_ADDRL] == d.local && regs[off + REG_AXI_ADDRH] == 0
    && regs[off + REG_LEN] == d.len && regs[off + REG_TAG] == d.tag
  }

  /** Programming a channel loads exactly the descriptor's transfer: the two
      address words put back together give the 64-bit host address. */
  lemma SetupXferLoads(regs: map<nat, u32>, d: Desc, off: nat)
    ensures Loaded(ApplyWrites(regs, SetupXfer(d, off)), off, d)
  {
    var w := SetupXfer(d, off);
    UnpackJoin(d.host, U32_LIMIT, U32_LIMIT);
    ApplyWritesLast(regs, w, 0);
    ApplyWritesLast(regs, w, 1);
    ApplyWritesLast(regs, w, 2);
    ApplyWritesLast(regs, w, 3);
    ApplyWritesLast(regs, w, 4);
    ApplyWritesLast(regs, w, 5);
  }

  /** Programming one channel leaves the other channel's transfer alone. */
  lemma SetupXferKeepsOther(regs: map<nat, u32>, d: Desc, e: Desc, off: nat, other: nat)
    requires (off == READ_BASE && other == WRITE_BASE) || (off == WRITE_BASE && other == READ_BASE)
    requires Loaded(regs, other, e)
    ensures Loaded(ApplyWrites(regs, SetupXfer(d, off)), other, e)
  {
    var w := SetupXfer(d, off);
    ApplyWritesElsewhere(regs, w, other + REG_PCIE_ADDRL);
    ApplyWritesElsewhere(regs, w, other + REG_PCIE_ADDRH);
    ApplyWritesElsewhere(regs, w, other + REG_AXI_ADDRL);
    ApplyWritesElsewhere(regs, w, other + REG_AXI_ADDRH);
    ApplyWritesElsewhere(regs, w, other + REG_LEN);
    ApplyWritesElsewhere(regs, w, other + REG_TAG);
  }

  /** The FIFO after `k_fifo_get`: the head removed, if there is one. */
  function Pop(fifo: seq<Desc>): seq<Desc>
  {
    if fifo == [] then [] else fifo[1..]
  }

  /** The callback a completion runs: the head's, when it has one. */
  function Completed(fifo: seq<Desc>): (f: seq<Fired>)
    ensures |f| <= 1
    ensures f != [] <==> fifo != [] && fifo[0].cb.Some?
    ensures f != [] ==> f[0] == Fired(fifo[0].cb.value, fifo[0].local)
  {
    if fifo != [] && fifo[0].cb.Some? then [Fired(fifo[0].cb.value, fifo[0].local)] else []
  }

  /** The register writes after a completion: the next transfer, if any. */
  function NextSetup(fifo: seq<Desc>, off: nat): seq<RegWrite>
  {
    if |fifo| > 1 then SetupXfer(fifo[1], off) else []
  }

  /** The register writes that queueing grows a channel's FIFO from `fifo0`
      to `fifo` costs: an idle channel (empty FIFO) is programmed with its
      new head, a running one is not touched. */
  function StartWrites(fifo0: seq<Desc>, fifo: seq<Desc>, off: nat): seq<RegWrite>
  {
    if fifo0 == [] && fifo != [] then SetupXfer(fifo[0], off) else []
  }

  /** Queueing in two steps writes what queueing in one step writes: only
      the step that finds the channel idle programs it, with the same head.
      Stated on the register log and the register file before, between
      and after the two steps. */
  lemma StartWritesChain(a: seq<Desc>, b: seq<Desc>, c: seq<Desc>, off: nat,
                         log0: seq<RegWrite>, log1: seq<RegWrite>, log2: seq<RegWrite>,
                         regs0: map<nat, u32>, regs1: map<nat, u32>, regs2: map<nat, u32>)
    requires a <= b && b <= c
    requires log1 == log0 + StartWrites(a, b, off) && regs1 == ApplyWrites(regs0, StartWrites(a, b, off))
    requires log2 == log1 + StartWrites(b, c, off) && regs2 == ApplyWrites(regs1, StartWrites(b, c, off))
    ensures log2 == log0 + StartWrites(a, c, off) && regs2 == ApplyWrites(regs0, StartWrites(a, c, off))
  {
    if a == [] && b != [] {
      assert c[0] == b[0];
      assert StartWrites(b, c, off) == [];
      assert log2 == log1 + [];
    } else {
      assert StartWrites(a, b, off) == [];
      assert log1 == log0 + [];
    }
  }

  class Engine {
    var rxFifo: seq<Desc>
    var txFifo: seq<Desc>
    var rxRunning: bool
    var txRunning: bool
    /** Free entries of the descriptor slab. */
    var free: nat
    var regs: map<nat, u32>
    var mmio: seq<RegWrite>

    /** Every descriptor is either free or in exactly one FIFO, a channel is
        running exactly when its FIFO is non-empty, and a running channel
        is loaded with its FIFO's head. */
    predicate Valid()
      reads this
    {
      && |rxFifo| + |txFifo| + free == SLAB_ENTRIES
      && (rxRunning <==> rxFifo != [])
      && (txRunning <==> txFifo != [])
      && (rxRunning ==> Loaded(regs, READ_BASE, rxFifo[0]))
      && (txRunning ==> Loaded(regs, WRITE_BASE, txFifo[0]))
    }

    /** `nvme_dma_init`: empty FIFOs, a full slab, the engine enabled. */
    constructor Init()
      ensures Valid()
      ensures rxFifo == [] && txFifo == [] && !rxRunning && !txRunning
      ensures free == SLAB_ENTRIES
      ensures regs == map[REG_EN := 1] && mmio == [RegWrite(REG_EN, 1)]
    {
      rxFifo, txFifo := [], [];
      rxRunning, txRunning := false, false;
      free := SLAB_ENTRIES;
      regs := map[REG_EN := 1];
      mmio := [RegWrite(REG_EN, 1)];
    }

    /** `nvme_dma_xfer_host_to_mem`: queue a read-channel transfer from host
        address `src` to local address `dst`, starting it if the channel is
        idle; -ENOMEM and no change when the slab is exhausted. */
    method HostToMem(src: u64, dst: u32, len: u32, cb: Option<Callback>) returns (rc: int)
      requires Valid()
      modifies this
      ensures Valid()
      ensures old(free) == 0 ==> rc == -ENOMEM && unchanged(this)
      ensures old(free) > 0 ==>
        && rc == 0
        && rxFifo == old(rxFifo) + [Desc(cb, src, dst, len, TAG_HOST_TO_MEM)]
        && free == old(free) - 1 && rxRunning
        && txFifo == old(txFifo) && txRunning == old(txRunning)
        && var w := if old(rxRunning) then [] else SetupXfer(rxFifo[0], READ_BASE);
           mmio == old(mmio) + w && regs == ApplyWrites(old(regs), w)
      ensures var w := StartWrites(old(rxFifo), rxFifo, READ_BASE);
        mmio == old(mmio) + w && regs == ApplyWrites(old(regs), w)
    {
      var desc := FillDesc(free, src, dst, len, TAG_HOST_TO_MEM, cb);
      if desc.None? {
        return -ENOMEM;
      }
      free := free - 1;
      rxFifo := rxFifo + [desc.value];
      if !rxRunning {
        var w := SetupXfer(desc.value, READ_BASE);
        SetupXferLoads(regs, desc.value, READ_BASE);
        if txRunning {
          SetupXferKeepsOther(regs, desc.value, txFifo[0], READ_BASE, WRITE_BASE);
        }
        regs := ApplyWrites(regs, w);
        mmio := mmio + w;
        rxRunning := true;
      }
      return 0;
    }

    /** `nvme_dma_xfer_mem_to_host`: queue a write-channel transfer from local
        address `src` to host address `dst`. */
    method MemToHost(src: u32, dst: u64, len: u32, cb: Option<Callback>) returns (rc: int)
      requires Valid()
      modifies this
      ensures Valid()
      ensures old(free) == 0 ==> rc == -ENOMEM && unchanged(this)
      ensures old(free) > 0 ==>
        && rc == 0
        && txFifo == old(txFifo) + [Desc(cb, dst, src, len, TAG_MEM_TO_HOST)]
        && free == old(free) - 1 && txRunning
        && rxFifo == old(rxFifo) && rxRunning == old(rxRunning)
        && var w := if old(txRunning) then [] else SetupXfer(txFifo[0], WRITE_BASE);
           mmio == old(mmio) + w && regs == ApplyWrites(old(regs), w)
      ensures var w := StartWrites(old(txFifo), txFifo, WRITE_BASE);
        mmio == old(mmio) + w && regs == ApplyWrites(old(regs), w)
    {
      var desc := FillDesc(free, dst, src, len, TAG_MEM_TO_HOST, cb);
      if desc.None? {
        return -ENOMEM;
      }
      free := free - 1;
      txFifo := txFifo + [desc.value];
      if !txRunning {
        var w := SetupXfer(desc.value, WRITE_BASE);
        SetupXferLoads(regs, desc.value, WRITE_BASE);
        if rxRunning {
          SetupXferKeepsOther(regs, desc.value, rxFifo[0], WRITE_BASE, READ_BASE);
        }
        regs := ApplyWrites(regs, w);
        mmio := mmio + w;
        txRunning := true;
      }
      return 0;
    }

    /** The completion half of `nvme_dma_irq_handler` for the read channel:
        retire the head (if any), then load the next transfer or go idle. */
    method CompleteRx() returns (fired: seq<Fired>)
      requires Valid()
      modifies this
      ensures Valid()
      ensures fired == Completed(old(rxFifo))
      ensures rxFifo == Pop(old(rxFifo)) && rxRunning == (rxFifo != [])
      ensures free == old(free) + |old(rxFifo)| - |rxFifo|
      ensures txFifo == old(txFifo) && txRunning == old(txRunning)
      ensures mmio == old(mmio) + NextSetup(old(rxFifo), READ_BASE)
      ensures regs == ApplyWrites(old(regs), NextSetup(old(rxFifo), READ_BASE))
    {
      fired := Completed(rxFifo);
      if rxFifo != [] {
        rxFifo := rxFifo[1..];
        free := free + 1;
      }
      if rxFifo != [] {
        var w := SetupXfer(rxFifo[0], READ_BASE);
        SetupXferLoads(regs, rxFifo[0], READ_BASE);
        if txRunning {
          SetupXferKeepsOther(regs, rxFifo[0], txFifo[0], READ_BASE, WRITE_BASE);
        }
        regs := ApplyWrites(regs, w);
        mmio := mmio + w;
      } else {
        rxRunning := false;
      }
    }

    /** The same for the write channel. */
    method CompleteTx() returns (fired: seq<Fired>)
      requires Valid()
      modifies this
      ensures Valid()
      ensures fired == Completed(old(txFifo))
      ensures txFifo == Pop(old(txFifo)) && txRunning == (txFifo != [])
      ensures free == old(free) + |old(txFifo)| - |txFifo|
      ensures rxFifo == old(rxFifo) && rxRunning == old(rxRunning)
      ensures mmio == old(mmio) + NextSetup(old(txFifo), WRITE_BASE)
      ensures regs == ApplyWrites(old(regs), NextSetup(old(txFifo), WRITE_BASE))
    {
      fired := Completed(txFifo);
      if txFifo != [] {
        txFifo := txFifo[1..];
        free := free + 1;
      }
      if txFifo != [] {
        var w := SetupXfer(txFifo[0], WRITE_BASE);
        SetupXferLoads(regs, txFifo[0], WRITE_BASE);
        if rxRunning {
          SetupXferKeepsOther(regs, txFifo[0], rxFifo[0], WRITE_BASE, READ_BASE);
        }
        regs := ApplyWrites(regs, w);
        mmio := mmio + w;
      } else {
        txRunning := false;
      }
    }

    /** `nvme_dma_irq_handler`, given the two status registers it reads: each
        channel whose status has bit 31 set completes its head transfer and
        is programmed with its next one, or goes idle.  The callbacks due
        are returned, read channel first. */
    method Irq(readStatus: u32, writeStatus: u32) returns (fired: seq<Fired>)
      requires Valid()
      modifies this
      ensures Valid()
      ensures rxFifo == (if StatusValid(readStatus) then Pop(old(rxFifo)) else old(rxFifo))
      ensures txFifo == (if StatusValid(writeStatus) then Pop(old(txFifo)) else old(txFifo))
      ensures free == old(free) + (|old(rxFifo)| - |rxFifo|) + (|old(txFifo)| - |txFifo|)
      ensures fired == (if StatusValid(readStatus) then Completed(old(rxFifo)) else [])
                     + (if StatusValid(writeStatus) then Completed(old(txFifo)) else [])
      ensures rxRunning == (if StatusValid(readStatus) then rxFifo != [] else old(rxRunning))
      ensures txRunning == (if StatusValid(writeStatus) then txFifo != [] else old(txRunning))
      ensures mmio == old(mmio) + (if StatusValid(readStatus) then NextSetup(old(rxFifo), READ_BASE) else [])
                                + (if StatusValid(writeStatus) then NextSetup(old(txFifo), WRITE_BASE) else [])
      ensures regs == ApplyWrites(ApplyWrites(old(regs), if StatusValid(readStatus) then NextSetup(old(rxFifo), READ_BASE) else []),
                                  if StatusValid(writeStatus) then NextSetup(old(txFifo), WRITE_BASE) else [])
    {
      fired := [];
      if StatusValid(readStatus) {
        fired := CompleteRx();
      }
      if StatusValid(writeStatus) {
        var t := CompleteTx();
        fired := fired + t;
      }
    }
  }

  /** The pool bound: with every descriptor in a FIFO no transfer can be
      queued, and two full FIFOs share the 256 entries. */
  lemma PoolBound(rx: seq<Desc>, tx: seq<Desc>, free: nat)
    requires |rx| + |tx| + free == SLAB_ENTRIES
    ensures free == 0 <==> |rx| + |tx| == 256
    ensures FillDesc(free, 0, 0, 0, TAG_HOST_TO_MEM, None).None? <==> |rx| + |tx| == 256
  {
  }

  /** Completions retire descriptors in submission order: after `k` completions
      on a FIFO the remaining ones are the later submissions, and the
      callbacks fired are those of the first `k`, in order. */
  function Drain(fifo: seq<Desc>, k: nat): (r: (seq<Fired>, seq<Desc>))
    requires k <= |fifo|
    ensures r.1 == fifo[k..]
    decreases k
  {
    if k == 0 then ([], fifo)
    else
      var rest := Drain(Pop(fifo), k - 1);
      (Completed(fifo) + rest.0, rest.1)
  }

  /** The callbacks of a prefix of submissions, in submission order. */
  function CallbacksOf(ds: seq<Desc>): seq<Fired>
  {
    if ds == [] then [] else Completed(ds) + CallbacksOf(ds[1..])
  }

  lemma {:induction false} DrainInOrder(fifo: seq<Desc>, k: nat)
    requires k <= |fifo|
    ensures Drain(fifo, k).0 == CallbacksOf(fifo[..k])
    decreases k
  {
    if k > 0 {
      DrainInOrder(Pop(fifo), k - 1);
      assert fifo[..k][1..] == Pop(fifo)[..k - 1];
      assert Completed(fifo[..k]) == Completed(fifo);
    }
  }
}
