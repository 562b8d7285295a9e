/** The RPU target controller (rpu-app/src/tc.c): the handlers that run
    when the host writes a controller register or the admin submission
    doorbell.  The values the handlers read from the register window are
    inputs (`win`); what they write to it is logged in `mmio`.  The admin
    entries are fetched through the DMA engine of dma.c. */
module Tc {
  import opened Bits
  import opened TcMacros
  import Dma
  import opened TcStatus

  /** A write to the controller register window. */
  datatype RegWrite = RegWrite(addr: nat, value: bv32)

  /** A value read from the register window. */
  function Read(win: map<nat, u32>, addr: nat): u32
  {
    if addr in win then win[addr] else 0
  }

  /** The byte pattern `memset` puts in a fresh admin entry buffer. */
  const FILL_BYTE: u8 := 0x5A

  const FRESH_ENTRY: seq<u8> := seq(ADM_SQ_ENTRY_SIZE, _ => FILL_BYTE)

  /** `pow(2, IOCQES)` and the final `pow(2, MPS + 12)`. */
  function IoCqEntrySizeOf(cc: bv32): nat
  {
    Pow2(CcIocqes(cc))
  }

  function IoSqEntrySizeOf(cc: bv32): nat
  {
    Pow2(CcMps(cc) + 12)
  }

  /** The SQ entry size is the memory page size, never below 4 KiB. */
  lemma {:induction false} SqEntrySizeIsPageSize(cc: bv32)
    ensures IoSqEntrySizeOf(cc) == Pow2(CcMps(cc)) * 4096
    ensures IoSqEntrySizeOf(cc) >= 4096
  {
    Pow2Add(CcMps(cc), 12);
    assert Pow2(12) == 4096;
  }

  /* ---------- admin SQ doorbell ---------- */

  /** `int diff = tail - priv->adm_sq_tail`: the 32-bit unsigned difference
      read back as a signed `int`. */
  function TailDiff(tail: u32, prev: u32): (d: int)
    ensures -0x8000_0000 <= d < 0x8000_0000
  {
    ToInt32(Wrap32(tail - prev))
  }

  /** The host address of the `i`-th entry fetched, computed in 32 bits and
      added to the 64-bit base. */
  function FetchAddr(base: u64, prev: u32, size: int, i: nat): u64
    requires 0 < size < U32_LIMIT
  {
    Wrap64(base + Wrap32((Wrap32(i + prev) % size) * ADM_SQ_ENTRY_SIZE))
  }

  /** With the sizes AQA allows no 32-bit step wraps: the `i`-th fetch
      reads slot `(prev + i) mod size` of the queue. */
  lemma FetchAddrIsSlot(base: u64, prev: u32, size: int, i: nat)
    requires 0 < size < 0x1000 && prev + i < U32_LIMIT
    ensures FetchAddr(base, prev, size, i) == Wrap64(base + ((prev + i) % size) * 64)
  {
  }

  /** The tail the handler stores, `(prev + diff) % size` in unsigned 32 bits. */
  function NewTail(prev: u32, diff: int, size: int): u32
    requires 0 < size < U32_LIMIT
  {
    Wrap32(prev + diff) % size
  }

  /** After a forward doorbell write the stored tail is the doorbell value
      reduced modulo the queue size. */
  lemma NewTailIsDoorbell(tail: u32, prev: u32, size: int)
    requires 0 < size < U32_LIMIT
    ensures NewTail(prev, TailDiff(tail, prev), size) == tail % size
    ensures NewTail(prev, TailDiff(tail, prev), size) < size
  {
    var d := TailDiff(tail, prev);
    assert Wrap32(prev + d) == tail by {
      assert d == tail - prev || d == tail - prev + U32_LIMIT || d == tail - prev - U32_LIMIT;
    }
  }

  /** A doorbell value behind the stored tail (the host wrapped around)
      gives a non-positive difference: nothing is fetched. */
  lemma WrappedDoorbellFetchesNothing(tail: u32, prev: u32)
    requires tail <= prev && prev - tail < 0x8000_0000
    ensures TailDiff(tail, prev) <= 0
  {
  }

  /** The read-channel descriptor that fetches one admin entry from host
      address `host` into slab block `slot`. */
  function EntryFetch(host: u64, slot: nat): Dma.Desc
    requires slot < ADM_SQ_SLAB_SIZE
  {
    Dma.Desc(Some(Dma.Callback(Dma.AdmEntryFetched, 0)), host, slot, ADM_SQ_ENTRY_SIZE, Dma.TAG_HOST_TO_MEM)
  }

  /** The descriptors the fetch loop queues for its first `n` turns, the
      slab blocks taken from `first` on. */
  function AdmFetches(base: u64, prev: u32, size: int, first: nat, n: nat): (r: seq<Dma.Desc>)
    requires 0 < size < U32_LIMIT && first + n <= ADM_SQ_SLAB_SIZE
    ensures |r| == n
  {
    if n == 0 then []
    else AdmFetches(base, prev, size, first, n - 1) + [EntryFetch(FetchAddr(base, prev, size, n - 1), first + n - 1)]
  }

  /** The `k`-th queued descriptor reads entry slot `prev + k` of the queue
      into slab block `first + k`, 64 bytes host to local memory. */
  lemma {:induction false} AdmFetchesAt(base: u64, prev: u32, size: int, first: nat, n: nat, k: nat)
    requires 0 < size < U32_LIMIT && first + n <= ADM_SQ_SLAB_SIZE && k < n
    ensures AdmFetches(base, prev, size, first, n)[k].host == FetchAddr(base, prev, size, k)
    ensures AdmFetches(base, prev, size, first, n)[k].local == first + k
    ensures AdmFetches(base, prev, size, first, n)[k].len == ADM_SQ_ENTRY_SIZE
    ensures AdmFetches(base, prev, size, first, n)[k].tag == Dma.TAG_HOST_TO_MEM
    ensures AdmFetches(base, prev, size, first, n)[k].cb == Some(Dma.Callback(Dma.AdmEntryFetched, 0))
  {
    if k < n - 1 {
      AdmFetchesAt(base, prev, size, first, n - 1, k);
    }
  }

  /** One more queued fetch extends the queued descriptors by the next one. */
  lemma FetchStep(r0: seq<Dma.Desc>, fifo: seq<Dma.Desc>, base: u64, prev: u32, size: int, first: nat, q: nat)
    requires 0 < size < U32_LIMIT && first + q + 1 <= ADM_SQ_SLAB_SIZE
    requires fifo == r0 + AdmFetches(base, prev, size, first, q)
    ensures fifo + [EntryFetch(FetchAddr(base, prev, size, q), first + q)] == r0 + AdmFetches(base, prev, size, first, q + 1)
  {
  }

  /* ---------- register dispatch ---------- */

  /** The handler a register write selects. */
  datatype Action = CcWrite | AqaWrite | AsqWrite | AcqWrite | AdmTailWrite | Ignored

  /** `uint16_t reg = IRQ_DAT * 4`. */
  function RegOf(dat: u32): (r: nat)
    ensures r < 0x1_0000 && r % 4 == 0
  {
    (dat * 4) % 0x1_0000
  }

  /** The `switch` of `nvme_tc_irq_handler`. */
  function ActionOf(reg: nat): (a: Action)
    ensures a == CcWrite <==> reg == REG_CC
    ensures a == AqaWrite <==> reg == REG_AQA
    ensures a == AsqWrite <==> reg == REG_ASQ_1
    ensures a == AcqWrite <==> reg == REG_ACQ_1
    ensures a == AdmTailWrite <==> reg == REG_ADM_TAIL
  {
    if reg == REG_CC then CcWrite
    else if reg == REG_AQA then AqaWrite
    else if reg == REG_ASQ_0 then Ignored
    else if reg == REG_ASQ_1 then AsqWrite
    else if reg == REG_ACQ_0 then Ignored
    else if reg == REG_ACQ_1 then AcqWrite
    else if reg == REG_ADM_TAIL then AdmTailWrite
    else Ignored
  }

  /** Register indices 0x4000 apart alias, because the offset is cut to 16 bits. */
  lemma RegIndexAliases(dat: u32)
    requires dat + 0x4000 < U32_LIMIT
    ensures RegOf(dat + 0x4000) == RegOf(dat)
  {
  }

  /** The low words of the 64-bit queue bases are ignored until their high
      words are written. */
  lemma LowWordsWait()
    ensures ActionOf(REG_ASQ_0) == Ignored && ActionOf(REG_ACQ_0) == Ignored
  {
  }

  /** `(uint64_t)hi << 32 | lo`. */
  function Join(hi: u32, lo: u32): u64
  {
    lo + hi * U32_LIMIT
  }

  /** The two words come back out of the joined base unchanged. */
  lemma JoinSplits(hi: u32, lo: u32)
    ensures Join(hi, lo) / U32_LIMIT == hi && Join(hi, lo) % U32_LIMIT == lo
  {
    PackSplit(lo, hi, U32_LIMIT);
  }

  /** The writes of the clearing loop of `nvme_tc_init`. */
  function ClearWrites(n: nat): seq<RegWrite>
  {
    seq(n, k requires 0 <= k < n => RegWrite(4 * k, 0))
  }

  /** The loop clears exactly the 4-byte aligned offsets below IRQ_STA. */
  lemma ClearWritesCover()
    ensures |ClearWrites(REG_IRQ_STA / 4)| == 0x40A
    ensures forall k :: 0 <= k < 0x40A ==> ClearWrites(0x40A)[k].addr < REG_IRQ_STA
    ensures forall a: nat :: a < REG_IRQ_STA && a % 4 == 0 ==> RegWrite(a, 0) == ClearWrites(0x40A)[a / 4]
  {
  }

  class Controller {
    var enabled: bool
    var ioCqEntrySize: int
    var ioSqEntrySize: int
    var admCqSize: int
    var admSqSize: int
    var admSqBase: u64
    var admCqBase: u64
    var admSqTail: u32
    /** The allocated blocks of the admin entry slab; blocks are never freed. */
    var admBufs: seq<seq<u8>>
    var mmio: seq<RegWrite>
    const dma: Dma.Engine

    predicate Valid()
      reads this, dma
    {
      && |admBufs| <= ADM_SQ_SLAB_SIZE
      && (forall i :: 0 <= i < |admBufs| ==> admBufs[i] == FRESH_ENTRY)
      && 0 <= admCqSize < 0x1000 && 0 <= admSqSize < 0x1000
      && dma.Valid()
    }

    /** `nvme_tc_init` on the zero-initialised `p_tc`: an empty slab, and
        every register below IRQ_STA cleared, lowest offset first. */
    constructor Init(engine: Dma.Engine)
      requires engine.Valid()
      ensures Valid() && dma == engine
      ensures !enabled && ioCqEntrySize == 0 && ioSqEntrySize == 0
      ensures admCqSize == 0 && admSqSize == 0 && admSqBase == 0 && admCqBase == 0
      ensures admSqTail == 0 && admBufs == []
      ensures mmio == ClearWrites(REG_IRQ_STA / 4)
    {
      var log: seq<RegWrite> := [];
      var i := 0;
      while i < REG_IRQ_STA
        invariant i % 4 == 0 && 0 <= i <= REG_IRQ_STA
        invariant log == ClearWrites(i / 4)
      {
        log := log + [RegWrite(i, 0)];
        i := i + 4;
      }
      enabled := false;
      ioCqEntrySize, ioSqEntrySize := 0, 0;
      admCqSize, admSqSize := 0, 0;
      admSqBase, admCqBase := 0, 0;
      admSqTail := 0;
      admBufs := [];
      mmio := log;
      dma := engine;
    }

    /** What `nvme_tc_cc_handler` does with CC value `cc` and CSTS value
        `csts`: the I/O entry sizes as CC names them, the enable flag
        following CC, one write of the new CSTS; the admin queue state is
        left alone. */
    twostate predicate CcWritten(cc: bv32, csts: bv32)
      reads this
    {
      && ioCqEntrySize == IoCqEntrySizeOf(cc) && ioSqEntrySize == IoSqEntrySizeOf(cc)
      && enabled == (cc != 0)
      && mmio == old(mmio) + [RegWrite(REG_CSTS, CstsAfterCc(cc, csts, old(enabled)))]
      && admCqSize == old(admCqSize) && admSqSize == old(admSqSize)
      && admSqBase == old(admSqBase) && admCqBase == old(admCqBase)
      && admSqTail == old(admSqTail) && admBufs == old(admBufs)
    }

    /** `nvme_tc_cc_handler` with the CC and CSTS values it reads. */
    method CcHandler(cc: bv32, csts: bv32)
      requires Valid()
      modifies this
      ensures Valid()
      ensures CcWritten(cc, csts)
    {
      ioCqEntrySize := Pow2(CcIocqes(cc));
      ioSqEntrySize := Pow2(CcIosqes(cc));
      ioSqEntrySize := Pow2(CcMps(cc) + 12);
      var c, en := ControlStatus(cc, csts, enabled);
      enabled := en;
      mmio := mmio + [RegWrite(REG_CSTS, c)];
    }

    /** What `nvme_tc_aqa_handler` does with AQA value `aqa`: the raw ACQS
        and ASQS fields become the sizes, and nothing else changes. */
    twostate predicate AqaWritten(aqa: bv32)
      reads this
    {
      && admCqSize == AqaAcqs(aqa) && admSqSize == AqaAsqs(aqa)
      && enabled == old(enabled) && mmio == old(mmio) && admSqTail == old(admSqTail)
      && admSqBase == old(admSqBase) && admCqBase == old(admCqBase) && admBufs == old(admBufs)
      && ioCqEntrySize == old(ioCqEntrySize) && ioSqEntrySize == old(ioSqEntrySize)
    }

    /** `nvme_tc_aqa_handler`: the raw ACQS and ASQS fields become the sizes. */
    method AqaHandler(aqa: bv32)
      requires Valid()
      modifies this
      ensures Valid()
      ensures AqaWritten(aqa)
    {
      admCqSize := AqaAcqs(aqa);
      admSqSize := AqaAsqs(aqa);
    }

    /** What `nvme_tc_asq_handler` (`sq`) or `nvme_tc_acq_handler` (`!sq`)
        does with the register pair `w0`, `w1`: the queue's base becomes
        the 64-bit value with `w1` as its upper word, and nothing else
        changes. */
    twostate predicate BaseWritten(sq: bool, w0: u32, w1: u32)
      reads this
    {
      && admSqBase == (if sq then Join(w1, w0) else old(admSqBase))
      && admCqBase == (if sq then old(admCqBase) else Join(w1, w0))
      && enabled == old(enabled) && mmio == old(mmio) && admSqTail == old(admSqTail)
      && admCqSize == old(admCqSize) && admSqSize == old(admSqSize) && admBufs == old(admBufs)
      && ioCqEntrySize == old(ioCqEntrySize) && ioSqEntrySize == old(ioSqEntrySize)
    }

    /** `nvme_tc_asq_handler`: ASQ_1 is the upper word. */
    method AsqHandler(asq0: u32, asq1: u32)
      modifies this
      ensures BaseWritten(true, asq0, asq1)
    {
      admSqBase := Join(asq1, asq0);
    }

    /** `nvme_tc_acq_handler`: ACQ_1 is the upper word. */
    method AcqHandler(acq0: u32, acq1: u32)
      modifies this
      ensures BaseWritten(false, acq0, acq1)
    {
      admCqBase := Join(acq1, acq0);
    }

    /** The C `%` by `adm_sq_size` is undefined when the size is zero and a
        fetch is due. */
    predicate TailWriteDefined(tail: u32)
      reads this
    {
      TailDiff(tail, admSqTail) > 0 ==> admSqSize > 0
    }

    /** One turn of the fetch loop: a slab block filled with 0x5A, if one is
        left, and a read-channel transfer of the entry into it (dropped,
        with the block, when the DMA pool is empty). */
    method FetchEntry(hostAddr: u64)
      requires Valid()
      modifies this`admBufs, dma
      ensures Valid()
      ensures admBufs == old(admBufs) + if |old(admBufs)| < ADM_SQ_SLAB_SIZE then [FRESH_ENTRY] else []
      ensures var sent := |old(admBufs)| < ADM_SQ_SLAB_SIZE && old(dma.free) > 0;
        && dma.rxFifo == old(dma.rxFifo) + (if sent then [EntryFetch(hostAddr, |old(admBufs)|)] else [])
        && dma.free == old(dma.free) - (if sent then 1 else 0)
      ensures dma.txFifo == old(dma.txFifo)
      ensures var w := Dma.StartWrites(old(dma.rxFifo), dma.rxFifo, Dma.READ_BASE);
        dma.mmio == old(dma.mmio) + w && dma.regs == Dma.ApplyWrites(old(dma.regs), w)
    {
      if |admBufs| < ADM_SQ_SLAB_SIZE {
        var dst := |admBufs|;
        admBufs := admBufs + [FRESH_ENTRY];
        var _ := dma.HostToMem(hostAddr, dst, ADM_SQ_ENTRY_SIZE, Some(Dma.Callback(Dma.AdmEntryFetched, 0)));
      }
    }

    /** The fetch loop: `count` turns of `FetchEntry` for the entries the
        doorbell made new, from slot `admSqTail` on. */
    method FetchEntries(count: nat)
      requires Valid() && admSqSize > 0
      modifies this`admBufs, dma
      ensures Valid()
      ensures var allocs := Min(count, ADM_SQ_SLAB_SIZE - |old(admBufs)|);
        var queued := Min(allocs, old(dma.free));
        && admBufs == old(admBufs) + seq(allocs, _ => FRESH_ENTRY)
        && dma.rxFifo == old(dma.rxFifo) + AdmFetches(admSqBase, admSqTail, admSqSize, |old(admBufs)|, queued)
        && dma.free == old(dma.free) - queued
        && dma.txFifo == old(dma.txFifo)
      ensures var w := Dma.StartWrites(old(dma.rxFifo), dma.rxFifo, Dma.READ_BASE);
        dma.mmio == old(dma.mmio) + w && dma.regs == Dma.ApplyWrites(old(dma.regs), w)
    {
      ghost var room := ADM_SQ_SLAB_SIZE - |admBufs|;
      ghost var first := |admBufs|;
      ghost var alloc: nat, queued: nat := 0, 0;
      var i := 0;
      while i < count
        invariant 0 <= i <= count
        invariant FetchProgress(i, room, first, alloc, queued, old(dma.rxFifo), old(dma.free))
        invariant dma.txFifo == old(dma.txFifo)
        invariant old(dma.rxFifo) <= dma.rxFifo
        invariant var w := Dma.StartWrites(old(dma.rxFifo), dma.rxFifo, Dma.READ_BASE);
          dma.mmio == old(dma.mmio) + w && dma.regs == Dma.ApplyWrites(old(dma.regs), w)
      {
        ghost var fifo1, log1, regs1 := dma.rxFifo, dma.mmio, dma.regs;
        alloc, queued := FetchTurn(i, room, first, alloc, queued, old(dma.rxFifo), old(dma.free));
        Dma.StartWritesChain(old(dma.rxFifo), fifo1, dma.rxFifo, Dma.READ_BASE,
                             old(dma.mmio), log1, dma.mmio, old(dma.regs), regs1, dma.regs);
        i := i + 1;
      }
      assert admBufs == old(admBufs) + seq(alloc, _ => FRESH_ENTRY);
    }

    /** Where the fetch loop stands after `i` turns: `alloc` slab blocks
        taken and `queued` of them given a transfer, the rest dropped for
        want of a DMA descriptor. */
    ghost predicate FetchProgress(i: nat, room: int, first: nat, alloc: nat, queued: nat,
                                  rx0: seq<Dma.Desc>, free0: nat)
      reads this, dma
    {
      && Valid() && admSqSize > 0
      && alloc == Min(i, room) && queued == Min(alloc, free0)
      && room == ADM_SQ_SLAB_SIZE - first && |admBufs| == first + alloc
      && dma.rxFifo == rx0 + AdmFetches(admSqBase, admSqTail, admSqSize, first, queued)
      && dma.free == free0 - queued
    }

    /** One turn `i` of the fetch loop. */
    method FetchTurn(i: nat, ghost room: int, ghost first: nat, ghost alloc: nat, ghost queued: nat,
                     ghost rx0: seq<Dma.Desc>, ghost free0: nat)
      returns (ghost alloc': nat, ghost queued': nat)
      requires FetchProgress(i, room, first, alloc, queued, rx0, free0)
      modifies this`admBufs, dma
      ensures FetchProgress(i + 1, room, first, alloc', queued', rx0, free0)
      ensures old(dma.rxFifo) <= dma.rxFifo
      ensures var w := Dma.StartWrites(old(dma.rxFifo), dma.rxFifo, Dma.READ_BASE);
        dma.mmio == old(dma.mmio) + w && dma.regs == Dma.ApplyWrites(old(dma.regs), w)
      ensures dma.txFifo == old(dma.txFifo)
    {
      var hostAddr := FetchAddr(admSqBase, admSqTail, admSqSize, i);
      ghost var take := i < room;
      ghost var send := take && dma.free > 0;
      ghost var before := dma.rxFifo;
      FetchEntry(hostAddr);
      alloc', queued' := alloc, queued;
      if take {
        alloc' := alloc + 1;
        if send {
          FetchStep(rx0, before, admSqBase, admSqTail, admSqSize, first, queued);
          queued' := queued + 1;
        }
      }
    }

    /** What `nvme_tc_adm_tail_handler` does with doorbell value `tail`
        (see `AdmTailHandler`); only the slab, the tail and the DMA engine
        change. */
    twostate predicate TailWritten(tail: u32)
      requires old(Valid()) && Valid()
      reads this, dma
    {
      && (TailDiff(tail, old(admSqTail)) > 0 ==> admSqSize > 0)
      && (TailDiff(tail, old(admSqTail)) <= 0 ==> unchanged(this) && unchanged(dma))
      && (TailDiff(tail, old(admSqTail)) > 0 ==>
        var allocs := Min(TailDiff(tail, old(admSqTail)), ADM_SQ_SLAB_SIZE - |old(admBufs)|);
        var queued := Min(allocs, old(dma.free));
        && admSqTail == tail % admSqSize
        && admBufs == old(admBufs) + seq(allocs, _ => FRESH_ENTRY)
        && dma.rxFifo == old(dma.rxFifo)
             + AdmFetches(old(admSqBase), old(admSqTail), admSqSize, |old(admBufs)|, queued)
        && dma.free == old(dma.free) - queued
        && dma.txFifo == old(dma.txFifo)
        && var w := Dma.StartWrites(old(dma.rxFifo), dma.rxFifo, Dma.READ_BASE);
           dma.mmio == old(dma.mmio) + w && dma.regs == Dma.ApplyWrites(old(dma.regs), w))
      && enabled == old(enabled) && mmio == old(mmio)
      && admCqSize == old(admCqSize) && admSqSize == old(admSqSize)
      && admSqBase == old(admSqBase) && admCqBase == old(admCqBase)
      && ioCqEntrySize == old(ioCqEntrySize) && ioSqEntrySize == old(ioSqEntrySize)
    }

    /** `nvme_tc_adm_tail_handler` for doorbell value `tail`.  A positive
        difference issues one fetch per new entry: while slab blocks are
        left each gets a block filled with 0x5A and a read-channel transfer
        (while DMA descriptors are left); the tail then becomes
        `tail % size` even when some fetches were skipped.  A difference
        of zero or less changes nothing. */
    method AdmTailHandler(tail: u32)
      requires Valid() && TailWriteDefined(tail)
      modifies this`admBufs, this`admSqTail, dma
      ensures Valid()
      ensures TailWritten(tail)
    {
      var diff := TailDiff(tail, admSqTail);
      if diff > 0 {
        FetchEntries(diff);
        admSqTail := NewTail(admSqTail, diff, admSqSize);
        NewTailIsDoorbell(tail, old(admSqTail), admSqSize);
      }
    }

    /** One pass of the loop of `nvme_tc_irq_handler`: the register index
        read from IRQ_DAT selects a handler, which reads what it needs from
        the register window. */
    method HandleRegWrite(dat: u32, win: map<nat, u32>) returns (action: Action)
      requires Valid()
      requires RegOf(dat) == REG_ADM_TAIL ==> TailWriteDefined(Read(win, REG_ADM_TAIL))
      modifies this, dma
      ensures Valid()
      ensures action == ActionOf(RegOf(dat))
      ensures action == Ignored ==> unchanged(this) && unchanged(dma)
      ensures action != AdmTailWrite ==> unchanged(dma)
      ensures action == CcWrite ==> CcWritten(Read(win, REG_CC) as bv32, Read(win, REG_CSTS) as bv32)
      ensures action == AqaWrite ==> AqaWritten(Read(win, REG_AQA) as bv32)
      ensures action == AsqWrite ==> BaseWritten(true, Read(win, REG_ASQ_0), Read(win, REG_ASQ_1))
      ensures action == AcqWrite ==> BaseWritten(false, Read(win, REG_ACQ_0), Read(win, REG_ACQ_1))
      ensures action == AdmTailWrite ==> TailWritten(Read(win, REG_ADM_TAIL))
    {
      var reg := RegOf(dat);
      action := ActionOf(reg);
      match action {
        case CcWrite => CcHandler(Read(win, REG_CC) as bv32, Read(win, REG_CSTS) as bv32);
        case AqaWrite => AqaHandler(Read(win, REG_AQA) as bv32);
        case AsqWrite => AsqHandler(Read(win, REG_ASQ_0), Read(win, REG_ASQ_1));
        case AcqWrite => AcqHandler(Read(win, REG_ACQ_0), Read(win, REG_ACQ_1));
        case AdmTailWrite => AdmTailHandler(Read(win, REG_ADM_TAIL));
        case Ignored =>
      }
    }
  }
}
