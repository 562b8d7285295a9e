/** The command context of the RPU front-end (rpu-app/src/cmd.c): the
    completion entry a command builds in `priv->cq_buf`, and the two ways
    it goes back to the host through the write channel of the DMA engine.
    The per-queue tables of `nvme_tc_priv_t` the command handlers update
    live in `Target`; the context itself is `Cmd`. */
module RpuCmd {
  import opened Bits
  import opened CmdLayout
  import Dma

  /** `NVME_TC_CQ_ENTRY_SIZE`: one completion entry, four dwords. */
  const CQ_ENTRY_BYTES: u32 := 16

  /** `ADM_QUEUE_ID`. */
  const ADM_QUEUE_ID: nat := 0

  /** One row of the `sq_*` tables of `nvme_tc_priv_t`. */
  datatype SqRow = SqRow(base: u64, head: nat, tail: nat, pc: nat, size: nat, valid: bool)

  /** One row of the `cq_*` tables. */
  datatype CqRow = CqRow(base: u64, head: nat, tail: nat, phase: bool,
                         ien: nat, pc: nat, size: nat, iv: nat, valid: bool)

  /** The calls the command layer makes into code this model does not
      contain: `nvme_cmd_transfer_data`, `nvme_cmd_get_data`, and the
      Identify and Set Features handlers of this interface. */
  datatype Pending =
    | TransferData(ctx: nat)
    | GetData(ctx: nat, local: u32, len: u32)
    | Handler(ctx: nat, opc: u8)

  /** An rpmsg message to the APU, as `send_cmd` fills it. */
  datatype Message = Message(id: nat, len: nat, priv: nat, buf: u32, bufLen: int, data: seq<u32>)

  /** The phase bit a boolean table entry stores into the one-bit field. */
  function PhaseBit(b: bool): (p: nat)
    ensures p < 2 && (p == 1 <==> b)
  {
    if b then 1 else 0
  }

  /** The prefix of `ds` a sequence of submissions gets into the FIFO when
      `free` descriptors are left: once the pool is empty every later one
      is refused. */
  function Accepted(free: nat, ds: seq<Dma.Desc>): (r: seq<Dma.Desc>)
    ensures |r| == Min(free, |ds|)
    ensures r == ds[..|r|]
    ensures free >= |ds| ==> r == ds
  {
    ds[..Min(free, |ds|)]
  }

  /** Submitting `a` and then `b` is submitting `a + b`. */
  lemma AcceptedAppend(free: nat, a: seq<Dma.Desc>, b: seq<Dma.Desc>)
    ensures Accepted(free, a + b) == Accepted(free, a) + Accepted(free - |Accepted(free, a)|, b)
  {
    var ab := a + b;
    if free < |a| {
      assert ab[..free] == a[..free];
    } else {
      assert ab[..Min(free, |ab|)] == a + b[..Min(free - |a|, |b|)];
    }
  }

  /** The `cq_cb` transfer of the completion entry at local address `cqBuf`
      to the host address `cqAddr`, for the context `ctx`; none when the
      completion queue address is 0. */
  function CompletionXfers(ctx: nat, cqBuf: u32, cqAddr: u64): (r: seq<Dma.Desc>)
    ensures |r| == (if cqAddr == 0 then 0 else 1)
    ensures r != [] ==>
      && r[0].len == CQ_ENTRY_BYTES && r[0].host == cqAddr && r[0].local == cqBuf
      && r[0].tag == Dma.TAG_MEM_TO_HOST
      && r[0].cb == Some(Dma.Callback(Dma.CompletionPosted, ctx))
  {
    if cqAddr == 0 then []
    else [Dma.Desc(Some(Dma.Callback(Dma.CompletionPosted, ctx)), cqAddr, cqBuf, CQ_ENTRY_BYTES, Dma.TAG_MEM_TO_HOST)]
  }

  /** The transfers of `nvme_cmd_return_data`: the data, without a callback,
      then the completion; nothing at all when `prp1` is 0. */
  function DataXfers(ctx: nat, cqBuf: u32, cqAddr: u64, prp1: u64, buf: u32, len: u32): (r: seq<Dma.Desc>)
    ensures prp1 == 0 <==> r == []
    ensures r != [] ==>
      && r[0] == Dma.Desc(None, prp1, buf, len, Dma.TAG_MEM_TO_HOST)
      && r[1..] == CompletionXfers(ctx, cqBuf, cqAddr)
  {
    if prp1 == 0 then []
    else [Dma.Desc(None, prp1, buf, len, Dma.TAG_MEM_TO_HOST)] + CompletionXfers(ctx, cqBuf, cqAddr)
  }

  /** With the FIFO completing in submission order, the data of a
      `nvme_cmd_return_data` reaches the host before its completion entry:
      the entry's transfer is retired only after the data's. */
  lemma DataLandsFirst(before: seq<Dma.Desc>, ctx: nat, cqBuf: u32, cqAddr: u64, prp1: u64, buf: u32, len: u32)
    requires prp1 != 0 && cqAddr != 0
    ensures var fifo := before + DataXfers(ctx, cqBuf, cqAddr, prp1, buf, len);
      && |fifo| == |before| + 2
      && Dma.Drain(fifo, |before|).1 == DataXfers(ctx, cqBuf, cqAddr, prp1, buf, len)
      && Dma.Drain(fifo, |before| + 1).1 == CompletionXfers(ctx, cqBuf, cqAddr)
      && Dma.Drain(fifo, |before| + 1).1[0].cb.Some?
      && Dma.Drain(fifo, |before|).1[0].cb.None?
  {
    var fifo := before + DataXfers(ctx, cqBuf, cqAddr, prp1, buf, len);
    assert fifo[|before|..] == DataXfers(ctx, cqBuf, cqAddr, prp1, buf, len);
    assert fifo[|before| + 1..] == CompletionXfers(ctx, cqBuf, cqAddr);
  }

  /** `fill_cq_resp`: a zeroed entry carrying the submission queue head and
      the command identifier (the head truncated to its 16-bit field). */
  function FilledCq(sqHead: nat, cid: u16): (e: CqEntry)
    ensures CqOk(e)
  {
    ZERO_CQ.(sqHead := sqHead % 0x1_0000, cid := cid)
  }

  /** The four dwords of a freshly filled entry: a zero result, a zero
      reserved word, the head in dword 2 with submission queue id 0, and the
      command identifier alone in dword 3 (phase 0, success status). */
  lemma FilledCqImage(sqHead: nat, cid: u16)
    ensures EncodeCq(FilledCq(sqHead, cid)) == [0, 0, sqHead % 0x1_0000, cid]
    ensures DecodeCq([0, 0, sqHead % 0x1_0000, cid]) == FilledCq(sqHead, cid)
  {
    CqRoundTrip(FilledCq(sqHead, cid));
  }

  /** The command side of `nvme_tc_priv_t`: the per-queue tables indexed by
      queue id (0 is the admin queue), the DMA engine, and logs of the calls
      it makes into code this model does not contain. */
  class Target {
    /** `QUEUES`: the highest I/O queue id. */
    const queues: nat
    const dma: Dma.Engine
    /** The static 512-byte SMART buffer of `get_smart_log`, and its address. */
    const smartBuf: array<u8>
    const smartAddr: u32
    var sq: seq<SqRow>
    var cq: seq<CqRow>
    /** Queue ids handed to `nvme_tc_cq_notify`, in call order. */
    var notified: seq<nat>
    /** Command contexts given back to `cmd_slab`, in call order. */
    var freed: seq<nat>
    var pending: seq<Pending>
    /** Messages `rpmsg_send` delivered to the APU. */
    var outbox: seq<Message>

    predicate Valid()
      reads this, dma
    {
      |sq| == queues + 1 && |cq| == queues + 1 && dma.Valid() && smartBuf.Length == 512
    }

    constructor Init(queues: nat, dma: Dma.Engine, smartBuf: array<u8>, smartAddr: u32)
      requires dma.Valid() && smartBuf.Length == 512
      ensures Valid()
      ensures this.queues == queues && this.dma == dma && this.smartBuf == smartBuf && this.smartAddr == smartAddr
      ensures sq == seq(queues + 1, _ => SqRow(0, 0, 0, 0, 0, false))
      ensures cq == seq(queues + 1, _ => CqRow(0, 0, 0, false, 0, 0, 0, 0, false))
      ensures notified == [] && freed == [] && pending == [] && outbox == []
    {
      this.queues := queues;
      this.dma := dma;
      this.smartBuf := smartBuf;
      this.smartAddr := smartAddr;
      sq := seq(queues + 1, _ => SqRow(0, 0, 0, 0, 0, false));
      cq := seq(queues + 1, _ => CqRow(0, 0, 0, false, 0, 0, 0, 0, false));
      notified, freed, pending, outbox := [], [], [], [];
    }
  }

  /** `nvme_cmd_priv_t`: the command's queue, its submission entry, the
      completion entry it builds, and the fields of a data transfer. */
  class Cmd {
    const tc: Target
    const qid: nat
    /** The context's own address, the argument its callbacks receive. */
    const id: nat
    /** The address of `cq_buf`, the source of the completion transfer. */
    const cqBuf: u32
    var sq: seq<u32>
    var cq: CqEntry
    /** `block.data`: the buffer taken from `buffer_pool`. */
    var block: u32
    var xferBase: u32
    var xferBuf: u32
    var xferSize: int
    var xferLen: int
    var fromHost: bool
    var xferCb: Option<Dma.CallbackFn>

    predicate Valid()
      reads this, tc, tc.dma
    {
      tc.Valid() && |sq| == SQ_ENTRY_DWORDS && qid <= tc.queues
    }

    constructor Init(tc: Target, qid: nat, id: nat, cqBuf: u32, sq: seq<u32>)
      requires tc.Valid() && |sq| == SQ_ENTRY_DWORDS && qid <= tc.queues
      ensures Valid()
      ensures this.tc == tc && this.qid == qid && this.id == id && this.cqBuf == cqBuf
      ensures this.sq == sq && cq == ZERO_CQ
      ensures block == 0 && xferBase == 0 && xferBuf == 0 && xferSize == 0 && xferLen == 0
      ensures !fromHost && xferCb == None
    {
      this.tc := tc;
      this.qid := qid;
      this.id := id;
      this.cqBuf := cqBuf;
      this.sq := sq;
      cq := ZERO_CQ;
      block, xferBase, xferBuf, xferSize, xferLen := 0, 0, 0, 0, 0;
      fromHost, xferCb := false, None;
    }

    /** `fill_cq_resp`. */
    method Fill()
      requires Valid()
      modifies this`cq
      ensures cq == FilledCq(tc.sq[qid].head, CommandId(sq))
    {
      cq := ZERO_CQ;
      cq := cq.(sqHead := tc.sq[qid].head % 0x1_0000);
      cq := cq.(cid := CommandId(sq));
    }

    /** `nvme_cmd_return`, given what `nvme_tc_get_cq_addr` answers: nothing
        when that address is 0; otherwise the phase of the queue goes into
        the entry and the entry is queued for the host, `cq_cb` to follow. */
    method Return(cqAddr: u64)
      requires Valid()
      modifies this`cq, tc.dma
      ensures Returned(this, cqAddr)
      ensures cqAddr == 0 ==> unchanged(tc.dma)
    {
      if cqAddr == 0 {
        return;
      }
      cq := cq.(p := PhaseBit(tc.cq[qid].phase));
      var _ := tc.dma.MemToHost(cqBuf, cqAddr, CQ_ENTRY_BYTES, Some(Dma.Callback(Dma.CompletionPosted, id)));
    }

    /** `nvme_cmd_return_data`: with a non-zero `prp1`, the `len` bytes at
        local address `buf` are queued for the host, then the completion;
        with `prp1` 0 neither is sent. */
    method ReturnData(buf: u32, len: u32, cqAddr: u64)
      requires Valid()
      modifies this`cq, tc.dma
      ensures ReturnedData(this, buf, len, cqAddr)
      ensures Prp1(sq) == 0 ==> unchanged(tc.dma)
    {
      var retAddr := Prp1(sq);
      if retAddr == 0 {
        return;
      }
      var data := [Dma.Desc(None, retAddr, buf, len, Dma.TAG_MEM_TO_HOST)];
      AcceptedAppend(tc.dma.free, data, CompletionXfers(id, cqBuf, cqAddr));
      ghost var fifo0, log0, regs0 := tc.dma.txFifo, tc.dma.mmio, tc.dma.regs;
      var _ := tc.dma.MemToHost(buf, retAddr, len, None);
      ghost var fifo1, log1, regs1 := tc.dma.txFifo, tc.dma.mmio, tc.dma.regs;
      Return(cqAddr);
      Dma.StartWritesChain(fifo0, fifo1, tc.dma.txFifo, Dma.WRITE_BASE, log0, log1, tc.dma.mmio, regs0, regs1, tc.dma.regs);
    }

    /** `cq_cb`: the host is told about queue `qid` and the context goes back
        to the slab. */
    method CqCb()
      modifies tc`notified, tc`freed
      ensures tc.notified == old(tc.notified) + [qid]
      ensures tc.freed == old(tc.freed) + [id]
    {
      tc.notified := tc.notified + [qid];
      tc.freed := tc.freed + [id];
    }
  }

  /** The state `nvme_cmd_return` leaves on an entry that was `e` before:
      the entry stamped with the phase of the command's queue and queued
      behind the earlier write-channel transfers, unless the queue has no
      address or the pool is empty. */
  twostate predicate ReturnedFrom(c: Cmd, cqAddr: u64, e: CqEntry)
    reads c, c.tc, c.tc.dma
  {
    && c.Valid()
    && c.cq == (if cqAddr == 0 then e else e.(p := PhaseBit(c.tc.cq[c.qid].phase)))
    && c.tc.dma.txFifo == old(c.tc.dma.txFifo) + Accepted(old(c.tc.dma.free), CompletionXfers(c.id, c.cqBuf, cqAddr))
    && c.tc.dma.free == old(c.tc.dma.free) - |Accepted(old(c.tc.dma.free), CompletionXfers(c.id, c.cqBuf, cqAddr))|
    && c.tc.dma.rxFifo == old(c.tc.dma.rxFifo)
    && var w := Dma.StartWrites(old(c.tc.dma.txFifo), c.tc.dma.txFifo, Dma.WRITE_BASE);
       c.tc.dma.mmio == old(c.tc.dma.mmio) + w && c.tc.dma.regs == Dma.ApplyWrites(old(c.tc.dma.regs), w)
  }

  /** `nvme_cmd_return` on the entry as the call found it. */
  twostate predicate Returned(c: Cmd, cqAddr: u64)
    reads c, c.tc, c.tc.dma
  {
    ReturnedFrom(c, cqAddr, old(c.cq))
  }

  /** The state `nvme_cmd_return_data` leaves on an entry that was `e`: the
      data transfer and then the completion, as far as the pool allows;
      nothing when `prp1` is 0. */
  twostate predicate ReturnedDataFrom(c: Cmd, buf: u32, len: u32, cqAddr: u64, e: CqEntry)
    reads c, c.tc, c.tc.dma
  {
    && c.Valid()
    && c.cq == (if Prp1(c.sq) == 0 || cqAddr == 0 then e else e.(p := PhaseBit(c.tc.cq[c.qid].phase)))
    && c.tc.dma.txFifo == old(c.tc.dma.txFifo) + Accepted(old(c.tc.dma.free), DataXfers(c.id, c.cqBuf, cqAddr, Prp1(c.sq), buf, len))
    && c.tc.dma.free == old(c.tc.dma.free) - |Accepted(old(c.tc.dma.free), DataXfers(c.id, c.cqBuf, cqAddr, Prp1(c.sq), buf, len))|
    && c.tc.dma.rxFifo == old(c.tc.dma.rxFifo)
    && var w := Dma.StartWrites(old(c.tc.dma.txFifo), c.tc.dma.txFifo, Dma.WRITE_BASE);
       c.tc.dma.mmio == old(c.tc.dma.mmio) + w && c.tc.dma.regs == Dma.ApplyWrites(old(c.tc.dma.regs), w)
  }

  twostate predicate ReturnedData(c: Cmd, buf: u32, len: u32, cqAddr: u64)
    reads c, c.tc, c.tc.dma
  {
    ReturnedDataFrom(c, buf, len, cqAddr, old(c.cq))
  }
}
