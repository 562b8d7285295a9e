/** The I/O queue commands of rpu-app/src/cmds/queues.c: Create and Delete
    I/O Submission and Completion Queue, on tables indexed by the queue id
    itself.  Every command, accepted or not, ends in one `nvme_cmd_return`. */
module Queues {
  import opened Bits
  import opened CmdLayout
  import opened RpuCmd

  /** `cdw10.qid`, bits 15:0, and `cdw10.qsize`, bits 31:16 (0's based). */
  function QidOf(cdw10: u32): (q: u16)
  {
    cdw10 % 0x1_0000
  }

  function QsizeOf(cdw10: u32): (s: u16)
  {
    cdw10 / 0x1_0000
  }

  /** `cdw11.pc` (bit 0), `cdw11.ien` (bit 1) and `cdw11.iv` (bits 31:16). */
  function PcOf(cdw11: u32): (b: nat)
    ensures b < 2
  {
    cdw11 % 2
  }

  function IenOf(cdw11: u32): (b: nat)
    ensures b < 2
  {
    (cdw11 / 2) % 2
  }

  function IvOf(cdw11: u32): (v: u16)
  {
    cdw11 / 0x1_0000
  }

  /** The decoders read back the fields a host packs into the two dwords. */
  lemma Cdw10Fields(qid: u16, qsize: u16)
    ensures qid + 0x1_0000 * qsize < U32_LIMIT
    ensures QidOf(qid + 0x1_0000 * qsize) == qid && QsizeOf(qid + 0x1_0000 * qsize) == qsize
  {
    PackSplit(qid, qsize, 0x1_0000);
  }

  lemma Cdw11Fields(pc: nat, ien: nat, rsvd: nat, iv: u16)
    requires pc < 2 && ien < 2 && rsvd < 0x4000
    ensures pc + 2 * (ien + 2 * (rsvd + 0x4000 * iv)) < U32_LIMIT
    ensures var w := pc + 2 * (ien + 2 * (rsvd + 0x4000 * iv));
      PcOf(w) == pc && IenOf(w) == ien && IvOf(w) == iv
  {
    var w := pc + 2 * (ien + 2 * (rsvd + 0x4000 * iv));
    PackSplit(pc, ien + 2 * (rsvd + 0x4000 * iv), 2);
    PackSplit(ien, rsvd + 0x4000 * iv, 2);
    assert w == (pc + 2 * ien + 4 * rsvd) + 0x1_0000 * iv;
    PackSplit(pc + 2 * ien + 4 * rsvd, iv, 0x1_0000);
  }

  /** `qid == 0 || qid > QUEUES` is the rejection test. */
  predicate Accepts(queues: nat, qid: nat)
  {
    1 <= qid <= queues
  }

  /** The `sq_*` tables after `nvme_cmd_adm_create_sq` runs on entry `cmd`. */
  function CreatedSq(t: seq<SqRow>, queues: nat, cmd: seq<u32>): (r: seq<SqRow>)
    requires |t| == queues + 1 && |cmd| == SQ_ENTRY_DWORDS
    ensures |r| == |t|
    ensures var q := QidOf(cmd[10]);
      && (!Accepts(queues, q) ==> r == t)
      && (Accepts(queues, q) ==>
            && r[q].base == Prp1(cmd) && r[q].head == 0 && r[q].tail == 0
            && r[q].pc == PcOf(cmd[11]) && r[q].size == QsizeOf(cmd[10]) + 1 && r[q].valid
            && forall j :: 0 <= j < |t| && j != q ==> r[j] == t[j])
  {
    var q := QidOf(cmd[10]);
    if !Accepts(queues, q) then t
    else t[q := SqRow(Prp1(cmd), 0, 0, PcOf(cmd[11]), QsizeOf(cmd[10]) + 1, true)]
  }

  /** The `cq_*` tables after `nvme_cmd_adm_create_cq`. */
  function CreatedCq(t: seq<CqRow>, queues: nat, cmd: seq<u32>): (r: seq<CqRow>)
    requires |t| == queues + 1 && |cmd| == SQ_ENTRY_DWORDS
    ensures |r| == |t|
    ensures var q := QidOf(cmd[10]);
      && (!Accepts(queues, q) ==> r == t)
      && (Accepts(queues, q) ==>
            && r[q].base == Prp1(cmd) && r[q].head == 0 && r[q].tail == 0 && !r[q].phase
            && r[q].ien == IenOf(cmd[11]) && r[q].pc == PcOf(cmd[11]) && r[q].iv == IvOf(cmd[11])
            && r[q].size == QsizeOf(cmd[10]) + 1 && r[q].valid
            && forall j :: 0 <= j < |t| && j != q ==> r[j] == t[j])
  {
    var q := QidOf(cmd[10]);
    if !Accepts(queues, q) then t
    else t[q := CqRow(Prp1(cmd), 0, 0, false, IenOf(cmd[11]), PcOf(cmd[11]), QsizeOf(cmd[10]) + 1, IvOf(cmd[11]), true)]
  }

  /** The `sq_*` tables after `nvme_cmd_adm_delete_sq`: only the valid flag
      of the queue goes, everything else of its row stays. */
  function DeletedSq(t: seq<SqRow>, queues: nat, cmd: seq<u32>): (r: seq<SqRow>)
    requires |t| == queues + 1 && |cmd| == SQ_ENTRY_DWORDS
    ensures |r| == |t|
    ensures var q := QidOf(cmd[10]);
      && (!Accepts(queues, q) ==> r == t)
      && (Accepts(queues, q) ==>
            && !r[q].valid && r[q] == t[q].(valid := false)
            && forall j :: 0 <= j < |t| && j != q ==> r[j] == t[j])
  {
    var q := QidOf(cmd[10]);
    if !Accepts(queues, q) then t else t[q := t[q].(valid := false)]
  }

  /** The `cq_*` tables after `nvme_cmd_adm_delete_cq`. */
  function DeletedCq(t: seq<CqRow>, queues: nat, cmd: seq<u32>): (r: seq<CqRow>)
    requires |t| == queues + 1 && |cmd| == SQ_ENTRY_DWORDS
    ensures |r| == |t|
    ensures var q := QidOf(cmd[10]);
      && (!Accepts(queues, q) ==> r == t)
      && (Accepts(queues, q) ==>
            && !r[q].valid && r[q] == t[q].(valid := false)
            && forall j :: 0 <= j < |t| && j != q ==> r[j] == t[j])
  {
    var q := QidOf(cmd[10]);
    if !Accepts(queues, q) then t else t[q := t[q].(valid := false)]
  }

  /** Deleting twice is deleting once. */
  lemma DeleteIdempotent(s: seq<SqRow>, c: seq<CqRow>, queues: nat, cmd: seq<u32>)
    requires |s| == queues + 1 && |c| == queues + 1 && |cmd| == SQ_ENTRY_DWORDS
    ensures DeletedSq(DeletedSq(s, queues, cmd), queues, cmd) == DeletedSq(s, queues, cmd)
    ensures DeletedCq(DeletedCq(c, queues, cmd), queues, cmd) == DeletedCq(c, queues, cmd)
  {
  }

  /** A created queue that is then deleted keeps its base and size but is no
      longer valid; a second create with the same entry revalidates it. */
  lemma CreateDeleteCreate(s: seq<SqRow>, queues: nat, cmd: seq<u32>)
    requires |s| == queues + 1 && |cmd| == SQ_ENTRY_DWORDS
    requires Accepts(queues, QidOf(cmd[10]))
    ensures var q := QidOf(cmd[10]);
      var d := DeletedSq(CreatedSq(s, queues, cmd), queues, cmd);
      && d[q].base == Prp1(cmd) && d[q].size == QsizeOf(cmd[10]) + 1 && !d[q].valid
      && CreatedSq(d, queues, cmd) == CreatedSq(s, queues, cmd)
  {
  }

  /** Creating the submission queue and then the completion queue of one
      id leaves each at its own host address, and both valid, with the
      1's-based size of each. */
  lemma CreatePairKeepsBases(s: seq<SqRow>, c: seq<CqRow>, queues: nat, a: seq<u32>, b: seq<u32>)
    requires |s| == queues + 1 && |c| == queues + 1 && |a| == SQ_ENTRY_DWORDS && |b| == SQ_ENTRY_DWORDS
    requires Accepts(queues, QidOf(a[10])) && QidOf(a[10]) == QidOf(b[10])
    ensures var q := QidOf(a[10]);
      var s' := CreatedSq(s, queues, a);
      var c' := CreatedCq(c, queues, b);
      && s'[q].base == Prp1(a) && c'[q].base == Prp1(b)
      && s'[q].valid && c'[q].valid
      && s'[q].size == QsizeOf(a[10]) + 1 && c'[q].size == QsizeOf(b[10]) + 1
  {
  }

  /** `nvme_cmd_adm_create_sq`. */
  method CreateSq(c: Cmd, cqAddr: u64)
    requires c.Valid()
    modifies c.tc`sq, c`cq, c.tc.dma
    ensures c.tc.sq == CreatedSq(old(c.tc.sq), c.tc.queues, c.sq)
    ensures Returned(c, cqAddr)
  {
    var q := QidOf(c.sq[10]);
    if q == 0 || q > c.tc.queues {
      c.Return(cqAddr);
      return;
    }
    c.tc.sq := c.tc.sq[q := SqRow(Prp1(c.sq), 0, 0, PcOf(c.sq[11]), QsizeOf(c.sq[10]) + 1, true)];
    c.Return(cqAddr);
  }

  /** `nvme_cmd_adm_delete_sq`. */
  method DeleteSq(c: Cmd, cqAddr: u64)
    requires c.Valid()
    modifies c.tc`sq, c`cq, c.tc.dma
    ensures c.tc.sq == DeletedSq(old(c.tc.sq), c.tc.queues, c.sq)
    ensures Returned(c, cqAddr)
  {
    var q := QidOf(c.sq[10]);
    if q == 0 || q > c.tc.queues {
      c.Return(cqAddr);
      return;
    }
    c.tc.sq := c.tc.sq[q := c.tc.sq[q].(valid := false)];
    c.Return(cqAddr);
  }

  /** `nvme_cmd_adm_create_cq`; the phase the completion carries is read
      after the table update. */
  method CreateCq(c: Cmd, cqAddr: u64)
    requires c.Valid()
    modifies c.tc`cq, c`cq, c.tc.dma
    ensures c.tc.cq == CreatedCq(old(c.tc.cq), c.tc.queues, c.sq)
    ensures Returned(c, cqAddr)
  {
    var q := QidOf(c.sq[10]);
    if q == 0 || q > c.tc.queues {
      c.Return(cqAddr);
      return;
    }
    c.tc.cq := c.tc.cq[q := CqRow(Prp1(c.sq), 0, 0, false, IenOf(c.sq[11]), PcOf(c.sq[11]),
                                 QsizeOf(c.sq[10]) + 1, IvOf(c.sq[11]), true)];
    c.Return(cqAddr);
  }

  /** `nvme_cmd_adm_delete_cq`. */
  method DeleteCq(c: Cmd, cqAddr: u64)
    requires c.Valid()
    modifies c.tc`cq, c`cq, c.tc.dma
    ensures c.tc.cq == DeletedCq(old(c.tc.cq), c.tc.queues, c.sq)
    ensures Returned(c, cqAddr)
  {
    var q := QidOf(c.sq[10]);
    if q == 0 || q > c.tc.queues {
      c.Return(cqAddr);
      return;
    }
    c.tc.cq := c.tc.cq[q := c.tc.cq[q].(valid := false)];
    c.Return(cqAddr);
  }
}
