/** The admin commands of the older command interface declared in
    rpu-app/src/cmd.h, where a handler receives the controller, the raw
    submission entry and a completion buffer, and answers through the
    older `nvme_cmd_return` and `nvme_cmd_return_data`:
    rpu-app/src/cmds/create_queues.c, identify.c and set_features.c.  Those
    two return functions are not part of this model; what each call hands
    them is logged as a `Reply`. */
module LegacyCmds {
  import opened Bits
  import opened CmdLayout

  /** One row of the `io_sq_*` tables (index `qid - 1`). */
  datatype SqRow = SqRow(base: u64, head: nat, tail: nat, ien: nat, pc: nat, size: nat, iv: nat)

  /** One row of the `io_cq_*` tables. */
  datatype CqRow = CqRow(base: u64, head: nat, tail: nat, phase: bool,
                         ien: nat, pc: nat, size: nat, iv: nat, valid: bool)

  /** Both tables, as the queue commands leave them. */
  datatype Tables = Tables(sq: seq<SqRow>, cq: seq<CqRow>)

  /** A call of the older `nvme_cmd_return` with its completion entry, or of
      `nvme_cmd_return_data` with the entry and the byte count of the
      identify buffer. */
  datatype Reply = Ret(cq: CqEntry) | RetData(cq: CqEntry, len: nat)

  /** The status a rejected queue id gets: command specific (1), invalid
      queue identifier (1). */
  function Rejected(cq: CqEntry): (e: CqEntry)
    ensures e.sct == 1 && e.sc == 1
    ensures e.(sct := cq.sct, sc := cq.sc) == cq
  {
    cq.(sct := 1, sc := 1)
  }

  predicate Accepts(max: nat, qid: nat)
  {
    1 <= qid <= max
  }

  predicate Sized(t: Tables, max: nat)
  {
    |t.sq| == max && |t.cq| == max
  }

  /** The tables after `nvme_cmd_adm_create_sq` as written: the submission
      row is filled from the entry with the raw 0's-based size, and it is
      the completion row that is marked valid. */
  function CreateSqAsWritten(t: Tables, max: nat, cmd: seq<u32>): (r: Tables)
    requires Sized(t, max) && |cmd| == SQ_ENTRY_DWORDS
    ensures Sized(r, max)
    ensures var q := cmd[10] % 0x1_0000;
      && (!Accepts(max, q) ==> r == t)
      && (Accepts(max, q) ==>
            && r.sq == t.sq[q - 1 := SqRow(Prp1(cmd), 0, 0, (cmd[11] / 2) % 2, cmd[11] % 2,
                                           cmd[10] / 0x1_0000, cmd[11] / 0x1_0000)]
            && r.cq == t.cq[q - 1 := t.cq[q - 1].(valid := true)])
  {
    var q := cmd[10] % 0x1_0000;
    if !Accepts(max, q) then t
    else
      var s := t.sq[q - 1 := SqRow(Prp1(cmd), 0, 0, (cmd[11] / 2) % 2, cmd[11] % 2,
                                   cmd[10] / 0x1_0000, cmd[11] / 0x1_0000)];
      Tables(s, t.cq[q - 1 := t.cq[q - 1].(valid := true)])
  }

  /** The tables after `nvme_cmd_adm_create_cq` as written: the completion
      row is filled but keeps its base, and the data pointer goes into the
      submission row's base instead. */
  function CreateCqAsWritten(t: Tables, max: nat, cmd: seq<u32>): (r: Tables)
    requires Sized(t, max) && |cmd| == SQ_ENTRY_DWORDS
    ensures Sized(r, max)
    ensures var q := cmd[10] % 0x1_0000;
      && (!Accepts(max, q) ==> r == t)
      && (Accepts(max, q) ==>
            && r.sq == t.sq[q - 1 := t.sq[q - 1].(base := Prp1(cmd))]
            && r.cq[q - 1].base == t.cq[q - 1].base
            && r.cq == t.cq[q - 1 := CqRow(t.cq[q - 1].base, 0, 0, false, (cmd[11] / 2) % 2, cmd[11] % 2,
                                           cmd[10] / 0x1_0000, cmd[11] / 0x1_0000, true)])
  {
    var q := cmd[10] % 0x1_0000;
    if !Accepts(max, q) then t
    else
      var s := t.sq[q - 1 := t.sq[q - 1].(base := Prp1(cmd))];
      var c := t.cq[q - 1 := t.cq[q - 1].(head := 0, tail := 0, phase := false, ien := (cmd[11] / 2) % 2,
                                          pc := cmd[11] % 2, size := cmd[10] / 0x1_0000,
                                          iv := cmd[11] / 0x1_0000, valid := true)];
      Tables(s, c)
  }

  /** A Create I/O Submission Queue marks the completion queue of the same
      id valid, whether or not that queue was ever created. */
  lemma CreateSqValidatesCq(t: Tables, max: nat, cmd: seq<u32>)
    requires Sized(t, max) && |cmd| == SQ_ENTRY_DWORDS
    requires Accepts(max, cmd[10] % 0x1_0000) && !t.cq[cmd[10] % 0x1_0000 - 1].valid
    ensures CreateSqAsWritten(t, max, cmd).cq[cmd[10] % 0x1_0000 - 1].valid
  {
  }

  /** The usual order, submission queue then completion queue with the same
      id at different addresses, leaves the submission queue pointing at the
      completion queue's memory and the completion queue at its old base. */
  lemma CreateCqClobbersSqBase(t: Tables, max: nat, a: seq<u32>, b: seq<u32>)
    requires Sized(t, max) && |a| == SQ_ENTRY_DWORDS && |b| == SQ_ENTRY_DWORDS
    requires Accepts(max, a[10] % 0x1_0000) && a[10] % 0x1_0000 == b[10] % 0x1_0000
    requires Prp1(a) != Prp1(b)
    ensures var q := a[10] % 0x1_0000;
      var r := CreateCqAsWritten(CreateSqAsWritten(t, max, a), max, b);
      && r.sq[q - 1].base == Prp1(b) != Prp1(a)
      && r.cq[q - 1].base == t.cq[q - 1].base
  {
  }

  /** The queue size is stored as the 0's-based field: a queue of one entry
      is recorded with size 0. */
  lemma SizeIsZeroBased(t: Tables, max: nat, cmd: seq<u32>)
    requires Sized(t, max) && |cmd| == SQ_ENTRY_DWORDS
    requires Accepts(max, cmd[10] % 0x1_0000) && cmd[10] / 0x1_0000 == 0
    ensures CreateSqAsWritten(t, max, cmd).sq[cmd[10] % 0x1_0000 - 1].size == 0
  {
  }

  /** `NVME_CMD_IDENTIFY_RESP_SIZE` and `CNS_IDENTIFY_CONTROLLER`. */
  const IDENTIFY_RESP_SIZE: nat := 4096
  const CNS_CONTROLLER: nat := 0x01

  /** `FID_NUMBER_OF_QUEUES`. */
  const FID_NUMBER_OF_QUEUES: nat := 0x07

  /** The completion `identify_controller` builds in its slab entry: every
      field zero except the admin queue head, the command identifier and
      the phase of the admin completion queue. */
  function IdentifyCq(sqHead: nat, cid: u16, phase: bool): (e: CqEntry)
    ensures CqOk(e)
    ensures e.(sqHead := 0, cid := 0, p := 0) == ZERO_CQ
    ensures e.sqHead == sqHead % 0x1_0000 && e.cid == cid && (e.p == 1 <==> phase)
  {
    ZERO_CQ.(sqHead := sqHead % 0x1_0000, cid := cid, p := if phase then 1 else 0)
  }

  /** The completion dword 0 of Set Features / Number of Queues: the
      0's-based counts of completion queues (bits 31:16) and submission
      queues (bits 15:0) allocated. */
  function QueueCountsDword(ioQueues: nat): (d: nat)
    requires 1 <= ioQueues <= 0x1_0000
    ensures d / 0x1_0000 == ioQueues - 1 && d % 0x1_0000 == ioQueues - 1
  {
    PackSplit(ioQueues - 1, ioQueues - 1, 0x1_0000);
    (ioQueues - 1) * 0x1_0000 + (ioQueues - 1)
  }

  /** The state the older handlers work on. */
  class LegacyTarget {
    /** `MAX_IO_QUEUES`. */
    const maxIoQueues: nat
    var ioSq: seq<SqRow>
    var ioCq: seq<CqRow>
    var admSqHead: nat
    var admCqPhase: bool
    var ioQueues: nat
    /** The static `resp_buf` of `identify_controller`. */
    const respBuf: array<u8>
    /** Free entries of `adm_cq_slab`. */
    var slabFree: nat
    var replies: seq<Reply>

    predicate Valid()
      reads this
    {
      |ioSq| == maxIoQueues && |ioCq| == maxIoQueues && respBuf.Length == IDENTIFY_RESP_SIZE
    }

    /** `nvme_cmd_adm_create_sq`, with the caller's completion buffer. */
    method CreateSq(cmd: seq<u32>, cq: CqEntry)
      requires Valid() && |cmd| == SQ_ENTRY_DWORDS
      modifies this`ioSq, this`ioCq, this`replies
      ensures Valid()
      ensures Tables(ioSq, ioCq) == CreateSqAsWritten(Tables(old(ioSq), old(ioCq)), maxIoQueues, cmd)
      ensures replies == old(replies) + [Ret(if Accepts(maxIoQueues, cmd[10] % 0x1_0000) then cq else Rejected(cq))]
    {
      var qid: nat := cmd[10] % 0x1_0000;
      if qid == 0 || qid > maxIoQueues {
        replies := replies + [Ret(cq.(sct := 1, sc := 1))];
        return;
      }
      qid := qid - 1;
      ioSq := ioSq[qid := SqRow(Prp1(cmd), 0, 0, (cmd[11] / 2) % 2, cmd[11] % 2, cmd[10] / 0x1_0000, cmd[11] / 0x1_0000)];
      ioCq := ioCq[qid := ioCq[qid].(valid := true)];
      replies := replies + [Ret(cq)];
    }

    /** `nvme_cmd_adm_create_cq`. */
    method CreateCq(cmd: seq<u32>, cq: CqEntry)
      requires Valid() && |cmd| == SQ_ENTRY_DWORDS
      modifies this`ioSq, this`ioCq, this`replies
      ensures Valid()
      ensures Tables(ioSq, ioCq) == CreateCqAsWritten(Tables(old(ioSq), old(ioCq)), maxIoQueues, cmd)
      ensures replies == old(replies) + [Ret(if Accepts(maxIoQueues, cmd[10] % 0x1_0000) then cq else Rejected(cq))]
    {
      var qid: nat := cmd[10] % 0x1_0000;
      if qid == 0 || qid > maxIoQueues {
        replies := replies + [Ret(cq.(sct := 1, sc := 1))];
        return;
      }
      qid := qid - 1;
      ioSq := ioSq[qid := ioSq[qid].(base := Prp1(cmd))];
      var row := ioCq[qid].(head := 0, tail := 0, phase := false);
      row := row.(ien := (cmd[11] / 2) % 2, pc := cmd[11] % 2, size := cmd[10] / 0x1_0000, iv := cmd[11] / 0x1_0000);
      ioCq := ioCq[qid := row.(valid := true)];
      replies := replies + [Ret(cq)];
    }

    /** `nvme_cmd_adm_identify`: only CNS 1 is answered, and only when
        `k_mem_slab_alloc` finds a free completion entry, which it takes;
        the answer is a zeroed 4096-byte structure.  Any other CNS, or a
        full slab, gets no completion at all. */
    method Identify(cmd: seq<u32>)
      requires Valid() && |cmd| == SQ_ENTRY_DWORDS
      modifies this`replies, this`slabFree, respBuf
      ensures Valid()
      ensures cmd[10] % 0x100 == CNS_CONTROLLER && old(slabFree) > 0 ==>
        && (forall i :: 0 <= i < respBuf.Length ==> respBuf[i] == 0)
        && slabFree == old(slabFree) - 1
        && replies == old(replies) + [RetData(IdentifyCq(admSqHead, CommandId(cmd), admCqPhase), IDENTIFY_RESP_SIZE)]
      ensures !(cmd[10] % 0x100 == CNS_CONTROLLER && old(slabFree) > 0) ==>
        replies == old(replies) && slabFree == old(slabFree) && unchanged(respBuf)
    {
      if cmd[10] % 0x100 != CNS_CONTROLLER || slabFree == 0 {
        return;
      }
      slabFree := slabFree - 1;
      var i := 0;
      while i < respBuf.Length
        invariant 0 <= i <= respBuf.Length
        invariant forall j :: 0 <= j < i ==> respBuf[j] == 0
        invariant replies == old(replies)
        invariant slabFree == old(slabFree) - 1
      {
        respBuf[i] := 0;
        i := i + 1;
      }
      var cq := ZERO_CQ;
      cq := cq.(sqHead := admSqHead % 0x1_0000, sqId := 0);
      cq := cq.(cid := CommandId(cmd));
      cq := cq.(p := if admCqPhase then 1 else 0);
      cq := cq.(sc := 0, sct := 0, crd := 0, m := 0, dnr := 0);
      assert cq == IdentifyCq(admSqHead, CommandId(cmd), admCqPhase);
      replies := replies + [RetData(cq, IDENTIFY_RESP_SIZE)];
    }

    /** `nvme_cmd_adm_set_features`: Number of Queues grants one I/O queue
        pair whatever was asked for; every FID ends in a completion. */
    method SetFeatures(cmd: seq<u32>, cq: CqEntry)
      requires Valid() && |cmd| == SQ_ENTRY_DWORDS
      modifies this`ioQueues, this`replies
      ensures Valid()
      ensures cmd[10] % 0x100 == FID_NUMBER_OF_QUEUES ==>
        && ioQueues == 1
        && replies == old(replies) + [Ret(cq.(cdw0 := QueueCountsDword(1)))]
      ensures cmd[10] % 0x100 != FID_NUMBER_OF_QUEUES ==>
        ioQueues == old(ioQueues) && replies == old(replies) + [Ret(cq)]
    {
      var reply := cq;
      if cmd[10] % 0x100 == FID_NUMBER_OF_QUEUES {
        ioQueues := 1;
        reply := reply.(cdw0 := (ioQueues - 1) * 0x1_0000 + (ioQueues - 1));
      }
      replies := replies + [Ret(reply)];
    }
  }

  /** The answer to Number of Queues is "one of each" whatever the host
      requested in dword 11. */
  lemma OneQueuePairGranted()
    ensures QueueCountsDword(1) == 0
  {
  }
}
