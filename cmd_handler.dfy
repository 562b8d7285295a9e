/** `nvme_cmd_handler` of rpu-app/src/cmd.c: every command gets a fresh
    completion entry; admin commands are dispatched on their opcode, I/O
    commands and unknown admin opcodes are completed at once. */
module CmdHandler {
  import opened Bits
  import opened CmdLayout
  import opened RpuCmd
  import Queues
  import GetLog

  /** Where a command goes. */
  datatype Route =
    | GetLogPage | Identify | SetFeatures
    | CreateSq | CreateCq | DeleteSq | DeleteCq
    | Unsupported | Io

  function RouteOf(qid: nat, opc: u8): (r: Route)
    ensures qid != ADM_QUEUE_ID <==> r == Io
    ensures qid == ADM_QUEUE_ID ==>
      && (r == GetLogPage <==> opc == ADM_GET_LOG)
      && (r == Identify <==> opc == ADM_IDENTIFY)
      && (r == SetFeatures <==> opc == ADM_SET_FEATURES)
      && (r == CreateSq <==> opc == ADM_CREATE_IO_SQ)
      && (r == CreateCq <==> opc == ADM_CREATE_IO_CQ)
      && (r == DeleteSq <==> opc == ADM_DELETE_IO_SQ)
      && (r == DeleteCq <==> opc == ADM_DELETE_IO_CQ)
      && (r == Unsupported <==>
            opc !in {ADM_GET_LOG, ADM_IDENTIFY, ADM_SET_FEATURES, ADM_CREATE_IO_SQ,
                     ADM_CREATE_IO_CQ, ADM_DELETE_IO_SQ, ADM_DELETE_IO_CQ})
  {
    if qid != ADM_QUEUE_ID then Io
    else if opc == ADM_GET_LOG then GetLogPage
    else if opc == ADM_IDENTIFY then Identify
    else if opc == ADM_SET_FEATURES then SetFeatures
    else if opc == ADM_CREATE_IO_SQ then CreateSq
    else if opc == ADM_CREATE_IO_CQ then CreateCq
    else if opc == ADM_DELETE_IO_SQ then DeleteSq
    else if opc == ADM_DELETE_IO_CQ then DeleteCq
    else Unsupported
  }

  /** Keep Alive has no handler of its own: it is completed like an unknown
      opcode. */
  lemma KeepAliveUnsupported()
    ensures RouteOf(ADM_QUEUE_ID, ADM_KEEP_ALIVE) == Unsupported
  {
    AdminOpcodesDistinct();
  }

  /** The tables and the outstanding calls as `handle_adm` leaves them on
      route `r`. */
  predicate TablesAfter(r: Route, sq0: seq<SqRow>, cq0: seq<CqRow>, p0: seq<Pending>, c: Cmd)
    requires |sq0| == c.tc.queues + 1 && |cq0| == c.tc.queues + 1 && |c.sq| == SQ_ENTRY_DWORDS
    reads c, c.tc
  {
    && c.tc.sq == (match r
                   case CreateSq => Queues.CreatedSq(sq0, c.tc.queues, c.sq)
                   case DeleteSq => Queues.DeletedSq(sq0, c.tc.queues, c.sq)
                   case _ => sq0)
    && c.tc.cq == (match r
                   case CreateCq => Queues.CreatedCq(cq0, c.tc.queues, c.sq)
                   case DeleteCq => Queues.DeletedCq(cq0, c.tc.queues, c.sq)
                   case _ => cq0)
    && c.tc.pending == (if r == Identify || r == SetFeatures then p0 + [Handler(c.id, Opcode(c.sq))] else p0)
  }

  /** `handle_adm` for a command on the admin queue, and the completion
      `handle_io` sends for any other. */
  method Dispatch(c: Cmd, cqAddr: u64)
    requires c.Valid()
    modifies c`cq, c.tc`sq, c.tc`cq, c.tc`pending, c.tc.dma, c.tc.smartBuf
    ensures c.Valid()
    ensures var r := RouteOf(c.qid, Opcode(c.sq));
      && TablesAfter(r, old(c.tc.sq), old(c.tc.cq), old(c.tc.pending), c)
      && (r == GetLogPage && GetLog.Lid(c.sq[10]) == GetLog.LID_SMART ==>
            && c.tc.smartBuf[..] == GetLog.SmartImage()
            && ReturnedData(c, c.tc.smartAddr, GetLog.ReturnedLen(GetLog.RequestedLen(c.sq[10], c.sq[11])), cqAddr))
      && ((r == GetLogPage && GetLog.Lid(c.sq[10]) != GetLog.LID_SMART) || r == Identify || r == SetFeatures ==>
            unchanged(c, c.tc.dma, c.tc.smartBuf))
      && (r in {CreateSq, CreateCq, DeleteSq, DeleteCq, Unsupported, Io} ==>
            Returned(c, cqAddr) && unchanged(c.tc.smartBuf))
  {
    var r := RouteOf(c.qid, Opcode(c.sq));
    match r {
      case GetLogPage => GetLog.GetLogPage(c, cqAddr);
      case Identify => c.tc.pending := c.tc.pending + [Handler(c.id, Opcode(c.sq))];
      case SetFeatures => c.tc.pending := c.tc.pending + [Handler(c.id, Opcode(c.sq))];
      case CreateSq => Queues.CreateSq(c, cqAddr);
      case CreateCq => Queues.CreateCq(c, cqAddr);
      case DeleteSq => Queues.DeleteSq(c, cqAddr);
      case DeleteCq => Queues.DeleteCq(c, cqAddr);
      case Unsupported => c.Return(cqAddr);
      case Io => c.Return(cqAddr);
    }
  }

  /** `nvme_cmd_handler`: the entry is filled before the dispatch, so every
      completion it sends carries the head of the command's submission
      queue and the command's identifier. */
  method Handle(c: Cmd, cqAddr: u64)
    requires c.Valid()
    modifies c`cq, c.tc`sq, c.tc`cq, c.tc`pending, c.tc.dma, c.tc.smartBuf
    ensures c.Valid()
    ensures var r := RouteOf(c.qid, Opcode(c.sq));
      var e := FilledCq(old(c.tc.sq[c.qid].head), CommandId(c.sq));
      && TablesAfter(r, old(c.tc.sq), old(c.tc.cq), old(c.tc.pending), c)
      && (r == GetLogPage && GetLog.Lid(c.sq[10]) == GetLog.LID_SMART ==>
            ReturnedDataFrom(c, c.tc.smartAddr, GetLog.ReturnedLen(GetLog.RequestedLen(c.sq[10], c.sq[11])), cqAddr, e))
      && ((r == GetLogPage && GetLog.Lid(c.sq[10]) != GetLog.LID_SMART) || r == Identify || r == SetFeatures ==>
            c.cq == e && unchanged(c.tc.dma))
      && (r in {CreateSq, CreateCq, DeleteSq, DeleteCq, Unsupported, Io} ==>
            ReturnedFrom(c, cqAddr, e))
  {
    c.Fill();
    Dispatch(c, cqAddr);
  }
}
