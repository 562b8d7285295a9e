/** The older router of apu-app/src/cmd.c.  Its admin switch knows only
    IDENTIFY, CTL and STATUS, so the firmware download and commit
    opcodes fall to the default acknowledgement; its I/O switch is that
    of cmd.cpp, reaching the older `io_cmd_acc_ctl` of io_acc_ctl.c. */
module LegacyApuCmd {
  import opened Bits
  import opened ApuNvme
  import opened ApuState
  import ApuIdentify
  import ApuStatus
  import Fw
  import Lba
  import IoAccCtl
  import LegacyIoAccCtl
  import AdmAccCtl
  import CmdLayout
  import opened ApuCmd

  /** The admin switch of the older `handle_adm_cmd`. */
  function LegacyAdmHandlerOf(opc: u8): (h: AdmHandler)
    ensures h == NoAdmHandler <==> opc !in {ADM_IDENTIFY, ADM_CTL, ADM_STATUS}
  {
    if opc == ADM_IDENTIFY then IdentifyHandler
    else if opc == ADM_CTL then CtlHandler
    else if opc == ADM_STATUS then StatusHandler
    else NoAdmHandler
  }

  /** The acknowledgement of a mapped admin command in the older router. */
  function LegacyAdmAckId(opc: u8): (id: u32)
    ensures id == PAYLOAD_ACK_DATA <==> FillsBuffer(LegacyAdmHandlerOf(opc))
  {
    if opc == ADM_IDENTIFY || opc == ADM_STATUS then PAYLOAD_ACK_DATA else PAYLOAD_ACK
  }

  /** The two routers pick the same handler except for the firmware
      opcodes, which the older one leaves unhandled, and they always pick
      the same acknowledgement. */
  lemma RoutersAgree(opc: u8)
    ensures opc != ADM_FW_COMMIT && opc != ADM_FW_DOWNLOAD ==> LegacyAdmHandlerOf(opc) == AdmHandlerOf(opc)
    ensures opc == ADM_FW_COMMIT || opc == ADM_FW_DOWNLOAD ==>
      LegacyAdmHandlerOf(opc) == NoAdmHandler && AdmHandlerOf(opc) != NoAdmHandler
    ensures LegacyAdmAckId(opc) == AdmAckId(opc)
  {
  }

  /** The older `handle_adm_cmd`: one acknowledgement per command, only an
      ACK when mapping failed; the handlers are those of `ApuCmd.RunAdm`,
      and the firmware state is never touched. */
  method LegacyHandleAdmCmd(apu: Apu, recv: Payload, mapOk: bool, buf: array<u8>) returns (ran: AdmHandler)
    requires apu.Valid() && Carries(recv) && buf.Length == recv.bufLen && buf != apu.identify
    modifies apu`acks, apu`mmaps, apu`fwBuffer, apu`flashed, apu`enabled, apu.heads, buf
    ensures ran == (if MapFailed(recv, mapOk) then NoAdmHandler else LegacyAdmHandlerOf(OpcodeOf(recv)))
    ensures apu.acks == old(apu.acks) + [Ack(recv, if MapFailed(recv, mapOk) then PAYLOAD_ACK else LegacyAdmAckId(OpcodeOf(recv)))]
    ensures apu.mmaps == old(apu.mmaps) + MmapLog(recv, mapOk)
    ensures AdmHandled(apu, ran, recv.data, buf)
    ensures apu.fwBuffer == old(apu.fwBuffer) && apu.flashed == old(apu.flashed)
  {
    var opc := OpcodeOf(recv);
    if recv.bufLen > 0 && !mapOk {
      apu.acks := apu.acks + [Ack(recv, PAYLOAD_ACK)];
      return NoAdmHandler;
    }
    ran := LegacyAdmHandlerOf(opc);
    RunAdm(apu, ran, recv.data, buf);
    apu.acks := apu.acks + [Ack(recv, LegacyAdmAckId(opc))];
    apu.mmaps := apu.mmaps + MmapLog(recv, mapOk);
  }

  /** The effect of running the I/O handler `h` of the older router, with
      `ptrs` the pointer map of the older `io_cmd_acc_ctl` and `ptrs'` that
      map afterwards; `aborted` says whether the process ended, either at
      the firmware length assertion or at a SET_FW that dereferences a
      null image pointer. */
  twostate predicate LegacyIoHandled(apu: Apu, h: IoHandler, cmd: seq<u32>, bufLen: u32, host: seq<u8>,
                                     ptrs: map<u32, Option<seq<u8>>>, new ptrs': map<u32, Option<seq<u8>>>, aborted: bool,
                                     vmOk: bool, loadOk: bool, inWindow: seq<u8>, result: seq<u8>)
    requires |cmd| == CmdLayout.SQ_ENTRY_DWORDS
    reads apu`accs, apu`fwMap, apu.accs
  {
    && (h != AccCtlHandler ==> ptrs' == ptrs)
    && (h != AccCtlHandler && h != SendFwHandler ==> !aborted)
    && (h == SendFwHandler ==> (aborted <==> Fw.AnnouncedLen(cmd) != bufLen) && apu.AccsUntouched())
    && (h == SendFwHandler && !aborted ==> apu.fwMap == Fw.Stored(old(apu.fwMap), Fw.ImageId(cmd), host))
    && (h == ReadLbaHandler ==> Lba.InputWindowSet(apu, cmd))
    && (h == WriteLbaHandler ==> Lba.OutputWindowSet(apu, cmd))
    && (h == AccCtlHandler ==> LegacyIoAccCtl.LegacyCtlDone(apu, cmd, ptrs, ptrs', aborted, vmOk, loadOk, inWindow, result))
    && (h == NoIoHandler ==> apu.AccsUntouched())
    && (!(h == SendFwHandler && !aborted) ==> apu.fwMap == old(apu.fwMap))
  }

  /** The `switch` of the older `handle_io_cmd`: runs the handler `h`. */
  method LegacyRunIo(apu: Apu, h: IoHandler, cmd: seq<u32>, bufLen: u32, host: seq<u8>, ptrs: map<u32, Option<seq<u8>>>,
                     vmOk: bool, loadOk: bool, inWindow: seq<u8>, result: seq<u8>)
      returns (ptrs': map<u32, Option<seq<u8>>>, aborted: bool)
    requires apu.Valid() && |cmd| == CmdLayout.SQ_ENTRY_DWORDS && |host| == bufLen
    requires StartInputs(apu, cmd, inWindow, result)
    modifies apu`fwMap, apu`accs, apu.accs
    ensures apu.Valid() && |apu.accs| == |old(apu.accs)|
    ensures LegacyIoHandled(apu, h, cmd, bufLen, host, ptrs, ptrs', aborted, vmOk, loadOk, inWindow, result)
  {
    ptrs', aborted := ptrs, false;
    match h {
      case SendFwHandler =>
        aborted := Fw.SendFw(apu, cmd, bufLen, host);
      case ReadLbaHandler =>
        Lba.ReadLba(apu, cmd);
      case WriteLbaHandler =>
        Lba.WriteLba(apu, cmd);
      case AccCtlHandler =>
        ptrs', aborted := LegacyIoAccCtl.LegacyIoAccCtl(apu, cmd, ptrs, vmOk, loadOk, inWindow, result);
      case NoIoHandler =>
    }
  }

  /** The older `handle_io_cmd`: the routing of `ApuCmd.HandleIoCmd`, the
      older accelerator control, and no acknowledgement when the process
      ends in a handler. */
  method LegacyHandleIoCmd(apu: Apu, recv: Payload, mapOk: bool, host: seq<u8>, ptrs: map<u32, Option<seq<u8>>>,
                           vmOk: bool, loadOk: bool, inWindow: seq<u8>, result: seq<u8>)
      returns (ran: IoHandler, ptrs': map<u32, Option<seq<u8>>>, aborted: bool)
    requires apu.Valid() && Carries(recv) && |host| == recv.bufLen
    requires StartInputs(apu, recv.data, inWindow, result)
    modifies apu`acks, apu`mmaps, apu`fwMap, apu`accs, apu.accs
    ensures apu.Valid() && |apu.accs| == |old(apu.accs)|
    ensures ran == (if MapFailed(recv, mapOk) then NoIoHandler else IoHandlerOf(OpcodeOf(recv)))
    ensures aborted ==> apu.acks == old(apu.acks) && apu.mmaps == old(apu.mmaps) + MapLog(recv, mapOk)
    ensures !aborted ==> apu.acks == old(apu.acks) + [Ack(recv, PAYLOAD_ACK)] && apu.mmaps == old(apu.mmaps) + MmapLog(recv, mapOk)
    ensures LegacyIoHandled(apu, ran, recv.data, recv.bufLen, host, ptrs, ptrs', aborted, vmOk, loadOk, inWindow, result)
  {
    var opc := OpcodeOf(recv);
    if recv.bufLen > 0 && !mapOk {
      apu.acks := apu.acks + [Ack(recv, PAYLOAD_ACK)];
      return NoIoHandler, ptrs, false;
    }
    ran := IoHandlerOf(opc);
    ptrs', aborted := LegacyRunIo(apu, ran, recv.data, recv.bufLen, host, ptrs, vmOk, loadOk, inWindow, result);
    if aborted {
      apu.mmaps := apu.mmaps + MapLog(recv, mapOk);
      return;
    }
    apu.acks := apu.acks + [Ack(recv, PAYLOAD_ACK)];
    apu.mmaps := apu.mmaps + MmapLog(recv, mapOk);
  }
}
