/** The rpmsg command router of apu-app/src/cmd.cpp: each forwarded
    admin or I/O command gets its host buffer mapped, is handed to the
    handler its opcode selects, and is answered by one acknowledgement;
    the mapping is then released.  Whether mapping the buffer succeeds
    is an input. */
module ApuCmd {
  import opened Bits
  import opened ApuNvme
  import opened ApuState
  import Accel
  import ApuIdentify
  import ApuStatus
  import Qspi
  import Fw
  import Lba
  import IoAccCtl
  import AdmAccCtl
  import CmdLayout

  /** The handlers an admin command can reach. */
  datatype AdmHandler = FwCommitHandler | FwDownloadHandler | IdentifyHandler | CtlHandler | StatusHandler | NoAdmHandler

  /** The handlers an I/O command can reach. */
  datatype IoHandler = SendFwHandler | ReadLbaHandler | WriteLbaHandler | AccCtlHandler | NoIoHandler

  /** The admin switch of `handle_adm_cmd`. */
  function AdmHandlerOf(opc: u8): (h: AdmHandler)
    ensures h == NoAdmHandler <==> opc !in {ADM_FW_COMMIT, ADM_FW_DOWNLOAD, ADM_IDENTIFY, ADM_CTL, ADM_STATUS}
  {
    if opc == ADM_FW_COMMIT then FwCommitHandler
    else if opc == ADM_FW_DOWNLOAD then FwDownloadHandler
    else if opc == ADM_IDENTIFY then IdentifyHandler
    else if opc == ADM_CTL then CtlHandler
    else if opc == ADM_STATUS then StatusHandler
    else NoAdmHandler
  }

  /** The acknowledgement id of a mapped admin command. */
  function AdmAckId(opc: u8): (id: u32)
    ensures id == PAYLOAD_ACK || id == PAYLOAD_ACK_DATA
    ensures id == PAYLOAD_ACK_DATA <==> opc == ADM_IDENTIFY || opc == ADM_STATUS
  {
    if opc == ADM_IDENTIFY || opc == ADM_STATUS then PAYLOAD_ACK_DATA else PAYLOAD_ACK
  }

  /** The handlers that leave data in the host buffer. */
  predicate FillsBuffer(h: AdmHandler)
  {
    h == IdentifyHandler || h == StatusHandler
  }

  /** A command is acknowledged with data exactly when its handler leaves
      data in the host buffer. */
  lemma AckDataIffFillsBuffer(opc: u8)
    ensures AdmAckId(opc) == PAYLOAD_ACK_DATA <==> FillsBuffer(AdmHandlerOf(opc))
  {
  }

  /** The I/O switch of `handle_io_cmd`. */
  function IoHandlerOf(opc: u8): (h: IoHandler)
    ensures h == AccCtlHandler <==> opc in {IO_SEND_DATA, IO_READ_DATA, IO_READ_FW, IO_CTL}
    ensures h == NoIoHandler <==> opc !in VENDOR_IO_OPCODES
  {
    if opc == IO_SEND_FW then SendFwHandler
    else if opc == IO_READ_LBA then ReadLbaHandler
    else if opc == IO_WRITE_LBA then WriteLbaHandler
    else if opc in {IO_SEND_DATA, IO_READ_DATA, IO_READ_FW, IO_CTL} then AccCtlHandler
    else NoIoHandler
  }

  /** A buffer is mapped when the command has one (`buf_len > 0`); the
      command fails when that mapping does not succeed. */
  predicate Acquired(recv: Payload, mapOk: bool)
  {
    recv.bufLen > 0 && mapOk
  }

  predicate MapFailed(recv: Payload, mapOk: bool)
  {
    recv.bufLen > 0 && !mapOk
  }

  /** The mappings a completed command makes: one, released once, iff it
      was acquired. */
  function MmapLog(recv: Payload, mapOk: bool): (log: seq<MmapEvent>)
    ensures Acquired(recv, mapOk) ==> log == [Mapped(recv.buf, recv.bufLen), Unmapped(recv.bufLen)]
    ensures !Acquired(recv, mapOk) ==> log == []
  {
    if Acquired(recv, mapOk) then [Mapped(recv.buf, recv.bufLen), Unmapped(recv.bufLen)] else []
  }

  /** The effect of running the admin handler `h` on the entry `cmd` with
      the host buffer `buf`: each handler changes only its own state, and
      what no handler runs for is unchanged. */
  twostate predicate AdmHandled(apu: Apu, h: AdmHandler, cmd: seq<u32>, buf: array<u8>)
    requires |cmd| == CmdLayout.SQ_ENTRY_DWORDS
    requires h == FwDownloadHandler ==> Wrap32(Qspi.Ndw(cmd) * 4) <= buf.Length
    requires apu.heads.Length == |apu.accs| && apu.identify.Length == ApuIdentify.IDENTIFY_STRUCT_BUF_SIZE
    reads apu`fwBuffer, apu`flashed, apu`enabled, apu`accs, apu.accs, apu.heads, apu.identify, buf
  {
    && (h == FwCommitHandler ==> apu.flashed == old(apu.flashed) + [old(apu.fwBuffer)])
    && (h != FwCommitHandler ==> apu.flashed == old(apu.flashed))
    && (h == FwDownloadHandler ==>
         apu.fwBuffer == Qspi.AfterDownload(old(apu.fwBuffer), Qspi.Off(cmd), Qspi.Ndw(cmd), old(buf[..])))
    && (h != FwDownloadHandler ==> apu.fwBuffer == old(apu.fwBuffer))
    && (h == CtlHandler ==> apu.enabled == AdmAccCtl.EnableAfter(old(apu.enabled), cmd[12]))
    && (h != CtlHandler ==> apu.enabled == old(apu.enabled))
    && (h == IdentifyHandler ==>
         && buf[..ApuIdentify.CopyLen(buf.Length)] == apu.identify[..ApuIdentify.CopyLen(buf.Length)]
         && buf[ApuIdentify.CopyLen(buf.Length)..] == old(buf[ApuIdentify.CopyLen(buf.Length)..]))
    && (h == StatusHandler && ApuStatus.StatusId(cmd[12]) < |apu.accs| ==>
         && apu.heads[..] == ApuStatus.HeadsAfter(old(apu.heads[..]), ApuStatus.States(apu.accs), cmd[12])
         && (buf.Length <= STAT_HEAD_SIZE ==> buf[..] == StatBytes(apu.heads[ApuStatus.StatusId(cmd[12])])[..buf.Length])
         && (buf.Length > STAT_HEAD_SIZE ==> buf[..] == old(buf[..])))
    && (h == StatusHandler && ApuStatus.StatusId(cmd[12]) >= |apu.accs| ==> unchanged(apu.heads) && unchanged(buf))
    && (h != StatusHandler ==> unchanged(apu.heads))
    && (!FillsBuffer(h) ==> unchanged(buf))
  }

  /** The `switch` of `handle_adm_cmd`: runs the handler `h`. */
  method RunAdm(apu: Apu, h: AdmHandler, cmd: seq<u32>, buf: array<u8>)
    requires apu.Valid() && |cmd| == CmdLayout.SQ_ENTRY_DWORDS && buf != apu.identify
    requires h == FwDownloadHandler ==> Wrap32(Qspi.Ndw(cmd) * 4) <= buf.Length
    modifies apu`fwBuffer, apu`flashed, apu`enabled, apu.heads, buf
    ensures AdmHandled(apu, h, cmd, buf)
  {
    match h {
      case FwCommitHandler =>
        Qspi.FwCommit(apu);
      case FwDownloadHandler =>
        Qspi.FwDownload(apu, cmd, buf[..]);
      case IdentifyHandler =>
        ApuIdentify.AdmIdentify(apu.identify, buf);
      case CtlHandler =>
        AdmAccCtl.AdmAccCtl(apu, cmd);
      case StatusHandler =>
        ApuStatus.AdmStatus(apu, cmd, buf);
      case NoAdmHandler =>
    }
  }

  /** The mapping a command ended by an assertion makes: never released. */
  function MapLog(recv: Payload, mapOk: bool): (log: seq<MmapEvent>)
    ensures !Acquired(recv, mapOk) <==> log == []
    ensures Acquired(recv, mapOk) <==> log == [Mapped(recv.buf, recv.bufLen)]
  {
    if Acquired(recv, mapOk) then [Mapped(recv.buf, recv.bufLen)] else []
  }

  /** `handle_adm_cmd` on the payload `recv`, with `buf` the mapped host
      buffer of `buf_len` bytes.  The handler is the one the opcode
      selects, or none when mapping failed; exactly one acknowledgement is
      sent, echoing the command, with data for IDENTIFY and STATUS.  A
      firmware window must fit in the buffer. */
  method HandleAdmCmd(apu: Apu, recv: Payload, mapOk: bool, buf: array<u8>) returns (ran: AdmHandler)
    requires apu.Valid() && Carries(recv) && buf.Length == recv.bufLen && buf != apu.identify
    requires !MapFailed(recv, mapOk) && AdmHandlerOf(OpcodeOf(recv)) == FwDownloadHandler ==>
      Wrap32(Qspi.Ndw(recv.data) * 4) <= recv.bufLen
    modifies apu`acks, apu`mmaps, apu`fwBuffer, apu`flashed, apu`enabled, apu.heads, buf
    ensures ran == (if MapFailed(recv, mapOk) then NoAdmHandler else AdmHandlerOf(OpcodeOf(recv)))
    ensures apu.acks == old(apu.acks) + [Ack(recv, if MapFailed(recv, mapOk) then PAYLOAD_ACK else AdmAckId(OpcodeOf(recv)))]
    ensures apu.mmaps == old(apu.mmaps) + MmapLog(recv, mapOk)
    ensures AdmHandled(apu, ran, recv.data, buf)
  {
    var opc := OpcodeOf(recv);
    if recv.bufLen > 0 && !mapOk {
      apu.acks := apu.acks + [Ack(recv, PAYLOAD_ACK)];
      return NoAdmHandler;
    }
    ran := AdmHandlerOf(opc);
    RunAdm(apu, ran, recv.data, buf);
    apu.acks := apu.acks + [Ack(recv, AdmAckId(opc))];
    apu.mmaps := apu.mmaps + MmapLog(recv, mapOk);
  }

  /** What `io_cmd_acc_ctl` needs of the environment for a START it runs
      (see `Accel.Acc.Start`). */
  predicate StartInputs(apu: Apu, cmd: seq<u32>, inWindow: seq<u8>, result: seq<u8>)
    requires |cmd| == CmdLayout.SQ_ENTRY_DWORDS
    reads apu, apu.accs
  {
    IoAccCtl.CtlId(cmd) < |apu.accs| && IoAccCtl.Op(cmd) == IoAccCtl.OP_START ==>
      apu.accs[IoAccCtl.CtlId(cmd)].StartReady(inWindow, result)
  }

  /** The effect of running the I/O handler `h` on the entry `cmd` with the
      `bufLen` bytes `host` of the buffer; `aborted` says whether the
      firmware handler's length assertion ended the process. */
  twostate predicate IoHandled(apu: Apu, h: IoHandler, cmd: seq<u32>, bufLen: u32, host: seq<u8>, aborted: bool,
                               vmOk: bool, loadOk: bool, inWindow: seq<u8>, result: seq<u8>)
    requires |cmd| == CmdLayout.SQ_ENTRY_DWORDS
    reads apu`accs, apu`fwMap, apu.accs
  {
    && (aborted <==> h == SendFwHandler && Fw.AnnouncedLen(cmd) != bufLen)
    && (h == SendFwHandler ==> apu.AccsUntouched())
    && (h == SendFwHandler && !aborted ==> apu.fwMap == Fw.Stored(old(apu.fwMap), Fw.ImageId(cmd), host))
    && (h == ReadLbaHandler ==> Lba.InputWindowSet(apu, cmd))
    && (h == WriteLbaHandler ==> Lba.OutputWindowSet(apu, cmd))
    && (h == AccCtlHandler ==> IoAccCtl.CtlDone(apu, cmd, vmOk, loadOk, inWindow, result))
    && (h == NoIoHandler ==> apu.AccsUntouched())
    && (h != AccCtlHandler && !(h == SendFwHandler && !aborted) ==> apu.fwMap == old(apu.fwMap))
  }

  /** The `switch` of `handle_io_cmd`: runs the handler `h`. */
  method RunIo(apu: Apu, h: IoHandler, cmd: seq<u32>, bufLen: u32, host: seq<u8>,
               vmOk: bool, loadOk: bool, inWindow: seq<u8>, result: seq<u8>) returns (aborted: bool)
    requires apu.Valid() && |cmd| == CmdLayout.SQ_ENTRY_DWORDS && |host| == bufLen
    requires StartInputs(apu, cmd, inWindow, result)
    modifies apu`fwMap, apu`accs, apu.accs
    ensures apu.Valid() && |apu.accs| == |old(apu.accs)|
    ensures IoHandled(apu, h, cmd, bufLen, host, aborted, vmOk, loadOk, inWindow, result)
  {
    aborted := false;
    match h {
      case SendFwHandler =>
        aborted := Fw.SendFw(apu, cmd, bufLen, host);
      case ReadLbaHandler =>
        Lba.ReadLba(apu, cmd);
      case WriteLbaHandler =>
        Lba.WriteLba(apu, cmd);
      case AccCtlHandler =>
        IoAccCtl.IoAccCtl(apu, cmd, vmOk, loadOk, inWindow, result);
      case NoIoHandler =>
    }
  }

  /** `handle_io_cmd` on the payload `recv`, with `host` the bytes of the
      mapped buffer; `vmOk`, `loadOk`, `inWindow` and `result` are the
      outcomes of a START it runs.  Every I/O command is acknowledged with
      a plain ACK, unless the firmware handler's length assertion ends the
      process first (`aborted`): then no acknowledgement is sent and the
      mapping is never released. */
  method HandleIoCmd(apu: Apu, recv: Payload, mapOk: bool, host: seq<u8>,
                     vmOk: bool, loadOk: bool, inWindow: seq<u8>, result: seq<u8>)
      returns (ran: IoHandler, aborted: bool)
    requires apu.Valid() && Carries(recv) && |host| == recv.bufLen
    requires StartInputs(apu, recv.data, inWindow, result)
    modifies apu`acks, apu`mmaps, apu`fwMap, apu`accs, apu.accs
    ensures apu.Valid() && |apu.accs| == |old(apu.accs)|
    ensures ran == (if MapFailed(recv, mapOk) then NoIoHandler else IoHandlerOf(OpcodeOf(recv)))
    ensures aborted ==> apu.acks == old(apu.acks) && apu.mmaps == old(apu.mmaps) + MapLog(recv, mapOk)
    ensures !aborted ==> apu.acks == old(apu.acks) + [Ack(recv, PAYLOAD_ACK)] && apu.mmaps == old(apu.mmaps) + MmapLog(recv, mapOk)
    ensures IoHandled(apu, ran, recv.data, recv.bufLen, host, aborted, vmOk, loadOk, inWindow, result)
  {
    var opc := OpcodeOf(recv);
    if recv.bufLen > 0 && !mapOk {
      apu.acks := apu.acks + [Ack(recv, PAYLOAD_ACK)];
      return NoIoHandler, false;
    }
    ran := IoHandlerOf(opc);
    aborted := RunIo(apu, ran, recv.data, recv.bufLen, host, vmOk, loadOk, inWindow, result);
    if aborted {
      apu.mmaps := apu.mmaps + MapLog(recv, mapOk);
      return;
    }
    apu.acks := apu.acks + [Ack(recv, PAYLOAD_ACK)];
    apu.mmaps := apu.mmaps + MmapLog(recv, mapOk);
  }
}
