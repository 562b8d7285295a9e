/** Vendor-specific commands (rpu-app/src/cmds/vendor.c): the RPU does not
    execute them but forwards the submission entry to the APU over rpmsg,
    first pulling the command's data from the host when there is any. */
module Vendor {
  import opened Bits
  import opened CmdLayout
  import opened RpuCmd
  import Dma

  /** `NVME_CMD_XFER_MASK` and its values: bits 1:0 of the opcode give the
      data direction. */
  const XFER_MASK: nat := 3
  const XFER_NONE: nat := 0
  const XFER_FROM_HOST: nat := 1
  const XFER_TO_HOST: nat := 2

  /** `RPMSG_HANDLE_CUSTOM_ADM_COMMAND` and `RPMSG_HANDLE_CUSTOM_IO_COMMAND`. */
  const RPMSG_ADM_COMMAND: nat := 0x10
  const RPMSG_IO_COMMAND: nat := 0x11

  /** `sizeof(priv->sq_buf)`: one 64-byte submission entry. */
  const SQ_BUF_BYTES: nat := 64

  /** The dword of the entry holding `ndt`, the number of data dwords. */
  const NDT_DWORD: nat := 10

  /** `opc & NVME_CMD_XFER_MASK`. */
  function DirOf(opc: u8): (d: nat)
    ensures d <= XFER_MASK
  {
    opc % 4
  }

  /** `const int buffer_size = cmd->ndt * 4`: a 32-bit product read as a
      signed `int`, so it turns negative from NDT = 2^29 on. */
  function BufferSize(ndt: u32): (n: int)
    ensures ndt < 0x2000_0000 ==> n == 4 * ndt
    ensures 0x2000_0000 <= ndt < 0x4000_0000 ==> n < 0
    ensures n % 4 == 0
  {
    ToInt32(Wrap32(ndt * 4))
  }

  /** The message id: I/O commands and admin commands go to different
      handlers on the APU. */
  function MessageId(qid: nat): (id: nat)
    ensures id == RPMSG_IO_COMMAND <==> qid > 0
    ensures id == RPMSG_ADM_COMMAND <==> qid == 0
  {
    if qid > 0 then RPMSG_IO_COMMAND else RPMSG_ADM_COMMAND
  }

  /** The three ways `nvme_cmd_vendor` can go. */
  datatype Path = AllocFailed | SendNow | FetchFirst

  /** Whether a buffer is taken from `buffer_pool`. */
  predicate NeedsBuffer(dir: nat, size: int)
  {
    dir != XFER_NONE && size > 0
  }

  function PathOf(dir: nat, size: int, allocOk: bool): (p: Path)
    ensures p == AllocFailed <==> NeedsBuffer(dir, size) && !allocOk
    ensures p == SendNow <==> !(NeedsBuffer(dir, size) && !allocOk) && (size == 0 || dir == XFER_TO_HOST)
    ensures p == FetchFirst <==> !(NeedsBuffer(dir, size) && !allocOk) && size != 0 && dir != XFER_TO_HOST
  {
    if NeedsBuffer(dir, size) && !allocOk then AllocFailed
    else if size == 0 || dir == XFER_TO_HOST then SendNow
    else FetchFirst
  }

  /** A command without a data direction but with data dwords still goes
      through the from-host transfer, on a buffer it never allocated. */
  lemma NoDirectionStillFetches(size: int, allocOk: bool)
    requires size > 0
    ensures !NeedsBuffer(XFER_NONE, size) && PathOf(XFER_NONE, size, allocOk) == FetchFirst
  {
  }

  /** The same happens to a from-host command whose size overflowed. */
  lemma NegativeSizeFetches(allocOk: bool)
    ensures BufferSize(0x2000_0000) == -0x8000_0000
    ensures !NeedsBuffer(XFER_FROM_HOST, BufferSize(0x2000_0000))
    ensures PathOf(XFER_FROM_HOST, BufferSize(0x2000_0000), allocOk) == FetchFirst
  {
  }

  /** Only a command that needs a buffer can fail for want of one, and a
      command carrying no data is forwarded at once. */
  lemma PathCases(dir: nat, size: int, allocOk: bool)
    ensures PathOf(dir, size, allocOk) == AllocFailed ==> size > 0 && dir != XFER_NONE
    ensures size == 0 ==> PathOf(dir, size, allocOk) == SendNow
    ensures allocOk && dir == XFER_TO_HOST ==> PathOf(dir, size, allocOk) == SendNow
  {
  }

  /** The message `send_cmd` builds for context `c`. */
  function MessageOf(qid: nat, priv: nat, block: u32, sq: seq<u32>): (m: Message)
    requires |sq| == SQ_ENTRY_DWORDS
    ensures m.id == MessageId(qid) && m.len == SQ_BUF_BYTES && m.priv == priv && m.buf == block
    ensures m.bufLen == BufferSize(sq[NDT_DWORD]) && m.data == sq
  {
    Message(MessageId(qid), SQ_BUF_BYTES, priv, block, BufferSize(sq[NDT_DWORD]), sq)
  }

  /** `send_cmd`, given whether `k_malloc` and `rpmsg_send` succeed: -1 and
      nothing sent on either failure, else one message with a copy of the
      submission entry. */
  method SendCmd(c: Cmd, mallocOk: bool, sendOk: bool) returns (rc: int)
    requires c.Valid()
    modifies c.tc`outbox
    ensures rc == 0 <==> mallocOk && sendOk
    ensures rc == 0 || rc == -1
    ensures c.tc.outbox == old(c.tc.outbox) + (if rc == 0 then [MessageOf(c.qid, c.id, c.block, c.sq)] else [])
  {
    if !mallocOk {
      return -1;
    }
    var msg := MessageOf(c.qid, c.id, c.block, c.sq);
    if !sendOk {
      return -1;
    }
    c.tc.outbox := c.tc.outbox + [msg];
    return 0;
  }

  /** `vendor_cb`: once the data is in, the command is forwarded. */
  method VendorCb(c: Cmd, mallocOk: bool, sendOk: bool)
    requires c.Valid()
    modifies c.tc`outbox
    ensures c.tc.outbox == old(c.tc.outbox) + (if mallocOk && sendOk then [MessageOf(c.qid, c.id, c.block, c.sq)] else [])
  {
    var _ := SendCmd(c, mallocOk, sendOk);
  }

  /** The last branch of `nvme_cmd_vendor`: forward the command now, or set
      up the from-host transfer whose callback forwards it. */
  method Forward(c: Cmd, dir: nat, size: int, mallocOk: bool, sendOk: bool)
    requires c.Valid()
    modifies c`xferBase, c`xferBuf, c`xferSize, c`xferLen, c`fromHost, c`xferCb
    modifies c.tc`outbox, c.tc`pending
    ensures c.Valid()
    ensures size == 0 || dir == XFER_TO_HOST ==>
      && c.tc.outbox == old(c.tc.outbox) + (if mallocOk && sendOk then [MessageOf(c.qid, c.id, c.block, c.sq)] else [])
      && c.tc.pending == old(c.tc.pending)
      && c.xferSize == old(c.xferSize) && c.xferCb == old(c.xferCb)
    ensures !(size == 0 || dir == XFER_TO_HOST) ==>
      && c.tc.outbox == old(c.tc.outbox)
      && c.tc.pending == old(c.tc.pending) + [TransferData(c.id)]
      && c.xferBase == c.block && c.xferBuf == c.block
      && c.xferSize == size && c.xferLen == size
      && c.fromHost && c.xferCb == Some(Dma.DataFetched)
  {
    if size == 0 || dir == XFER_TO_HOST {
      var _ := SendCmd(c, mallocOk, sendOk);
    } else {
      c.xferBase, c.xferBuf := c.block, c.block;
      c.xferSize, c.xferLen := size, size;
      c.fromHost := true;
      c.xferCb := Some(Dma.DataFetched);
      c.tc.pending := c.tc.pending + [TransferData(c.id)];
    }
  }

  /** `nvme_cmd_vendor`, given whether `k_mem_pool_alloc` succeeds and the
      block it hands out, and the outcomes of `send_cmd`'s allocation and
      send. */
  method VendorCmd(c: Cmd, zeroBased: bool, allocOk: bool, blockAddr: u32, mallocOk: bool, sendOk: bool)
    requires c.Valid()
    modifies c`sq, c`block, c`xferBase, c`xferBuf, c`xferSize, c`xferLen, c`fromHost, c`xferCb
    modifies c.tc`outbox, c.tc`pending
    ensures c.Valid()
    ensures c.sq == if zeroBased then old(c.sq)[NDT_DWORD := Wrap32(old(c.sq)[NDT_DWORD] as int + 1)] else old(c.sq)
    ensures var dir := DirOf(Opcode(old(c.sq)));
      var size := BufferSize(c.sq[NDT_DWORD]);
      && c.block == (if NeedsBuffer(dir, size) && allocOk then blockAddr else old(c.block))
      && match PathOf(dir, size, allocOk)
         case AllocFailed =>
           && c.tc.outbox == old(c.tc.outbox) && c.tc.pending == old(c.tc.pending)
           && c.xferSize == old(c.xferSize) && c.xferCb == old(c.xferCb)
         case SendNow =>
           && c.tc.outbox == old(c.tc.outbox) + (if mallocOk && sendOk then [MessageOf(c.qid, c.id, c.block, c.sq)] else [])
           && c.tc.pending == old(c.tc.pending)
           && c.xferSize == old(c.xferSize) && c.xferCb == old(c.xferCb)
         case FetchFirst =>
           && c.tc.outbox == old(c.tc.outbox)
           && c.tc.pending == old(c.tc.pending) + [TransferData(c.id)]
           && c.xferBase == c.block && c.xferBuf == c.block
           && c.xferSize == size && c.xferLen == size
           && c.fromHost && c.xferCb == Some(Dma.DataFetched)
  {
    var dir := DirOf(Opcode(c.sq));
    if zeroBased {
      c.sq := c.sq[NDT_DWORD := Wrap32(c.sq[NDT_DWORD] as int + 1)];
    }
    var size := BufferSize(c.sq[NDT_DWORD]);
    if dir != XFER_NONE && size > 0 {
      if !allocOk {
        return;
      }
      c.block := blockAddr;
    }
    Forward(c, dir, size, mallocOk, sendOk);
  }
}
