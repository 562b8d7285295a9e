/** The APU's view of the rpmsg protocol: the entry sizes and vendor
    opcodes of apu-app/src/nvme.h and the payload header of
    apu-app/src/rpmsg.h that carries a forwarded submission entry and
    the acknowledgement that answers it. */
module ApuNvme {
  import opened Bits
  import CmdLayout
  import Vendor

  /** `NVME_TC_SQ_ENTRY_SIZE` and `NVME_TC_CQ_ENTRY_SIZE`, in bytes. */
  const SQ_ENTRY_SIZE: nat := 64
  const CQ_ENTRY_SIZE: nat := 16

  /** The vendor admin opcodes. */
  const ADM_CTL: u8 := 0xC0
  const ADM_IDENTIFY: u8 := 0xC2
  const ADM_STATUS: u8 := 0xC6

  /** The vendor I/O opcodes. */
  const IO_SEND_DATA: u8 := 0x81
  const IO_READ_DATA: u8 := 0x82
  const IO_SEND_FW: u8 := 0x85
  const IO_READ_FW: u8 := 0x86
  const IO_READ_LBA: u8 := 0x88
  const IO_WRITE_LBA: u8 := 0x8C
  const IO_CTL: u8 := 0x91

  /** `CMD_ADM_FW_COMMIT` and `CMD_ADM_FW_DOWNLOAD` are used by cmd.cpp but
      defined in no header of this model; they are taken to be the
      Firmware Commit and Firmware Image Download opcodes of the NVM
      Express Base Specification. */
  const ADM_FW_COMMIT: u8 := 0x10
  const ADM_FW_DOWNLOAD: u8 := 0x11

  const VENDOR_ADM_OPCODES: seq<u8> := [ADM_IDENTIFY, ADM_STATUS, ADM_CTL]
  const VENDOR_IO_OPCODES: seq<u8> :=
    [IO_SEND_DATA, IO_READ_DATA, IO_SEND_FW, IO_READ_FW, IO_READ_LBA, IO_WRITE_LBA, IO_CTL]

  /** The entry sizes are those of the shared layouts: sixteen dwords for a
      submission entry, four for a completion entry. */
  lemma EntrySizes()
    ensures SQ_ENTRY_SIZE == 4 * CmdLayout.SQ_ENTRY_DWORDS
    ensures CQ_ENTRY_SIZE == 4 * CmdLayout.CQ_ENTRY_DWORDS
  {
  }

  /** No two vendor opcodes coincide, the admin ones are in the top
      quarter of the opcode space and the I/O ones in 0x80-0x91. */
  lemma VendorOpcodes()
    ensures forall i, j :: 0 <= i < j < |VENDOR_ADM_OPCODES| ==> VENDOR_ADM_OPCODES[i] != VENDOR_ADM_OPCODES[j]
    ensures forall i, j :: 0 <= i < j < |VENDOR_IO_OPCODES| ==> VENDOR_IO_OPCODES[i] != VENDOR_IO_OPCODES[j]
    ensures forall i :: 0 <= i < |VENDOR_ADM_OPCODES| ==> VENDOR_ADM_OPCODES[i] >= 0xC0
    ensures forall i :: 0 <= i < |VENDOR_IO_OPCODES| ==> 0x80 <= VENDOR_IO_OPCODES[i] <= 0x91
  {
  }

  /** Bits 1:0 of each opcode give the direction the RPU transfers its data
      in: to the host for the data-returning commands, from the host for
      the data-carrying ones, none for the LBA commands and CTL. */
  lemma OpcodeDirections()
    ensures Vendor.DirOf(ADM_IDENTIFY) == Vendor.XFER_TO_HOST && Vendor.DirOf(ADM_STATUS) == Vendor.XFER_TO_HOST
    ensures Vendor.DirOf(IO_READ_DATA) == Vendor.XFER_TO_HOST && Vendor.DirOf(IO_READ_FW) == Vendor.XFER_TO_HOST
    ensures Vendor.DirOf(IO_SEND_DATA) == Vendor.XFER_FROM_HOST && Vendor.DirOf(IO_SEND_FW) == Vendor.XFER_FROM_HOST
    ensures Vendor.DirOf(IO_CTL) == Vendor.XFER_FROM_HOST
    ensures Vendor.DirOf(IO_READ_LBA) == Vendor.XFER_NONE && Vendor.DirOf(IO_WRITE_LBA) == Vendor.XFER_NONE
    ensures Vendor.DirOf(ADM_CTL) == Vendor.XFER_NONE
  {
  }

  /** The message ids of rpmsg.h. */
  const PAYLOAD_ADM_CMD: u32 := 0x10
  const PAYLOAD_IO_CMD: u32 := 0x11
  const PAYLOAD_ACK: u32 := 0x20
  const PAYLOAD_ACK_DATA: u32 := 0x21

  /** The ids the RPU sends are those the APU receives. */
  lemma CommandIdsAgree()
    ensures PAYLOAD_ADM_CMD == Vendor.RPMSG_ADM_COMMAND && PAYLOAD_IO_CMD == Vendor.RPMSG_IO_COMMAND
  {
  }

  /** `struct payload`: the header and the dwords that follow it. */
  datatype Payload = Payload(id: u32, len: u32, priv: u32, buf: u32, bufLen: u32, data: seq<u32>)

  /** A payload that carries a whole submission entry. */
  predicate Carries(p: Payload)
  {
    |p.data| == CmdLayout.SQ_ENTRY_DWORDS
  }

  /** The opcode of the entry a payload carries: `cmd->cdw0.opc`. */
  function OpcodeOf(p: Payload): (opc: u8)
    requires Carries(p)
  {
    CmdLayout.Opcode(p.data)
  }

  /** The acknowledgement `send_ack` builds: the given id, the context,
      buffer and buffer length of the command echoed, no data. */
  function Ack(p: Payload, id: u32): (a: Payload)
    ensures a.id == id && a.len == 0 && a.data == []
    ensures a.priv == p.priv && a.buf == p.buf && a.bufLen == p.bufLen
  {
    Payload(id, 0, p.priv, p.buf, p.bufLen, [])
  }
}
