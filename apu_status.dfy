/** The accelerator status report of apu-app/src/cmds/status.cpp (and of
    its older twin status.c, whose logic is the same): the head of the
    accelerator a command names is refreshed unless the host asks to
    read it as it is, and copied into the host's buffer when that buffer
    is no larger than a head. */
module ApuStatus {
  import opened Bits
  import opened ApuState
  import Accel
  import CmdLayout
  import Bytes

  /** `cdw12.id`, bits 15:0, and `cdw12.rae`, bit 31. */
  function StatusId(cdw12: u32): (id: u16)
  {
    cdw12 % 0x1_0000
  }

  predicate Rae(cdw12: u32)
  {
    cdw12 / 0x8000_0000 == 1
  }

  /** The decoders read back what a host packs into the dword. */
  lemma Cdw12Fields(id: u16, rsvd: nat, rae: bool)
    requires rsvd < 0x8000
    ensures id + 0x1_0000 * (rsvd + 0x8000 * (if rae then 1 else 0)) < U32_LIMIT
    ensures var w := id + 0x1_0000 * (rsvd + 0x8000 * (if rae then 1 else 0));
      StatusId(w) == id && (Rae(w) <==> rae)
  {
    var b := if rae then 1 else 0;
    var w := id + 0x1_0000 * (rsvd + 0x8000 * b);
    PackSplit(id, rsvd + 0x8000 * b, 0x1_0000);
    assert w == (id + 0x1_0000 * rsvd) + 0x8000_0000 * b;
    PackSplit(id + 0x1_0000 * rsvd, b, 0x8000_0000);
  }

  /** `calculate_status`: the head says 8 bytes follow and holds the
      state's ordinal; the reserved words keep whatever they held. */
  function Calculated(h: StatHead, s: Accel.AccState): (r: StatHead)
    ensures r.len == 8 && r.id == Accel.Ordinal(s) && r.rsvd == h.rsvd
    ensures LeValue(StatBytes(r)[4..8]) == Accel.Ordinal(s)
  {
    var r := h.(len := 8, id := Accel.Ordinal(s));
    StatBytesFields(r);
    r
  }

  /** The heads after a command with `cdw12` for accelerators in the
      given states. */
  function HeadsAfter(heads: seq<StatHead>, states: seq<Accel.AccState>, cdw12: u32): (r: seq<StatHead>)
    requires |heads| == |states|
    ensures |r| == |heads|
    ensures StatusId(cdw12) >= |heads| || Rae(cdw12) ==> r == heads
    ensures StatusId(cdw12) < |heads| && !Rae(cdw12) ==>
      && r[StatusId(cdw12)] == Calculated(heads[StatusId(cdw12)], states[StatusId(cdw12)])
      && forall i :: 0 <= i < |heads| && i != StatusId(cdw12) ==> r[i] == heads[i]
  {
    var id := StatusId(cdw12);
    if id >= |heads| || Rae(cdw12) then heads else heads[id := Calculated(heads[id], states[id])]
  }

  /** Refreshing twice is refreshing once, and reading with RAE set after
      a refresh leaves the refreshed head. */
  lemma RefreshIdempotent(heads: seq<StatHead>, states: seq<Accel.AccState>, cdw12: u32, rae12: u32)
    requires |heads| == |states|
    requires StatusId(rae12) == StatusId(cdw12) && Rae(rae12)
    ensures HeadsAfter(HeadsAfter(heads, states, cdw12), states, cdw12) == HeadsAfter(heads, states, cdw12)
    ensures HeadsAfter(HeadsAfter(heads, states, cdw12), states, rae12) == HeadsAfter(heads, states, cdw12)
  {
  }

  /** The states of the accelerators. */
  function States(accs: seq<Accel.Acc>): (s: seq<Accel.AccState>)
    reads set i | 0 <= i < |accs| :: accs[i]
    ensures |s| == |accs| && forall i :: 0 <= i < |accs| ==> s[i] == accs[i].state
  {
    seq(|accs|, i reads set i | 0 <= i < |accs| :: accs[i] requires 0 <= i < |accs| => accs[i].state)
  }

  /** `adm_cmd_status` on the submission entry `cmd` with the host buffer
      `buf` mapped for the command's `buf_len` bytes.  An id past the
      accelerators changes nothing; otherwise the heads are updated and,
      when the buffer is at most a head long, the head's first bytes go
      into it. */
  method AdmStatus(apu: Apu, cmd: seq<u32>, buf: array<u8>)
    requires apu.Valid() && |cmd| == CmdLayout.SQ_ENTRY_DWORDS
    modifies apu.heads, buf
    ensures StatusId(cmd[12]) >= |apu.accs| ==> unchanged(apu.heads) && unchanged(buf)
    ensures StatusId(cmd[12]) < |apu.accs| ==>
      && apu.heads[..] == HeadsAfter(old(apu.heads[..]), States(apu.accs), cmd[12])
      && (buf.Length <= STAT_HEAD_SIZE ==> buf[..] == StatBytes(apu.heads[StatusId(cmd[12])])[..buf.Length])
      && (buf.Length > STAT_HEAD_SIZE ==> buf[..] == old(buf[..]))
  {
    var id := StatusId(cmd[12]);
    var rae := Rae(cmd[12]);
    if id >= |apu.accs| {
      return;
    }
    if !rae {
      apu.heads[id] := Calculated(apu.heads[id], apu.accs[id].state);
    }
    if buf.Length <= STAT_HEAD_SIZE {
      var bytes := StatBytes(apu.heads[id]);
      Bytes.Copy(buf, 0, bytes[..buf.Length]);
      assert buf[..] == bytes[..buf.Length];
    }
  }
}
