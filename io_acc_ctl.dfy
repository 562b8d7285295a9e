/** `io_cmd_acc_ctl` of apu-app/src/cmds/io_acc_ctl.cpp: reset, start,
    stop an accelerator or give it the firmware image stored for it. */
module IoAccCtl {
  import opened Bits
  import opened ApuState
  import Accel
  import CmdLayout

  /** `ACC_IO_OP_*` of apu-app/src/acc.h. */
  const OP_RESET: u32 := 0x00
  const OP_START: u32 := 0x01
  const OP_STOP: u32 := 0x02
  const OP_SET_FW: u32 := 0x03

  /** `cdw14`: the accelerator. */
  function CtlId(cmd: seq<u32>): (id: u32)
    requires |cmd| == CmdLayout.SQ_ENTRY_DWORDS
  {
    cmd[14]
  }

  /** `cdw13`: the operation. */
  function Op(cmd: seq<u32>): (op: u32)
    requires |cmd| == CmdLayout.SQ_ENTRY_DWORDS
  {
    cmd[13]
  }

  /** `fw_id` is read from `cdw14` too, so an accelerator can only be given
      the image stored under its own id. */
  function FwId(cmd: seq<u32>): (id: u32)
    requires |cmd| == CmdLayout.SQ_ENTRY_DWORDS
    ensures id == CtlId(cmd)
  {
    cmd[14]
  }

  /** The map after `fw_map[k]`: `operator[]` inserts an empty image for
      an absent key and leaves every other entry alone. */
  function Indexed(m: map<u32, seq<u8>>, k: u32): (r: map<u32, seq<u8>>)
    ensures r.Keys == m.Keys + {k}
    ensures r[k] == (if k in m then m[k] else [])
    ensures forall j :: j in m ==> r[j] == m[j]
  {
    if k in m then m else m[k := []]
  }

  /** Looking a key up twice is looking it up once; a present key changes
      nothing. */
  lemma IndexedIdempotent(m: map<u32, seq<u8>>, k: u32)
    ensures Indexed(Indexed(m, k), k) == Indexed(m, k)
    ensures k in m ==> Indexed(m, k) == m
  {
  }

  /** The effect of `io_cmd_acc_ctl` on the submission entry `cmd`, with
      `vmOk`, `loadOk`, `inWindow` and `result` the outcomes of a run that
      START makes (see `Accel.Acc.Start`).  Only `accelerators[id]` is
      ever affected and the list keeps its length; an id past the list
      changes nothing, and so do STOP and the unsupported operations. */
  twostate predicate CtlDone(apu: Apu, cmd: seq<u32>, vmOk: bool, loadOk: bool, inWindow: seq<u8>, result: seq<u8>)
    requires |cmd| == CmdLayout.SQ_ENTRY_DWORDS
    reads apu`accs, apu`fwMap, apu.accs
  {
    && |apu.accs| == |old(apu.accs)|
    && (forall i :: 0 <= i < |apu.accs| && i != CtlId(cmd) ==> apu.accs[i] == old(apu.accs)[i] && unchanged(apu.accs[i]))
    && (CtlId(cmd) >= |old(apu.accs)| ==> apu.accs == old(apu.accs) && apu.fwMap == old(apu.fwMap))
    && (CtlId(cmd) < |old(apu.accs)| ==>
         var id := CtlId(cmd);
         var a := apu.accs[id];
         && (Op(cmd) == OP_RESET ==> fresh(a) && a.Pristine(id) && apu.fwMap == old(apu.fwMap))
         && (Op(cmd) == OP_START ==>
              a == old(apu.accs)[id] && a.Ran(vmOk, loadOk, inWindow, result) && apu.fwMap == old(apu.fwMap))
         && (Op(cmd) == OP_SET_FW ==>
              && a == old(apu.accs)[id] && apu.fwMap == Indexed(old(apu.fwMap), FwId(cmd))
              && a.firmware == apu.fwMap[FwId(cmd)] && a.InputKept() && a.OutputKept()
              && a.state == old(a.state) && a.ibuf == old(a.ibuf) && a.obuf == old(a.obuf) && a.written == old(a.written))
         && (Op(cmd) != OP_RESET && Op(cmd) != OP_START && Op(cmd) != OP_SET_FW ==>
              a == old(apu.accs)[id] && unchanged(a) && apu.fwMap == old(apu.fwMap)))
  }

  /** `io_cmd_acc_ctl`. */
  method IoAccCtl(apu: Apu, cmd: seq<u32>, vmOk: bool, loadOk: bool, inWindow: seq<u8>, result: seq<u8>)
    requires apu.Valid() && |cmd| == CmdLayout.SQ_ENTRY_DWORDS
    requires CtlId(cmd) < |apu.accs| && Op(cmd) == OP_START ==> apu.accs[CtlId(cmd)].StartReady(inWindow, result)
    modifies apu`accs, apu`fwMap, apu.accs
    ensures apu.Valid() && CtlDone(apu, cmd, vmOk, loadOk, inWindow, result)
  {
    var id := CtlId(cmd);
    var op := Op(cmd);
    var fwId := FwId(cmd);
    if id >= |apu.accs| {
      return;
    }
    var a := apu.accs[id];
    if op == OP_RESET {
      var b := new Accel.Acc(id);
      apu.accs := apu.accs[id := b];
    } else if op == OP_START {
      a.Start(vmOk, loadOk, inWindow, result);
    } else if op == OP_STOP {
      a.Stop();
    } else if op == OP_SET_FW {
      apu.fwMap := Indexed(apu.fwMap, fwId);
      a.AddFirmware(apu.fwMap[fwId]);
    }
  }
}
