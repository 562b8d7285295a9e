/** The older `io_cmd_acc_ctl` of apu-app/src/cmds/io_acc_ctl.c.  Its
    `fw_map` holds pointers to images (the firmware is set through
    `*fw_map[fw_id]`); the declaration of that map is not part of this
    model, which takes `None` for a null pointer.  `operator[]` inserts a
    null pointer for an absent id, and dereferencing it ends the
    process. */
module LegacyIoAccCtl {
  import opened Bits
  import opened ApuState
  import Accel
  import CmdLayout
  import IoAccCtl

  /** The pointer map after `fw_map[k]`. */
  function IndexedPtr(m: map<u32, Option<seq<u8>>>, k: u32): (r: map<u32, Option<seq<u8>>>)
    ensures r.Keys == m.Keys + {k}
    ensures r[k] == (if k in m then m[k] else None)
    ensures forall j :: j in m ==> r[j] == m[j]
  {
    if k in m then m else m[k := None]
  }

  /** The operation gets past its dereference iff it is not SET_FW on an
      id whose pointer is absent or null. */
  predicate Crashes(cmd: seq<u32>, accCount: nat, ptrs: map<u32, Option<seq<u8>>>)
    requires |cmd| == CmdLayout.SQ_ENTRY_DWORDS
  {
    && IoAccCtl.CtlId(cmd) < accCount && IoAccCtl.Op(cmd) == IoAccCtl.OP_SET_FW
    && IndexedPtr(ptrs, IoAccCtl.FwId(cmd))[IoAccCtl.FwId(cmd)].None?
  }

  /** SET_FW for an accelerator whose id never had an image stored always
      crashes; with an image it never does. */
  lemma CrashesIffNoImage(cmd: seq<u32>, accCount: nat, ptrs: map<u32, Option<seq<u8>>>)
    requires |cmd| == CmdLayout.SQ_ENTRY_DWORDS
    requires IoAccCtl.CtlId(cmd) < accCount && IoAccCtl.Op(cmd) == IoAccCtl.OP_SET_FW
    ensures Crashes(cmd, accCount, ptrs) <==> !(IoAccCtl.CtlId(cmd) in ptrs && ptrs[IoAccCtl.CtlId(cmd)].Some?)
  {
  }

  /** The effect of the older `io_cmd_acc_ctl` on the pointer map `ptrs`,
      which is `ptrs'` afterwards.  The ids, the checks and RESET, START
      and STOP are those of `IoAccCtl.CtlDone`; SET_FW either crashes,
      changing nothing more, or replaces the firmware with the image
      pointed to. */
  twostate predicate LegacyCtlDone(apu: Apu, cmd: seq<u32>, ptrs: map<u32, Option<seq<u8>>>,
                                   new ptrs': map<u32, Option<seq<u8>>>, crashed: bool,
                                   vmOk: bool, loadOk: bool, inWindow: seq<u8>, result: seq<u8>)
    requires |cmd| == CmdLayout.SQ_ENTRY_DWORDS
    reads apu`accs, apu.accs
  {
    && |apu.accs| == |old(apu.accs)|
    && (crashed <==> Crashes(cmd, |old(apu.accs)|, ptrs))
    && (forall i :: 0 <= i < |apu.accs| && i != IoAccCtl.CtlId(cmd) ==> apu.accs[i] == old(apu.accs)[i] && unchanged(apu.accs[i]))
    && (IoAccCtl.CtlId(cmd) >= |old(apu.accs)| ==> apu.accs == old(apu.accs) && ptrs' == ptrs)
    && (IoAccCtl.CtlId(cmd) < |old(apu.accs)| ==>
         var id := IoAccCtl.CtlId(cmd);
         var op := IoAccCtl.Op(cmd);
         var a := apu.accs[id];
         && (op == IoAccCtl.OP_RESET ==> fresh(a) && a.Pristine(id) && ptrs' == ptrs)
         && (op == IoAccCtl.OP_START ==>
              a == old(apu.accs)[id] && a.Ran(vmOk, loadOk, inWindow, result) && ptrs' == ptrs)
         && (op == IoAccCtl.OP_SET_FW ==>
              && a == old(apu.accs)[id] && ptrs' == IndexedPtr(ptrs, IoAccCtl.FwId(cmd))
              && (crashed ==> unchanged(a))
              && (!crashed ==>
                   && a.firmware == ptrs'[IoAccCtl.FwId(cmd)].value && a.InputKept() && a.OutputKept()
                   && a.state == old(a.state) && a.ibuf == old(a.ibuf) && a.obuf == old(a.obuf) && a.written == old(a.written)))
         && (op != IoAccCtl.OP_RESET && op != IoAccCtl.OP_START && op != IoAccCtl.OP_SET_FW ==>
              a == old(apu.accs)[id] && unchanged(a) && ptrs' == ptrs))
  }

  /** `io_cmd_acc_ctl` of the older revision. */
  method LegacyIoAccCtl(apu: Apu, cmd: seq<u32>, ptrs: map<u32, Option<seq<u8>>>,
                        vmOk: bool, loadOk: bool, inWindow: seq<u8>, result: seq<u8>)
      returns (ptrs': map<u32, Option<seq<u8>>>, crashed: bool)
    requires apu.Valid() && |cmd| == CmdLayout.SQ_ENTRY_DWORDS
    requires IoAccCtl.CtlId(cmd) < |apu.accs| && IoAccCtl.Op(cmd) == IoAccCtl.OP_START ==>
      apu.accs[IoAccCtl.CtlId(cmd)].StartReady(inWindow, result)
    modifies apu`accs, apu.accs
    ensures apu.Valid() && LegacyCtlDone(apu, cmd, ptrs, ptrs', crashed, vmOk, loadOk, inWindow, result)
  {
    var id := IoAccCtl.CtlId(cmd);
    var op := IoAccCtl.Op(cmd);
    var fwId := IoAccCtl.FwId(cmd);
    ptrs', crashed := ptrs, false;
    if id >= |apu.accs| {
      return;
    }
    var a := apu.accs[id];
    if op == IoAccCtl.OP_RESET {
      var b := new Accel.Acc(id);
      apu.accs := apu.accs[id := b];
    } else if op == IoAccCtl.OP_START {
      a.Start(vmOk, loadOk, inWindow, result);
    } else if op == IoAccCtl.OP_STOP {
      a.Stop();
    } else if op == IoAccCtl.OP_SET_FW {
      ptrs' := IndexedPtr(ptrs, fwId);
      match ptrs'[fwId]
      case None =>
        crashed := true;
      case Some(image) =>
        a.AddFirmware(image);
    }
  }
}
