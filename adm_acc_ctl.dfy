/** `adm_cmd_acc_ctl` of apu-app/src/cmds/adm_acc_ctl.cpp: the admin
    command that switches the accelerator subsystem on and off through
    `global_enable`, which starts false (see `ApuState.Apu.Init`). */
module AdmAccCtl {
  import opened Bits
  import opened ApuState
  import CmdLayout

  /** `ACC_ENABLE` and `ACC_DISABLE`, the values of `cdw12`. */
  const ACC_ENABLE: u32 := 0x00
  const ACC_DISABLE: u32 := 0x01

  /** The flag after an operation `op`: enable sets it, disable clears it,
      any other value is reported and leaves it as it was. */
  function EnableAfter(flag: bool, op: u32): (r: bool)
    ensures op == ACC_ENABLE ==> r
    ensures op == ACC_DISABLE ==> !r
    ensures op != ACC_ENABLE && op != ACC_DISABLE ==> r == flag
  {
    match op
    case 0 => true
    case 1 => false
    case _ => flag
  }

  /** Every operation is idempotent, and enable and disable decide the flag
      whatever it was before. */
  lemma EnableIdempotent(flag: bool, op: u32, other: bool)
    ensures EnableAfter(EnableAfter(flag, op), op) == EnableAfter(flag, op)
    ensures op == ACC_ENABLE || op == ACC_DISABLE ==> EnableAfter(flag, op) == EnableAfter(other, op)
  {
  }

  /** `adm_cmd_acc_ctl` on the submission entry `cmd`. */
  method AdmAccCtl(apu: Apu, cmd: seq<u32>)
    requires |cmd| == CmdLayout.SQ_ENTRY_DWORDS
    modifies apu`enabled
    ensures apu.enabled == EnableAfter(old(apu.enabled), cmd[12])
  {
    match cmd[12]
    case 0 =>
      apu.enabled := true;
    case 1 =>
      apu.enabled := false;
    case _ =>
  }
}
