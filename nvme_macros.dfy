/** The older copy of the doorbell and field macros (rpu-app/src/nvme.h).
    Its macros carry the `NVME_` prefix for the field helpers; their text
    is that of rpu-app/src/tc.h, and the lemmas below show that every one
    of them denotes the same address or register value. */
module NvmeMacros {
  import T = TcMacros

  const DOORBELLS: nat := 5
  const DOORBELL_BASE: nat := 0x1000

  const SHUTDOWN_PROCESSING: bv32 := 0x1
  const SHUTDOWN_COMPLETE: bv32 := 0x2

  function DoorbellReg(n: int): int
  {
    DOORBELL_BASE + n * 4
  }

  /** `NVME_TC_REG_IO_TAIL(n)` and `NVME_TC_REG_IO_HEAD(n)` expanded as the
      preprocessor does, with the argument `n+1` unparenthesised. */
  function IoTail(n: int): int
  {
    DoorbellReg(n + 1 * 2)
  }

  function IoHead(n: int): int
  {
    DoorbellReg((n + 1 * 2) + 1)
  }

  const REG_ADM_TAIL: int := DoorbellReg(0 * 2)
  const REG_ADM_HEAD: int := DoorbellReg(0 * 2 + 1)
  const REG_IRQ_STA: int := DoorbellReg(DOORBELLS * 2)
  const REG_IRQ_DAT: int := DoorbellReg(DOORBELLS * 2 + 1)

  /** `NVME_GET_FIELD`, `NVME_SET_FIELD` and `NVME_CLR_FIELD`. */
  function GetField(reg: bv32, f: T.Field): bv32
    requires T.FieldFits(f)
  {
    (reg >> f.shift) & f.mask
  }

  function SetField(reg: bv32, val: bv32, f: T.Field): bv32
    requires T.FieldFits(f)
  {
    reg | ((val & f.mask) << f.shift)
  }

  function ClrField(reg: bv32, f: T.Field): bv32
    requires T.FieldFits(f)
  {
    SetField(reg, 0, f)
  }

  /** Both headers name the same registers. */
  lemma SameAddressesAsTcHeader(n: int)
    ensures DoorbellReg(n) == T.DoorbellReg(n) == 0x1000 + 4 * n
    ensures REG_ADM_TAIL == T.REG_ADM_TAIL == 0x1000
    ensures REG_ADM_HEAD == T.REG_ADM_HEAD == 0x1004
    ensures REG_IRQ_STA == T.REG_IRQ_STA == 0x1028
    ensures REG_IRQ_DAT == T.REG_IRQ_DAT == 0x102C
    ensures IoTail(n) == T.IoTailAsWritten(n) == 0x1000 + 4 * (n + 2)
    ensures IoHead(n) == T.IoHeadAsWritten(n) == 0x1000 + 4 * (n + 3)
  {
  }

  /** The prefixed field macros compute what the tc.h ones compute, so the
      OR-only `SET` and the no-op `CLR` carry over. */
  lemma SameFieldsAsTcHeader(reg: bv32, val: bv32, f: T.Field)
    requires T.FieldFits(f)
    ensures GetField(reg, f) == T.GetField(reg, f)
    ensures SetField(reg, val, f) == T.SetField(reg, val, f)
    ensures ClrField(reg, f) == T.ClrFieldAsWritten(reg, f)
  {
  }

  lemma NvmeClrFieldIsIdentity(reg: bv32)
    ensures ClrField(reg, T.CSTS_SHST) == reg && ClrField(reg, T.CSTS_RDY) == reg
    ensures ClrField(reg, T.CC_EN) == reg && ClrField(reg, T.CC_SHN) == reg
  {
    T.ClrFieldIsIdentity(reg, T.CSTS_SHST);
    T.ClrFieldIsIdentity(reg, T.CSTS_RDY);
    T.ClrFieldIsIdentity(reg, T.CC_EN);
    T.ClrFieldIsIdentity(reg, T.CC_SHN);
  }
}
