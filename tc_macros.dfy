/** The doorbell and interrupt register addresses and the field macros of
    the RPU target-controller header (rpu-app/src/tc.h), together with
    the controller register fields they are applied to.  The register
    map and field positions follow section 3.1 of the NVM Express Base
    Specification 1.4. */
module TcMacros {

  const DOORBELLS: nat := 5
  const DOORBELL_BASE: nat := 0x1000

  /** Byte offsets of the controller registers (section 3.1 of NVMe 1.4). */
  const REG_CC: nat := 0x14
  const REG_CSTS: nat := 0x1C
  const REG_AQA: nat := 0x24
  const REG_ASQ_0: nat := 0x28
  const REG_ASQ_1: nat := 0x2C
  const REG_ACQ_0: nat := 0x30
  const REG_ACQ_1: nat := 0x34

  const SHUTDOWN_PROCESSING: bv32 := 0x1
  const SHUTDOWN_COMPLETE: bv32 := 0x2

  const ADM_SQ_ENTRY_SIZE: nat := 64
  const ADM_SQ_SLAB_SIZE: nat := 256

  /** `DOORBELL_REG(n)`. */
  function DoorbellReg(n: int): int
  {
    DOORBELL_BASE + n * 4
  }

  /** `DOORBELL_TAIL(n)`, whose body is `DOORBELL_REG((n*2))`. */
  function DoorbellTail(n: int): int
  {
    DoorbellReg(n * 2)
  }

  /** `DOORBELL_HEAD(n)`, whose body is `DOORBELL_REG((n*2)+1)`. */
  function DoorbellHead(n: int): int
  {
    DoorbellReg(n * 2 + 1)
  }

  const REG_ADM_TAIL: int := DoorbellTail(0)
  const REG_ADM_HEAD: int := DoorbellHead(0)
  const REG_IRQ_STA: int := DoorbellTail(DOORBELLS)
  const REG_IRQ_DAT: int := DoorbellHead(DOORBELLS)

  /** `NVME_TC_REG_IO_TAIL(n)` as the preprocessor expands it: the argument
      text `n+1` lands unparenthesised in `(n*2)`, giving `n+1*2`. */
  function IoTailAsWritten(n: int): int
  {
    DoorbellReg(n + 1 * 2)
  }

  /** `NVME_TC_REG_IO_HEAD(n)` as expanded: `(n+1*2)+1`. */
  function IoHeadAsWritten(n: int): int
  {
    DoorbellReg((n + 1 * 2) + 1)
  }

  /** The I/O doorbells the macros are meant to name: queue pair y = n + 1
      rings at 0x1000 + (2y)*4 (tail) and 0x1000 + (2y+1)*4 (head). */
  function IoTail(n: int): int
  {
    DoorbellTail(n + 1)
  }

  function IoHead(n: int): int
  {
    DoorbellHead(n + 1)
  }

  lemma DoorbellAddresses()
    ensures forall n :: DoorbellReg(n) == 0x1000 + 4 * n
    ensures REG_ADM_TAIL == 0x1000 && REG_ADM_HEAD == 0x1004
    ensures REG_IRQ_STA == 0x1028 && REG_IRQ_DAT == 0x102C
  {
  }

  lemma IoDoorbellsAsWritten(n: int)
    ensures IoTailAsWritten(n) == 0x1000 + 4 * (n + 2)
    ensures IoHeadAsWritten(n) == 0x1000 + 4 * (n + 3)
    ensures IoTailAsWritten(n) == IoTail(n) <==> n == 0
    ensures IoHeadAsWritten(n) == IoHead(n) <==> n == 0
  {
  }

  /** With the expansion as written, the tail doorbell of I/O queue 1 is the
      head doorbell of I/O queue 0. */
  lemma IoDoorbellCollision()
    ensures IoTailAsWritten(1) == IoHeadAsWritten(0)
  {
  }

  /** The intended doorbells never collide: every queue has its own tail and
      head, and none of them is an admin doorbell. */
  lemma IoDoorbellsDistinct(a: int, b: int)
    ensures IoTail(a) != IoHead(b)
    ensures IoTail(a) == IoTail(b) ==> a == b
    ensures IoHead(a) == IoHead(b) ==> a == b
    ensures a >= 0 ==> IoTail(a) != REG_ADM_TAIL && IoTail(a) != REG_ADM_HEAD
    ensures a >= 0 ==> IoHead(a) != REG_ADM_TAIL && IoHead(a) != REG_ADM_HEAD
  {
  }

  /** A register field: `NVME_TC_REG_<name>_SHIFT` and
      `NVME_TC_REG_<name>_MASK` (the mask before shifting). */
  datatype Field = Field(shift: bv32, mask: bv32)

  predicate FieldFits(f: Field)
  {
    f.shift < 32
  }

  const CC_EN: Field := Field(0, 0x1)
  const CC_CSS: Field := Field(4, 0x7)
  const CC_MPS: Field := Field(7, 0xF)
  const CC_AMS: Field := Field(11, 0x7)
  const CC_SHN: Field := Field(14, 0x3)
  const CC_IOSQES: Field := Field(16, 0xF)
  const CC_IOCQES: Field := Field(20, 0xF)
  const CSTS_RDY: Field := Field(0, 0x1)
  const CSTS_SHST: Field := Field(2, 0x3)
  const AQA_ASQS: Field := Field(0, 0xFFF)
  const AQA_ACQS: Field := Field(16, 0xFFF)

  /** The bit values `NVME_TC_REG_CC_EN` and `NVME_TC_REG_CSTS_RDY`. */
  const CC_EN_BIT: bv32 := 1
  const CSTS_RDY_BIT: bv32 := 1

  /** `NVME_TC_GET_FIELD(reg, name)`. */
  function GetField(reg: bv32, f: Field): (v: bv32)
    requires FieldFits(f)
  {
    (reg >> f.shift) & f.mask
  }

  /** `NVME_TC_SET_FIELD(reg, val, name)`: the new value of `reg`, which is
      ORed with the masked value, never cleared. */
  function SetField(reg: bv32, val: bv32, f: Field): (r: bv32)
    requires FieldFits(f)
  {
    reg | ((val & f.mask) << f.shift)
  }

  /** `SET_FIELD` keeps every bit that was already set. */
  lemma SetFieldNeverClears(reg: bv32, val: bv32, f: Field)
    requires FieldFits(f)
    ensures SetField(reg, val, f) & reg == reg
  {
  }

  /** `NVME_TC_CLR_FIELD(reg, name)`, defined as `SET_FIELD(reg, 0, name)`. */
  function ClrFieldAsWritten(reg: bv32, f: Field): (r: bv32)
    requires FieldFits(f)
  {
    SetField(reg, 0, f)
  }

  /** What a field clear is meant to do: zero the field's bits only. */
  function ClrField(reg: bv32, f: Field): (r: bv32)
    requires FieldFits(f)
  {
    reg & !(f.mask << f.shift)
  }

  /** Setting a field of a zero register and reading it back gives the value
      cut to the field's mask, for every field of CC, CSTS and AQA. */
  lemma GetSetCc(v: bv32)
    ensures GetField(SetField(0, v, CC_EN), CC_EN) == v & CC_EN.mask
    ensures GetField(SetField(0, v, CC_CSS), CC_CSS) == v & CC_CSS.mask
    ensures GetField(SetField(0, v, CC_MPS), CC_MPS) == v & CC_MPS.mask
    ensures GetField(SetField(0, v, CC_AMS), CC_AMS) == v & CC_AMS.mask
    ensures GetField(SetField(0, v, CC_SHN), CC_SHN) == v & CC_SHN.mask
    ensures GetField(SetField(0, v, CC_IOSQES), CC_IOSQES) == v & CC_IOSQES.mask
    ensures GetField(SetField(0, v, CC_IOCQES), CC_IOCQES) == v & CC_IOCQES.mask
  {
  }

  lemma GetSetCsts(v: bv32)
    ensures GetField(SetField(0, v, CSTS_RDY), CSTS_RDY) == v & CSTS_RDY.mask
    ensures GetField(SetField(0, v, CSTS_SHST), CSTS_SHST) == v & CSTS_SHST.mask
  {
  }

  lemma GetSetAqa(v: bv32)
    ensures GetField(SetField(0, v, AQA_ASQS), AQA_ASQS) == v & AQA_ASQS.mask
    ensures GetField(SetField(0, v, AQA_ACQS), AQA_ACQS) == v & AQA_ACQS.mask
  {
  }

  /** The intended clear zeroes the field ... */
  lemma ClrFieldClears(reg: bv32)
    ensures GetField(ClrField(reg, CSTS_SHST), CSTS_SHST) == 0
  {
  }

  /** ... and leaves every bit outside it as it was. */
  lemma ClrFieldKeepsOthers(reg: bv32)
    ensures ClrField(reg, CSTS_SHST) | 0xC == reg | 0xC
  {
  }

  /** `CLR_FIELD` as written changes nothing, whatever the register holds. */
  lemma ClrFieldIsIdentity(reg: bv32, f: Field)
    requires FieldFits(f)
    ensures ClrFieldAsWritten(reg, f) == reg
  {
    var z: bv32 := 0 & f.mask;
    assert z == 0;
    ShlZero(f.shift);
  }

  lemma ShlZero(s: bv32)
    requires s < 32
    ensures (0 as bv32) << s == 0
  {
  }

  /** The counterexample: clearing SHST in a CSTS that reports shutdown
      complete leaves it reporting shutdown complete. */
  lemma ClrFieldKeepsShutdown()
    ensures GetField(ClrFieldAsWritten(0x8, CSTS_SHST), CSTS_SHST) == SHUTDOWN_COMPLETE
    ensures GetField(ClrField(0x8, CSTS_SHST), CSTS_SHST) == 0
  {
  }
}
