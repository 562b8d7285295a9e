/** The register-level CC logic of the older controller (rpu-app/src/main.c),
    written with the `NVME_`-prefixed macros of rpu-app/src/nvme.h. */
module LegacyStatus {
  import opened TcMacros
  import N = NvmeMacros
  import TcStatus

  /** The CC and AQA fields `NVME_GET_FIELD` reads, as numbers; each is the
      value the tc.c handlers read. */
  function Iocqes(cc: bv32): (n: nat)
    ensures n == TcStatus.CcIocqes(cc)
  {
    N.SameFieldsAsTcHeader(cc, 0, CC_IOCQES);
    N.GetField(cc, CC_IOCQES) as nat
  }

  function Iosqes(cc: bv32): (n: nat)
    ensures n == TcStatus.CcIosqes(cc)
  {
    N.SameFieldsAsTcHeader(cc, 0, CC_IOSQES);
    N.GetField(cc, CC_IOSQES) as nat
  }

  function Mps(cc: bv32): (n: nat)
    ensures n == TcStatus.CcMps(cc)
  {
    N.SameFieldsAsTcHeader(cc, 0, CC_MPS);
    N.GetField(cc, CC_MPS) as nat
  }

  function Acqs(aqa: bv32): (n: nat)
    ensures n == TcStatus.AqaAcqs(aqa)
  {
    N.SameFieldsAsTcHeader(aqa, 0, AQA_ACQS);
    N.GetField(aqa, AQA_ACQS) as nat
  }

  function Asqs(aqa: bv32): (n: nat)
    ensures n == TcStatus.AqaAsqs(aqa)
  {
    N.SameFieldsAsTcHeader(aqa, 0, AQA_ASQS);
    N.GetField(aqa, AQA_ASQS) as nat
  }

  /** The CSTS and enable-flag updates of `nvme_cc_handler`, step by step;
      they end where the tc.c handler ends. */
  method ControlStatus(cc: bv32, csts: bv32, enabled: bool) returns (c: bv32, en: bool)
    ensures c == TcStatus.CstsAfterCc(cc, csts, enabled)
    ensures en == (cc != 0)
  {
    c, en := csts, enabled;
    if N.GetField(cc, CC_SHN) != 0 {
      c := N.SetField(c, N.SHUTDOWN_COMPLETE, CSTS_SHST);
    }
    assert c == TcStatus.ShutdownAck(cc, csts);
    if cc != 0 {
      en := true;
      c := c | CSTS_RDY_BIT;
    } else if en {
      en := false;
      c := c & !CSTS_RDY_BIT;
    }
  }
}

/** The older controller of rpu-app/src/main.c: the same register handlers
    as tc.c, without the admin doorbell, and with the two words of each
    queue base joined the other way round. */
module LegacyTc {
  import opened Bits
  import opened TcMacros
  import Tc
  import LegacyStatus
  import TcStatus

  /** The handler a register write selects in `nvme_irq_handler`. */
  datatype Action = CcWrite | AqaWrite | AsqWrite | AcqWrite | Ignored

  function ActionOf(reg: nat): (a: Action)
    ensures a == CcWrite <==> reg == REG_CC
    ensures a == AqaWrite <==> reg == REG_AQA
    ensures a == AsqWrite <==> reg == REG_ASQ_1
    ensures a == AcqWrite <==> reg == REG_ACQ_1
  {
    if reg == REG_CC then CcWrite
    else if reg == REG_AQA then AqaWrite
    else if reg == REG_ASQ_0 then Ignored
    else if reg == REG_ASQ_1 then AsqWrite
    else if reg == REG_ACQ_0 then Ignored
    else if reg == REG_ACQ_1 then AcqWrite
    else Ignored
  }

  /** The dispatch agrees with tc.c's on every register except the admin
      doorbell, which this revision ignores. */
  lemma ActionsAgreeWithTc(reg: nat)
    ensures reg != REG_ADM_TAIL ==>
      (ActionOf(reg) == Ignored <==> Tc.ActionOf(reg) == Tc.Ignored)
    ensures ActionOf(REG_ADM_TAIL) == Ignored && Tc.ActionOf(REG_ADM_TAIL) == Tc.AdmTailWrite
  {
  }

  /** `((uint64_t)w0 << 32) | w1`: the word at the lower address is taken
      as the upper half. */
  function SwappedBase(w0: u32, w1: u32): (b: u64)
    ensures b / U32_LIMIT == w0 && b % U32_LIMIT == w1
  {
    Tc.JoinSplits(w0, w1);
    Tc.Join(w0, w1)
  }

  /** The base agrees with the little-endian one of tc.c exactly when the
      two words are equal. */
  lemma SwappedBaseAgreesIff(w0: u32, w1: u32)
    ensures SwappedBase(w0, w1) == Tc.Join(w1, w0) <==> w0 == w1
  {
    Tc.JoinSplits(w1, w0);
  }

  /** A queue at host address 0x1000 (ASQ_0 = 0x1000, ASQ_1 = 0) is taken
      to sit at 0x1000_0000_0000. */
  lemma SwappedBaseExample()
    ensures SwappedBase(0x1000, 0) == 0x1000_0000_0000
    ensures Tc.Join(0, 0x1000) == 0x1000
  {
  }

  class Controller {
    var enabled: bool
    var ioCqEntrySize: int
    var ioSqEntrySize: int
    var admCqSize: int
    var admSqSize: int
    var admSqBase: u64
    var admCqBase: u64
    var mmio: seq<Tc.RegWrite>

    /** `nvme_tc_init` on the zero-initialised global `p`: every register
        below IRQ_STA cleared, lowest offset first. */
    constructor Init()
      ensures !enabled && ioCqEntrySize == 0 && ioSqEntrySize == 0
      ensures admCqSize == 0 && admSqSize == 0 && admSqBase == 0 && admCqBase == 0
      ensures mmio == Tc.ClearWrites(REG_IRQ_STA / 4)
    {
      var log: seq<Tc.RegWrite> := [];
      var i := 0;
      while i < REG_IRQ_STA
        invariant i % 4 == 0 && 0 <= i <= REG_IRQ_STA
        invariant log == Tc.ClearWrites(i / 4)
      {
        log := log + [Tc.RegWrite(i, 0)];
        i := i + 4;
      }
      enabled := false;
      ioCqEntrySize, ioSqEntrySize := 0, 0;
      admCqSize, admSqSize := 0, 0;
      admSqBase, admCqBase := 0, 0;
      mmio := log;
    }

    /** What `nvme_cc_handler` does with CC value `cc` and CSTS value
        `csts`: the I/O entry sizes as CC names them, the enable flag
        following CC, one write of the new CSTS; the admin queue state is
        left alone. */
    twostate predicate CcWritten(cc: bv32, csts: bv32)
      reads this
    {
      && ioCqEntrySize == Tc.IoCqEntrySizeOf(cc) && ioSqEntrySize == Tc.IoSqEntrySizeOf(cc)
      && enabled == (cc != 0)
      && mmio == old(mmio) + [Tc.RegWrite(REG_CSTS, TcStatus.CstsAfterCc(cc, csts, old(enabled)))]
      && admCqSize == old(admCqSize) && admSqSize == old(admSqSize)
      && admSqBase == old(admSqBase) && admCqBase == old(admCqBase)
    }

    /** `nvme_cc_handler` with the CC and CSTS values it reads. */
    method CcHandler(cc: bv32, csts: bv32)
      modifies this`ioCqEntrySize, this`ioSqEntrySize, this`enabled, this`mmio
      ensures CcWritten(cc, csts)
    {
      ioCqEntrySize := Pow2(LegacyStatus.Iocqes(cc));
      ioSqEntrySize := Pow2(LegacyStatus.Iosqes(cc));
      ioSqEntrySize := Pow2(LegacyStatus.Mps(cc) + 12);
      var c, en := LegacyStatus.ControlStatus(cc, csts, enabled);
      enabled := en;
      mmio := mmio + [Tc.RegWrite(REG_CSTS, c)];
    }

    /** What `nvme_aqa_handler` does with AQA value `aqa`: the raw ACQS and
        ASQS fields become the sizes, and nothing else changes. */
    twostate predicate AqaWritten(aqa: bv32)
      reads this
    {
      && admCqSize == TcStatus.AqaAcqs(aqa) && admSqSize == TcStatus.AqaAsqs(aqa)
      && enabled == old(enabled) && mmio == old(mmio)
      && admSqBase == old(admSqBase) && admCqBase == old(admCqBase)
      && ioCqEntrySize == old(ioCqEntrySize) && ioSqEntrySize == old(ioSqEntrySize)
    }

    /** `nvme_aqa_handler`: the raw ACQS and ASQS fields become the sizes. */
    method AqaHandler(aqa: bv32)
      modifies this`admCqSize, this`admSqSize
      ensures AqaWritten(aqa)
    {
      admCqSize := LegacyStatus.Acqs(aqa);
      admSqSize := LegacyStatus.Asqs(aqa);
    }

    /** What `nvme_asq_handler` (`sq`) or `nvme_acq_handler` (`!sq`) does
        with the register pair `w0`, `w1`: the queue's base becomes the
        64-bit value with `w0` as its upper word, and nothing else
        changes. */
    twostate predicate BaseWritten(sq: bool, w0: u32, w1: u32)
      reads this
    {
      && admSqBase == (if sq then SwappedBase(w0, w1) else old(admSqBase))
      && admCqBase == (if sq then old(admCqBase) else SwappedBase(w0, w1))
      && enabled == old(enabled) && mmio == old(mmio)
      && admCqSize == old(admCqSize) && admSqSize == old(admSqSize)
      && ioCqEntrySize == old(ioCqEntrySize) && ioSqEntrySize == old(ioSqEntrySize)
    }

    /** `nvme_asq_handler`: ASQ_0 becomes the upper word. */
    method AsqHandler(asq0: u32, asq1: u32)
      modifies this`admSqBase
      ensures admSqBase / U32_LIMIT == asq0 && admSqBase % U32_LIMIT == asq1
      ensures BaseWritten(true, asq0, asq1)
    {
      admSqBase := SwappedBase(asq0, asq1);
    }

    /** `nvme_acq_handler`: ACQ_0 becomes the upper word. */
    method AcqHandler(acq0: u32, acq1: u32)
      modifies this`admCqBase
      ensures admCqBase / U32_LIMIT == acq0 && admCqBase % U32_LIMIT == acq1
      ensures BaseWritten(false, acq0, acq1)
    {
      admCqBase := SwappedBase(acq0, acq1);
    }

    /** One pass of the loop of `nvme_irq_handler`; a write to the admin
        doorbell, like any register without a case, changes nothing. */
    method HandleRegWrite(dat: u32, win: map<nat, u32>) returns (action: Action)
      modifies this
      ensures action == ActionOf(Tc.RegOf(dat))
      ensures action == Ignored ==> unchanged(this)
      ensures Tc.RegOf(dat) == REG_ADM_TAIL ==> unchanged(this)
      ensures action == CcWrite ==> CcWritten(Tc.Read(win, REG_CC) as bv32, Tc.Read(win, REG_CSTS) as bv32)
      ensures action == AqaWrite ==> AqaWritten(Tc.Read(win, REG_AQA) as bv32)
      ensures action == AsqWrite ==> BaseWritten(true, Tc.Read(win, REG_ASQ_0), Tc.Read(win, REG_ASQ_1))
      ensures action == AcqWrite ==> BaseWritten(false, Tc.Read(win, REG_ACQ_0), Tc.Read(win, REG_ACQ_1))
    {
      var reg := Tc.RegOf(dat);
      action := ActionOf(reg);
      match action {
        case CcWrite => CcHandler(Tc.Read(win, REG_CC) as bv32, Tc.Read(win, REG_CSTS) as bv32);
        case AqaWrite => AqaHandler(Tc.Read(win, REG_AQA) as bv32);
        case AsqWrite => AsqHandler(Tc.Read(win, REG_ASQ_0), Tc.Read(win, REG_ASQ_1));
        case AcqWrite => AcqHandler(Tc.Read(win, REG_ACQ_0), Tc.Read(win, REG_ACQ_1));
        case Ignored =>
      }
    }
  }
}
