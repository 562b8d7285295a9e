/** How the CC handler of the target controller (rpu-app/src/tc.c and its
    older copy in rpu-app/src/main.c) derives the CSTS value it writes back
    and the controller's enable flag from the CC and CSTS values it reads. */
module TcStatus {
  import opened TcMacros

  /** The CC and AQA fields the handlers read, as numbers. */
  function CcIocqes(cc: bv32): (n: nat)
    ensures n < 16
  {
    GetField(cc, CC_IOCQES) as nat
  }

  function CcIosqes(cc: bv32): (n: nat)
    ensures n < 16
  {
    GetField(cc, CC_IOSQES) as nat
  }

  function CcMps(cc: bv32): (n: nat)
    ensures n < 16
  {
    GetField(cc, CC_MPS) as nat
  }

  function AqaAcqs(aqa: bv32): (n: nat)
    ensures n < 0x1000
  {
    GetField(aqa, AQA_ACQS) as nat
  }

  function AqaAsqs(aqa: bv32): (n: nat)
    ensures n < 0x1000
  {
    GetField(aqa, AQA_ASQS) as nat
  }

  /** The CSTS value the CC handler writes back, given the CC and CSTS it
      read and whether the controller was enabled: SHST is ORed with
      "shutdown complete" on a shutdown notification, and RDY follows the
      C condition `cc && NVME_TC_REG_CC_EN`, which is true for any
      non-zero CC. */
  function CstsAfterCc(cc: bv32, csts: bv32, enabled: bool): bv32
  {
    ReadyAfterCc(cc != 0, ShutdownAck(cc, csts), enabled)
  }

  /** The shutdown step: SHST ORed with "shutdown complete" when SHN is set. */
  function ShutdownAck(cc: bv32, csts: bv32): bv32
  {
    if GetField(cc, CC_SHN) != 0 then SetField(csts, SHUTDOWN_COMPLETE, CSTS_SHST) else csts
  }

  /** The enable step: RDY set on enable, cleared on a reset of an enabled
      controller, otherwise kept. */
  function ReadyAfterCc(enable: bool, csts: bv32, enabled: bool): bv32
  {
    if enable then csts | CSTS_RDY_BIT
    else if enabled then csts & !CSTS_RDY_BIT
    else csts
  }

  /** RDY ends set exactly when CC is non-zero, or when it was already set
      and the controller was not enabled. */
  lemma CcReady(cc: bv32, csts: bv32, enabled: bool)
    ensures CstsAfterCc(cc, csts, enabled) & 1 == 1 <==> cc != 0 || (!enabled && csts & 1 == 1)
  {
  }

  /** A shutdown notification makes SHST report "shutdown complete" (bit 3). */
  lemma CcShutdown(cc: bv32, csts: bv32, enabled: bool)
    requires GetField(cc, CC_SHN) != 0
    ensures CstsAfterCc(cc, csts, enabled) & 0x8 == 0x8
  {
  }

  /** No bit other than RDY and SHST's upper bit ever changes. */
  lemma CcKeepsOtherBits(cc: bv32, csts: bv32, enabled: bool)
    ensures CstsAfterCc(cc, csts, enabled) & 0xFFFF_FFF6 == csts & 0xFFFF_FFF6
  {
    ShutdownAckKeeps(cc, csts);
    ReadyKeeps(cc != 0, ShutdownAck(cc, csts), enabled);
  }

  lemma ShutdownAckKeeps(cc: bv32, csts: bv32)
    ensures ShutdownAck(cc, csts) & 0xFFFF_FFF7 == csts & 0xFFFF_FFF7
  {
    if GetField(cc, CC_SHN) != 0 {
      SetShutdownIsBit3(csts);
      OrBit3Keeps(csts);
    }
  }

  /** Writing "shutdown complete" into SHST ORs in bit 3. */
  lemma SetShutdownIsBit3(csts: bv32)
    ensures SetField(csts, SHUTDOWN_COMPLETE, CSTS_SHST) == csts | 0x8
  {
  }

  lemma OrBit3Keeps(csts: bv32)
    ensures (csts | 0x8) & 0xFFFF_FFF7 == csts & 0xFFFF_FFF7
  {
  }

  lemma ReadyKeeps(enable: bool, csts: bv32, enabled: bool)
    ensures ReadyAfterCc(enable, csts, enabled) & 0xFFFF_FFFE == csts & 0xFFFF_FFFE
  {
    var r := ReadyAfterCc(enable, csts, enabled);
    if enable {
      assert r == csts | CSTS_RDY_BIT;
      OrBit0Keeps(csts);
    } else if enabled {
      assert r == csts & !CSTS_RDY_BIT;
      AndBit0Keeps(csts);
    } else {
      assert r == csts;
    }
  }

  lemma OrBit0Keeps(csts: bv32)
    ensures (csts | CSTS_RDY_BIT) & 0xFFFF_FFFE == csts & 0xFFFF_FFFE
  {
  }

  lemma AndBit0Keeps(csts: bv32)
    ensures (csts & !CSTS_RDY_BIT) & 0xFFFF_FFFE == csts & 0xFFFF_FFFE
  {
  }

  /** The counterexample to the EN test: a CC with EN clear but I/O queue
      entry sizes set still enables the controller and sets RDY. */
  lemma CcEnablesWithoutEn()
    ensures GetField(0x0046_0000, CC_EN) == 0
    ensures CstsAfterCc(0x0046_0000, 0, false) & CSTS_RDY_BIT == 1
  {
  }

  /** The CSTS value the handler is meant to write: RDY follows CC.EN. */
  function CstsAfterCcIntended(cc: bv32, csts: bv32, enabled: bool): bv32
  {
    ReadyAfterCc(cc & CC_EN_BIT != 0, ShutdownAck(cc, csts), enabled)
  }

  lemma CcIntendedReady(cc: bv32, csts: bv32, enabled: bool)
    ensures CstsAfterCcIntended(cc, csts, enabled) & 1 == 1 <==> cc & 1 == 1 || (!enabled && csts & 1 == 1)
  {
  }

  /** The CSTS and enable-flag updates of the CC handler, step by step. */
  method ControlStatus(cc: bv32, csts: bv32, enabled: bool) returns (c: bv32, en: bool)
    ensures c == CstsAfterCc(cc, csts, enabled)
    ensures en == (cc != 0)
  {
    c, en := csts, enabled;
    if GetField(cc, CC_SHN) != 0 {
      c := SetField(c, SHUTDOWN_COMPLETE, CSTS_SHST);
    }
    if cc != 0 {
      en := true;
      c := c | CSTS_RDY_BIT;
    } else if en {
      en := false;
      c := c & !CSTS_RDY_BIT;
    }
  }

}
