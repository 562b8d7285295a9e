/** The NVMe command layouts of the RPU firmware (rpu-app/src/cmd.h):
    submission dword 0, the 64-byte submission entry base, the 16-byte
    completion entry and the admin opcodes.  Bit-fields are allocated
    least significant bit first, as GCC does on a little-endian target;
    an entry is seen as a sequence of little-endian 32-bit dwords. */
module CmdLayout {
  import opened Bits

  const SQ_ENTRY_DWORDS: nat := 16
  const CQ_ENTRY_DWORDS: nat := 4

  const ADM_GET_LOG: u8 := 0x02
  const ADM_IDENTIFY: u8 := 0x06
  const ADM_SET_FEATURES: u8 := 0x09
  const ADM_CREATE_IO_SQ: u8 := 0x01
  const ADM_CREATE_IO_CQ: u8 := 0x05
  const ADM_KEEP_ALIVE: u8 := 0x18
  /** Not defined in cmd.h; the values of the NVMe admin command set. */
  const ADM_DELETE_IO_SQ: u8 := 0x00
  const ADM_DELETE_IO_CQ: u8 := 0x04

  lemma AdminOpcodesDistinct()
    ensures |{ADM_GET_LOG, ADM_IDENTIFY, ADM_SET_FEATURES, ADM_CREATE_IO_SQ,
              ADM_CREATE_IO_CQ, ADM_KEEP_ALIVE, ADM_DELETE_IO_SQ, ADM_DELETE_IO_CQ}| == 8
  {
  }

  /** `nvme_cmd_cdw0_t`: opc 7:0, fuse 9:8, rsvd 13:10, psdt 15:14, cid 31:16. */
  datatype Cdw0 = Cdw0(opc: u8, fuse: nat, rsvd: nat, psdt: nat, cid: u16)

  predicate Cdw0Ok(c: Cdw0)
  {
    c.fuse < 4 && c.rsvd < 16 && c.psdt < 4
  }

  /** The fields packed from bit 0 upwards: each field is the remainder
      below its width and the rest sits above it. */
  function EncodeCdw0(c: Cdw0): (w: u32)
    requires Cdw0Ok(c)
  {
    c.opc + 0x100 * (c.fuse + 4 * (c.rsvd + 16 * (c.psdt + 4 * c.cid)))
  }

  function DecodeCdw0(w: u32): (c: Cdw0)
    ensures Cdw0Ok(c)
  {
    var r1 := w / 0x100;
    var r2 := r1 / 4;
    var r3 := r2 / 16;
    Cdw0(w % 0x100, r1 % 4, r2 % 16, r3 % 4, r3 / 4)
  }

  /** The bit positions the packing puts each field at. */
  lemma Cdw0Positions(c: Cdw0)
    requires Cdw0Ok(c)
    ensures EncodeCdw0(c) == c.opc + c.fuse * 0x100 + c.rsvd * 0x400 + c.psdt * 0x4000 + c.cid * 0x1_0000
  {
  }

  lemma {:induction false} Cdw0RoundTrip(c: Cdw0)
    requires Cdw0Ok(c)
    ensures DecodeCdw0(EncodeCdw0(c)) == c
  {
    PackSplit(c.psdt, c.cid, 4);
    PackSplit(c.rsvd, c.psdt + 4 * c.cid, 16);
    PackSplit(c.fuse, c.rsvd + 16 * (c.psdt + 4 * c.cid), 4);
    PackSplit(c.opc, c.fuse + 4 * (c.rsvd + 16 * (c.psdt + 4 * c.cid)), 0x100);
  }

  lemma {:induction false} Cdw0Complete(w: u32)
    ensures EncodeCdw0(DecodeCdw0(w)) == w
  {
    UnpackJoin(w, 0x100, 0x100_0000);
    var r1 := w / 0x100;
    UnpackJoin(r1, 4, 0x40_0000);
    var r2 := r1 / 4;
    UnpackJoin(r2, 16, 0x4_0000);
    var r3 := r2 / 16;
    UnpackJoin(r3, 4, 0x1_0000);
  }

  /** `nvme_cq_entry_t`: dword 0 (command specific), a reserved dword,
      sq_head 15:0 and sq_id 31:16 of dword 2, and in dword 3 cid 15:0,
      the phase bit 16, sc 24:17, sct 27:25, crd 29:28, m 30 and dnr 31. */
  datatype CqEntry = CqEntry(cdw0: u32, rsvd: u32, sqHead: u16, sqId: u16,
                             cid: u16, p: nat, sc: u8, sct: nat, crd: nat,
                             m: nat, dnr: nat)

  predicate CqOk(e: CqEntry)
  {
    e.p < 2 && e.sct < 8 && e.crd < 4 && e.m < 2 && e.dnr < 2
  }

  /** The entry after `memset(cq, 0, ...)`. */
  const ZERO_CQ: CqEntry := CqEntry(0, 0, 0, 0, 0, 0, 0, 0, 0, 0, 0)

  function CqDword2(e: CqEntry): u32
  {
    e.sqHead + 0x1_0000 * e.sqId
  }

  function CqDword3(e: CqEntry): u32
    requires CqOk(e)
  {
    e.cid + 0x1_0000 * (e.p + 2 * (e.sc + 0x100 * (e.sct + 8 * (e.crd + 4 * (e.m + 2 * e.dnr)))))
  }

  /** The bit positions of the status dword. */
  lemma CqPositions(e: CqEntry)
    requires CqOk(e)
    ensures CqDword3(e) == e.cid + e.p * 0x1_0000 + e.sc * 0x2_0000 + e.sct * 0x200_0000
                           + e.crd * 0x1000_0000 + e.m * 0x4000_0000 + e.dnr * 0x8000_0000
  {
  }

  /** The four dwords the entry occupies in memory. */
  function EncodeCq(e: CqEntry): (d: seq<u32>)
    requires CqOk(e)
    ensures |d| == CQ_ENTRY_DWORDS
    ensures d[0] == e.cdw0 && d[1] == e.rsvd
  {
    [e.cdw0, e.rsvd, CqDword2(e), CqDword3(e)]
  }

  function DecodeCq(d: seq<u32>): (e: CqEntry)
    requires |d| == CQ_ENTRY_DWORDS
    ensures CqOk(e)
  {
    var r1 := d[3] / 0x1_0000;
    var r2 := r1 / 2;
    var r3 := r2 / 0x100;
    var r4 := r3 / 8;
    var r5 := r4 / 4;
    CqEntry(d[0], d[1], d[2] % 0x1_0000, d[2] / 0x1_0000,
            d[3] % 0x1_0000, r1 % 2, r2 % 0x100, r3 % 8, r4 % 4, r5 % 2, r5 / 2)
  }

  /** Decoding an encoded entry gives back every field... */
  lemma {:induction false} CqRoundTrip(e: CqEntry)
    requires CqOk(e)
    ensures DecodeCq(EncodeCq(e)) == e
  {
    PackSplit(e.sqHead, e.sqId, 0x1_0000);
    var h5 := e.m + 2 * e.dnr;
    var h4 := e.crd + 4 * h5;
    var h3 := e.sct + 8 * h4;
    var h2 := e.sc + 0x100 * h3;
    var h1 := e.p + 2 * h2;
    PackSplit(e.m, e.dnr, 2);
    PackSplit(e.crd, h5, 4);
    PackSplit(e.sct, h4, 8);
    PackSplit(e.sc, h3, 0x100);
    PackSplit(e.p, h2, 2);
    PackSplit(e.cid, h1, 0x1_0000);
  }

  /** ... and every four dwords are the image of exactly one entry. */
  lemma {:induction false} CqComplete(d: seq<u32>)
    requires |d| == CQ_ENTRY_DWORDS
    ensures EncodeCq(DecodeCq(d)) == d
  {
    UnpackJoin(d[2], 0x1_0000, 0x1_0000);
    UnpackJoin(d[3], 0x1_0000, 0x1_0000);
    var r1 := d[3] / 0x1_0000;
    UnpackJoin(r1, 2, 0x8000);
    var r2 := r1 / 2;
    UnpackJoin(r2, 0x100, 0x80);
    var r3 := r2 / 0x100;
    UnpackJoin(r3, 8, 0x10);
    var r4 := r3 / 8;
    UnpackJoin(r4, 4, 4);
    var r5 := r4 / 4;
    UnpackJoin(r5, 2, 2);
  }

  /** A submission entry: dword 0, nsid, two reserved dwords, the 64-bit
      metadata pointer at byte 16, the data pointer (prp1, prp2) at byte
      24, and the six command dwords 10..15 from byte 40 on. */
  datatype SqEntry = SqEntry(cdw0: Cdw0, nsid: u32, rsvd2: u32, rsvd3: u32,
                             mptr: u64, prp1: u64, prp2: u64, cdws: seq<u32>)

  predicate SqOk(s: SqEntry)
  {
    Cdw0Ok(s.cdw0) && |s.cdws| == 6
  }

  /** Byte offset of dword `k` of an entry. */
  function DwordOffset(k: nat): nat
  {
    4 * k
  }

  function Qword(lo: u32, hi: u32): u64
  {
    lo + hi * U32_LIMIT
  }

  function EncodeSq(s: SqEntry): (d: seq<u32>)
    requires SqOk(s)
    ensures |d| == SQ_ENTRY_DWORDS
  {
    [EncodeCdw0(s.cdw0), s.nsid, s.rsvd2, s.rsvd3,
     s.mptr % U32_LIMIT, s.mptr / U32_LIMIT,
     s.prp1 % U32_LIMIT, s.prp1 / U32_LIMIT,
     s.prp2 % U32_LIMIT, s.prp2 / U32_LIMIT] + s.cdws
  }

  function DecodeSq(d: seq<u32>): (s: SqEntry)
    requires |d| == SQ_ENTRY_DWORDS
    ensures SqOk(s)
  {
    SqEntry(DecodeCdw0(d[0]), d[1], d[2], d[3], Qword(d[4], d[5]),
            Qword(d[6], d[7]), Qword(d[8], d[9]), d[10..16])
  }

  /** The byte offsets the header layout fixes. */
  lemma SqOffsets(s: SqEntry)
    requires SqOk(s)
    ensures DwordOffset(4) == 16 && DwordOffset(6) == 24 && DwordOffset(10) == 40
    ensures EncodeSq(s)[4] + EncodeSq(s)[5] * U32_LIMIT == s.mptr
    ensures EncodeSq(s)[6] + EncodeSq(s)[7] * U32_LIMIT == s.prp1
    ensures forall k :: 10 <= k < 16 ==> EncodeSq(s)[k] == s.cdws[k - 10]
  {
  }

  lemma {:induction false} SqRoundTrip(s: SqEntry)
    requires SqOk(s)
    ensures DecodeSq(EncodeSq(s)) == s
  {
    var d := EncodeSq(s);
    Cdw0RoundTrip(s.cdw0);
    assert d[10..16] == s.cdws;
  }

  lemma SqComplete(d: seq<u32>)
    requires |d| == SQ_ENTRY_DWORDS
    ensures EncodeSq(DecodeSq(d)) == d
  {
    Cdw0Complete(d[0]);
    var e := EncodeSq(DecodeSq(d));
    assert forall k :: 0 <= k < 16 ==> e[k] == d[k];
  }

  /** Field accessors the command files use on a raw entry. */
  function Opcode(d: seq<u32>): u8
    requires |d| == SQ_ENTRY_DWORDS
  {
    d[0] % 0x100
  }

  function CommandId(d: seq<u32>): u16
    requires |d| == SQ_ENTRY_DWORDS
  {
    d[0] / 0x1_0000
  }

  function Prp1(d: seq<u32>): u64
    requires |d| == SQ_ENTRY_DWORDS
  {
    Qword(d[6], d[7])
  }

  lemma AccessorsAgree(d: seq<u32>)
    requires |d| == SQ_ENTRY_DWORDS
    ensures Opcode(d) == DecodeSq(d).cdw0.opc
    ensures CommandId(d) == DecodeSq(d).cdw0.cid
    ensures Prp1(d) == DecodeSq(d).prp1
    ensures d[10] == DecodeSq(d).cdws[0]
  {
  }
}
