/** The global state the APU's command handlers share: the accelerators
    of apu-app/src/main.cpp, the firmware map of cmds/fw.cpp, the download
    buffer of cmds/qspi.cpp, the enable flag of cmds/adm_acc_ctl.cpp, the
    status heads of cmds/status.cpp and the identify image of
    cmds/identify.cpp, with the acknowledgements and buffer mappings the
    router makes. */
module ApuState {
  import opened Bits
  import opened ApuNvme
  import Accel
  import ApuIdentify

  /** The six reserved words of a status head. */
  datatype Reserved = Reserved(r0: u32, r1: u32, r2: u32, r3: u32, r4: u32, r5: u32)

  /** `stat_head_t`. */
  datatype StatHead = StatHead(len: u32, id: u32, rsvd: Reserved)

  /** `sizeof(stat_head_t)`. */
  const STAT_HEAD_SIZE: nat := 32

  /** The bytes of a status head, fields in order, each little-endian. */
  function StatBytes(h: StatHead): (b: seq<u8>)
    ensures |b| == STAT_HEAD_SIZE
  {
    LeBytes(h.len, 4) + LeBytes(h.id, 4)
      + LeBytes(h.rsvd.r0, 4) + LeBytes(h.rsvd.r1, 4) + LeBytes(h.rsvd.r2, 4)
      + LeBytes(h.rsvd.r3, 4) + LeBytes(h.rsvd.r4, 4) + LeBytes(h.rsvd.r5, 4)
  }

  /** The first two words of the image read back as `len` and `id`. */
  lemma StatBytesFields(h: StatHead)
    ensures LeValue(StatBytes(h)[0..4]) == h.len && LeValue(StatBytes(h)[4..8]) == h.id
  {
    Pow2Of32();
    LeRoundTrip(h.len, 4);
    LeRoundTrip(h.id, 4);
    assert StatBytes(h)[0..4] == LeBytes(h.len, 4);
    assert StatBytes(h)[4..8] == LeBytes(h.id, 4);
  }

  /** One mapping of a host buffer through /dev/mem and its release. */
  datatype MmapEvent = Mapped(base: u32, len: u32) | Unmapped(len: u32)

  class Apu {
    var accs: seq<Accel.Acc>
    var fwMap: map<u32, seq<u8>>
    var fwBuffer: seq<u8>
    /** The copies of `fw_buffer` handed to the flashing thread. */
    var flashed: seq<seq<u8>>
    var enabled: bool
    /** `heads`, allocated by `setup_status` for the accelerators there are. */
    const heads: array<StatHead>
    /** `identify_struct`. */
    const identify: array<u8>
    var acks: seq<Payload>
    var mmaps: seq<MmapEvent>

    /** The accelerators are distinct objects, one status head each. */
    predicate Valid()
      reads this
    {
      && heads.Length == |accs|
      && identify.Length == ApuIdentify.IDENTIFY_STRUCT_BUF_SIZE
      && forall i, j :: 0 <= i < j < |accs| ==> accs[i] != accs[j]
    }

    /** The list of accelerators and every accelerator are as before. */
    twostate predicate AccsUntouched()
      reads this`accs, accs
    {
      accs == old(accs) && forall i :: 0 <= i < |accs| ==> unchanged(accs[i])
    }

    /** `init` of main.cpp: one accelerator with id 0, the identify image
        built, one status head of whatever memory `new` hands out; and the
        static initial values of the other globals, the enable flag among
        them false. */
    constructor Init(garbage: StatHead)
      ensures Valid() && fresh(heads) && fresh(identify)
      ensures |accs| == 1 && fresh(accs[0]) && accs[0].Pristine(0)
      ensures heads[..] == [garbage]
      ensures identify[..] == ApuIdentify.IdentifyImage()
      ensures fwMap == map[] && fwBuffer == [] && flashed == [] && !enabled
      ensures acks == [] && mmaps == []
    {
      var a0 := new Accel.Acc(0);
      var img := new u8[ApuIdentify.IDENTIFY_STRUCT_BUF_SIZE];
      ApuIdentify.SetupIdentify(img);
      accs := [a0];
      identify := img;
      heads := new StatHead[1](_ => garbage);
      fwMap, fwBuffer, flashed := map[], [], [];
      enabled := false;
      acks, mmaps := [], [];
    }
  }
}
