/** The vendor Identify structure of apu-app/src/cmds/identify.cpp: a
    4096-byte image, built once by `setup_identify`, describing the buffers
    the accelerators exchange with the host; `adm_cmd_identify` copies it
    into the host's buffer. */
module ApuIdentify {
  import opened Bits
  import opened Bytes

  const IDENTIFY_STRUCT_BUF_SIZE: nat := 4096
  /** `BUFFER_SIZE`: 64 MiB. */
  const BUFFER_SIZE: nat := 64 * 1024 * 1024
  const ID_FW_EXCHANGE: nat := 0
  const ID_IN_BUFFER: nat := 1
  const ID_OUT_BUFFER: nat := 2

  /** The bytes of `'W', 'D', 'C', '0'`. */
  const MAGIC: seq<u8> := [0x57, 0x44, 0x43, 0x30]

  /** `ident_head_t`: the magic, the total length, eight reserved bytes. */
  function HeadBytes(len: nat): (b: seq<u8>)
    ensures |b| == 16
    ensures b[..4] == MAGIC && b[4..8] == LeBytes(len, 4) && b[8..] == LeBytes(0, 8)
  {
    MAGIC + LeBytes(len, 4) + LeBytes(0, 8)
  }

  /** `desc_list_t`: the length of the capability list, then the 16-bit id
      and the 16-bit reserved field, both 0. */
  function DescBytes(len: nat): (b: seq<u8>)
    ensures |b| == 8
    ensures b[..4] == LeBytes(len, 4) && b[4..] == LeBytes(0, 4)
  {
    LeBytes(len, 4) + LeBytes(0, 4)
  }

  /** `cap_entry_t`: id, reserved word, 64-bit buffer size. */
  function CapBytes(id: nat, size: nat): (b: seq<u8>)
    ensures |b| == 16
    ensures b[..4] == LeBytes(id, 4) && b[4..8] == LeBytes(0, 4) && b[8..] == LeBytes(size, 8)
  {
    LeBytes(id, 4) + LeBytes(0, 4) + LeBytes(size, 8)
  }

  /** A capability entry reads back as its id and buffer size. */
  lemma CapFields(id: nat, size: nat)
    requires id < U32_LIMIT && size < U64_LIMIT
    ensures LeValue(CapBytes(id, size)[..4]) == id
    ensures LeValue(CapBytes(id, size)[4..8]) == 0
    ensures LeValue(CapBytes(id, size)[8..]) == size
  {
    Pow2Of32();
    Pow2Of64();
    LeRoundTrip(id, 4);
    LeRoundTrip(0, 4);
    LeRoundTrip(size, 8);
  }

  /** The capability entries start after the header and the descriptor;
      three of them end the list at byte 72. */
  const CAPS_OFF: nat := 16 + 8
  const LIST_END: nat := CAPS_OFF + 3 * 16

  /** The image before the header and the descriptor are written. */
  function CapsImage(): (img: seq<u8>)
    ensures |img| == IDENTIFY_STRUCT_BUF_SIZE
  {
    var s0 := seq(IDENTIFY_STRUCT_BUF_SIZE, _ => 0x55);
    var s1 := Put(s0, CAPS_OFF, CapBytes(ID_FW_EXCHANGE, 0));
    var s2 := Put(s1, CAPS_OFF + 16, CapBytes(ID_IN_BUFFER, BUFFER_SIZE));
    Put(s2, CAPS_OFF + 32, CapBytes(ID_OUT_BUFFER, BUFFER_SIZE))
  }

  /** The image `setup_identify` leaves in `identify_struct`. */
  function IdentifyImage(): (img: seq<u8>)
    ensures |img| == IDENTIFY_STRUCT_BUF_SIZE
  {
    Put(Put(CapsImage(), 0, HeadBytes(LIST_END)), 16, DescBytes(LIST_END - 16))
  }

  /** The header: the magic, the length 72 = 16 + 8 + 3 * 16 and zeros. */
  lemma IdentifyHeader()
    ensures IdentifyImage()[..16] == HeadBytes(72)
    ensures IdentifyImage()[..4] == MAGIC
    ensures LeValue(IdentifyImage()[4..8]) == 72
    ensures IdentifyImage()[8..16] == LeBytes(0, 8)
  {
    var h := Put(CapsImage(), 0, HeadBytes(LIST_END));
    PutKeeps(h, 16, DescBytes(LIST_END - 16), 0, 16);
    assert IdentifyImage()[..16] == h[0..16];
    assert IdentifyImage()[..4] == IdentifyImage()[..16][..4];
    assert IdentifyImage()[4..8] == IdentifyImage()[..16][4..8];
    assert IdentifyImage()[8..16] == IdentifyImage()[..16][8..];
    Pow2Of32();
    LeRoundTrip(72, 4);
  }

  /** The descriptor: the list length 56 = 72 - 16 and a zero id. */
  lemma IdentifyDescriptor()
    ensures IdentifyImage()[16..24] == DescBytes(56)
    ensures LeValue(IdentifyImage()[16..20]) == 56
    ensures IdentifyImage()[20..24] == LeBytes(0, 4)
  {
    assert IdentifyImage()[16..20] == IdentifyImage()[16..24][..4];
    assert IdentifyImage()[20..24] == IdentifyImage()[16..24][4..];
    Pow2Of32();
    LeRoundTrip(56, 4);
  }

  /** The three capability entries and the 0x55 filler after them. */
  lemma IdentifyCaps()
    ensures IdentifyImage()[24..40] == CapBytes(ID_FW_EXCHANGE, 0)
    ensures IdentifyImage()[40..56] == CapBytes(ID_IN_BUFFER, BUFFER_SIZE)
    ensures IdentifyImage()[56..72] == CapBytes(ID_OUT_BUFFER, BUFFER_SIZE)
    ensures forall i :: LIST_END <= i < IDENTIFY_STRUCT_BUF_SIZE ==> IdentifyImage()[i] == 0x55
  {
    var s0: seq<u8> := seq(IDENTIFY_STRUCT_BUF_SIZE, _ => 0x55);
    var s1 := Put(s0, CAPS_OFF, CapBytes(ID_FW_EXCHANGE, 0));
    var s2 := Put(s1, CAPS_OFF + 16, CapBytes(ID_IN_BUFFER, BUFFER_SIZE));
    var s3 := Put(s2, CAPS_OFF + 32, CapBytes(ID_OUT_BUFFER, BUFFER_SIZE));
    var h := Put(s3, 0, HeadBytes(LIST_END));
    PutKeeps(s1, CAPS_OFF + 16, CapBytes(ID_IN_BUFFER, BUFFER_SIZE), 24, 40);
    PutKeeps(s2, CAPS_OFF + 32, CapBytes(ID_OUT_BUFFER, BUFFER_SIZE), 24, 56);
    PutKeeps(s3, 0, HeadBytes(LIST_END), 24, IDENTIFY_STRUCT_BUF_SIZE);
    PutKeeps(h, 16, DescBytes(LIST_END - 16), 24, IDENTIFY_STRUCT_BUF_SIZE);
    assert IdentifyImage()[24..] == s3[24..];
  }

  /** `setup_identify`; the image does not depend on the buffer's earlier
      contents, so running it again changes nothing. */
  method SetupIdentify(img: array<u8>)
    requires img.Length == IDENTIFY_STRUCT_BUF_SIZE
    modifies img
    ensures img[..] == IdentifyImage()
  {
    Bytes.Fill(img, 0x55);
    var off := 16 + 8;
    Copy(img, off, CapBytes(ID_FW_EXCHANGE, 0));
    off := off + 16;
    Copy(img, off, CapBytes(ID_IN_BUFFER, BUFFER_SIZE));
    off := off + 16;
    Copy(img, off, CapBytes(ID_OUT_BUFFER, BUFFER_SIZE));
    off := off + 16;
    assert img[..] == CapsImage();
    Copy(img, 0, HeadBytes(off));
    Copy(img, 16, DescBytes(off - 16));
  }

  /** `(buf_len > 4096) ? 4096 : buf_len`. */
  function CopyLen(bufLen: nat): (n: nat)
    ensures n <= IDENTIFY_STRUCT_BUF_SIZE && n <= bufLen
    ensures n == bufLen || n == IDENTIFY_STRUCT_BUF_SIZE
    ensures bufLen <= IDENTIFY_STRUCT_BUF_SIZE ==> n == bufLen
  {
    if bufLen > IDENTIFY_STRUCT_BUF_SIZE then IDENTIFY_STRUCT_BUF_SIZE else bufLen
  }

  /** `adm_cmd_identify`: the leading bytes of the image, as many as the
      host's mapped buffer holds up to 4096, go into that buffer; the rest
      of the buffer and the image are left alone. */
  method AdmIdentify(img: array<u8>, buf: array<u8>)
    requires img.Length == IDENTIFY_STRUCT_BUF_SIZE && img != buf
    modifies buf
    ensures buf[..CopyLen(buf.Length)] == img[..CopyLen(buf.Length)]
    ensures buf[CopyLen(buf.Length)..] == old(buf[CopyLen(buf.Length)..])
  {
    var n := CopyLen(buf.Length);
    Copy(buf, 0, img[..n]);
  }
}
