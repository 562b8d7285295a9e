/** `io_cmd_send_fw` of apu-app/src/cmds/fw.cpp: a firmware image that
    the host sends in one buffer is stored in `fw_map` under an id. */
module Fw {
  import opened Bits
  import opened ApuState
  import CmdLayout

  /** `cdw10 * 4` in 32 bits: the image length the command announces. */
  function AnnouncedLen(cmd: seq<u32>): (n: u32)
    requires |cmd| == CmdLayout.SQ_ENTRY_DWORDS
    ensures cmd[10] < 0x4000_0000 ==> n == 4 * cmd[10]
  {
    Wrap32(cmd[10] as int * 4)
  }

  /** `cdw13`: the id the image is stored under. */
  function ImageId(cmd: seq<u32>): (id: u32)
    requires |cmd| == CmdLayout.SQ_ENTRY_DWORDS
  {
    cmd[13]
  }

  /** `fw_map[id] = fw`: the map with `image` under `id`. */
  function Stored(m: map<u32, seq<u8>>, id: u32, image: seq<u8>): (r: map<u32, seq<u8>>)
    ensures r.Keys == m.Keys + {id} && r[id] == image
    ensures forall k :: k in m && k != id ==> k in r && r[k] == m[k]
  {
    m[id := image]
  }

  /** Storing again what was just stored changes nothing, and a later
      image under the same id replaces an earlier one. */
  lemma StoredIdempotent(m: map<u32, seq<u8>>, id: u32, image: seq<u8>, later: seq<u8>)
    ensures Stored(Stored(m, id, image), id, image) == Stored(m, id, image)
    ensures Stored(Stored(m, id, image), id, later) == Stored(m, id, later)
  {
  }

  /** Images stored under different ids do not disturb each other. */
  lemma StoredCommute(m: map<u32, seq<u8>>, id1: u32, image1: seq<u8>, id2: u32, image2: seq<u8>)
    requires id1 != id2
    ensures Stored(Stored(m, id1, image1), id2, image2) == Stored(Stored(m, id2, image2), id1, image1)
  {
  }

  /** `io_cmd_send_fw` on the `bufLen` bytes `host` of the mapped buffer.
      The assertion that the announced length is the buffer's length ends
      the process when it fails (`aborted`) and the map is not touched;
      otherwise the whole buffer is stored under the command's id. */
  method SendFw(apu: Apu, cmd: seq<u32>, bufLen: u32, host: seq<u8>) returns (aborted: bool)
    requires |cmd| == CmdLayout.SQ_ENTRY_DWORDS && |host| == bufLen
    modifies apu`fwMap
    ensures aborted <==> AnnouncedLen(cmd) != bufLen
    ensures aborted ==> apu.fwMap == old(apu.fwMap)
    ensures !aborted ==> apu.fwMap == Stored(old(apu.fwMap), ImageId(cmd), host)
  {
    var len := AnnouncedLen(cmd);
    var id := ImageId(cmd);
    if len != bufLen {
      return true;
    }
    var fw := host[..bufLen];
    assert fw == host;
    apu.fwMap := apu.fwMap[id := fw];
    return false;
  }
}
