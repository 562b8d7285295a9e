/** Firmware download and commit, apu-app/src/cmds/qspi.cpp: the host
    sends the new firmware in windows of whole dwords, each one copied
    into `fw_buffer` at its offset, the buffer growing to hold it; a
    commit hands a copy of the buffer to the thread that flashes it. */
module Qspi {
  import opened Bits
  import opened Bytes
  import opened ApuState
  import CmdLayout

  /** `cdw10` and `cdw11`: the window's length and offset in dwords, both
      used as they are, not 0's based. */
  function Ndw(cmd: seq<u32>): (n: u32)
    requires |cmd| == CmdLayout.SQ_ENTRY_DWORDS
  {
    cmd[10]
  }

  function Off(cmd: seq<u32>): (n: u32)
    requires |cmd| == CmdLayout.SQ_ENTRY_DWORDS
  {
    cmd[11]
  }

  /** The buffer after the `resize` of `adm_cmd_fw_download`: grown with
      zeros to the end of the window, computed in 32 bits, when that end
      lies past it. */
  function Grown(fb: seq<u8>, off: u32, ndw: u32): (g: seq<u8>)
    ensures |g| == Maximum(|fb|, Wrap32((off as int + ndw) * 4))
    ensures g[..|fb|] == fb && forall i :: |fb| <= i < |g| ==> g[i] == 0
  {
    var end := Wrap32((off as int + ndw) * 4);
    if |fb| < end then Resized(fb, end) else fb
  }

  /** `adm_cmd_fw_download` as written: the end of the window, its offset
      and its length are 32-bit products, so a window past 4 GiB wraps
      around; `None` when the copy would then write past the end of the
      buffer. */
  function DownloadAsWritten(fb: seq<u8>, off: u32, ndw: u32, host: seq<u8>): (r: Option<seq<u8>>)
    requires Wrap32(ndw * 4) <= |host|
    ensures r.Some? <==> Wrap32(off * 4) + Wrap32(ndw * 4) <= Maximum(|fb|, Wrap32((off as int + ndw) * 4))
  {
    var grown := Grown(fb, off, ndw);
    var at := Wrap32(off * 4);
    var n := Wrap32(ndw * 4);
    if at + n <= |grown| then Some(Put(grown, at, host[..n])) else None
  }

  /** The buffer `adm_cmd_fw_download` leaves: the downloaded one, or,
      when the copy would run past the end, the resized buffer without the
      stray write (which is undefined behaviour in C++). */
  function AfterDownload(fb: seq<u8>, off: u32, ndw: u32, host: seq<u8>): (r: seq<u8>)
    requires Wrap32(ndw * 4) <= |host|
    ensures DownloadAsWritten(fb, off, ndw, host).Some? ==> Some(r) == DownloadAsWritten(fb, off, ndw, host)
    ensures DownloadAsWritten(fb, off, ndw, host).None? ==> r == Grown(fb, off, ndw)
  {
    match DownloadAsWritten(fb, off, ndw, host)
    case Some(b) => b
    case None => Grown(fb, off, ndw)
  }

  /** A download the code completes keeps the buffer's old bytes outside
      the window, zero-fills what it grew by outside the window, and puts
      the incoming bytes in the window, all at 32-bit offsets. */
  lemma AsWrittenContents(fb: seq<u8>, off: u32, ndw: u32, host: seq<u8>)
    requires Wrap32(ndw * 4) <= |host| && DownloadAsWritten(fb, off, ndw, host).Some?
    ensures var r := DownloadAsWritten(fb, off, ndw, host).value;
      var at := Wrap32(off * 4);
      var n := Wrap32(ndw * 4);
      && |r| == Maximum(|fb|, Wrap32((off as int + ndw) * 4))
      && r[at..at + n] == host[..n]
      && (forall i :: 0 <= i < |fb| && !(at <= i < at + n) ==> r[i] == fb[i])
      && (forall i :: |fb| <= i < |r| && !(at <= i < at + n) ==> r[i] == 0)
  {
    var g := Grown(fb, off, ndw);
    forall i | 0 <= i < |fb|
      ensures g[i] == fb[i]
    {
      assert g[..|fb|][i] == g[i];
    }
  }

  function Maximum(a: nat, b: nat): (m: nat)
    ensures m >= a && m >= b && (m == a || m == b)
  {
    if a < b then b else a
  }

  /** The download evidently intended: the window `[4 OFF, 4 OFF + 4 NDW)`
      computed without wrapping. */
  function Downloaded(fb: seq<u8>, off: nat, ndw: nat, host: seq<u8>): (r: seq<u8>)
    requires 4 * ndw <= |host|
    ensures |r| == Maximum(|fb|, 4 * (off + ndw))
  {
    var end := 4 * (off + ndw);
    var grown := if |fb| < end then Resized(fb, end) else fb;
    Put(grown, 4 * off, host[..4 * ndw])
  }

  /** The buffer never shrinks; the window holds the incoming bytes, bytes
      before the old end and outside the window keep their values, and
      bytes the buffer newly grew by outside the window are zero. */
  lemma DownloadedContents(fb: seq<u8>, off: nat, ndw: nat, host: seq<u8>)
    requires 4 * ndw <= |host|
    ensures var r := Downloaded(fb, off, ndw, host);
      && |r| >= |fb|
      && r[4 * off..4 * off + 4 * ndw] == host[..4 * ndw]
      && (forall i :: 0 <= i < |fb| && !(4 * off <= i < 4 * off + 4 * ndw) ==> r[i] == fb[i])
      && (forall i :: |fb| <= i < |r| && !(4 * off <= i < 4 * off + 4 * ndw) ==> r[i] == 0)
  {
  }

  /** Byte `i` of a downloaded buffer. */
  lemma DownloadedAt(fb: seq<u8>, off: nat, ndw: nat, host: seq<u8>, i: nat)
    requires 4 * ndw <= |host| && i < |Downloaded(fb, off, ndw, host)|
    ensures Downloaded(fb, off, ndw, host)[i] ==
      if 4 * off <= i < 4 * off + 4 * ndw then host[i - 4 * off]
      else if i < |fb| then fb[i] else 0
  {
    DownloadedContents(fb, off, ndw, host);
    if 4 * off <= i < 4 * off + 4 * ndw {
      assert Downloaded(fb, off, ndw, host)[4 * off..4 * off + 4 * ndw][i - 4 * off] == host[i - 4 * off];
    }
  }

  /** Two downloads to disjoint windows give the same buffer in either
      order. */
  lemma DisjointDownloadsCommute(fb: seq<u8>, off1: nat, ndw1: nat, h1: seq<u8>, off2: nat, ndw2: nat, h2: seq<u8>)
    requires 4 * ndw1 <= |h1| && 4 * ndw2 <= |h2|
    requires off1 + ndw1 <= off2 || off2 + ndw2 <= off1
    ensures Downloaded(Downloaded(fb, off1, ndw1, h1), off2, ndw2, h2)
         == Downloaded(Downloaded(fb, off2, ndw2, h2), off1, ndw1, h1)
  {
    var m1 := Downloaded(fb, off1, ndw1, h1);
    var m2 := Downloaded(fb, off2, ndw2, h2);
    var a := Downloaded(m1, off2, ndw2, h2);
    var b := Downloaded(m2, off1, ndw1, h1);
    assert |a| == |b|;
    forall i | 0 <= i < |a|
      ensures a[i] == b[i]
    {
      DownloadedAt(m1, off2, ndw2, h2, i);
      DownloadedAt(m2, off1, ndw1, h1, i);
      if i < |m1| {
        DownloadedAt(fb, off1, ndw1, h1, i);
      }
      if i < |m2| {
        DownloadedAt(fb, off2, ndw2, h2, i);
      }
    }
  }

  /** While the window ends below 4 GiB the code computes exactly the
      intended buffer. */
  lemma AsWrittenAgrees(fb: seq<u8>, off: u32, ndw: u32, host: seq<u8>)
    requires (off as int + ndw) * 4 < U32_LIMIT && 4 * ndw <= |host|
    ensures DownloadAsWritten(fb, off, ndw, host) == Some(Downloaded(fb, off, ndw, host))
  {
  }

  /** A window of two dwords at dword offset 0x3FFF_FFFF: its end wraps
      to byte 4, so the buffer grows to four bytes only, and the copy goes
      to byte 0xFFFF_FFFC of it. */
  lemma DownloadOverrun(host: seq<u8>)
    requires |host| == 8
    ensures Wrap32((0x3FFF_FFFF + 2) * 4) == 4 && Wrap32(0x3FFF_FFFF * 4) == 0xFFFF_FFFC
    ensures DownloadAsWritten([], 0x3FFF_FFFF, 2, host) == None
    ensures |Downloaded([], 0x3FFF_FFFF, 2, host)| == 0x1_0000_0004
  {
  }

  /** `adm_cmd_fw_download` on the bytes of the host buffer, with the
      code's 32-bit arithmetic: the buffer grows to the wrapped end of the
      window, then takes the window at the wrapped offset. */
  method FwDownload(apu: Apu, cmd: seq<u32>, host: seq<u8>)
    requires |cmd| == CmdLayout.SQ_ENTRY_DWORDS && Wrap32(Ndw(cmd) * 4) <= |host|
    modifies apu`fwBuffer
    ensures apu.fwBuffer == AfterDownload(old(apu.fwBuffer), Off(cmd), Ndw(cmd), host)
  {
    var ndw := Ndw(cmd);
    var off := Off(cmd);
    ghost var fb := apu.fwBuffer;
    var end := Wrap32((off as int + ndw) * 4);
    if |apu.fwBuffer| < end {
      apu.fwBuffer := Resized(apu.fwBuffer, end);
    }
    assert apu.fwBuffer == Grown(fb, off, ndw);
    var at := Wrap32(off as int * 4);
    var n := Wrap32(ndw as int * 4);
    if at + n <= |apu.fwBuffer| {
      apu.fwBuffer := Put(apu.fwBuffer, at, host[..n]);
    }
  }

  /** `adm_cmd_fw_commit`: after the previous flash has finished, a copy of
      the buffer as it is now goes to the flashing thread; later downloads
      do not change it. */
  method FwCommit(apu: Apu)
    modifies apu`flashed
    ensures apu.flashed == old(apu.flashed) + [apu.fwBuffer]
  {
    apu.flashed := apu.flashed + [apu.fwBuffer];
  }
}
