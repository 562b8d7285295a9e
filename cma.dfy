/** The CMA buffer registry of apu-app/src/vta/pynqlib.cpp: `cma_alloc`
    records each buffer the xlnk driver hands out, `cma_get_phy_addr`
    looks a buffer's physical address up by its virtual one and
    `cma_free` releases the first record of a buffer.  The outcomes of the
    driver's ioctl and of `mmap` are inputs; pointers are addresses. */
module Cma {
  import opened Bits

  /** `int32_t`. */
  type i32 = x: int | -0x8000_0000 <= x < 0x8000_0000

  /** `cma_mem_t`: physical and virtual address, length and driver id. */
  datatype CmaMem = CmaMem(phys: u64, virt: u64, len: u32, id: i32)

  /** The file offset `cma_mmap` passes: `(id << 4) * 4096` in 32-bit
      signed arithmetic, widened to `off_t`. */
  function MmapOffset(id: i32): (off: int)
    ensures 0 <= id < 0x8000 ==> off == (id * 16) * 4096
  {
    ToInt32(Wrap32(id * 0x1_0000))
  }

  /** From id 0x8000 on the product no longer fits in an `int`: the offset
      wraps to a negative value. */
  lemma MmapOffsetWraps()
    ensures MmapOffset(0x7FFF) == 0x7FFF_0000 && MmapOffset(0x8000) == -0x8000_0000
  {
  }

  /** The physical address of the first record whose virtual address is
      `virt`, or 0 when there is none. */
  function FirstPhys(maps: seq<CmaMem>, virt: u64): (p: u64)
    ensures (forall i :: 0 <= i < |maps| ==> maps[i].virt != virt) ==> p == 0
    ensures forall i :: 0 <= i < |maps| && maps[i].virt == virt && (forall j :: 0 <= j < i ==> maps[j].virt != virt) ==>
      p == maps[i].phys
  {
    if maps == [] then 0
    else if maps[0].virt == virt then maps[0].phys
    else
      var p := FirstPhys(maps[1..], virt);
      assert forall i :: 1 <= i < |maps| ==> maps[1..][i - 1] == maps[i];
      p
  }

  /** The position of the first record of `virt`, `|maps|` when none. */
  function IndexOf(maps: seq<CmaMem>, virt: u64): (k: nat)
    ensures k <= |maps|
    ensures forall j :: 0 <= j < k ==> maps[j].virt != virt
    ensures k < |maps| ==> maps[k].virt == virt
  {
    if maps == [] then 0
    else if maps[0].virt == virt then 0
    else
      var k := IndexOf(maps[1..], virt);
      assert forall j :: 1 <= j <= k ==> maps[1..][j - 1] == maps[j];
      1 + k
  }

  /** The registry without its first record of `virt`, the others kept in
      order; unchanged when there is none. */
  function RemoveFirst(maps: seq<CmaMem>, virt: u64): (r: seq<CmaMem>)
    ensures IndexOf(maps, virt) == |maps| ==> r == maps
    ensures IndexOf(maps, virt) < |maps| ==>
      |r| == |maps| - 1 && r == maps[..IndexOf(maps, virt)] + maps[IndexOf(maps, virt) + 1..]
  {
    var k := IndexOf(maps, virt);
    if k == |maps| then maps else maps[..k] + maps[k + 1..]
  }

  /** How many records have `virt`. */
  function Count(maps: seq<CmaMem>, virt: u64): (n: nat)
    ensures n <= |maps|
  {
    if maps == [] then 0 else (if maps[0].virt == virt then 1 else 0) + Count(maps[1..], virt)
  }

  lemma CountSplit(a: seq<CmaMem>, b: seq<CmaMem>, virt: u64)
    ensures Count(a + b, virt) == Count(a, virt) + Count(b, virt)
  {
    if a == [] {
      assert a + b == b;
    } else {
      assert (a + b)[1..] == a[1..] + b;
      CountSplit(a[1..], b, virt);
    }
  }

  /** No record has `virt` iff none is counted. */
  lemma CountZero(maps: seq<CmaMem>, virt: u64)
    ensures Count(maps, virt) == 0 <==> forall i :: 0 <= i < |maps| ==> maps[i].virt != virt
  {
    if maps != [] {
      CountZero(maps[1..], virt);
      assert forall i :: 1 <= i < |maps| ==> maps[1..][i - 1] == maps[i];
    }
  }

  /** Freeing a buffer that was registered once leaves no record of it,
      so its physical address reads back as 0. */
  lemma FreedIsForgotten(maps: seq<CmaMem>, virt: u64)
    requires Count(maps, virt) == 1
    ensures Count(RemoveFirst(maps, virt), virt) == 0
    ensures FirstPhys(RemoveFirst(maps, virt), virt) == 0
  {
    var k := IndexOf(maps, virt);
    if k == |maps| {
      CountZero(maps, virt);
      assert false;
    }
    assert maps == maps[..k] + [maps[k]] + maps[k + 1..];
    CountSplit(maps[..k] + [maps[k]], maps[k + 1..], virt);
    CountSplit(maps[..k], [maps[k]], virt);
    assert Count([maps[k]], virt) == 1 by {
      assert [maps[k]][1..] == [];
    }
    CountZero(maps[..k], virt);
    CountSplit(maps[..k], maps[k + 1..], virt);
    CountZero(RemoveFirst(maps, virt), virt);
  }

  /** A new buffer at a virtual address no record has is found at once. */
  lemma AllocatedIsFound(maps: seq<CmaMem>, m: CmaMem)
    requires forall i :: 0 <= i < |maps| ==> maps[i].virt != m.virt
    ensures FirstPhys(maps + [m], m.virt) == m.phys
    ensures IndexOf(maps + [m], m.virt) == |maps|
  {
    var s := maps + [m];
    assert s[|maps|] == m;
    assert forall j :: 0 <= j < |maps| ==> s[j] == maps[j];
  }

  class Registry {
    /** `maps`. */
    var maps: seq<CmaMem>
    /** The records released so far, each unmapped and freed in the driver. */
    var released: seq<CmaMem>
    /** The offsets `cma_mmap` asked `mmap` for. */
    var offsets: seq<int>

    constructor ()
      ensures maps == [] && released == [] && offsets == []
    {
      maps, released, offsets := [], [], [];
    }

    /** `cma_alloc(len, cacheable)`: when the allocation ioctl fails,
        NULL and nothing recorded; otherwise the driver's `phys` and `id`
        and the address `virt` that `mmap` returns for the id's offset are
        recorded, and `virt` is returned. */
    method Alloc(len: u32, cacheable: u32, ioctlOk: bool, phys: u64, id: i32, virt: u64) returns (r: u64)
      modifies this`maps, this`offsets
      ensures !ioctlOk ==> r == 0 && maps == old(maps) && offsets == old(offsets)
      ensures ioctlOk ==> r == virt && maps == old(maps) + [CmaMem(phys, virt, len, id)]
      ensures ioctlOk ==> offsets == old(offsets) + [MmapOffset(id)]
    {
      if !ioctlOk {
        return 0;
      }
      var mem := CmaMem(phys, virt, len, id);
      offsets := offsets + [MmapOffset(mem.id)];
      maps := maps + [mem];
      return mem.virt;
    }

    /** `cma_get_phy_addr`: the first record's physical address, 0 when
        the buffer is unknown. */
    method GetPhyAddr(buf: u64) returns (p: u64)
      ensures p == FirstPhys(maps, buf)
    {
      var i := 0;
      while i < |maps|
        invariant 0 <= i <= |maps|
        invariant forall j :: 0 <= j < i ==> maps[j].virt != buf
      {
        if maps[i].virt == buf {
          return maps[i].phys;
        }
        i := i + 1;
      }
      return 0;
    }

    /** `cma_free`: the first record of `buf` is released and erased, the
        others keep their order; an unknown buffer changes nothing. */
    method Free(buf: u64)
      modifies this`maps, this`released
      ensures maps == RemoveFirst(old(maps), buf)
      ensures released == old(released) +
        (if IndexOf(old(maps), buf) < |old(maps)| then [old(maps)[IndexOf(old(maps), buf)]] else [])
    {
      var it := 0;
      while it < |maps|
        invariant 0 <= it <= |maps| && maps == old(maps) && released == old(released)
        invariant forall j :: 0 <= j < it ==> maps[j].virt != buf
      {
        if maps[it].virt == buf {
          released := released + [maps[it]];
          maps := maps[..it] + maps[it + 1..];
          return;
        }
        it := it + 1;
      }
    }
  }
}
