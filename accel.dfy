/** An accelerator of apu-app/src/acc.c: a uBPF program and the ramdisk
    windows it reads its input from and writes its output to.  The
    program's thread is run to completion in one step; the outcome of
    creating the VM, of loading the program and of running it, and the
    contents of the input window, are inputs of that step. */
module Accel {
  import opened Bits
  import opened Bytes

  /** `enum class AccState`. */
  datatype AccState = Idle | Running | Done | Fail

  /** `static_cast<uint32_t>(state)`: the enumerators count from 0. */
  function Ordinal(s: AccState): (n: u32)
    ensures n < 4
    ensures s == Idle <==> n == 0
    ensures s == Running <==> n == 1
    ensures s == Done <==> n == 2
    ensures s == Fail <==> n == 3
  {
    match s
    case Idle => 0
    case Running => 1
    case Done => 2
    case Fail => 3
  }

  /** A write of the output buffer into physical memory at `base`. */
  datatype RamWrite = RamWrite(base: u32, bytes: seq<u8>)

  class Acc {
    const id: u32
    var state: AccState
    var ramdiskIn: bool
    var ramdiskInBase: u32
    var ramdiskInSize: u32
    var ramdiskOut: bool
    var ramdiskOutBase: u32
    var ramdiskOutSize: u32
    var firmware: seq<u8>
    var ibuf: seq<u8>
    var obuf: seq<u8>
    /** What `bufToRamdisk` has copied out so far. */
    var written: seq<RamWrite>

    /** The state `Acc::Acc(i)` leaves: idle, with neither ramdisk and
        every base and size 0, the vectors empty. */
    predicate Pristine(i: u32)
      reads this
    {
      && id == i && state == Idle
      && !ramdiskIn && ramdiskInBase == 0 && ramdiskInSize == 0
      && !ramdiskOut && ramdiskOutBase == 0 && ramdiskOutSize == 0
      && firmware == [] && ibuf == [] && obuf == [] && written == []
    }

    /** The input window's flag, base and size are those of the old state. */
    twostate predicate InputKept()
      reads this
    {
      ramdiskIn == old(ramdiskIn) && ramdiskInBase == old(ramdiskInBase) && ramdiskInSize == old(ramdiskInSize)
    }

    /** The output window's flag, base and size are those of the old state. */
    twostate predicate OutputKept()
      reads this
    {
      ramdiskOut == old(ramdiskOut) && ramdiskOutBase == old(ramdiskOutBase) && ramdiskOutSize == old(ramdiskOutSize)
    }

    /** The state, the program, the buffers and the write log are those of
        the old state. */
    twostate predicate RunKept()
      reads this
    {
      && state == old(state) && firmware == old(firmware)
      && ibuf == old(ibuf) && obuf == old(obuf) && written == old(written)
    }

    /** `Acc::Acc`. */
    constructor (id: u32)
      ensures Pristine(id)
    {
      this.id := id;
      state := Idle;
      ramdiskIn := false;
      ramdiskInBase, ramdiskInSize := 0, 0;
      ramdiskOut := false;
      ramdiskOutBase, ramdiskOutSize := 0, 0;
      firmware, ibuf, obuf, written := [], [], [], [];
    }

    /** `addRamdiskIn`. */
    method AddRamdiskIn(base: u32, size: u32)
      modifies this`ramdiskIn, this`ramdiskInBase, this`ramdiskInSize
      ensures ramdiskIn && ramdiskInBase == base && ramdiskInSize == size
      ensures OutputKept() && RunKept()
    {
      ramdiskIn := true;
      ramdiskInBase := base;
      ramdiskInSize := size;
    }

    /** `addRamdiskOut`. */
    method AddRamdiskOut(base: u32, size: u32)
      modifies this`ramdiskOut, this`ramdiskOutBase, this`ramdiskOutSize
      ensures ramdiskOut && ramdiskOutBase == base && ramdiskOutSize == size
      ensures InputKept() && RunKept()
    {
      ramdiskOut := true;
      ramdiskOutBase := base;
      ramdiskOutSize := size;
    }

    /** `addFirmware`: a copy of the image replaces the program. */
    method AddFirmware(image: seq<u8>)
      modifies this`firmware
      ensures firmware == image
      ensures InputKept() && OutputKept()
      ensures state == old(state) && ibuf == old(ibuf) && obuf == old(obuf) && written == old(written)
    {
      firmware := image;
    }

    /** `stop` has an empty body. */
    method Stop()
      ensures unchanged(this)
    {
    }

    /** The length `obuf` has when the program runs: the output window's
        size if there is one, else what it had. */
    function OutLen(): (n: nat)
      reads this
      ensures ramdiskOut ==> n == ramdiskOutSize
      ensures !ramdiskOut ==> n == |obuf|
    {
      if ramdiskOut then ramdiskOutSize else |obuf|
    }

    /** What `start` needs of the environment: an input window of the
        declared size and a program result of the output buffer's length. */
    predicate StartReady(inWindow: seq<u8>, result: seq<u8>)
      reads this
    {
      (ramdiskIn ==> |inWindow| == ramdiskInSize) && |result| == OutLen()
    }

    /** The effect of a run: running, then failed if the VM could not be
        created or the program not loaded, with no ramdisk copies; else
        done, the input window copied into `ibuf` when there is one, the
        program's result in `obuf` and, when there is an output window,
        written back to it.  The windows and the program are kept. */
    twostate predicate Ran(vmOk: bool, loadOk: bool, inWindow: seq<u8>, result: seq<u8>)
      reads this
    {
      && state == (if vmOk && loadOk then Done else Fail)
      && InputKept() && OutputKept() && firmware == old(firmware)
      && (!(vmOk && loadOk) ==> ibuf == old(ibuf) && obuf == old(obuf) && written == old(written))
      && (vmOk && loadOk ==>
           && ibuf == (if ramdiskIn then inWindow else old(ibuf))
           && obuf == result
           && written == old(written) + (if ramdiskOut then [RamWrite(ramdiskOutBase, result)] else []))
    }

    /** `start` and the `runBPF` thread it spawns.  `vmOk` and `loadOk` are
        the outcomes of `ubpf_create` and `ubpf_load_elf`, `inWindow` the
        bytes of the input window and `result` what the program leaves in
        the output buffer.  A run never ends idle. */
    method Start(vmOk: bool, loadOk: bool, inWindow: seq<u8>, result: seq<u8>)
      requires StartReady(inWindow, result)
      modifies this`state, this`ibuf, this`obuf, this`written
      ensures Ran(vmOk, loadOk, inWindow, result) && state != Idle
    {
      state := Running;
      if !vmOk {
        state := Fail;
        return;
      }
      if !loadOk {
        state := Fail;
        return;
      }
      if ramdiskIn {
        ibuf := inWindow;
      }
      if ramdiskOut {
        obuf := Resized(obuf, ramdiskOutSize);
      }
      obuf := result;
      if ramdiskOut {
        written := written + [RamWrite(ramdiskOutBase, obuf)];
      }
      state := Done;
    }
  }
}
