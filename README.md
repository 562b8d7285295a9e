# A Dafny model of the alkali-csd-fw computational-storage firmware

alkali-csd-fw is the firmware of an NVMe computational-storage device built on a
Zynq UltraScale+ MPSoC. The device has two sides:

- The **RPU** (the real-time cores, `rpu-app`) is the NVMe target
  controller. It reacts to the host's writes to the controller registers and
  doorbells. It fetches admin and I/O submission entries through a DMA engine.
  It answers the NVMe commands it handles itself and posts completions. It
  forwards I/O and vendor commands over rpmsg to the APU.
- The **APU** (the application cores, `apu-app`) receives those commands. It
  handles the vendor admin commands: identify, status, firmware download and
  commit to QSPI, and accelerator control. It handles the I/O side: LBA
  windows into the ramdisk, firmware images and accelerator runs. It keeps
  accelerators, a CMA buffer registry (from pynqlib) and a TensorFlow Lite
  delegate for the VTA accelerator.

Two Python scripts prepare the models the accelerator runs. One makes the ONNX
test fixtures. The other converts ONNX models to quantised TensorFlow Lite.

The model keeps one Dafny module per source file, or per tight group of
source files:

- **RPU side.**
  - `TcMacros`, `NvmeMacros`: the register and doorbell macros.
  - `CmdLayout`: the submission and completion entry layouts.
  - `Dma`: the DMA engine.
  - `TcStatus`: the CC, CSTS and AQA register logic.
  - `Tc`: the target controller.
  - `RpuCmd`: the completion path.
  - `Vendor`: vendor command forwarding.
  - `Queues`: I/O queue creation and deletion.
  - `GetLog`: Get Log Page.
  - `Ramdisk`: the ramdisk.
  - `IoCmds`: the I/O commands.
  - `CmdHandler`: admin dispatch.
- **APU side.**
  - `ApuIdentify`: identify.
  - `ApuNvme`: the rpmsg message layout.
  - `ApuStatus`: status.
  - `Qspi`: firmware download and commit.
  - `Accel`: the accelerators.
  - `ApuState`: the APU's state.
  - `Fw`: firmware images.
  - `Lba`: the LBA windows.
  - `AdmAccCtl`, `IoAccCtl`: admin and I/O accelerator control.
  - `ApuCmd`: the command threads.
  - `Cma`: the CMA registry.
  - `VtaOps`, `VtaDelegate`: the VTA delegate.
  - `TensorLayout`: the layout contract of the GEMM tests.
- **Scripts.** `SimpleModels` models `simple-models.py` and `ConvertTflite`
  models `convert-to-tflite.py`.
- **Older revisions.** The repository also keeps older revisions: `main.c`,
  `create_queues.c`, `cmd.c` and `io_acc_ctl.c`. These are modelled as
  written, in `LegacyTc`, `LegacyStatus`, `LegacyCmds`, `LegacyApuCmd` and
  `LegacyIoAccCtl`, next to the current code.

State that the source updates in place is a `class`, with `modifies` clauses
on its methods. This covers:

- the controller;
- the DMA engine;
- the ramdisk;
- the accelerators;
- the APU state;
- the CMA registry;
- the delegate kernel.

Everything that only computes is a function. The rest of the firmware is
left as inputs: hardware register reads, the rpmsg transport, the host's
memory and the interpreter. An operation and its specification sit side by
side. A method's `ensures` ties its new state to a specification function.
Lemmas then prove what that function promises: round trips, injectivity,
bounds, frames, and the error cases.

Where a source file is wrong in a way its authors evidently did not intend,
two things are modelled. The operations do what the code does: the
controllers, the I/O commands and the firmware download run the
definitions as written, and a lemma exhibits an input that shows the
fault. The corrected definition sits beside it, with the intended property
proved and a lemma saying where the two agree. Both are listed under
"## Findings".

Helpers on bit vectors, byte encodings and integer widths live in `Bits`
and `Bytes`:

- Pow2;
- 32- and 64-bit wrap-around;
- two's complement;
- little-endian bytes.

The source's integer widths are modelled explicitly where they matter:
32-bit doorbells and offsets, 16-bit command identifiers, 32-bit pointers
into the ramdisk.

## Model

| member | source | states |
|---|---|---|
| TcMacros.DoorbellAddresses | rpu-app/src/tc.h:7-23 | doorbell n sits at 0x1000 + 4n; the admin tail and head are 0x1000 and 0x1004; the interrupt status and data registers are 0x1028 and 0x102C |
| TcMacros.IoDoorbellsAsWritten | rpu-app/src/tc.h:13-20 | as the macros expand (`n+1*2` without parentheses), the I/O tail of queue n is doorbell n+2 and the head doorbell n+3; this agrees with queue pair n+1 only for n = 0 |
| TcMacros.IoDoorbellCollision | rpu-app/src/tc.h:13-20 | as written, the tail doorbell of I/O queue 1 is the head doorbell of I/O queue 0 |
| TcMacros.IoDoorbellsDistinct | rpu-app/src/tc.h:13-20 | with the intended expansion, tails and heads never coincide, each queue has its own pair and no I/O doorbell is an admin doorbell |
| TcMacros.SetFieldNeverClears | rpu-app/src/tc.h:27 | `SET_FIELD` ORs the masked value in, so a bit that was already set stays set |
| TcMacros.GetSetCc | rpu-app/src/tc.h:25-27 | for every CC field, setting a value in a zero register and reading it back gives the value cut to the field's mask |
| TcMacros.GetSetCsts | rpu-app/src/tc.h:25-27 | the same for the CSTS fields RDY and SHST |
| TcMacros.GetSetAqa | rpu-app/src/tc.h:25-27 | the same for the AQA fields ASQS and ACQS |
| TcMacros.ClrFieldClears | rpu-app/src/tc.h:29 | the intended clear leaves the field reading 0 |
| TcMacros.ClrFieldKeepsOthers | rpu-app/src/tc.h:29 | the intended clear leaves every bit outside the field unchanged |
| TcMacros.ClrFieldIsIdentity | rpu-app/src/tc.h:29 | `CLR_FIELD` as written (`SET_FIELD` with 0) leaves every register value unchanged |
| TcMacros.ClrFieldKeepsShutdown | rpu-app/src/tc.h:29-32 | counterexample: clearing SHST as written in a CSTS reporting shutdown complete leaves it reporting shutdown complete, where the intended clear gives 0 |
| NvmeMacros.SameAddressesAsTcHeader | rpu-app/src/nvme.h:7-23 | the older header names the same doorbell and interrupt addresses as tc.h |
| NvmeMacros.SameFieldsAsTcHeader | rpu-app/src/nvme.h:25-29 | the prefixed field macros compute the same register values as those of tc.h |
| NvmeMacros.NvmeClrFieldIsIdentity | rpu-app/src/nvme.h:29 | the older `NVME_CLR_FIELD` is also the identity |
| CmdLayout.AdminOpcodesDistinct | rpu-app/src/cmd.h:58-63 | the six admin opcodes the header defines are pairwise different |
| CmdLayout.DecodeCdw0 | rpu-app/src/cmd.h:12-18 | every 32-bit dword 0 reads as fields within their widths (8, 2, 4, 2 and 16 bits) |
| CmdLayout.Cdw0Positions | rpu-app/src/cmd.h:12-18 | the opcode sits in bits 7:0, FUSE in 9:8, the reserved bits in 13:10, PSDT in 15:14 and the command id in 31:16 |
| CmdLayout.Cdw0RoundTrip | rpu-app/src/cmd.h:12-18 | decoding the packed dword 0 of any in-range fields gives those fields back |
| CmdLayout.Cdw0Complete | rpu-app/src/cmd.h:12-18 | every 32-bit value is the packing of exactly the fields it decodes to |
| CmdLayout.CqPositions | rpu-app/src/cmd.h:44-56 | the SQ head and SQ id share dword 2; the command id, phase bit, status code and status code type are packed in dword 3 from bit 0 up |
| CmdLayout.EncodeCq | rpu-app/src/cmd.h:44-56 | a completion entry occupies four dwords, the command-specific dword first and the reserved dword second |
| CmdLayout.DecodeCq | rpu-app/src/cmd.h:44-56 | any four dwords read as fields within their bit widths |
| CmdLayout.CqRoundTrip | rpu-app/src/cmd.h:44-56 | decoding an encoded completion entry gives back every field |
| CmdLayout.CqComplete | rpu-app/src/cmd.h:44-56 | every four dwords are the encoding of the entry they decode to |
| CmdLayout.EncodeSq | rpu-app/src/cmd.h:36-42 | a submission entry occupies 16 dwords |
| CmdLayout.DecodeSq | rpu-app/src/cmd.h:36-42 | any 16 dwords read as fields within their widths |
| CmdLayout.SqOffsets | rpu-app/src/cmd.h:36-42 | MPTR is the little-endian pair of dwords at byte 16, PRP1 that at byte 24, and the command dwords 10-15 start at byte 40 |
| CmdLayout.SqRoundTrip | rpu-app/src/cmd.h:36-42 | decoding an encoded submission entry gives it back |
| CmdLayout.SqComplete | rpu-app/src/cmd.h:36-42 | every 16 dwords are the encoding of the entry they decode to |
| CmdLayout.AccessorsAgree | rpu-app/src/cmd.h:12-42 | reading the opcode, command id, PRP1 and CDW10 straight from the dwords agrees with the decoded entry |
| Dma.StatusValidIsBit31 | rpu-app/src/dma.h:16 | a channel status reports a finished transfer exactly when its bit 31 is set |
| Dma.FillDesc | rpu-app/src/dma.c:146-165 | a descriptor is made exactly when the pool has a free entry, and then it holds the given host and local addresses, length, tag and callback |
| Dma.SetupXfer | rpu-app/src/dma.c:41-60 | programming a channel is six register writes, and the tag write that starts the transfer comes last |
| Dma.ApplyWritesElsewhere | rpu-app/src/dma.c:41-60 | a register that no write targets keeps its value |
| Dma.ApplyWritesLast | rpu-app/src/dma.c:41-60 | a register ends with the value of the last write to it |
| Dma.SetupXferLoads | rpu-app/src/dma.c:49-59 | after programming, the channel's registers hold the descriptor's transfer; the two PCIe address words join into the 64-bit host address and the upper AXI word is 0 |
| Dma.SetupXferKeepsOther | rpu-app/src/dma.c:41-60 | programming one channel leaves the transfer loaded in the other channel as it was |
| Dma.Completed | rpu-app/src/dma.c:71-78 | a completion runs the callback of the FIFO head, with its local address, when the head has one; an empty FIFO or a head without callback runs nothing |
| Dma.Engine.Init | rpu-app/src/dma.c:123-144 | both FIFOs are empty, both channels idle, all 256 descriptors free, and the only register write enables the engine |
| Dma.Engine.HostToMem | rpu-app/src/dma.c:167-185 | with the pool exhausted the call returns -ENOMEM and nothing changes; otherwise the transfer, tagged 0xAA, joins the end of the read FIFO, one descriptor is taken, and the channel is programmed only if it was idle, those six writes being the whole register effect |
| Dma.Engine.MemToHost | rpu-app/src/dma.c:187-205 | the same on the write channel, tagged 0x55, with source and destination swapped into the descriptor's local and host fields |
| Dma.StartWritesChain | rpu-app/src/dma.c:167-205 | queueing transfers in two steps logs and applies the same register writes as queueing them in one: only the first transfer into an idle channel programs it |
| Dma.Engine.CompleteRx | rpu-app/src/dma.c:70-90 | the read FIFO loses its head and that descriptor returns to the pool; the next transfer is programmed, or the channel goes idle when none is left; the write channel is untouched |
| Dma.Engine.CompleteTx | rpu-app/src/dma.c:92-112 | the same for the write channel, leaving the read channel untouched |
| Dma.Engine.Irq | rpu-app/src/dma.c:62-113 | each channel whose status has bit 31 set retires its head and is programmed with its next transfer (register writes logged and applied, read channel first) or goes idle; a channel without that bit keeps its FIFO and running flag; the callbacks come in the order read channel, then write channel; freed descriptors return to the pool |
| Dma.PoolBound | rpu-app/src/dma.h:23 | with the two FIFOs and the free count accounting for the 256 entries, no descriptor can be allocated exactly when the FIFOs hold all 256 |
| Dma.Drain | rpu-app/src/dma.c:62-113 | after k completions the FIFO holds exactly the later submissions |
| Dma.DrainInOrder | rpu-app/src/dma.c:62-113 | the callbacks fired by k completions are those of the first k submissions, in submission order |
| TcStatus.CcIocqes | rpu-app/src/tc.c:42 | the I/O completion entry size exponent read from CC is below 16 |
| TcStatus.CcIosqes | rpu-app/src/tc.c:43 | the I/O submission entry size exponent read from CC is below 16 |
| TcStatus.CcMps | rpu-app/src/tc.c:53 | the memory page size field read from CC is below 16 |
| TcStatus.AqaAcqs | rpu-app/src/tc.c:75 | the admin completion queue size read from AQA is below 4096 |
| TcStatus.AqaAsqs | rpu-app/src/tc.c:76 | the admin submission queue size read from AQA is below 4096 |
| TcStatus.CcReady | rpu-app/src/tc.c:58-66 | CSTS.RDY ends set exactly when CC is non-zero (the handler tests `cc && EN`), or when it was already set and the controller was not enabled |
| TcStatus.CcShutdown | rpu-app/src/tc.c:45-48 | a shutdown notification makes CSTS report shutdown complete |
| TcStatus.CcKeepsOtherBits | rpu-app/src/tc.c:44-68 | no CSTS bit other than RDY and the upper SHST bit is ever changed by the CC handler |
| TcStatus.ShutdownAckKeeps | rpu-app/src/tc.c:45-48 | acknowledging a shutdown changes no CSTS bit other than bit 3 |
| TcStatus.SetShutdownIsBit3 | rpu-app/src/tc.c:47 | setting SHST to shutdown complete ORs in bit 3 |
| TcStatus.ReadyKeeps | rpu-app/src/tc.c:58-66 | the enable and reset steps change no CSTS bit other than RDY |
| TcStatus.CcEnablesWithoutEn | rpu-app/src/tc.c:58 | counterexample: CC = 0x00460000 has EN clear, yet the handler enables the controller and sets RDY |
| TcStatus.CcIntendedReady | rpu-app/src/tc.c:58-66 | with the intended test of CC.EN, RDY ends set exactly when EN is set, or when RDY was set and the controller was not enabled |
| TcStatus.ControlStatus | rpu-app/src/tc.c:44-68 | the handler's step-by-step CSTS update ends with the value the CSTS function defines, and the enabled flag ends as `cc != 0` |
| Tc.SqEntrySizeIsPageSize | rpu-app/src/tc.c:43-53 | the second assignment wins: the stored I/O SQ entry size is 2^(MPS+12), the memory page size, never below 4096 |
| Tc.TailDiff | rpu-app/src/tc.c:106 | the difference of the doorbell and the stored tail, read as a signed 32-bit `int`, lies in the int32 range |
| Tc.FetchAddrIsSlot | rpu-app/src/tc.c:109-111 | for the queue sizes AQA allows, the i-th fetch reads the 64-byte slot (tail + i) mod size of the admin queue |
| Tc.NewTailIsDoorbell | rpu-app/src/tc.c:120 | after a doorbell write the stored tail is the doorbell value modulo the queue size, hence below the size |
| Tc.WrappedDoorbellFetchesNothing | rpu-app/src/tc.c:106-108 | a doorbell behind the stored tail (the host wrapped) gives a difference of at most 0, so nothing is fetched |
| Tc.AdmFetches | rpu-app/src/tc.c:109-118 | the fetch loop's first n turns queue n descriptors |
| Tc.AdmFetchesAt | rpu-app/src/tc.c:111-114 | the k-th queued descriptor copies queue slot tail + k, 64 bytes, from host to slab block first + k, with the admin-fetch callback |
| Tc.FetchStep | rpu-app/src/tc.c:109-118 | one more queued fetch appends the next descriptor to those already queued |
| Tc.RegOf | rpu-app/src/tc.c:129 | the register offset read from IRQ_DAT, times 4 and cut to 16 bits, is a 4-byte aligned value below 0x10000 |
| Tc.ActionOf | rpu-app/src/tc.c:133-157 | the switch runs the CC, AQA, ASQ, ACQ and admin-tail handlers exactly for their own register offsets, and nothing for any other |
| Tc.RegIndexAliases | rpu-app/src/tc.c:129 | register indices 0x4000 apart select the same handler, because the offset is cut to 16 bits |
| Tc.LowWordsWait | rpu-app/src/tc.c:140-148 | writes to ASQ_0 and ACQ_0 are ignored; the low words are read when the high words are written |
| Tc.JoinSplits | rpu-app/src/tc.c:84 | the 64-bit base joined from the two words gives back the high and the low word |
| Tc.ClearWritesCover | rpu-app/src/tc.c:180-181 | initialisation writes 0 to every 4-byte aligned offset below IRQ_STA, 0x40A writes, lowest offset first |
| Tc.Controller.Init | rpu-app/src/tc.c:169-184 | the zeroed controller keeps the DMA engine, has an empty admin slab, and has cleared every register below IRQ_STA |
| Tc.Controller.CcHandler | rpu-app/src/tc.c:37-69 | the entry sizes come from IOCQES and MPS, the enabled flag becomes `cc != 0`, one CSTS write is logged with the value the CSTS function defines, and nothing else changes |
| Tc.Controller.AqaHandler | rpu-app/src/tc.c:71-77 | the admin queue sizes become the raw ACQS and ASQS fields, and nothing else changes |
| Tc.Controller.AsqHandler | rpu-app/src/tc.c:79-85 | the admin SQ base becomes ASQ_1:ASQ_0, and nothing else changes |
| Tc.Controller.AcqHandler | rpu-app/src/tc.c:87-93 | the admin CQ base becomes ACQ_1:ACQ_0, and nothing else changes |
| Tc.Controller.FetchEntry | rpu-app/src/tc.c:110-117 | a turn takes a slab block filled with 0x5A if one is left, and queues its read transfer when the DMA pool has a descriptor; the read channel's six setup writes are logged and applied exactly when that transfer found the channel idle, and the write channel is untouched |
| Tc.Controller.FetchEntries | rpu-app/src/tc.c:109-118 | after the loop, min(count, free slab blocks) blocks are taken and the first min(that, free DMA descriptors) of them have their fetch queued in slot order; the only register writes are those that start an idle read channel on the first queued fetch |
| Tc.Controller.FetchTurn | rpu-app/src/tc.c:110-117 | one turn keeps the progress relation of the loop, one step further (blocks taken, fetches queued, descriptors left); the read FIFO only grows, and the turn's only register writes are those that start an idle read channel on the transfer it queued |
| Tc.Controller.AdmTailHandler | rpu-app/src/tc.c:102-122 | a non-positive difference changes nothing; otherwise the fetches of the loop are issued (with the DMA register writes that start an idle read channel) and the tail becomes the doorbell modulo the queue size, even when fetches were dropped |
| Tc.Controller.HandleRegWrite | rpu-app/src/tc.c:124-159 | one pass of the interrupt loop runs the handler the switch selects, on the values of the register window, with that handler's whole effect (the CC entry sizes, enable flag and CSTS write; the AQA sizes; the ASQ or ACQ base; the doorbell's slab blocks, DMA transfers, DMA register writes and tail, or no change for a non-positive difference), everything else unchanged; an ignored offset changes nothing |
| LegacyStatus.Iocqes | rpu-app/src/main.c:38 | the older handler reads the same IOCQES value as the tc.c one |
| LegacyStatus.Iosqes | rpu-app/src/main.c:39 | the older handler reads the same IOSQES value as the tc.c one |
| LegacyStatus.Mps | rpu-app/src/main.c:49 | the older handler reads the same MPS value as the tc.c one |
| LegacyStatus.Acqs | rpu-app/src/main.c:71 | the older handler reads the same ACQS value as the tc.c one |
| LegacyStatus.Asqs | rpu-app/src/main.c:72 | the older handler reads the same ASQS value as the tc.c one |
| LegacyStatus.ControlStatus | rpu-app/src/main.c:41-64 | the older CC handler's step-by-step CSTS update ends with the value the tc.c handler writes, and the enabled flag ends as `cc != 0` |
| LegacyTc.ActionOf | rpu-app/src/main.c:100-121 | the switch runs the CC, AQA, ASQ and ACQ handlers exactly for their own offsets and nothing for any other, the admin doorbell included |
| LegacyTc.ActionsAgreeWithTc | rpu-app/src/main.c:100-121 | the dispatch agrees with that of tc.c on every register except the admin doorbell, which only tc.c handles |
| LegacyTc.SwappedBase | rpu-app/src/main.c:80 | the word at the lower address becomes the upper half of the 64-bit base |
| LegacyTc.SwappedBaseAgreesIff | rpu-app/src/main.c:80 | this base equals the little-endian base of tc.c exactly when the two words are equal |
| LegacyTc.SwappedBaseExample | rpu-app/src/main.c:75-81 | counterexample: a queue at host address 0x1000 is taken to sit at 0x100000000000 |
| LegacyTc.Controller.Init | rpu-app/src/main.c:133-139 | every register below IRQ_STA is cleared, lowest offset first, and all fields are zero |
| LegacyTc.Controller.CcHandler | rpu-app/src/main.c:33-65 | the same sizes, enabled flag and CSTS write as the tc.c handler |
| LegacyTc.Controller.AqaHandler | rpu-app/src/main.c:67-73 | the admin queue sizes become the raw ACQS and ASQS fields |
| LegacyTc.Controller.AsqHandler | rpu-app/src/main.c:75-81 | ASQ_0 becomes the upper word of the admin SQ base and ASQ_1 the lower |
| LegacyTc.Controller.AcqHandler | rpu-app/src/main.c:83-89 | ACQ_0 becomes the upper word of the admin CQ base and ACQ_1 the lower |
| LegacyTc.Controller.HandleRegWrite | rpu-app/src/main.c:91-123 | one pass of the interrupt loop runs the handler the switch selects, with that handler's whole effect (the CC entry sizes, enable flag and CSTS write; the AQA sizes; the swapped ASQ or ACQ base), everything else unchanged; a write to the admin doorbell, like an ignored offset, changes nothing |
| RpuCmd.PhaseBit | rpu-app/src/cmd.c:88 | the phase a queue's boolean table entry stores is 1 exactly when the entry is true |
| RpuCmd.Accepted | rpu-app/src/dma.c:167-205 | of a run of transfer submissions, exactly the first min(free, count) reach the FIFO; once the pool is empty every later one is refused |
| RpuCmd.AcceptedAppend | rpu-app/src/dma.c:167-205 | submitting two runs one after the other is submitting their concatenation |
| RpuCmd.CompletionXfers | rpu-app/src/cmd.c:76-91 | no transfer when the completion queue address is 0; otherwise one 16-byte write-channel transfer of the entry to that address with the `cq_cb` callback |
| RpuCmd.DataXfers | rpu-app/src/cmd.c:93-105 | nothing at all when PRP1 is 0; otherwise the data to PRP1 without callback, then the completion |
| RpuCmd.DataLandsFirst | rpu-app/src/cmd.c:103-104 | with the FIFO retiring in submission order, the data transfer is retired before the completion entry's |
| RpuCmd.FilledCq | rpu-app/src/cmd.c:7-15 | the filled entry has every field within its bit width |
| RpuCmd.FilledCqImage | rpu-app/src/cmd.c:7-15 | a filled entry is four dwords: zero, zero, the SQ head cut to 16 bits with SQ id 0, and the command id alone (phase 0, success) |
| RpuCmd.Target.Init | rpu-app/src/cmds/queues.c:49-106 | the per-queue tables the command handlers write start zeroed, one row per queue id from 0 to QUEUES, with nothing notified, freed or sent |
| RpuCmd.Cmd.Init | rpu-app/src/cmd.c:7-15 | a command context holds its queue, its submission entry and a zeroed completion entry |
| RpuCmd.Cmd.Fill | rpu-app/src/cmd.c:7-15 | the completion entry becomes the zeroed entry with the queue's SQ head and the command id |
| RpuCmd.Cmd.Return | rpu-app/src/cmd.c:76-91 | with a completion queue address of 0 nothing is sent; otherwise the queue's phase goes into the entry and the entry is queued for the host, the write channel being programmed with it when it was idle; the read channel is untouched |
| RpuCmd.Cmd.ReturnData | rpu-app/src/cmd.c:93-105 | with PRP1 0 nothing is sent; otherwise the data and then the completion are queued, as far as the DMA pool allows, and an idle write channel is programmed with the first of them only |
| RpuCmd.Cmd.CqCb | rpu-app/src/cmd.c:68-74 | the host is notified for the command's queue and the context goes back to the slab |
| Vendor.DirOf | rpu-app/src/cmds/vendor.c:61 | the data direction is the opcode masked to its two low bits |
| Vendor.BufferSize | rpu-app/src/cmds/vendor.c:20 | the size is 4 x NDT below 2^29, negative from 2^29 up to 2^30 because the 32-bit product is read as a signed `int`, and always a multiple of 4 |
| Vendor.MessageId | rpu-app/src/cmds/vendor.c:28 | I/O-queue commands get the custom I/O message id and admin commands the custom admin id |
| Vendor.PathOf | rpu-app/src/cmds/vendor.c:70-90 | the command stops exactly when it needs a buffer and allocation fails; it is sent at once when the size is 0 or the data goes to the host; otherwise its data is fetched first |
| Vendor.NoDirectionStillFetches | rpu-app/src/cmds/vendor.c:70-90 | a command with no data direction but a positive size allocates nothing and still goes through the from-host transfer |
| Vendor.NegativeSizeFetches | rpu-app/src/cmds/vendor.c:66-90 | with NDT = 2^29 the size reads as -2^31; the from-host command then allocates nothing and still takes the transfer path |
| Vendor.PathCases | rpu-app/src/cmds/vendor.c:70-90 | only a command with a positive size and a direction can fail on allocation; a zero size, or a successful to-host allocation, is forwarded at once |
| Vendor.MessageOf | rpu-app/src/cmds/vendor.c:28-34 | the message carries the id, the length of the submission buffer, the context and block addresses, the buffer size and a copy of the submission entry |
| Vendor.SendCmd | rpu-app/src/cmds/vendor.c:15-48 | 0 and one message delivered exactly when allocation and the send both succeed; otherwise -1 and nothing delivered |
| Vendor.VendorCb | rpu-app/src/cmds/vendor.c:50-55 | the callback forwards the command once its data is in |
| Vendor.Forward | rpu-app/src/cmds/vendor.c:80-90 | a command without from-host data is sent now; otherwise the transfer state is set from the block and size, direction from host, and the data is fetched with the forwarding callback |
| Vendor.VendorCmd | rpu-app/src/cmds/vendor.c:57-91 | NDT is incremented (with 32-bit wrap) for a zero-based command; the command then fails on allocation, is sent at once, or has its data fetched first, as the path function says |
| Queues.PcOf | rpu-app/src/cmds/queues.c:22-27 | the physically-contiguous flag read from CDW11 is one bit |
| Queues.IenOf | rpu-app/src/cmds/queues.c:22-27 | the interrupt-enable flag read from CDW11 is one bit |
| Queues.Cdw10Fields | rpu-app/src/cmds/queues.c:17-20 | the queue id and size a host packs into CDW10 are read back unchanged |
| Queues.Cdw11Fields | rpu-app/src/cmds/queues.c:22-27 | the PC, IEN and interrupt vector a host packs into CDW11 are read back unchanged |
| Queues.CreatedSq | rpu-app/src/cmds/queues.c:35-60 | a queue id of 0 or above QUEUES leaves the tables as they were; otherwise only that row changes: base PRP1, head and tail 0, PC from CDW11, size QSIZE + 1, valid |
| Queues.CreatedCq | rpu-app/src/cmds/queues.c:81-109 | the same for a completion queue, which also gets phase false and IEN and the vector from CDW11 |
| Queues.DeletedSq | rpu-app/src/cmds/queues.c:62-79 | an accepted queue id loses only its valid flag; a rejected one changes nothing |
| Queues.DeletedCq | rpu-app/src/cmds/queues.c:111-128 | the same for a completion queue |
| Queues.DeleteIdempotent | rpu-app/src/cmds/queues.c:62-128 | deleting a queue twice is deleting it once |
| Queues.CreateDeleteCreate | rpu-app/src/cmds/queues.c:35-79 | a created then deleted queue keeps its base and size but is not valid; creating it again from the same entry restores the created row |
| Queues.CreatePairKeepsBases | rpu-app/src/cmds/queues.c:35-109 | creating the SQ and the CQ of one id leaves each at its own PRP1 with its own 1's-based size, both valid |
| Queues.CreateSq | rpu-app/src/cmds/queues.c:35-60 | the SQ tables become those the create function gives, and the command completes through `nvme_cmd_return` |
| Queues.DeleteSq | rpu-app/src/cmds/queues.c:62-79 | the SQ tables become those the delete function gives, and the command completes |
| Queues.CreateCq | rpu-app/src/cmds/queues.c:81-109 | the CQ tables become those the create function gives, and the command completes with the new phase |
| Queues.DeleteCq | rpu-app/src/cmds/queues.c:111-128 | the CQ tables become those the delete function gives, and the command completes |
| GetLog.Numd | rpu-app/src/cmds/get_log.c:73 | the dword count joins NUMDU (low half of CDW11) above NUMDL (high half of CDW10) |
| GetLog.RequestedLen | rpu-app/src/cmds/get_log.c:76 | the byte count asked for is 4 x (NUMD + 1) while that fits in 32 bits, and always a multiple of 4 |
| GetLog.RequestedLenWraps | rpu-app/src/cmds/get_log.c:76 | counterexample: NUMD = 0x3FFFFFFF and the all-ones NUMD both ask for 0 bytes, because the 32-bit product wraps |
| GetLog.ReturnedLen | rpu-app/src/cmds/get_log.c:59 | the length sent back is the length asked for, cut to 512 |
| GetLog.Offset | rpu-app/src/cmds/get_log.c:74 | the offset joins CDW13 above CDW12, and is 0 exactly when both are |
| GetLog.SmartImage | rpu-app/src/cmds/get_log.c:37-52 | the SMART page image is 512 bytes |
| GetLog.SmartFront | rpu-app/src/cmds/get_log.c:40-48 | the image before the three trailing zero words is 512 bytes |
| GetLog.SmartImageFront | rpu-app/src/cmds/get_log.c:49-51 | writing the three trailing zero words leaves the first 148 bytes as they were |
| GetLog.SmartTemperatureAndSpare | rpu-app/src/cmds/get_log.c:42-44 | the page reports a composite temperature of 298 K (little-endian at byte 1), available spare 100 and spare threshold 5 |
| GetLog.SmartPowerOnHours | rpu-app/src/cmds/get_log.c:46 | bytes 128-131 hold the little-endian value 2000, the low word of the Power On Hours counter of the NVMe SMART / Health Information log |
| GetLog.SmartUnsafeShutdowns | rpu-app/src/cmds/get_log.c:48 | bytes 144-147 hold the little-endian value 10, the low word of the Unsafe Shutdowns counter of the same log |
| GetLog.SmartZeros | rpu-app/src/cmds/get_log.c:40-51 | every other byte of the page is 0 |
| GetLog.FillSmart | rpu-app/src/cmds/get_log.c:37-52 | the buffer ends holding exactly the SMART page image |
| GetLog.GetSmartLog | rpu-app/src/cmds/get_log.c:54-67 | the static buffer holds the page and the page goes back, from byte 0 whatever the offset, cut to 512 bytes |
| GetLog.GetLogPage | rpu-app/src/cmds/get_log.c:69-85 | log id 2 is answered with the SMART page; any other log id gets neither data nor a completion, and nothing changes |
| Ramdisk.Disk.Make | rpu-app/src/ramdisk.c:6-12 | a disk of BLK_CNT 512-byte blocks at a base address inside the 32-bit address space |
| Ramdisk.Disk.BlockAddr | rpu-app/src/ramdisk.c:26 | the address of block lba lies inside the disk, on the boundary of block lba |
| Ramdisk.Disk.ReadAsWritten | rpu-app/src/ramdisk.c:24-27 | as written, a read succeeds exactly when its first block is on the disk, whatever the block count |
| Ramdisk.Disk.WriteAsWritten | rpu-app/src/ramdisk.c:29-35 | as written, a write succeeds exactly when its first block is on the disk and the 32-bit sum lba + nlb is below BLK_CNT |
| Ramdisk.Disk.Lookup | rpu-app/src/ramdisk.c:24-35 | the intended lookup answers a non-empty range lying wholly on the disk, with the address of its first block |
| Ramdisk.Disk.Read | rpu-app/src/ramdisk.c:24-27 | the corrected read is the intended lookup, and whatever it accepts the code as written accepts with the same address |
| Ramdisk.Disk.Write | rpu-app/src/ramdisk.c:29-35 | the corrected write is the intended lookup, and for up to 65536 blocks every write the code accepts it accepts with the same address |
| Ramdisk.Disk.ReadPastEnd | rpu-app/src/ramdisk.c:26 | counterexample: a read of two blocks from the last block passes the code's check although its second block is past the end |
| Ramdisk.Disk.LastBlockRefused | rpu-app/src/ramdisk.c:31 | counterexample: a write of the last block alone is refused by the code although it fits; the corrected write accepts it |
| Ramdisk.Disk.WriteAsWrittenExact | rpu-app/src/ramdisk.c:31 | on a disk that fits in the address space the 32-bit sum never wraps, so the code's test is exactly lba + nlb < BLK_CNT |
| Ramdisk.Disk.Init | rpu-app/src/ramdisk.c:10-22 | byte i of the first block becomes i cut to 8 bits and the rest of the disk is left as it was |
| IoCmds.Nlb | rpu-app/src/cmds/read.c:47 | the block count is the 0's-based NLB field, bits 15:0 of CDW12, plus one: between 1 and 65536 |
| IoCmds.NlbField | rpu-app/src/cmds/read.c:10-16 | a host that packs nlb - 1 into bits 15:0 next to other fields gets nlb blocks |
| IoCmds.XferBytes | rpu-app/src/cmds/read.c:56 | the transfer is nlb x 512 bytes, at most 32 MiB, so the 32-bit product never wraps |
| IoCmds.IoRead | rpu-app/src/cmds/read.c:41-61 | a read whose first block `ramdisk_read` as written accepts goes back with `nvme_cmd_return_data` from that block, nlb x 512 bytes, even when the range runs past the disk; a first block past the end gets a plain completion |
| IoCmds.IoWrite | rpu-app/src/cmds/write.c:38-58 | a range `ramdisk_write` as written accepts (first block on the disk, 32-bit `lba + nlb` below the block count) has its data pulled from the host into its first block, the completion left to the code that runs once the data is in; a refused one gets a plain completion |
| IoCmds.TransferExtent | rpu-app/src/cmds/read.c:53-56 | the bytes a read returns start at its first block and end inside the disk exactly when the whole range lies on it, which is exactly when the corrected read agrees; a write the code accepts always ends inside the disk, and the corrected write gives the same address |
| LegacyCmds.Rejected | rpu-app/src/cmds/create_queues.c:39-44 | a rejected queue id gets status code type 1 and status code 1, and no other field changes |
| LegacyCmds.CreateSqAsWritten | rpu-app/src/cmds/create_queues.c:25-61 | as written, an accepted id fills submission row qid - 1 from the entry with the raw 0's-based size, and marks the completion row valid |
| LegacyCmds.CreateCqAsWritten | rpu-app/src/cmds/create_queues.c:63-100 | as written, an accepted id fills completion row qid - 1 but stores PRP1 in the submission row's base |
| LegacyCmds.CreateSqValidatesCq | rpu-app/src/cmds/create_queues.c:58 | counterexample: creating a submission queue marks the completion queue of the same id valid although it was never created |
| LegacyCmds.CreateCqClobbersSqBase | rpu-app/src/cmds/create_queues.c:48-86 | counterexample: creating SQ then CQ of one id at different addresses leaves the SQ pointing at the CQ's memory and the CQ at its old base |
| LegacyCmds.SizeIsZeroBased | rpu-app/src/cmds/create_queues.c:55 | counterexample: a one-entry queue is recorded with size 0 |
| LegacyCmds.IdentifyCq | rpu-app/src/cmds/identify.c:41-58 | the identify completion is zero except the admin SQ head, the command id and the admin CQ phase |
| LegacyCmds.QueueCountsDword | rpu-app/src/cmds/set_features.c:37 | dword 0 carries the 0's-based completion queue count in bits 31:16 and submission queue count in bits 15:0 |
| LegacyCmds.LegacyTarget.CreateSq | rpu-app/src/cmds/create_queues.c:25-61 | the tables become those of the as-written create, and one reply is sent, with the rejection status for an id of 0 or above the maximum |
| LegacyCmds.LegacyTarget.CreateCq | rpu-app/src/cmds/create_queues.c:63-100 | the same for the completion-queue create |
| LegacyCmds.LegacyTarget.Identify | rpu-app/src/cmds/identify.c:36-75 | CNS 1 with a free completion-slab entry takes that entry and is answered with a zeroed 4096-byte structure and the identify completion; any other CNS, or a full slab, gets no completion and leaves the slab as it was |
| LegacyCmds.LegacyTarget.SetFeatures | rpu-app/src/cmds/set_features.c:26-53 | Number of Queues sets one I/O queue pair and reports it in dword 0 whatever was asked; every feature id ends in one completion |
| LegacyCmds.OneQueuePairGranted | rpu-app/src/cmds/set_features.c:33-37 | the Number of Queues answer is 0 in both halves, one queue of each kind, whatever the host requested |
| CmdHandler.RouteOf | rpu-app/src/cmd.c:17-54 | a command off the admin queue is an I/O command; on the admin queue each of the seven handled opcodes has its own route, and every other opcode, Keep Alive included, is unsupported |
| CmdHandler.KeepAliveUnsupported | rpu-app/src/cmd.c:43-46 | Keep Alive is routed like an unknown opcode |
| CmdHandler.Dispatch | rpu-app/src/cmd.c:17-54 | the queue tables change only on the create and delete routes, Identify and Set Features leave one outstanding handler call, a SMART Get Log Page returns the SMART image, and the queue commands, unknown opcodes and I/O commands are completed at once |
| CmdHandler.Handle | rpu-app/src/cmd.c:8-66 | the same, with every completion sent carrying the head of the command's submission queue and its command identifier |
| ApuIdentify.HeadBytes | apu-app/src/cmds/identify.cpp:16-20 | `ident_head_t` is 16 bytes: the four magic bytes, the 32-bit length in little-endian order, eight reserved zero bytes |
| ApuIdentify.DescBytes | apu-app/src/cmds/identify.cpp:22-26 | `desc_list_t` is 8 bytes: the 32-bit list length, then the 16-bit id and 16-bit reserved field, both zero |
| ApuIdentify.CapBytes | apu-app/src/cmds/identify.cpp:28-32 | `cap_entry_t` is 16 bytes: the 32-bit id, a zero reserved word and the 64-bit buffer size |
| ApuIdentify.CapFields | apu-app/src/cmds/identify.cpp:28-32 | a capability entry decodes back to its id, a zero reserved word and its buffer size |
| ApuIdentify.IdentifyHeader | apu-app/src/cmds/identify.cpp:43-74 | the image starts with the magic "WDC0", the length 72 (header, descriptor and three capabilities) and zeros |
| ApuIdentify.IdentifyDescriptor | apu-app/src/cmds/identify.cpp:45-78 | bytes 16-23 hold the list length 56, the length less the header, and a zero id |
| ApuIdentify.IdentifyCaps | apu-app/src/cmds/identify.cpp:37-70 | bytes 24-71 hold the firmware-exchange capability with size 0 and the input and output buffers of 64 MiB, and every byte after them keeps the 0x55 filler |
| ApuIdentify.SetupIdentify | apu-app/src/cmds/identify.cpp:34-79 | the buffer ends up holding exactly the identify image, whatever it held before, so a second call changes nothing |
| ApuIdentify.CopyLen | apu-app/src/cmds/identify.cpp:83 | the copy length is the host's buffer length capped at 4096: never more than either |
| ApuIdentify.AdmIdentify | apu-app/src/cmds/identify.cpp:81-84 | the host's buffer receives the leading bytes of the image, as many as it holds up to 4096, and keeps the rest of its bytes |
| ApuNvme.EntrySizes | apu-app/src/nvme.h:12-13 | a 64-byte submission entry and a 16-byte completion entry are the sixteen and four dwords of the RPU's layout |
| ApuNvme.VendorOpcodes | apu-app/src/nvme.h:61-74 | the vendor opcodes are pairwise distinct, the admin ones at 0xC0 or above and the I/O ones in 0x80-0x91 |
| ApuNvme.OpcodeDirections | apu-app/src/nvme.h:61-74 | bits 1:0 of each opcode give the direction the RPU moves its data in: to the host for Identify, Status and the two reads, from the host for the sends and I/O CTL, none for the LBA commands and admin CTL |
| ApuNvme.CommandIdsAgree | apu-app/src/rpmsg.h:22-23 | the admin and I/O message ids the APU receives are the ones the RPU's vendor forwarding sends |
| ApuNvme.Ack | apu-app/src/cmd.cpp:47-59 | an acknowledgement carries the given id, no data, and the context, buffer address and buffer length of the command it answers |
| ApuStatus.Cdw12Fields | apu-app/src/cmds/status.cpp:16-20 | the id (bits 15:0) and the RAE flag (bit 31) read back what a host packs into dword 12, whatever the reserved bits hold |
| ApuStatus.Calculated | apu-app/src/cmds/status.cpp:43-51 | a refreshed head says 8 bytes follow, holds the ordinal of the accelerator's state, and keeps its reserved words |
| ApuStatus.HeadsAfter | apu-app/src/cmds/status.cpp:56-65 | an id past the accelerators or a set RAE flag leaves every head as it was; otherwise only the named head is refreshed |
| ApuStatus.RefreshIdempotent | apu-app/src/cmds/status.cpp:64-65 | refreshing a head twice is refreshing it once, and a read with RAE set after a refresh sees the refreshed head |
| ApuStatus.States | apu-app/src/cmds/status.cpp:50 | the state of each accelerator, in accelerator order |
| ApuStatus.AdmStatus | apu-app/src/cmds/status.cpp:53-69 | an id past the accelerators changes neither the heads nor the host buffer; otherwise the heads are those of `HeadsAfter` and a buffer at most a head long receives that head's leading bytes, a larger buffer nothing |
| Qspi.DownloadAsWritten | apu-app/src/cmds/qspi.cpp:92-104 | as written, with the end, offset and length of the window computed in 32 bits: the copy stays inside the buffer exactly when the wrapped offset plus the wrapped length fit in the grown buffer |
| Qspi.Downloaded | apu-app/src/cmds/qspi.cpp:98-103 | the corrected download: the buffer grows to the end of the window if it was shorter, never shrinks |
| Qspi.DownloadedContents | apu-app/src/cmds/qspi.cpp:98-103 | after a download the window holds the incoming bytes, every other byte that was there keeps its value and bytes the buffer newly grew by outside the window are zero |
| Qspi.DisjointDownloadsCommute | apu-app/src/cmds/qspi.cpp:92-104 | downloads of two disjoint windows give the same buffer in either order, so the host may send the image's windows in any order |
| Qspi.AsWrittenAgrees | apu-app/src/cmds/qspi.cpp:98-103 | while the window ends below 4 GiB the code computes exactly the corrected buffer |
| Qspi.DownloadOverrun | apu-app/src/cmds/qspi.cpp:98-103 | counterexample: two dwords at dword offset 0x3FFF_FFFF make the end wrap to byte 4, so the buffer grows to 4 bytes while the copy starts at byte 0xFFFF_FFFC |
| Qspi.AsWrittenContents | apu-app/src/cmds/qspi.cpp:98-103 | a download the code completes has the buffer's length, keeps the old bytes outside the window, zero-fills what the buffer grew by outside it, and puts the incoming bytes in the window, all at the 32-bit offsets |
| Qspi.FwDownload | apu-app/src/cmds/qspi.cpp:92-104 | with the code's 32-bit arithmetic the firmware buffer grows to the wrapped end of the window and, when the copy fits, becomes the download as written; a copy that would run past the end leaves the grown buffer |
| Qspi.FwCommit | apu-app/src/cmds/qspi.cpp:79-90 | a copy of the firmware buffer as it is at the commit is queued for flashing, after every earlier one |
| Accel.Ordinal | apu-app/src/acc.h:17 | the four states count from 0: idle 0, running 1, done 2, fail 3 |
| Accel.Acc.constructor | apu-app/src/acc.c:8-19 | a new accelerator is idle, with neither ramdisk window and every base and size 0 |
| Accel.Acc.AddRamdiskIn | apu-app/src/acc.c:94-99 | the input window is set with the given base and size; the output window and the run state are kept |
| Accel.Acc.AddRamdiskOut | apu-app/src/acc.c:101-106 | the output window is set with the given base and size; the input window and the run state are kept |
| Accel.Acc.AddFirmware | apu-app/src/acc.c:108-111 | the program becomes a copy of the image and nothing else changes |
| Accel.Acc.Stop | apu-app/src/acc.c:118-121 | nothing changes |
| Accel.Acc.OutLen | apu-app/src/acc.c:52-53 | the output buffer is the output window's size when there is one, and otherwise keeps its length |
| Accel.Acc.Start | apu-app/src/acc.c:21-116 | a run never ends idle: it fails, with no copies, when the VM cannot be created or the program not loaded; otherwise it is done, the input window copied in when there is one, the program's result in the output buffer and that buffer written to the output window when there is one |
| ApuState.StatBytes | apu-app/src/cmds/status.cpp:29-33 | a status head is 32 bytes: its eight words in order, each little-endian |
| ApuState.StatBytesFields | apu-app/src/cmds/status.cpp:29-33 | the first two words of that image read back as the length and the id |
| ApuState.Apu.Init | apu-app/src/main.cpp:16-32 | after start-up there is one idle accelerator with id 0, the identify buffer holds the identify image, there is one status head, and the firmware map, the firmware buffer and the flash queue are empty |
| Fw.AnnouncedLen | apu-app/src/cmds/fw.cpp:21 | the announced image length is 4 x cdw10, exact whenever it fits in 32 bits |
| Fw.Stored | apu-app/src/cmds/fw.cpp:40-41 | storing an image puts it under its id and keeps every other id's image |
| Fw.StoredIdempotent | apu-app/src/cmds/fw.cpp:41 | storing the same image again changes nothing, and a later image under the same id replaces the earlier one |
| Fw.StoredCommute | apu-app/src/cmds/fw.cpp:41 | images stored under different ids give the same map in either order |
| Fw.SendFw | apu-app/src/cmds/fw.cpp:18-42 | the assertion fails exactly when the announced length differs from the buffer length, and then the map is untouched; otherwise the whole buffer is stored under the id in cdw13 |
| Lba.LbaOf | apu-app/src/cmds/lba.cpp:17 | the 64-bit LBA has cdw12 as its low word and cdw13 as its high word |
| Lba.Address | apu-app/src/cmds/lba.cpp:19 | the address is LBA x 4096 + 0x6800_0000 whenever that fits in 64 bits |
| Lba.WindowSize | apu-app/src/cmds/lba.cpp:18-41 | the window is the NLB field of cdw14, taken as it is, times 4096: whole pages, below 256 MiB |
| Lba.LowWord | apu-app/src/cmds/lba.cpp:41 | cutting the 64-bit wrapped address to 32 bits is cutting the exact value |
| Lba.WindowBaseExact | apu-app/src/cmds/lba.cpp:19-41 | the window base is the exact address modulo 2^32, and below LBA 0x9_8000 the exact address itself |
| Lba.WindowBaseInjective | apu-app/src/cmds/lba.cpp:19-41 | below LBA 0x9_8000 distinct LBAs give distinct window bases |
| Lba.WindowBaseAliases | apu-app/src/cmds/lba.cpp:19-41 | LBAs 2^20 apart give the same window base |
| Lba.FirstWrappedWindow | apu-app/src/cmds/lba.cpp:19-41 | LBA 0x9_7FFF is the last page below 4 GiB, and the window of LBA 0x9_8000 starts at physical address 0 |
| Lba.ReadLba | apu-app/src/cmds/lba.cpp:14-44 | the accelerator named by cdw15 gets the command's range as its input window and keeps everything else; an id past the list changes no accelerator |
| Lba.WriteLba | apu-app/src/cmds/lba.cpp:46-77 | the same for the output window |
| AdmAccCtl.EnableAfter | apu-app/src/cmds/adm_acc_ctl.cpp:21-44 | operation 0 sets the enable flag, operation 1 clears it, and any other value leaves it as it was |
| AdmAccCtl.EnableIdempotent | apu-app/src/cmds/adm_acc_ctl.cpp:28-44 | each operation is idempotent, and enable and disable decide the flag whatever it was before |
| AdmAccCtl.AdmAccCtl | apu-app/src/cmds/adm_acc_ctl.cpp:24-45 | the enable flag becomes `EnableAfter` of its old value and cdw12, and nothing else changes |
| IoAccCtl.FwId | apu-app/src/cmds/io_acc_ctl.cpp:27-29 | the image id is the accelerator id: both are read from cdw14 |
| IoAccCtl.Indexed | apu-app/src/cmds/io_acc_ctl.cpp:50 | looking a key up in the firmware map inserts an empty image when it is absent and leaves every present entry alone |
| IoAccCtl.IndexedIdempotent | apu-app/src/cmds/io_acc_ctl.cpp:50 | looking a key up twice is looking it up once, and a present key changes nothing |
| IoAccCtl.IoAccCtl | apu-app/src/cmds/io_acc_ctl.cpp:24-55 | only the accelerator cdw14 names is ever affected and the list keeps its length; an id past the list changes nothing; RESET puts a new idle accelerator with that id in its place, START runs it, SET_FW gives it the image stored under that id (an empty one if none was), and STOP and unknown operations change nothing |
| LegacyIoAccCtl.IndexedPtr | apu-app/src/cmds/io_acc_ctl.c:44 | in the older pointer map a lookup inserts a null pointer for an absent key and leaves every present entry alone |
| LegacyIoAccCtl.CrashesIffNoImage | apu-app/src/cmds/io_acc_ctl.c:44 | SET_FW on a valid accelerator crashes exactly when no image pointer was ever stored under its id |
| LegacyIoAccCtl.LegacyIoAccCtl | apu-app/src/cmds/io_acc_ctl.c:16-49 | the same effects as the newer revision, except that SET_FW either crashes on the null pointer, leaving the accelerator alone, or installs the image pointed to |
| ApuCmd.AdmHandlerOf | apu-app/src/cmd.cpp:78-102 | the five admin opcodes Firmware Commit, Firmware Image Download, IDENTIFY, CTL and STATUS each have their handler, and every other opcode has none |
| ApuCmd.AdmAckId | apu-app/src/cmd.cpp:78-102 | a handled admin command is acknowledged with data exactly for IDENTIFY and STATUS, with a plain ACK otherwise |
| ApuCmd.AckDataIffFillsBuffer | apu-app/src/cmd.cpp:87-98 | an admin command is acknowledged with data exactly when its handler writes into the host buffer |
| ApuCmd.IoHandlerOf | apu-app/src/cmd.cpp:126-149 | SEND_FW, READ_LBA and WRITE_LBA have their own handlers; SEND_DATA, READ_DATA, READ_FW and CTL all go to the accelerator control; any opcode that is not a vendor I/O opcode has no handler |
| ApuCmd.MmapLog | apu-app/src/cmd.cpp:71-105 | a command that completes maps its buffer and releases it once exactly when it has a buffer and mapping succeeded, and otherwise makes no mapping |
| ApuCmd.RunAdm | apu-app/src/cmd.cpp:78-102 | each admin handler changes only its own state: a commit queues the buffer it had for flashing, a download updates the firmware buffer as the code's 32-bit arithmetic does, CTL the enable flag, IDENTIFY and STATUS the host buffer, STATUS the heads |
| ApuCmd.MapLog | apu-app/src/cmd.cpp:119-124 | a command a handler's assertion ends leaves its mapping unreleased, if it made one |
| ApuCmd.HandleAdmCmd | apu-app/src/cmd.cpp:61-106 | a failed mapping runs no handler and sends a plain ACK; otherwise the opcode's handler runs, exactly one acknowledgement echoing the command is sent, with data for IDENTIFY and STATUS, and the mapping is released once |
| ApuCmd.RunIo | apu-app/src/cmd.cpp:126-149 | SEND_FW ends the process exactly when its length check fails and otherwise stores the image; the LBA handlers set a window; the control handler acts as `IoAccCtl.IoAccCtl`; an unhandled opcode changes no accelerator |
| ApuCmd.HandleIoCmd | apu-app/src/cmd.cpp:108-153 | a failed mapping runs no handler and sends a plain ACK; otherwise the opcode's handler runs and a plain ACK follows, unless the firmware length check ended the process, which then sends nothing and leaves the mapping unreleased |
| LegacyApuCmd.LegacyAdmHandlerOf | apu-app/src/cmd.c:67-83 | the older admin router handles only IDENTIFY, CTL and STATUS |
| LegacyApuCmd.LegacyAdmAckId | apu-app/src/cmd.c:67-83 | it acknowledges with data exactly when the handler fills the host buffer |
| LegacyApuCmd.RoutersAgree | apu-app/src/cmd.c:67-83 | the older and newer routers pick the same handler for every opcode except the two firmware opcodes, which only the newer one handles, and always the same acknowledgement |
| LegacyApuCmd.LegacyHandleAdmCmd | apu-app/src/cmd.c:52-87 | the older admin path sends one acknowledgement per command, runs the newer path's handlers and never touches the firmware buffer or the flash queue |
| LegacyApuCmd.LegacyRunIo | apu-app/src/cmd.c:104-127 | the older I/O switch: the handlers of `ApuCmd.RunIo`, with the older accelerator control |
| LegacyApuCmd.LegacyHandleIoCmd | apu-app/src/cmd.c:89-131 | the routing and acknowledgements of `ApuCmd.HandleIoCmd`, with the older accelerator control and its crash |
| Cma.MmapOffset | apu-app/src/vta/pynqlib.cpp:74-76 | the mmap offset is id x 16 x 4096 for every id below 0x8000 |
| Cma.MmapOffsetWraps | apu-app/src/vta/pynqlib.cpp:75 | from id 0x8000 the 32-bit product wraps: id 0x7FFF gives 0x7FFF_0000 and id 0x8000 a negative offset |
| Cma.FirstPhys | apu-app/src/vta/pynqlib.cpp:101-107 | the physical address of the first record with the given virtual address, and 0 when there is none |
| Cma.IndexOf | apu-app/src/vta/pynqlib.cpp:110-128 | the position of the first record with the given virtual address, the registry's length when there is none |
| Cma.RemoveFirst | apu-app/src/vta/pynqlib.cpp:122 | only the first record of the address is erased and the others keep their order; an unknown address changes nothing |
| Cma.FreedIsForgotten | apu-app/src/vta/pynqlib.cpp:101-128 | freeing a buffer registered once leaves no record of it, so its physical address then reads back as 0 |
| Cma.AllocatedIsFound | apu-app/src/vta/pynqlib.cpp:94-107 | a newly registered buffer at an address no record has is found at once with its physical address |
| Cma.Registry.constructor | apu-app/src/vta/pynqlib.cpp:56 | the registry starts empty |
| Cma.Registry.Alloc | apu-app/src/vta/pynqlib.cpp:79-99 | a failed allocation ioctl returns NULL and records nothing; otherwise the driver's physical address and id are recorded with the address mmap returned for the id's offset, and that address is returned |
| Cma.Registry.GetPhyAddr | apu-app/src/vta/pynqlib.cpp:101-107 | the result is `FirstPhys` of the registry |
| Cma.Registry.Free | apu-app/src/vta/pynqlib.cpp:109-129 | the first record of the buffer is released and erased, the others keep their order, and an unknown buffer changes nothing |
| VtaOps.AluName | apu-app/src/vta-delegate-ops.cpp:15-26 | an ALU operation is named "ADD" exactly for an addition, and "unknown" for every other code |
| VtaOps.GemmName | apu-app/src/vta-delegate-ops.cpp:28-39 | a GEMM operation is named "CONV2D" exactly for a convolution, and "unknown" for every other code |
| VtaOps.NewOp | apu-app/src/vta-delegate.cpp:76-82 | a new operation keeps its kind, its code and copies of its input and output index lists, and carries the name its kind's constructor gives |
| VtaOps.AddOps | apu-app/src/vta-delegate-ops.cpp:63-67 | `getAddOps` always succeeds |
| VtaOps.Conv2dOps | apu-app/src/vta-delegate-ops.cpp:69-72 | `getConv2dOps` always succeeds |
| VtaOps.ComputeOps | apu-app/src/vta-delegate-ops.cpp:41-61 | an ALU operation resolves exactly when its code is an addition and is otherwise unresolved; a GEMM operation succeeds for every code |
| VtaOps.ResolvedIffNamed | apu-app/src/vta-delegate-ops.cpp:15-61 | an ALU operation resolves exactly when its name is not "unknown", while a GEMM operation named "unknown" still succeeds |
| VtaDelegate.AllTypesSupported | apu-app/src/vta-delegate.cpp:41-56 | every input tensor type is INT8, UINT8 or INT32 |
| VtaDelegate.IsNodeSupported | apu-app/src/vta-delegate.cpp:26-58 | a node is claimed exactly when its builtin code is ADD or CONV_2D and every input tensor has one of the three integer types |
| VtaDelegate.OpForShape | apu-app/src/vta-delegate.cpp:130-151 | an ADD node becomes an ALU operation named "ADD", a CONV_2D node a GEMM operation named "CONV2D", each with the node's code and index lists and compute steps that resolve |
| VtaDelegate.OpsFor | apu-app/src/vta-delegate.cpp:101-156 | buildable nodes give one operation each, in node order |
| VtaDelegate.FirstUnbuilt | apu-app/src/vta-delegate.cpp:101-156 | every node before the returned index is buildable and the node at it, if any, is not |
| VtaDelegate.InitStatus | apu-app/src/vta-delegate.cpp:108-187 | `Init` succeeds exactly when it gets past the last node; a failed lookup gives an error, an unsupported code unresolved operations |
| VtaDelegate.BuiltOpsResolve | apu-app/src/vta-delegate.cpp:130-151 | every operation built for a run of buildable nodes has compute steps that resolve |
| VtaDelegate.Kernel.constructor | apu-app/src/vta-delegate.cpp:71-74 | a new kernel has no operations and no communication context |
| VtaDelegate.Kernel.Init | apu-app/src/vta-delegate.cpp:87-188 | a context is started only when there is none; the operations for the nodes before the first one that cannot be built are appended, in order, to those already there, and the status says where the loop stopped |
| VtaDelegate.Kernel.Eval | apu-app/src/vta-delegate.cpp:248-258 | the result is success exactly when every operation's computation succeeds; otherwise it is the status of the first that fails, after which no operation runs |
| VtaDelegate.AllBuildableInitOk | apu-app/src/vta-delegate.cpp:101-187 | when every node is found and supported `Init` builds an operation for each node and succeeds |
| VtaDelegate.SupportedIsBuildable | apu-app/src/vta-delegate.cpp:26-151 | every node the delegate claims is one `Init` can build once its lookup succeeds |
| TensorLayout.Shape | apu-app/tests/vta-gemm-test.cpp:18-26 | the sizes `setDim` gave the layout's dimensions, in layout order |
| TensorLayout.TensorElements | apu-app/tests/vta-gemm-test.cpp:30 | the element count of a layout is the product of the sizes of all its dimensions |
| TensorLayout.DimStepIsInnerElements | apu-app/tests/vta-gemm-test.cpp:28 | the step of a dimension is the number of elements of the dimensions inside it |
| TensorLayout.PermuteTestStep | apu-app/tests/vta-gemm-test.cpp:18-28 | the permutation test's assertion: the step of "Io" in its input layout is 4 * 4 * 4 |
| TensorLayout.OffsetIsStepSum | apu-app/tests/vta-gemm-test.cpp:47-62 | an element's position is the tests' sum of each coordinate times its dimension's step |
| TensorLayout.OffsetBound | apu-app/tests/vta-gemm-test.cpp:40-62 | every coordinate tuple inside the shape lands inside the buffer |
| TensorLayout.Decode | apu-app/tests/vta-gemm-test.cpp:40-45 | a position inside the buffer decodes to coordinates inside the shape |
| TensorLayout.OffsetOfDecode | apu-app/tests/vta-gemm-test.cpp:40-62 | decoding a position and taking the position of the coordinates gives the same position back |
| TensorLayout.DecodeOfOffset | apu-app/tests/vta-gemm-test.cpp:40-62 | the position of coordinates inside the shape decodes back to the same coordinates, so positions and coordinate tuples correspond one to one |
| TensorLayout.Reordered | apu-app/tests/vta-gemm-test.cpp:47-62 | each coordinate is moved to its dimension's place in the other layout |
| TensorLayout.SameNamesSameElements | apu-app/tests/vta-gemm-test.cpp:30-33 | two layouts of the same names have the same element count, so one buffer size serves both sides of a permutation |
| TensorLayout.Permuted | apu-app/tests/vta-gemm-test.cpp:38 | a permutation yields a buffer with the output layout's element count |
| TensorLayout.PermutedContract | apu-app/tests/vta-gemm-test.cpp:40-64 | what the permutation test asserts, for all sizes and layouts: the output element at any coordinates' output position is the input element at the same coordinates' input position |
| TensorLayout.PermuteDims | apu-app/tests/vta-gemm-test.cpp:38 | the output array becomes the permutation of the input array, which is left alone |
| TensorLayout.Padded | apu-app/tests/vta-gemm-test.cpp:97 | a padding yields a buffer with the output layout's element count |
| TensorLayout.PaddedContract | apu-app/tests/vta-gemm-test.cpp:83-104 | every input element lands at the output position of the same coordinates, and every output position no input coordinates reach is zero |
| TensorLayout.PadTestShapes | apu-app/tests/vta-gemm-test.cpp:70-81 | the padding test pads a 1x2x3x1 tensor into a 2x2x3x2 one |
| TensorLayout.PadTestSimple | apu-app/tests/vta-gemm-test.cpp:83-104 | the padding test's expected output: 1 to 6 at the even positions of the first half, zero everywhere else |
| TensorLayout.PadData | apu-app/tests/vta-gemm-test.cpp:97 | the output array becomes the padding of the input array, which is left alone |
| SimpleModels.Dec | apu-app/scripts/simple-models.py:246 | a number prints as a non-empty run of decimal digits |
| SimpleModels.ValueOfDec | apu-app/scripts/simple-models.py:246 | the printed digits read back as the number |
| SimpleModels.DecInjective | apu-app/scripts/simple-models.py:246 | different numbers print differently |
| SimpleModels.AddPath | apu-app/scripts/simple-models.py:246 | an addition model goes to `add/add-<L>.onnx` below the output directory |
| SimpleModels.AddPathInjective | apu-app/scripts/simple-models.py:246 | different lengths give different addition files |
| SimpleModels.AddPathsDistinct | apu-app/scripts/simple-models.py:242-246 | the eleven vector lengths are distinct, so no addition file overwrites another |
| SimpleModels.SimpleAdd | apu-app/scripts/simple-models.py:94-120 | the addition model has inputs `input_0` and `input_1` and output `output_0`, and both sample inputs are the single row 0, 1, ..., L - 1 |
| SimpleModels.ProductOrder | apu-app/scripts/simple-models.py:257-263 | the product yields its tuples in lexicographic order of their positions in the six lists, the last list varying fastest |
| SimpleModels.ProductComplete | apu-app/scripts/simple-models.py:257-263 | every combination of one entry from each list is a tuple of the product |
| SimpleModels.ProductInjective | apu-app/scripts/simple-models.py:250-263 | no tuple occurs twice in the product |
| SimpleModels.Product | apu-app/scripts/simple-models.py:250-263 | the product has 144 tuples, tuple k being the combination at the positions of weight k |
| SimpleModels.ConvNameInjective | apu-app/scripts/simple-models.py:271 | the file name holds all six values, so different tuples get different names |
| SimpleModels.ConvPath | apu-app/scripts/simple-models.py:273 | a convolution model goes to `conv2d/<name>` below the output directory |
| SimpleModels.Sweep | apu-app/scripts/simple-models.py:264-270 | the sweep keeps only tuples that pass the three rules and is no longer than its input |
| SimpleModels.SweepIff | apu-app/scripts/simple-models.py:264-270 | a tuple is swept up exactly when it passes the three rules and is among the tuples swept |
| SimpleModels.SweepPosIncreasing | apu-app/scripts/simple-models.py:257-280 | the sweep keeps the order of the tuples it is given |
| SimpleModels.SweptIff | apu-app/scripts/simple-models.py:257-280 | a tuple becomes a model file exactly when it is a tuple of the product and passes the three rules |
| SimpleModels.ConvFixtures | apu-app/scripts/simple-models.py:272-280 | one convolution model per swept tuple, in order, each at its own path |
| SimpleModels.AddsMade | apu-app/scripts/simple-models.py:245-246 | one addition model per vector length, in the order of the list |
| SimpleModels.MakeAddFixtures | apu-app/scripts/simple-models.py:245-246 | the first loop writes exactly the addition models of `AddsMade`, in order |
| SimpleModels.MakeConvFixtures | apu-app/scripts/simple-models.py:257-280 | the second loop writes exactly one model per tuple of the product that passes the rules, in product order |
| SimpleModels.MakeFixtures | apu-app/scripts/simple-models.py:240-280 | the script writes the addition models, then the convolution sweep |
| SimpleModels.KeptEntries | apu-app/scripts/simple-models.py:265-270 | the channel rule rejects no tuple of these lists: a tuple passes exactly when its kernel is 3 without padding, or 5, or 11 on the 224 input |
| SimpleModels.QuadCount | apu-app/scripts/simple-models.py:265-270 | of the four stride and padding choices a kernel of 3 keeps two, a kernel of 5 four, and a kernel of 11 none on the smaller input and four on the larger |
| SimpleModels.SweptCount | apu-app/tests/conv2d-tests.cpp:11 | of the 144 tuples 96 become files, the number of models the convolution test suite expects |
| SimpleModels.SweptPathsDistinct | apu-app/scripts/simple-models.py:271-273 | no two convolution model files share a path |
| SimpleModels.ConvSide | apu-app/scripts/simple-models.py:129-132 | at stride 1 a side of n becomes n + 2p - k + 1, and no output exists when the kernel does not fit |
| SimpleModels.ConvShape | apu-app/scripts/simple-models.py:129-132 | a layer accepts an input with its input channel count on which the kernel fits, and yields its output channels at the new sides |
| SimpleModels.Forward | apu-app/scripts/simple-models.py:137-142 | a network's steps yield one shape each, in order, when every operand fits |
| SimpleModels.NetworkV1Shapes | apu-app/scripts/simple-models.py:123-155 | the first network's layers produce the shapes its comments give on the 1 x 5 x 5 sample: 3x5x5, 3x5x5, their sum, 5x3x3, 1x1x1 |
| SimpleModels.NetworkV2Shapes | apu-app/scripts/simple-models.py:158-190 | the second network on its 1 x 7 x 7 sample produces the same shapes |
| SimpleModels.NetworkV2SmallInput | apu-app/scripts/simple-models.py:161-167 | on the 1 x 5 x 5 input its comments name, the second network's last convolution no longer fits |
| ConvertTflite.InitializerNames | apu-app/scripts/convert-to-tflite.py:14-16 | a name is an initializer name exactly when some initializer of the graph carries it |
| ConvertTflite.DimValues | apu-app/scripts/convert-to-tflite.py:21-27 | the dimensions yield a list exactly when every one has a value, and that list holds the values in declared order |
| ConvertTflite.ExtractOkIff | apu-app/scripts/convert-to-tflite.py:18-28 | the input map is built exactly when every dimension of every non-initializer input has a value; otherwise `NotImplementedError` is raised |
| ConvertTflite.ExtractKeys | apu-app/scripts/convert-to-tflite.py:18-28 | the map's keys are exactly the names of the graph inputs that are not initializers |
| ConvertTflite.ExtractValue | apu-app/scripts/convert-to-tflite.py:21-28 | the shape recorded for a name is the dimension values of the last input of that name |
| ConvertTflite.ExtractIgnoresInitializers | apu-app/scripts/convert-to-tflite.py:19-20 | an initializer's dimensions never change the outcome, even when they lack values |
| ConvertTflite.UnsupportedStays | apu-app/scripts/convert-to-tflite.py:25-27 | once some input raises, the conversion raises whatever inputs follow |
| ConvertTflite.ExtractInputs | apu-app/scripts/convert-to-tflite.py:14-28 | the nested loop computes the input map, or the error, that the inputs determine |
| ConvertTflite.CalibrationSample | apu-app/scripts/convert-to-tflite.py:43-48 | a sample holds one array per input, of that input's recorded shape, and nothing else |
| ConvertTflite.CalibrationDataset | apu-app/scripts/convert-to-tflite.py:41-48 | the generator yields 100 samples, each covering exactly the recorded inputs with their shapes |
| ConvertTflite.LastDot | apu-app/scripts/convert-to-tflite.py:83 | the index found is a dot with no dot after it, or -1 when the name has no dot |
| ConvertTflite.Suffix | apu-app/scripts/convert-to-tflite.py:83 | a suffix, when there is one, is a proper tail of the name that starts with a dot |
| ConvertTflite.OnnxSuffixReplaced | apu-app/scripts/convert-to-tflite.py:82-83 | for a name ending in `.onnx` and longer than it, the new name is the name with `.onnx` replaced by `.tflite` |
| ConvertTflite.OutputPath | apu-app/scripts/convert-to-tflite.py:83-84 | the output path is the output directory, then the file's directories below the input, then its renamed last component |
| ConvertTflite.OutputNameInjective | apu-app/scripts/convert-to-tflite.py:83 | two different such names never get the same output name |
| ConvertTflite.OutputPathInjective | apu-app/scripts/convert-to-tflite.py:82-85 | two different model files found below the input never write the same output file |
| ConvertTflite.DotOnnxCollides | apu-app/scripts/convert-to-tflite.py:83-84 | a file named just `.onnx` and a file `.onnx.onnx` beside it both go to `.onnx.tflite` |
| ConvertTflite.ProcessStatus | apu-app/scripts/convert-to-tflite.py:89-90 | the process reports failure exactly when `main` raises, since its return value is dropped |
| ConvertTflite.MissingInputStatus | apu-app/scripts/convert-to-tflite.py:75-77 | a missing input still ends the process with status 0 |
| ConvertTflite.FirstRaising | apu-app/scripts/convert-to-tflite.py:82-85 | every file before the index converts, and the file at the index raises |
| ConvertTflite.DirWritten | apu-app/scripts/convert-to-tflite.py:82-85 | the directory loop writes one model per file before the first that raises, in the order found, each at its output path |
| ConvertTflite.SaveToTflite | apu-app/scripts/convert-to-tflite.py:36-58 | a model is written exactly when its inputs extract, from the given source to the given destination, calibrated on 100 samples over its inputs |
| ConvertTflite.ConvertDirectory | apu-app/scripts/convert-to-tflite.py:81-85 | the loop writes exactly the models of `DirWritten` and raises exactly when some file found cannot convert |
| ConvertTflite.RunMain | apu-app/scripts/convert-to-tflite.py:61-87 | a missing input returns -1, a file is converted or raises, a directory is converted file by file, and anything else writes nothing |

## Left out

- The hardware is not modelled. Register reads, interrupts, the DMA engine's transfer of bytes and the host's memory are inputs. Register writes are logged.
- Register offsets and fields that the shown headers do not define follow section 3.1 of the NVMe Base Specification, revision 1.4. These are CC, CSTS, AQA, ASQ and ACQ, with CC.EN, CC.SHN, CSTS.RDY, CSTS.SHST, AQA.ASQS and AQA.ACQS.
- The opcodes for Delete I/O SQ, Delete I/O CQ, Firmware Commit and Firmware Image Download also follow the NVMe Base Specification.
- Threads, the rpmsg transport and concurrency are not modelled. Each command is handled to completion, one at a time. Message receipt, the clock and OS calls are inputs.
- Logging (`printk`, `printf`, spdlog) and the buffer dumps are left out.
- Tc: after 256 admin entries the slab is exhausted, because blocks are never freed. From then on nothing more is fetched. The model states this as the code does it.
- Tc.Controller.AdmTailHandler: requires `TailWriteDefined`, which excludes a doorbell write with a positive difference while the admin SQ size is 0. There tc.c:109-120 takes `% adm_sq_size` with a zero divisor, which is undefined in C and traps on the RPU; that fault is not modelled.
- Tc.Controller.HandleRegWrite: requires the same of a write to the admin tail doorbell, for the same reason.
- CmdHandler.Dispatch: Identify and Set Features end in a call of `nvme_cmd_adm_identify` or `nvme_cmd_adm_set_features` with the command's context, recorded as a `Handler` entry in the controller's outstanding calls. The cmds/identify.c and cmds/set_features.c shown take the older `(tc, buf, ...)` arguments of the main.c firmware and are modelled there (`LegacyCmds.LegacyTarget.Identify`, `LegacyCmds.LegacyTarget.SetFeatures`). The versions that take the command context are not part of this model, so no member completes that call.
- Lba: the window base is computed in 32 bits. LBAs 2^20 apart alias, and an LBA past the ramdisk wraps to low addresses. This is proved as written (`Lba.WindowBaseAliases`, `Lba.FirstWrappedWindow`) and not corrected. Nothing in the source says which bound was meant.
- IoAccCtl: SET_FW loads the image stored under the accelerator's own id, not under the id the command names. The code does this and the model keeps it.
- LegacyApuCmd: the older I/O accelerator control dereferences a firmware pointer that can be null. That crash is modelled as the process ending (`aborted`). The pointer map itself is an input.
- LegacyApuCmd: the older router calls the current `send_fw` of cmds/fw.cpp. That file's older twin is not part of this model.
- ApuCmd.HandleIoCmd: when `send_fw` ends the process, no acknowledgement is sent and the buffer mapping is left in place. Both are stated; process teardown is not modelled.
- Cma.MmapOffset: `id << 16` is taken as a 32-bit signed value, so ids from 0x8000 on give negative offsets. This is proved by `Cma.MmapOffsetWraps`. `cma_init`, `cma_clean`, the cache flush (inline assembly) and the driver's ioctl results are inputs, or are left out.
- Assertions in the source are taken as enabled; NDEBUG builds are not modelled.
- Qspi.FwDownload: requires the host data to hold the 32-bit product ndw * 4 bytes. The code copies that many bytes without comparing against the buffer length.
- Qspi.FwDownload: a copy that would run past the end of the buffer, which the 32-bit wrap of `(off+ndw)*4` allows (Qspi.DownloadOverrun), writes outside the vector; that is undefined behaviour in C++, and the model keeps the resized buffer and does not model the stray write.
- ApuCmd.HandleAdmCmd: requires the same of a firmware download, for the same reason, and keeps the same buffer on an overrun.
- ApuCmd.RunAdm, ApuCmd.AdmHandled: requires the same host-buffer bound of a firmware download as Qspi.FwDownload, for the same reason.
- Qspi.FwCommit: writing the image to the mtd device is I/O and is left out. The outcome of each file operation is an input.
- ApuStatus: status.c is the older twin of status.cpp and has the same logic. One model serves both.
- VtaDelegate: the interpreter's `GetNodeAndRegistration` and each operation's computation are inputs. `Prepare` and `Free`, which only return success, are not modelled. `Init` does not clear operations from an earlier call: the model appends, as the code does.
- VtaDelegate: the TensorFlow Lite constants are taken from TensorFlow Lite's public headers, which are not part of this model: `kTfLiteBuiltinAdd` = 0, `kTfLiteBuiltinConv2d` = 3, `kTfLiteInt32` = 2, `kTfLiteUInt8` = 3, `kTfLiteInt8` = 9.
- TensorLayout: elements are one byte wide, as in the tests. Other element sizes are not modelled.
- SimpleModels.MakeFixtures: the two composite networks at lines 282-288 of simple-models.py are not in the fixture list. Their layer shapes are modelled by `SimpleModels.Forward` and the two shape lemmas. The generator functions that `main` does not call are left out.
- SimpleModels: PyTorch model construction, export to ONNX, evaluation and weights are left out. What is modelled is which files are made, their names and the shapes involved.
- ConvertTflite: the values of the calibration samples are normally distributed at random and are not modelled. Only their shapes and count are.
- ConvertTflite: the onnx-tf and TensorFlow Lite converter calls are foreign code and are left out. So are the temporary directory named after the clock, `mkdir` and `rmtree`. What the file system holds, including the order in which `rglob` yields files, is an input.
- ConvertTflite.OutputPath: a file named just `.onnx` gets the same output as `.onnx.onnx` beside it. This is pathlib's suffix rule (`ConvertTflite.DotOnnxCollides`), not evidently a mistake, so it is recorded and not corrected.

## Findings

| source | as written | input that shows it | evidently intended | confidence | as-written member | corrected member |
|---|---|---|---|---|---|---|
| rpu-app/src/tc.h:19-20 | `DOORBELL_TAIL(n+1)` expands to `DOORBELL_REG((n+1*2))`, i.e. doorbell n+2 | n = 1 gives tail doorbell 3, the head doorbell of I/O queue 0 | tail doorbell 2(n+1) and head doorbell 2(n+1)+1 | not executed | TcMacros.IoDoorbellCollision | TcMacros.IoDoorbellsDistinct |
| rpu-app/src/tc.h:29 | `CLR_FIELD` is `SET_FIELD` with the value 0, which ORs in nothing | clearing SHST in a CSTS that reports shutdown complete leaves it reporting shutdown complete | clear the field's bits | not executed | TcMacros.ClrFieldKeepsShutdown | TcMacros.ClrFieldClears |
| rpu-app/src/tc.c:58 | `cc && NVME_TC_REG_CC_EN` is a logical and, true for any non-zero CC | CC = 0x00460000, with EN clear, enables the controller and sets RDY | `cc & NVME_TC_REG_CC_EN` | not executed | TcStatus.CcEnablesWithoutEn | TcStatus.CcIntendedReady |
| rpu-app/src/main.c:80 | the word at the lower address becomes the upper half of the admin SQ base | a queue at host address 0x1000 is taken to sit at 0x100000000000 | the lower word is the low half, as rpu-app/src/tc.c joins them | not executed | LegacyTc.SwappedBaseExample | Tc.JoinSplits |
| rpu-app/src/cmds/create_queues.c:48-86 | Create I/O CQ stores its PRP1 into `io_sq_base` | SQ 1 created at 0x1000 and then CQ 1 at 0x2000 leaves the SQ at 0x2000 | store into `io_cq_base`, as cmds/queues.c does | not executed | LegacyCmds.CreateCqClobbersSqBase | Queues.CreatePairKeepsBases |
| rpu-app/src/ramdisk.c:26 | a read checks only its first block | a read of 2 blocks from the last block is accepted | the whole range lies on the disk | not executed | Ramdisk.Disk.ReadPastEnd | Ramdisk.Disk.Read |
| rpu-app/src/ramdisk.c:31 | a write needs `lba + nlb < BLK_CNT` | a write of the last block alone is refused | `lba + nlb <= BLK_CNT` | not executed | Ramdisk.Disk.LastBlockRefused | Ramdisk.Disk.Write |
| apu-app/src/cmds/qspi.cpp:98-103 | `(off+ndw)*4` is computed in 32 bits | off = 0x3FFF_FFFF and ndw = 2 grow the buffer to 4 bytes while the copy starts at byte 0xFFFF_FFFC | grow the buffer to the true end of the window | not executed | Qspi.DownloadOverrun | Qspi.Downloaded |
