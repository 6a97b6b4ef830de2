/** The REPL of src/bin/nvmetoy_repl.rs: one line, a whole session, the whole program. */
module Repl {
  import opened Arithmetic
  import opened Bytes
  import opened NvmeSpec
  import opened DmaLayout
  import opened Ring
  import opened Controller
  import opened System
  import opened Submit
  import opened BringUp
  import opened BlockDevice
  import opened Hardware
  import opened Driver
  import opened FileBlocks
  import opened Confinement
  import opened Commands
  import opened Afterlife
  import opened Text
  import BlockMap
  import opened Wrappers

  // --- the session ------------------------------------------------------------------------------------------

  /** What a write to the file needs: a working driver that knows the block size, and a map that can be divided by. */
  ghost predicate Ready(driver: NvmeUserspaceDriver, blocks: Blocks)
    reads driver, driver.nvmeBar, driver.dmaRegion.bytes, driver.adminQueue, driver.ioQueue
  {
    driver.Valid() && driver.nsid in driver.blockSizes && ExtentsFit(blocks.extents) && blocks.deviceLbaSize > 0
  }

  /** The map fits the device: sizes compatible, as nothing in the program checks, and extents within 64 bits. */
  predicate Usable(dev: Device, blocks: Blocks) {
    ExtentsFit(blocks.extents) && 0 < blocks.deviceLbaSize <= dev.blockSize
  }

  /** What every command relies on and keeps, whatever the controller does and however many calls give up. */
  ghost predicate SessionOk(driver: NvmeUserspaceDriver, blocks: Blocks)
    reads driver, driver.nvmeBar, driver.dmaRegion.bytes, driver.adminQueue, driver.ioQueue
  {
    Ready(driver, blocks) && Usable(driver.nvmeBar.dev, blocks)
  }

  /** The map counts in the namespace's blocks, and everything submitted names bytes of the file only. */
  ghost predicate Confined(driver: NvmeUserspaceDriver, blocks: Blocks)
    reads driver, driver.nvmeBar, driver.ioQueue
  {
    && blocks.deviceLbaSize == driver.nvmeBar.dev.blockSize
    && SubmittedInFile(driver.nvmeBar.dev, blocks, driver.ioQueue.submitted)
  }

  lemma SubmitsInFile(dev: Device, blocks: Blocks, submitted: seq<Sqe>, now: seq<Sqe>, opc: U8, slba: nat, count: nat)
    requires SubmittedInFile(dev, blocks, submitted) && Submits(submitted, now, opc, slba, count)
    requires blocks.deviceLbaSize == dev.blockSize > 0 && AllInFile(blocks.extents, slba, count)
    ensures SubmittedInFile(dev, blocks, now)
  {
    SameUnits(dev, blocks, slba, count);
    hide AllInFile, RangeInFile, Slba, BlockCount;
    forall k | 0 <= k < |now|
      ensures CommandInFile(dev, blocks, now[k])
    {
      if k < |submitted| {
        assert now[k] == submitted[k];
      }
    }
  }

  /** The trace a command leaves. */
  ghost function TraceOf(was: seq<Sqe>, driver: NvmeUserspaceDriver, failure: Option<Error>): Trace
    requires |driver.nvmeBar.ctl.queues| == 2
    reads driver, driver.nvmeBar, driver.adminQueue, driver.ioQueue
  {
    Trace(was, driver.ioQueue.submitted, driver.nvmeBar.ctl.queues[1].posted, failure, driver.NoTimeouts())
  }

  /** Reads blocks of the file: exactly the reads that fit are submitted; every other is refused for a stated reason. */
  method ConfinedRead(driver: NvmeUserspaceDriver, blocks: Blocks, lba: U64,
                      count: U64) returns (result: Result<seq<U8>>)
    requires SessionOk(driver, blocks)
    modifies driver, driver.nvmeBar, driver.dmaRegion.bytes, driver.adminQueue, driver.ioQueue
    ensures SessionOk(driver, blocks) && Grows(old(driver.nvmeBar.ctl), driver.nvmeBar.ctl)
    ensures old(Confined(driver, blocks)) ==> Confined(driver, blocks)
    ensures ReadAnswer(driver.nvmeBar.dev, blocks, lba, count,
                       TraceOf(old(driver.ioQueue.submitted), driver, Failure(result)))
    ensures !ReadGoes(driver.nvmeBar.dev, blocks, lba, count) ==>
      driver.TheWorld() == old(driver.TheWorld()) && driver.Hosts() == old(driver.Hosts())
    ensures result.Ok? ==> |result.value| == BlockBytes(driver.nvmeBar.dev, count)
    ensures driver.NoTimeouts() ==> old(driver.NoTimeouts()) && driver.Media() == old(driver.Media())
    ensures driver.NoTimeouts() && result.Ok? && count > 0 ==>
      Atomic(driver.Media(), ReadOk(BlockBytes(driver.nvmeBar.dev, lba), result.value), driver.Media())
  {
    hide InFile, AllInFile, BlockBytes, Atomic, Submits, SubmittedInFile, AnsweredBy, Grows, SysInv, IoReady,
         StrideOf, HostFits, Idle, Chain;
    GrowsSelf(driver.nvmeBar.ctl);
    SomeBytes(driver.nvmeBar.dev, count);
    var checked, _ := FileBlocks.Check(blocks, lba, count);
    CheckedOut(blocks.extents, lba, count, checked);
    var _ :- checked;
    if count == 0 {
      NoBlocks(driver.nvmeBar.dev);
      return Ok([]);
    }
    if count >= 0x1_0000 {
      return Err(TooLarge);
    }
    ghost var submitted := driver.ioQueue.submitted;
    result := driver.Read(lba, count);
    if old(Confined(driver, blocks)) && ReadFits(driver.nvmeBar.dev, count) {
      SubmitsInFile(driver.nvmeBar.dev, blocks, submitted, driver.ioQueue.submitted, OP_READ, lba, count);
    }
  }

  lemma CheckedOut(extents: seq<Extent>, lba: nat, count: nat, checked: Result<()>)
    requires checked.Ok? <==> AllInFile(extents, lba, count)
    requires checked == Err(RangeOverflow) <==> count > 0 && lba + count >= U64_LIMIT
    requires checked.Err? && checked.error.NotInFile? ==>
      var n := checked.error.lba; lba <= n < lba + count && !InFile(extents, n) && AllInFile(extents, lba, n - lba)
    requires checked.Err? ==> checked.error.NotInFile? || checked.error == RangeOverflow
    ensures checked.Err? ==> CheckRefuses(extents, lba, count, checked.error)
    ensures count == 0 ==> checked.Ok?
  {
    hide InFile;
  }

  lemma SomeBytes(dev: Device, count: nat)
    requires dev.blockSize > 0
    ensures BlockBytes(dev, count) > 0 <==> count > 0
  {
  }

  /**
   Writes whole blocks of the file, for any block size in the map: exactly the payloads of whole blocks that pass
   the check and fit are submitted, and the command names the namespace's number of blocks. If the two sizes
   are the same, the session stays in the file.
   */
  method ConfinedWrite(driver: NvmeUserspaceDriver, blocks: Blocks, lba: U64,
                       data: seq<U8>) returns (result: Result<nat>)
    requires Ready(driver, blocks)
    modifies driver, driver.nvmeBar, driver.dmaRegion.bytes, driver.adminQueue, driver.ioQueue
    ensures Ready(driver, blocks) && Grows(old(driver.nvmeBar.ctl), driver.nvmeBar.ctl)
    ensures WriteAnswer(driver.nvmeBar.dev, blocks, lba, |data|,
                        TraceOf(old(driver.ioQueue.submitted), driver, Failure(result)))
    ensures !WriteGoes(driver.nvmeBar.dev, blocks, lba, |data|) ==>
      driver.TheWorld() == old(driver.TheWorld()) && driver.Hosts() == old(driver.Hosts())
    ensures old(SessionOk(driver, blocks)) ==> SessionOk(driver, blocks)
    ensures old(Confined(driver, blocks)) ==> Confined(driver, blocks)
    ensures result.Ok? ==> MapBytes(blocks.deviceLbaSize, result.value) == |data|
    ensures driver.NoTimeouts() ==> old(driver.NoTimeouts())
    ensures driver.NoTimeouts() ==>
      Atomic(old(driver.Media()), WriteEvent(driver.nvmeBar.dev, lba, data, result.Ok?), driver.Media())
  {
    hide InFile, AllInFile, BlockBytes, BlocksIn, Atomic, Submits, SubmittedInFile, AnsweredBy, Grows, SysInv,
         IoReady, StrideOf, HostFits, Idle, Chain;
    GrowsSelf(driver.nvmeBar.ctl);
    NothingTorn(driver.Media(), BlockBytes(driver.nvmeBar.dev, lba), data);
    var blockSize := blocks.deviceLbaSize;
    if |data| == 0 || |data| % blockSize != 0 {
      return Err(BadLength);
    }
    var count := |data| / blockSize;
    Exact(|data|, blockSize);
    var checked, _ := FileBlocks.Check(blocks, lba, count);
    CheckedOut(blocks.extents, lba, count, checked);
    var _ :- checked;
    ghost var submitted := driver.ioQueue.submitted;
    var written := driver.Write(lba, data);
    if old(Confined(driver, blocks)) && WholePayload(driver.nvmeBar.dev, |data|) {
      SameCounts(driver.nvmeBar.dev, blocks, |data|);
      SubmitsInFile(driver.nvmeBar.dev, blocks, submitted, driver.ioQueue.submitted, OP_WRITE, lba,
                    BlocksIn(driver.nvmeBar.dev, |data|));
    }
    var _ :- written;
    result := Ok(count);
  }

  /** When the sizes agree the driver writes as many blocks as were checked. */
  lemma SameCounts(dev: Device, blocks: Blocks, length: nat)
    requires blocks.deviceLbaSize == dev.blockSize > 0
    ensures BlocksIn(dev, length) == Quotient(length, blocks.deviceLbaSize)
  {
  }

  /**
   With another size in the map the check does not protect: whatever `ConfinedWrite` is asked to store in a file
   of exactly the checked blocks, from block 1 on, the command it submits names a byte outside.
   */
  lemma WriteLeavesFile(dev: Device, deviceLbaSize: U64, length: nat, t: Trace)
    requires ValidDevice(dev) && deviceLbaSize != dev.blockSize && Payload(deviceLbaSize, dev.blockSize, length)
    requires WriteAnswer(dev, CheckedFile(length, deviceLbaSize), 1, length, t)
    ensures ExtentsFit(CheckedFile(length, deviceLbaSize).extents)
    ensures |t.now| == |t.was| + 1 && !CommandInFile(dev, CheckedFile(length, deviceLbaSize), t.now[|t.was|])
  {
    var e := Escapes(dev, deviceLbaSize, length);
    LeavesFile(dev, deviceLbaSize, length, e);
    assert WriteGoes(dev, CheckedFile(length, deviceLbaSize), 1, length);
    assert BlocksIn(dev, length) == Quotient(length, dev.blockSize);
    hide Quotient, BlocksIn, CommandInFile, AnsweredBy, Slba, BlockCount;
    LeavesFile(dev, deviceLbaSize, length, t.now[|t.was|]);
  }

  /** `buffer[offset..offset + n].copy_from_slice(source)`. */
  method CopyFromSlice(buffer: array<U8>, offset: nat, source: seq<U8>)
    requires offset + |source| <= buffer.Length
    modifies buffer
    ensures buffer[..] == WriteAt(old(buffer[..]), offset, source)
  {
    for i := 0 to |source|
      invariant forall k :: 0 <= k < buffer.Length ==>
        buffer[k] == if offset <= k < offset + i then source[k - offset] else old(buffer[k])
    {
      buffer[offset + i] := source[i];
    }
  }

  /** The command forms below end as `CommandAnswer` says and do what `Did` says. */
  method FillBlocks(driver: NvmeUserspaceDriver, blocks: Blocks, lba: U64, byte: U8,
                    count: U64) returns (result: Result<()>)
    requires SessionOk(driver, blocks)
    modifies driver, driver.nvmeBar, driver.dmaRegion.bytes, driver.adminQueue, driver.ioQueue
    ensures SessionOk(driver, blocks) && Grows(old(driver.nvmeBar.ctl), driver.nvmeBar.ctl)
    ensures old(Confined(driver, blocks)) ==> Confined(driver, blocks)
    ensures var t := TraceOf(old(driver.ioQueue.submitted), driver, Failure(result));
      CommandAnswer(driver.nvmeBar.dev, blocks, Fill(lba, byte, count), t)
    ensures driver.NoTimeouts() ==> old(driver.NoTimeouts())
    ensures driver.NoTimeouts() ==>
      Did(driver.nvmeBar.dev, blocks.deviceLbaSize, old(driver.Media()), Fill(lba, byte, count),
          driver.Media(), result.Ok?, [])
  {
    hide InFile, AllInFile, BlockBytes, SubmittedInFile, WriteAt, MapBytes, SysInv, IoReady, StrideOf, HostFits,
         Idle, Chain, Grows, WriteAnswer;
    GrowsSelf(driver.nvmeBar.ctl);
    NothingTorn(driver.Media(), BlockBytes(driver.nvmeBar.dev, lba),
                Repeated(byte, MapBytes(blocks.deviceLbaSize, count)));
    if count == 0 {
      return Err(ZeroBlocks);
    }
    var bytes := MapBytes(blocks.deviceLbaSize, count);
    if bytes > MAX_TRANSFER_BYTES {
      return Err(TooLarge);
    }
    var data := Repeated(byte, bytes);
    var written := ConfinedWrite(driver, blocks, lba, data);
    var _ :- written;
    result := Ok(());
  }

  lemma SameCount(size: nat, a: nat, b: nat)
    requires size > 0 && MapBytes(size, a) == MapBytes(size, b)
    ensures a == b
  {
    if a < b {
      MulStrict(a, b, size);
    } else if b < a {
      MulStrict(b, a, size);
    }
  }

  /** Shows bytes of one block. */
  method PeekBytes(driver: NvmeUserspaceDriver, blocks: Blocks, lba: U64, offset: U64,
                   len: U64) returns (result: Result<seq<U8>>)
    requires SessionOk(driver, blocks)
    modifies driver, driver.nvmeBar, driver.dmaRegion.bytes, driver.adminQueue, driver.ioQueue
    ensures SessionOk(driver, blocks) && Grows(old(driver.nvmeBar.ctl), driver.nvmeBar.ctl)
    ensures old(Confined(driver, blocks)) ==> Confined(driver, blocks)
    ensures var t := TraceOf(old(driver.ioQueue.submitted), driver, Failure(result));
      CommandAnswer(driver.nvmeBar.dev, blocks, Peek(lba, offset, len), t)
    ensures driver.NoTimeouts() ==> old(driver.NoTimeouts())
    ensures driver.NoTimeouts() ==>
      Did(driver.nvmeBar.dev, blocks.deviceLbaSize, old(driver.Media()), Peek(lba, offset, len),
          driver.Media(), result.Ok?,
          if result.Ok? then result.value else [])
  {
    hide InFile, BlockBytes, SubmittedInFile, WriteAt, SysInv, IoReady, StrideOf, HostFits, Idle, Chain, Atomic,
         Grows, ReadAnswer;
    GrowsSelf(driver.nvmeBar.ctl);
    var blockSize := blocks.deviceLbaSize;
    if offset >= blockSize || len > blockSize - offset {
      return Err(DoesNotFit);
    }
    OneBlock(driver.nvmeBar.dev);
    var block :- ConfinedRead(driver, blocks, lba, 1);
    if driver.NoTimeouts() {
      PartOfBlock(driver.Media(), BlockBytes(driver.nvmeBar.dev, lba), block, offset, len);
    }
    result := Ok(block[offset..offset + len]);
  }

  lemma PartOfBlock(media: seq<U8>, start: nat, block: seq<U8>, offset: nat, len: nat)
    requires Atomic(media, ReadOk(start, block), media) && offset + len <= |block|
    ensures Atomic(media, ReadOk(start + offset, block[offset..offset + len]), media)
  {
    var part := block[offset..offset + len];
    forall i | 0 <= i < len
      ensures part[i] == ReadAt(media, start + offset, len)[i]
    {
      assert block[offset + i] == ReadAt(media, start, |block|)[offset + i];
    }
  }

  lemma OneBlock(dev: Device)
    ensures BlockBytes(dev, 1) == dev.blockSize
  {
  }

  /** Overwrites whole blocks with a text, the tail of the last one zeroed. */
  method WriteBlocks(driver: NvmeUserspaceDriver, blocks: Blocks, lba: U64,
                     bytes: seq<U8>) returns (result: Result<nat>)
    requires SessionOk(driver, blocks)
    modifies driver, driver.nvmeBar, driver.dmaRegion.bytes, driver.adminQueue, driver.ioQueue
    ensures SessionOk(driver, blocks) && Grows(old(driver.nvmeBar.ctl), driver.nvmeBar.ctl)
    ensures old(Confined(driver, blocks)) ==> Confined(driver, blocks)
    ensures var t := TraceOf(old(driver.ioQueue.submitted), driver, Failure(result));
      CommandAnswer(driver.nvmeBar.dev, blocks, Write(lba, bytes), t)
    ensures result.Ok? ==> result.value == CeilBlocks(|bytes|, blocks.deviceLbaSize)
    ensures driver.NoTimeouts() ==> old(driver.NoTimeouts())
    ensures driver.NoTimeouts() ==>
      Did(driver.nvmeBar.dev, blocks.deviceLbaSize, old(driver.Media()), Write(lba, bytes),
          driver.Media(), result.Ok?, [])
  {
    hide InFile, AllInFile, BlockBytes, SubmittedInFile, MapBytes, CeilBlocks, Torn, SysInv, IoReady, StrideOf,
         HostFits, Idle, Chain, Grows, WriteAnswer;
    GrowsSelf(driver.nvmeBar.ctl);
    var blockSize := blocks.deviceLbaSize;
    PaddedFits(|bytes|, blockSize);
    NothingTorn(driver.Media(), BlockBytes(driver.nvmeBar.dev, lba), Padded(bytes, blockSize));
    if bytes == [] {
      return Err(NothingToWrite);
    }
    var buffer := new U8[MapBytes(blockSize, CeilBlocks(|bytes|, blockSize))](_ => 0);
    CopyFromSlice(buffer, 0, bytes);
    assert buffer[..] == Padded(bytes, blockSize);
    hide WriteAt;
    result := ConfinedWrite(driver, blocks, lba, buffer[..]);
    if result.Ok? {
      SameCount(blockSize, result.value, CeilBlocks(|bytes|, blockSize));
    }
  }

  /** Reads one block, patches it and writes it back. */
  method PokeBytes(driver: NvmeUserspaceDriver, blocks: Blocks, lba: U64, offset: U64,
                   bytes: seq<U8>) returns (result: Result<()>)
    requires SessionOk(driver, blocks)
    modifies driver, driver.nvmeBar, driver.dmaRegion.bytes, driver.adminQueue, driver.ioQueue
    ensures SessionOk(driver, blocks) && Grows(old(driver.nvmeBar.ctl), driver.nvmeBar.ctl)
    ensures old(Confined(driver, blocks)) ==> Confined(driver, blocks)
    ensures var t := TraceOf(old(driver.ioQueue.submitted), driver, Failure(result));
      CommandAnswer(driver.nvmeBar.dev, blocks, Poke(lba, offset, bytes), t)
    ensures driver.NoTimeouts() ==> old(driver.NoTimeouts())
    ensures driver.NoTimeouts() ==>
      Did(driver.nvmeBar.dev, blocks.deviceLbaSize, old(driver.Media()), Poke(lba, offset, bytes),
          driver.Media(), result.Ok?, [])
  {
    hide InFile, BlockBytes, SubmittedInFile, Torn, WriteAt, Padded, CeilBlocks, MapBytes, SysInv, IoReady,
         StrideOf, HostFits, Idle, Chain, Grows, ReadAnswer, WriteAnswer, PatchAnswer, ReadGoes, WriteGoes, Did,
         Atomic;
    GrowsSelf(driver.nvmeBar.ctl);
    ghost var media, dev, was := driver.Media(), driver.nvmeBar.dev, driver.ioQueue.submitted;
    PokeUndone(dev, blocks.deviceLbaSize, media, lba, offset, bytes);
    if bytes == [] {
      return Err(NothingToWrite);
    }
    var blockSize := blocks.deviceLbaSize;
    if offset >= blockSize || |bytes| > blockSize - offset {
      return Err(DoesNotFit);
    }
    OneBlock(dev);
    var read := ConfinedRead(driver, blocks, lba, 1);
    ghost var first := TraceOf(was, driver, Failure(read));
    if read.Err? {
      PatchEndsEarly(dev, blocks, lba, first);
    }
    var block :- read;
    ghost var ctl := driver.nvmeBar.ctl;
    var buffer := new U8[|block|](i requires 0 <= i < |block| => block[i]);
    assert buffer[..] == block;
    CopyFromSlice(buffer, offset, bytes);
    var written := ConfinedWrite(driver, blocks, lba, buffer[..]);
    GrowsThrough(old(driver.nvmeBar.ctl), ctl, driver.nvmeBar.ctl);
    IoGrows(ctl, driver.nvmeBar.ctl);
    PatchContinues(dev, blocks, lba, first, TraceOf(first.now, driver, Failure(written)));
    if driver.NoTimeouts() {
      PokeDone(dev, blocks.deviceLbaSize, media, lba, block, offset, bytes, driver.Media(), written.Ok?);
    }
    var _ :- written;
    result := Ok(());
  }

  lemma PokeUndone(dev: Device, size: nat, media: seq<U8>, lba: U64, offset: U64, bytes: seq<U8>)
    requires size > 0
    ensures Did(dev, size, media, Poke(lba, offset, bytes), media, false, [])
  {
    NothingTorn(media, BlockBytes(dev, lba) + offset, bytes);
    hide BlockBytes, Torn;
  }

  lemma PokeDone(dev: Device, size: nat, media: seq<U8>, lba: U64, block: seq<U8>, offset: U64, bytes: seq<U8>,
                 after: seq<U8>, ok: bool)
    requires size > 0 && offset + |bytes| <= |block|
    requires Atomic(media, ReadOk(BlockBytes(dev, lba), block), media)
    requires Atomic(media, WriteEvent(dev, lba, WriteAt(block, offset, bytes), ok), after)
    ensures Did(dev, size, media, Poke(lba, offset, bytes), after, ok, [])
  {
    Patched(media, BlockBytes(dev, lba), block, offset, bytes);
    PatchedTorn(media, after, BlockBytes(dev, lba), block, offset, bytes);
    hide BlockBytes, Torn, WriteAt;
  }

  lemma IoGrows(c: Ctl, d: Ctl)
    requires Grows(c, d)
    ensures c.queues[1].posted <= d.queues[1].posted
  {
  }

  /** The read of a patch fails, and that is all. */
  lemma PatchEndsEarly(dev: Device, blocks: Blocks, lba: nat, t: Trace)
    requires blocks.deviceLbaSize > 0 && ReadAnswer(dev, blocks, lba, 1, t) && t.failure.Some?
    ensures PatchAnswer(dev, blocks, lba, t)
  {
    hide ReadGoes, ReadRefuses, WriteAnswer, IsSuccess;
    if ReadGoes(dev, blocks, lba, 1) {
      assert t.now[..|t.was| + 1] == t.now;
    }
  }

  /** The read of a patch succeeds, and the write follows. */
  lemma PatchContinues(dev: Device, blocks: Blocks, lba: nat, first: Trace, second: Trace)
    requires blocks.deviceLbaSize > 0 && ReadAnswer(dev, blocks, lba, 1, first) && first.failure.None?
    requires second.was == first.now && WriteAnswer(dev, blocks, lba, BlockBytes(dev, 1), second)
    requires first.posted <= second.posted && (second.quiet ==> first.quiet)
    ensures PatchAnswer(dev, blocks, lba, second.(was := first.was))
  {
    hide ReadRefuses, WriteRefuses, WriteGoes, IsSuccess, BlockBytes, BlocksIn, AllInFile, ReadFits;
    assert ReadGoes(dev, blocks, lba, 1);
    assert second.now[..|first.was| + 1] == second.was;
  }

  /** Writing back a patched block is writing the patch. */
  lemma Patched(media: seq<U8>, start: nat, block: seq<U8>, offset: nat, bytes: seq<U8>)
    requires start + |block| <= |media| && offset + |bytes| <= |block| && block == ReadAt(media, start, |block|)
    ensures WriteAt(media, start, WriteAt(block, offset, bytes)) == WriteAt(media, start + offset, bytes)
  {
  }

  lemma PatchedTorn(media: seq<U8>, after: seq<U8>, start: nat, block: seq<U8>, offset: nat, bytes: seq<U8>)
    requires start + |block| <= |media| && offset + |bytes| <= |block| && block == ReadAt(media, start, |block|)
    ensures Torn(media, after, start, WriteAt(block, offset, bytes)) ==> Torn(media, after, start + offset, bytes)
  {
  }

  /** Identify Controller; only the layout of its printing is left out. */
  method IdentifyCommand(driver: NvmeUserspaceDriver, blocks: Blocks) returns (result: Result<seq<U8>>)
    requires SessionOk(driver, blocks)
    modifies driver.nvmeBar, driver.dmaRegion.bytes, driver.adminQueue
    ensures SessionOk(driver, blocks) && Grows(old(driver.nvmeBar.ctl), driver.nvmeBar.ctl)
    ensures old(Confined(driver, blocks)) ==> Confined(driver, blocks)
    ensures driver.NoTimeouts() ==> old(driver.NoTimeouts()) && driver.Media() == old(driver.Media())
    ensures driver.NoTimeouts() ==>
      && AnsweredBy(driver.nvmeBar.ctl.queues[0].posted, old(|driver.adminQueue.submitted|), Failure(result))
      && (result.Ok? ==> result.value == driver.nvmeBar.dev.controllerPage)
  {
    hide InFile, SubmittedInFile, SysInv, IoReady, StrideOf, HostFits, Idle, Chain, Grows, AnsweredBy;
    result := driver.IdentifyController();
  }

  // --- lines -------------------------------------------------------------------------------------------------

  /**
   One line of input. Words that are no command change nothing. A command ends as `CommandAnswer` says: it
   submits what it must, it fails only for a stated reason or with the status of its own completion; and
   without timeouts it does what `Did` says. `shown` is what the printing functions are given.
   */
  method RunReplLine(driver: NvmeUserspaceDriver, blocks: Blocks, line: string) returns (result: Result<bool>,
                     shown: seq<U8>)
    requires SessionOk(driver, blocks)
    modifies driver, driver.nvmeBar, driver.dmaRegion.bytes, driver.adminQueue, driver.ioQueue
    ensures SessionOk(driver, blocks) && Grows(old(driver.nvmeBar.ctl), driver.nvmeBar.ctl)
    ensures old(Confined(driver, blocks)) ==> Confined(driver, blocks)
    ensures old(driver.ioQueue.submitted) <= driver.ioQueue.submitted
    ensures driver.NoTimeouts() ==> old(driver.NoTimeouts())
    ensures var parsed := CommandOf(Fields(line));
      if parsed.Err? then
        && result == Err(parsed.error)
        && driver.TheWorld() == old(driver.TheWorld()) && driver.Hosts() == old(driver.Hosts())
      else
        var c := parsed.value;
        && (result.Ok? ==> result.value == !c.Quit?)
        && CommandAnswer(driver.nvmeBar.dev, blocks, c, TraceOf(old(driver.ioQueue.submitted), driver, Failure(result)))
        && (c.Help? || c.Quit? || c.List? ==> result.Ok? && driver.TheWorld() == old(driver.TheWorld()))
        && (driver.NoTimeouts() ==>
              && (c.Identify? ==>
                    AnsweredBy(driver.nvmeBar.ctl.queues[0].posted, old(|driver.adminQueue.submitted|),
                               Failure(result)))
              && Did(driver.nvmeBar.dev, blocks.deviceLbaSize, old(driver.Media()), c,
                     driver.Media(), result.Ok?, shown))
  {
    hide SessionOk, Confined, Fields, Join, TextBytes, ParseUnsigned, ParseAsciiChar, Did, BlockBytes, AllInFile,
         Atomic, ReadAnswer, CommandAnswer, AnsweredBy;
    shown := [];
    SessionFacts(driver, blocks);
    GrowsSelf(driver.nvmeBar.ctl);
    var tokens := Fields(line);
    ghost var dev, size := driver.nvmeBar.dev, blocks.deviceLbaSize;
    ghost var media, was := driver.Media(), driver.ioQueue.submitted;
    StoresNothing(dev, size, media);
    if tokens == ["help"] || tokens == ["list"] {
      QuietAnswer(dev, blocks, TraceOf(was, driver, None));
    } else if tokens == ["quit"] || tokens == ["exit"] {
      QuietAnswer(dev, blocks, TraceOf(was, driver, None));
      return Ok(false), [];
    } else if tokens == ["identify"] {
      var page := IdentifyCommand(driver, blocks);
      IdentifyAnswer(dev, blocks, TraceOf(was, driver, Failure(page)), driver.nvmeBar.ctl,
                     old(|driver.adminQueue.submitted|));
      if driver.NoTimeouts() && page.Ok? {
        IdentifyDid(dev, size, media);
      }
      shown :- page;
    } else if |tokens| == 3 && tokens[0] == "read" {
      var lba :- BlockMap.ParseU64(tokens[1]);
      var count :- BlockMap.ParseU64(tokens[2]);
      var data := ConfinedRead(driver, blocks, lba, count);
      IsReadAnswer(dev, blocks, lba, count, TraceOf(was, driver, Failure(data)));
      AnswerExtends(dev, blocks, Read(lba, count), TraceOf(was, driver, Failure(data)));
      shown :- data;
      if driver.NoTimeouts() {
        ReadDid(dev, size, media, lba, count, shown);
      }
    } else if |tokens| >= 3 && tokens[0] == "write" {
      var lba :- BlockMap.ParseU64(tokens[1]);
      var text := TextBytes(Join(tokens[2..]));
      var written := WriteBlocks(driver, blocks, lba, text);
      AnswerExtends(dev, blocks, Write(lba, text), TraceOf(was, driver, Failure(written)));
      var _ :- written;
    } else if |tokens| == 3 && tokens[0] == "fill" {
      var lba :- BlockMap.ParseU64(tokens[1]);
      var byte :- ParseAsciiChar(tokens[2]);
      var filled := FillBlocks(driver, blocks, lba, byte, 1);
      AnswerExtends(dev, blocks, Fill(lba, byte, 1), TraceOf(was, driver, Failure(filled)));
      var _ :- filled;
    } else if |tokens| == 4 && tokens[0] == "fill" {
      var lba :- BlockMap.ParseU64(tokens[1]);
      var byte :- ParseAsciiChar(tokens[2]);
      var count :- BlockMap.ParseU64(tokens[3]);
      var filled := FillBlocks(driver, blocks, lba, byte, count);
      AnswerExtends(dev, blocks, Fill(lba, byte, count), TraceOf(was, driver, Failure(filled)));
      var _ :- filled;
    } else if |tokens| == 4 && tokens[0] == "peek" {
      var lba :- BlockMap.ParseU64(tokens[1]);
      var offset :- BlockMap.ParseU64(tokens[2]);
      var len :- BlockMap.ParseU64(tokens[3]);
      var seen := PeekBytes(driver, blocks, lba, offset, len);
      AnswerExtends(dev, blocks, Peek(lba, offset, len), TraceOf(was, driver, Failure(seen)));
      shown :- seen;
    } else if |tokens| >= 4 && tokens[0] == "poke" {
      var lba :- BlockMap.ParseU64(tokens[1]);
      var offset :- BlockMap.ParseU64(tokens[2]);
      var text := TextBytes(Join(tokens[3..]));
      var patched := PokeBytes(driver, blocks, lba, offset, text);
      AnswerExtends(dev, blocks, Poke(lba, offset, text), TraceOf(was, driver, Failure(patched)));
      var _ :- patched;
    } else {
      return Err(UnknownCommand), [];
    }
    return Ok(true), shown;
  }

  lemma SessionFacts(driver: NvmeUserspaceDriver, blocks: Blocks)
    requires SessionOk(driver, blocks)
    ensures blocks.deviceLbaSize > 0 && |driver.nvmeBar.ctl.queues| == 2 && driver.adminQueue != driver.ioQueue
  {
    hide SysInv, IoReady, StrideOf, HostFits, Idle, Chain;
  }

  /** Commands that store nothing and have shown nothing. */
  lemma StoresNothing(dev: Device, size: nat, media: seq<U8>)
    requires size > 0
    ensures forall c: Command :: c in {Help, Quit, List} ==> Did(dev, size, media, c, media, true, [])
    ensures forall c: Command :: c.Identify? || c.Read? ==> Did(dev, size, media, c, media, false, [])
  {
  }

  lemma QuietAnswer(dev: Device, blocks: Blocks, t: Trace)
    requires blocks.deviceLbaSize > 0 && t.now == t.was && t.failure.None?
    ensures forall c: Command :: c in {Help, Quit, List} ==> CommandAnswer(dev, blocks, c, t)
  {
  }

  lemma IdentifyAnswer(dev: Device, blocks: Blocks, t: Trace, ctl: Ctl, n: nat)
    requires blocks.deviceLbaSize > 0 && t.now == t.was && |ctl.queues| == 2
    requires t.quiet ==> AnsweredBy(ctl.queues[0].posted, n, t.failure)
    ensures CommandAnswer(dev, blocks, Identify, t)
  {
  }

  lemma IdentifyDid(dev: Device, size: nat, media: seq<U8>)
    requires size > 0
    ensures Did(dev, size, media, Identify, media, true, dev.controllerPage)
  {
  }

  lemma IsReadAnswer(dev: Device, blocks: Blocks, lba: U64, count: U64, t: Trace)
    requires blocks.deviceLbaSize > 0 && ReadAnswer(dev, blocks, lba, count, t)
    ensures CommandAnswer(dev, blocks, Read(lba, count), t)
  {
    hide ReadAnswer;
  }

  /** Commands only add to what has been submitted. */
  lemma AnswerExtends(dev: Device, blocks: Blocks, c: Command, t: Trace)
    requires blocks.deviceLbaSize > 0 && CommandAnswer(dev, blocks, c, t)
    ensures t.was <= t.now
  {
    hide ReadGoes, ReadRefuses, WriteGoes, WriteRefuses, AnsweredBy, BlockBytes, BlocksIn, MapBytes, CeilBlocks,
         IsSuccess, Slba, BlockCount;
  }

  lemma ReadDid(dev: Device, size: nat, media: seq<U8>, lba: U64, count: U64, shown: seq<U8>)
    requires size > 0 && |shown| == BlockBytes(dev, count)
    requires count > 0 ==> Atomic(media, ReadOk(BlockBytes(dev, lba), shown), media)
    ensures Did(dev, size, media, Read(lba, count), media, true, shown)
  {
    hide BlockBytes, Atomic;
  }

  /** Which command each reply answers, and what each of them submitted. */
  ghost predicate TranscriptOf(driver: NvmeUserspaceDriver, blocks: Blocks, inputs: seq<Input>, replies: seq<Reply>,
                               starts: seq<nat>)
    reads driver, driver.nvmeBar, driver.adminQueue, driver.ioQueue
  {
    && blocks.deviceLbaSize > 0 && |driver.nvmeBar.ctl.queues| == 2 && |replies| == |CommandsOf(inputs)|
    && Transcript(driver.nvmeBar.dev, blocks, CommandsOf(inputs), replies, starts,
                  driver.ioQueue.submitted, driver.nvmeBar.ctl.queues[1].posted, driver.NoTimeouts())
  }

  /** The medium is now what the commands typed have made of `states[0]`, and what they showed was last stored. */
  ghost predicate ExplainedBy(driver: NvmeUserspaceDriver, blocks: Blocks, inputs: seq<Input>, replies: seq<Reply>,
                              states: seq<seq<U8>>)
    reads driver, driver.nvmeBar
  {
    && blocks.deviceLbaSize > 0 && |replies| == |CommandsOf(inputs)|
    && Explained(driver.nvmeBar.dev, blocks.deviceLbaSize, CommandsOf(inputs), replies, states)
    && states[|states| - 1] == driver.Media()
    && Faithful(driver.nvmeBar.dev, blocks.deviceLbaSize, CommandsOf(inputs), replies)
  }

  /**
   The loop of the program, with everything it prints. The session stays sound whatever is typed and whatever the
   controller does. The transcript answers exactly the commands typed, each as `CommandAnswer` says. Without
   timeouts the medium is explained by them, and what the transcript shows was last stored.
   */
  method RunSession(driver: NvmeUserspaceDriver, blocks: Blocks, inputs: seq<Input>)
    returns (result: Result<()>, replies: seq<Reply>, ghost starts: seq<nat>, ghost states: seq<seq<U8>>)
    requires SessionOk(driver, blocks)
    modifies driver, driver.nvmeBar, driver.dmaRegion.bytes, driver.adminQueue, driver.ioQueue
    ensures SessionOk(driver, blocks) && (old(Confined(driver, blocks)) ==> Confined(driver, blocks))
    ensures result == Ending(inputs)
    ensures driver.NoTimeouts() ==> old(driver.NoTimeouts())
    ensures TranscriptOf(driver, blocks, inputs, replies, starts)
    ensures starts != [] && starts[0] == old(|driver.ioQueue.submitted|)
    ensures driver.NoTimeouts() ==>
      && states != [] && states[0] == old(driver.Media()) && ExplainedBy(driver, blocks, inputs, replies, states)
  {
    hide SessionOk, Confined, Fields, CommandOf, Did, Transcript, Faithful, Grows, CommandAnswer, Explained;
    SessionFacts(driver, blocks);
    ghost var dev, size := driver.nvmeBar.dev, blocks.deviceLbaSize;
    ghost var commands: seq<Command> := [];
    replies, starts, states := [], [|driver.ioQueue.submitted|], [driver.Media()];
    EmptyTranscript(dev, blocks, driver.ioQueue.submitted, driver.nvmeBar.ctl.queues[1].posted,
                    driver.NoTimeouts(), driver.Media());
    for i := 0 to |inputs|
      invariant SessionOk(driver, blocks) && |driver.nvmeBar.ctl.queues| == 2
      invariant old(Confined(driver, blocks)) ==> Confined(driver, blocks)
      invariant Ending(inputs[i..]) == Ending(inputs)
      invariant driver.NoTimeouts() ==> old(driver.NoTimeouts())
      invariant Transcript(dev, blocks, commands, replies, starts, driver.ioQueue.submitted,
                           driver.nvmeBar.ctl.queues[1].posted, driver.NoTimeouts())
      invariant |commands| == |replies| && |states| == |commands| + 1
      invariant starts != [] && starts[0] == old(|driver.ioQueue.submitted|)
      invariant driver.NoTimeouts() ==>
        && Explained(dev, size, commands, replies, states)
        && states[0] == old(driver.Media()) && states[|states| - 1] == driver.Media()
      invariant commands + CommandsOf(inputs[i..]) == CommandsOf(inputs)
    {
      var input := inputs[i];
      assert inputs[i..][0] == input && inputs[i..][1..] == inputs[i + 1..];
      match input
      case Line(text) =>
        if Fields(text) == [] {
          NoWords();
          continue;
        }
        ghost var ctl, was, quiet := driver.nvmeBar.ctl, driver.ioQueue.submitted, driver.NoTimeouts();
        var more, shown := RunReplLine(driver, blocks, text);
        SessionFacts(driver, blocks);
        IoGrows(ctl, driver.nvmeBar.ctl);
        var parsed := CommandOf(Fields(text));
        if parsed.Ok? {
          var reply := Reply(Failure(more), shown);
          TranscriptGrows(dev, blocks, commands, replies, starts, was, ctl.queues[1].posted, quiet, parsed.value, reply,
                          driver.ioQueue.submitted, driver.nvmeBar.ctl.queues[1].posted, driver.NoTimeouts());
          if driver.NoTimeouts() {
            ExplainedGrows(dev, size, commands, replies, states, parsed.value, reply, driver.Media());
          }
          commands, replies := commands + [parsed.value], replies + [reply];
          starts, states := starts + [|driver.ioQueue.submitted|], states + [driver.Media()];
        }
        if more == Ok(false) {
          assert commands == CommandsOf(inputs);
          break;
        }
      case Interrupted =>
      case EndOfFile =>
        assert commands == CommandsOf(inputs);
        break;
      case Broken =>
        assert commands == CommandsOf(inputs);
        if driver.NoTimeouts() {
          ShowsLastStored(dev, size, commands, replies, states);
        }
        return Err(ReadlineFailed), replies, starts, states;
    }
    assert commands == CommandsOf(inputs);
    if driver.NoTimeouts() {
      ShowsLastStored(dev, size, commands, replies, states);
    }
    result := Ok(());
  }

  lemma EmptyTranscript(dev: Device, blocks: Blocks, submitted: seq<Sqe>, posted: seq<Posting>, quiet: bool,
                        media: seq<U8>)
    requires blocks.deviceLbaSize > 0
    ensures Transcript(dev, blocks, [], [], [|submitted|], submitted, posted, quiet)
    ensures Explained(dev, blocks.deviceLbaSize, [], [], [media])
  {
  }

  lemma ExplainedGrows(dev: Device, size: nat, commands: seq<Command>, replies: seq<Reply>, states: seq<seq<U8>>,
                       c: Command, r: Reply, after: seq<U8>)
    requires size > 0 && Explained(dev, size, commands, replies, states)
    requires Did(dev, size, states[|states| - 1], c, after, r.Succeeded(), r.shown)
    ensures Explained(dev, size, commands + [c], replies + [r], states + [after])
  {
    hide Did;
  }

  lemma NoWords()
    ensures CommandOf([]).Err?
  {
  }

  // --- the whole program -----------------------------------------------------------------------------------------

  /**
   The whole program: read the block map, bring the controller up, run the session. With a map that counts in the
   namespace's blocks, whatever is typed, whatever the controller does and whether or not anything fails, no byte
   outside the file has changed when it ends. Nor does any afterwards, when the hugepage is gone and memory may
   hold anything, unless a queue still shows the controller a command to fetch. The session is only missing if the map
   is refused or bring-up fails for a stated reason. It answers what was typed, and if nothing times out the
   medium, from its first state on, is explained by the commands.
   */
  method Run(bar: NvmeBar, dma: DmaRegion, mapFile: BlockMap.Source, nsid: U32, inputs: seq<Input>)
    returns (result: Result<()>, replies: seq<Reply>, ghost session: Option<NvmeUserspaceDriver>,
             ghost starts: seq<nat>, ghost states: seq<seq<U8>>)
    requires bar.Valid() && dma.Valid() && Zeroed(dma.bytes[..])
    requires bar.ctl.touched == {} && !bar.ctl.regs.misprogrammed
    requires var parsed := BlockMap.Meaning(mapFile); parsed.Ok? ==> Usable(bar.dev, parsed.value)
    modifies bar, dma.bytes
    ensures bar.Valid()
    ensures var parsed := BlockMap.Meaning(mapFile);
      if parsed.Ok? then
        parsed.value.deviceLbaSize == bar.dev.blockSize ==>
          && OnlyFileChanged(parsed.value, old(bar.ctl.media), bar.ctl.media)
          && (NothingLeft(bar.ctl) ==> SafeAfter(bar.dev, parsed.value, old(bar.ctl.media), bar.TheWorld(dma)))
      else result == Err(parsed.error) && bar.ctl == old(bar.ctl)
    ensures session.None? ==>
      && result.Err? && replies == []
      && (BlockMap.Meaning(mapFile).Ok? ==>
            && BringUpFailure(bar.dev, bar.ctl, result.error)
            && (result.error != TimedOut ==> NothingLeft(bar.ctl)))
    ensures session.Some? ==>
      var blocks, driver := BlockMap.Meaning(mapFile), session.value;
      && blocks.Ok? && driver.nvmeBar == bar && driver.dmaRegion == dma && SessionOk(driver, blocks.value)
      && result == Ending(inputs) && (driver.NoTimeouts() ==> NothingLeft(bar.ctl))
      && TranscriptOf(driver, blocks.value, inputs, replies, starts)
      && (driver.NoTimeouts() ==>
            states != [] && states[0] == old(bar.ctl.media)
            && ExplainedBy(driver, blocks.value, inputs, replies, states))
  {
    hide SysInv, IoReady, ValidDevice, StrideOf, HostFits, GoodBase, RingsAgree, Zeroed, Idle, Chain,
         BlockMap.Meaning, InFile, Transcript, Faithful, Explained, SafeAfter, OnlyFileChanged, SubmittedInFile,
         BringUpFailure, IoUntouched, NothingLeft, Ending, CreatesAt;
    replies, session, starts, states := [], None, [], [];
    ghost var media := bar.ctl.media;
    var blocks :- BlockMap.Parse(mapFile);
    NoChange(blocks, media);
    var brought := NvmeUserspaceDriver.Open(bar, dma, nsid);
    if brought.Err? {
      UntouchedSafe(bar.dev, blocks, bar.TheWorld(dma)) by { BarFacts(bar, dma); }
      return Err(brought.error), [], None, [], [];
    }
    var driver := brought.value;
    NothingSubmitted(bar.dev, blocks);
    result, replies, starts, states := RunSession(driver, blocks, inputs);
    session := Some(driver);
    assert driver.before == media;
    SessionLeaves(driver, blocks);
    if Confined(driver, blocks) {
      SessionConfined(driver, blocks);
    }
  }

  lemma BarFacts(bar: NvmeBar, dma: DmaRegion)
    requires bar.Valid() && dma.Valid()
    ensures ValidDevice(bar.dev) && WorldOk(bar.TheWorld(dma))
  {
  }

  lemma NothingSubmitted(dev: Device, blocks: Blocks)
    ensures SubmittedInFile(dev, blocks, [])
  {
  }

  lemma NoChange(blocks: Blocks, media: seq<U8>)
    ensures OnlyFileChanged(blocks, media, media)
  {
  }

  /** After a bring-up that failed only the driver's own admin commands are left. */
  lemma UntouchedSafe(dev: Device, blocks: Blocks, w: World)
    requires ValidDevice(dev) && WorldOk(w) && IoUntouched(w.ctl)
    ensures NothingLeft(w.ctl) ==> SafeAfter(dev, blocks, w.ctl.media, w)
  {
    hide OnlyFileChanged, ValidDevice, CanFetch, RunLater, Foreign, CommandInFile;
    NoChange(blocks, w.ctl.media);
    if NothingLeft(w.ctl) {
      assert BothHarmless(dev, blocks, w.ctl.queues);
      forall laters: seq<Later>
        ensures OnlyFileChanged(blocks, w.ctl.media, RunLater(dev, w, laters).ctl.media)
      {
        SafeForever(dev, blocks, w.ctl.media, w, laters);
      }
    }
  }

  /** In a session without timeouts the controller has fetched everything. */
  lemma SessionLeaves(driver: NvmeUserspaceDriver, blocks: Blocks)
    requires SessionOk(driver, blocks)
    ensures |driver.nvmeBar.ctl.queues| == 2 && (driver.NoTimeouts() ==> NothingLeft(driver.nvmeBar.ctl))
  {
    QuietLeft(driver.nvmeBar.dev, driver.before, driver.TheWorld(), driver.Hosts());
    hide SysInv, HostFits, IoReady, Idle, StrideOf, ValidDevice, Chain, CanFetch;
  }

  /**
   At any point of a session only the file has changed; with the region left alone that stays so whatever the
   controller still executes; and with the region gone it stays so if neither queue shows anything to fetch, as
   when no call has timed out.
   */
  lemma SessionConfined(driver: NvmeUserspaceDriver, blocks: Blocks)
    requires SessionOk(driver, blocks) && Confined(driver, blocks)
    ensures ValidDevice(driver.nvmeBar.dev) && WorldOk(driver.TheWorld())
    ensures OnlyFileChanged(blocks, driver.before, driver.Media())
    ensures forall actions ::
      OnlyFileChanged(blocks, driver.before,
                      Controller.Run(driver.nvmeBar.dev, driver.TheWorld(), actions).ctl.media)
    ensures NothingLeft(driver.nvmeBar.ctl) ==> SafeAfter(driver.nvmeBar.dev, blocks, driver.before, driver.TheWorld())
    ensures driver.NoTimeouts() ==> NothingLeft(driver.nvmeBar.ctl)
  {
    hide SysInv, HostFits, IoReady, Idle, StrideOf, ValidDevice, OnlyFileChanged, Chain, Controller.Run,
         SubmittedInFile, CanFetch, QueueInv, RunLater, NothingLeft, SafeAfter;
    var dev, w, hosts := driver.nvmeBar.dev, driver.TheWorld(), driver.Hosts();
    ShapeOf(dev, driver.before, w, hosts);
    SessionLeaves(driver, blocks);
    ConfinedNow(dev, driver.before, w, hosts, blocks);
    forall actions
      ensures OnlyFileChanged(blocks, driver.before, Controller.Run(dev, w, actions).ctl.media)
    {
      ConfinedForever(dev, driver.before, w, hosts, blocks, actions);
    }
    SafeNow(dev, driver.before, w, hosts, blocks);
  }
}
