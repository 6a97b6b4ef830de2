/**
 What it means that a session stays inside one file: every byte any submitted Read or Write names
 belongs to the file, and so no other byte ever changes. The block map gives the file in blocks of its own
 `device_lba_size`, a command names blocks of the namespace's size.
 */
module Confinement {
  import opened Arithmetic
  import opened Bytes
  import opened NvmeSpec
  import opened DmaLayout
  import opened Ring
  import opened Controller
  import opened System
  import opened FileBlocks

  /** Byte `x` of the medium belongs to the file. The map counts in blocks of its own size. */
  predicate FileByte(blocks: Blocks, x: nat) {
    blocks.deviceLbaSize > 0 && InFile(blocks.extents, x / blocks.deviceLbaSize)
  }

  /** Every byte of these blocks, as the namespace counts them, belongs to the file. */
  predicate RangeInFile(dev: Device, blocks: Blocks, lba: nat, count: nat) {
    forall x :: BlockBytes(dev, lba) <= x < BlockBytes(dev, lba) + BlockBytes(dev, count) ==> FileByte(blocks, x)
  }

  predicate CommandInFile(dev: Device, blocks: Blocks, e: Sqe) {
    RangeInFile(dev, blocks, Slba(e), BlockCount(e))
  }

  predicate SubmittedInFile(dev: Device, blocks: Blocks, submitted: seq<Sqe>) {
    forall k :: 0 <= k < |submitted| ==> CommandInFile(dev, blocks, submitted[k])
  }

  predicate OnlyFileChanged(blocks: Blocks, before: seq<U8>, media: seq<U8>) {
    && |before| == |media|
    && forall x :: 0 <= x < |media| && media[x] != before[x] ==> FileByte(blocks, x)
  }

  /** The block byte `x` belongs to, in blocks of `size` bytes. */
  lemma ByteInBlocks(size: nat, lba: nat, count: nat, x: nat)
    requires size > 0 && lba * size <= x < lba * size + count * size
    ensures lba <= x / size < lba + count
  {
    var n := x / size;
    assert n * size <= x < (n + 1) * size;
    assert (lba + count) * size == lba * size + count * size;
    if n < lba {
      MulMonotone(n + 1, lba, size, size);
    } else if n >= lba + count {
      MulMonotone(lba + count, n, size, size);
    }
  }

  /** When both count in the same size, blocks of the file are bytes of the file. */
  lemma SameUnits(dev: Device, blocks: Blocks, lba: nat, count: nat)
    requires blocks.deviceLbaSize == dev.blockSize > 0 && AllInFile(blocks.extents, lba, count)
    ensures RangeInFile(dev, blocks, lba, count)
  {
    hide InFile;
    forall x | BlockBytes(dev, lba) <= x < BlockBytes(dev, lba) + BlockBytes(dev, count)
      ensures FileByte(blocks, x)
    {
      ByteInBlocks(dev.blockSize, lba, count, x);
    }
  }

  /** From commands to contents. */
  lemma ConfinedContents(dev: Device, before: seq<U8>, media: seq<U8>, submitted: seq<Sqe>, blocks: Blocks)
    requires Provenance(dev, before, media, submitted) && SubmittedInFile(dev, blocks, submitted)
    ensures OnlyFileChanged(blocks, before, media)
  {
    hide FileByte, BlockBytes;
    forall x | 0 <= x < |media| && media[x] != before[x]
      ensures FileByte(blocks, x)
    {
      assert WrittenBySome(dev, submitted, x);
      var n :| 0 <= n < |submitted| && InRange(dev, submitted[n], x);
      assert CommandInFile(dev, blocks, submitted[n]);
    }
  }

  /**
   Commands that timed out may execute long after the session that issued them. Whatever the controller
   still does, only the file changes.
   */
  lemma ConfinedForever(dev: Device, before: seq<U8>, w: World, hosts: seq<HostQueue>, blocks: Blocks,
                        actions: seq<Action>)
    requires SysInv(dev, before, w, hosts) && SubmittedInFile(dev, blocks, hosts[1].submitted)
    ensures OnlyFileChanged(blocks, before, Run(dev, w, actions).ctl.media)
  {
    RunKeeps(dev, before, w, hosts, actions);
    hide QueueInv, CommandsOk, ListsOk, QueuesInOrder, TouchedOk, Provenance, SubmittedInFile, OnlyFileChanged;
    ConfinedContents(dev, before, Run(dev, w, actions).ctl.media, hosts[1].submitted, blocks);
  }

  // --- when the checks protect -------------------------------------------------------------------------

  /** The driver accepts a payload and the map's own block size divides it. */
  predicate Payload(deviceLbaSize: nat, blockSize: nat, length: nat) {
    && deviceLbaSize > 0 && blockSize > 0 && 0 < length <= MAX_TRANSFER_BYTES
    && Divides(deviceLbaSize, length) && Divides(blockSize, length)
  }

  predicate Divides(d: nat, n: nat)
    requires d > 0
  {
    n % d == 0
  }

  function Quotient(n: nat, d: nat): nat
    requires d > 0
  {
    n / d
  }

  /** A Write of this range. */
  predicate WriteOf(e: Sqe, lba: nat, count: nat) {
    e.opc == OP_WRITE && Slba(e) == lba && BlockCount(e) == count
  }

  /**
   `confined_write` checks `length / deviceLbaSize` blocks of the map, and the command the driver submits names
   `length / blockSize` blocks of the namespace. The check protects if that command always stays in the file.
   */
  ghost predicate CheckProtects(dev: Device, deviceLbaSize: U64) {
    forall extents: seq<Extent>, lba: U64, length: nat, e: Sqe ::
      ExtentsFit(extents) && Payload(deviceLbaSize, dev.blockSize, length)
      && AllInFile(extents, lba, Quotient(length, deviceLbaSize)) && WriteOf(e, lba, Quotient(length, dev.blockSize))
      ==> CommandInFile(dev, Blocks(deviceLbaSize, extents), e)
  }

  /** Some payload gets past both length checks. */
  ghost predicate SomePayload(deviceLbaSize: nat, blockSize: nat) {
    exists length: nat :: Payload(deviceLbaSize, blockSize, length)
  }

  lemma SmallerQuotient(n: nat, d: nat, e: nat)
    requires 0 < d <= e
    ensures Quotient(n, e) <= Quotient(n, d)
  {
    var q := n / e;
    MulMonotone(d, e, q, q);
    if n / d < q {
      MulMonotone(n / d + 1, q, d, d);
    }
  }

  lemma Exact(n: nat, d: nat)
    requires d > 0 && Divides(d, n)
    ensures n == Quotient(n, d) * d
  {
  }

  /** Both sizes divide the payload, so both counts come to the same bytes. */
  lemma SameBytes(dev: Device, deviceLbaSize: U64, length: nat)
    requires Payload(deviceLbaSize, dev.blockSize, length)
    ensures BlockBytes(dev, Quotient(length, dev.blockSize)) == length
    ensures Quotient(length, deviceLbaSize) * deviceLbaSize == length
  {
    Exact(length, deviceLbaSize);
    Exact(length, dev.blockSize);
  }

  /**
   The program never compares the map's block size with the namespace's. The check of a write protects the
   rest of the device if and only if the two are the same, or no payload passes both length checks.
   */
  lemma ProtectionExact(dev: Device, deviceLbaSize: U64)
    requires ValidDevice(dev) && deviceLbaSize > 0
    ensures CheckProtects(dev, deviceLbaSize)
       <==> deviceLbaSize == dev.blockSize || !SomePayload(deviceLbaSize, dev.blockSize)
  {
    hide Quotient, Divides, Slba, BlockCount, RangeInFile, AllInFile;
    if deviceLbaSize == dev.blockSize {
      forall extents: seq<Extent>, lba: U64, count: nat | AllInFile(extents, lba, count)
        ensures RangeInFile(dev, Blocks(deviceLbaSize, extents), lba, count)
      {
        SameUnits(dev, Blocks(deviceLbaSize, extents), lba, count);
      }
    } else if SomePayload(deviceLbaSize, dev.blockSize) {
      var length: nat :| Payload(deviceLbaSize, dev.blockSize, length);
      var e := Escapes(dev, deviceLbaSize, length);
    }
  }

  /** The map of a file of exactly the checked blocks, which begin at block 1. */
  function CheckedFile(length: nat, deviceLbaSize: U64): Blocks
    requires 0 < deviceLbaSize && length <= MAX_TRANSFER_BYTES
  {
    AtMost(length, deviceLbaSize);
    Blocks(deviceLbaSize, [Extent(1, Quotient(length, deviceLbaSize), false)])
  }

  /** Its bytes are those from `deviceLbaSize` on. */
  lemma CheckedBytes(length: nat, deviceLbaSize: U64, x: nat)
    requires 0 < deviceLbaSize && length <= MAX_TRANSFER_BYTES && Divides(deviceLbaSize, length)
    ensures FileByte(CheckedFile(length, deviceLbaSize), x) <==> deviceLbaSize <= x < deviceLbaSize + length
  {
    var q := Quotient(length, deviceLbaSize);
    Exact(length, deviceLbaSize);
    AtMost(length, deviceLbaSize);
    InOneExtent(CheckedFile(length, deviceLbaSize).extents, x / deviceLbaSize);
    if deviceLbaSize <= x < deviceLbaSize + length {
      ByteInBlocks(deviceLbaSize, 1, q, x);
    } else if x < deviceLbaSize {
      assert x / deviceLbaSize == 0;
    } else {
      QuotientAtLeast(x, deviceLbaSize, 1 + q);
    }
  }

  lemma QuotientAtLeast(x: nat, d: nat, n: nat)
    requires d > 0 && n * d <= x
    ensures x / d >= n
  {
    var m := x / d;
    assert x < (m + 1) * d;
    if m < n {
      MulMonotone(m + 1, n, d, d);
    }
  }

  /** For such a file the check passes, and the command that is submitted names a byte that is not the file's. */
  lemma LeavesFile(dev: Device, deviceLbaSize: U64, length: nat, e: Sqe)
    requires ValidDevice(dev) && deviceLbaSize != dev.blockSize && Payload(deviceLbaSize, dev.blockSize, length)
    requires WriteOf(e, 1, Quotient(length, dev.blockSize))
    ensures var file := CheckedFile(length, deviceLbaSize);
      && ExtentsFit(file.extents) && AllInFile(file.extents, 1, Quotient(length, deviceLbaSize))
      && !CommandInFile(dev, file, e)
  {
    SameBytes(dev, deviceLbaSize, length);
    AtMost(length, deviceLbaSize);
    hide Quotient, Divides, Slba, BlockCount, FileByte, CheckedFile;
    var file := CheckedFile(length, deviceLbaSize);
    CheckedAll(length, deviceLbaSize);
    var x := if dev.blockSize < deviceLbaSize then dev.blockSize else dev.blockSize + length - 1;
    CheckedBytes(length, deviceLbaSize, x);
    assert BlockBytes(dev, 1) == dev.blockSize;
    assert !FileByte(file, x);
  }

  lemma CheckedAll(length: nat, deviceLbaSize: U64)
    requires 0 < deviceLbaSize && length <= MAX_TRANSFER_BYTES
    ensures var file := CheckedFile(length, deviceLbaSize);
      && ExtentsFit(file.extents) && AllInFile(file.extents, 1, Quotient(length, deviceLbaSize))
  {
    AtMost(length, deviceLbaSize);
    hide Quotient;
    forall n: nat
      ensures InFile(CheckedFile(length, deviceLbaSize).extents, n) <==> 1 <= n < 1 + Quotient(length, deviceLbaSize)
    {
      InOneExtent(CheckedFile(length, deviceLbaSize).extents, n);
    }
  }

  lemma InOneExtent(extents: seq<Extent>, n: nat)
    requires |extents| == 1
    ensures InFile(extents, n) <==> InExtent(extents[0], n)
  {
  }

  /** There is such a command, for every payload that passes although the sizes differ. */
  lemma Escapes(dev: Device, deviceLbaSize: U64, length: nat) returns (e: Sqe)
    requires ValidDevice(dev) && deviceLbaSize != dev.blockSize && Payload(deviceLbaSize, dev.blockSize, length)
    ensures WriteOf(e, 1, Quotient(length, dev.blockSize))
    ensures !CommandInFile(dev, CheckedFile(length, deviceLbaSize), e)
    ensures !CheckProtects(dev, deviceLbaSize)
  {
    CommandSized(dev, length);
    e := NvmeTransfer(OP_WRITE, dev.nsid, 1, Quotient(length, dev.blockSize) - 1, 0, 0);
    TransferFields(OP_WRITE, dev.nsid, 1, Quotient(length, dev.blockSize) - 1, 0, 0);
    LeavesFile(dev, deviceLbaSize, length, e);
    hide Quotient, Divides, Slba, BlockCount, CommandInFile, AllInFile;
    var extents, lba: U64 := CheckedFile(length, deviceLbaSize).extents, 1;
    assert AllInFile(extents, lba, Quotient(length, deviceLbaSize)) && WriteOf(e, lba, Quotient(length, dev.blockSize));
  }

  /** A Read of this range. */
  predicate ReadOf(e: Sqe, lba: nat, count: nat) {
    e.opc == OP_READ && Slba(e) == lba && BlockCount(e) == count
  }

  /** `confined_read` checks as many blocks of the map as the command names of the namespace. */
  ghost predicate ReadCheckProtects(dev: Device, deviceLbaSize: U64) {
    forall extents: seq<Extent>, lba: U64, count: nat, e: Sqe ::
      ExtentsFit(extents) && BlockBytes(dev, count) <= MAX_TRANSFER_BYTES
      && AllInFile(extents, lba, count) && ReadOf(e, lba, count)
      ==> CommandInFile(dev, Blocks(deviceLbaSize, extents), e)
  }

  /** The check of a read keeps it in the file if and only if the two sizes are the same, or no read fits at all. */
  lemma ReadProtectionExact(dev: Device, deviceLbaSize: U64)
    requires ValidDevice(dev) && deviceLbaSize > 0
    ensures ReadCheckProtects(dev, deviceLbaSize)
       <==> deviceLbaSize == dev.blockSize || dev.blockSize > MAX_TRANSFER_BYTES
  {
    hide Slba, BlockCount, RangeInFile, AllInFile;
    if deviceLbaSize == dev.blockSize {
      forall extents: seq<Extent>, lba: U64, count: nat | AllInFile(extents, lba, count)
        ensures RangeInFile(dev, Blocks(deviceLbaSize, extents), lba, count)
      {
        SameUnits(dev, Blocks(deviceLbaSize, extents), lba, count);
      }
    } else if dev.blockSize <= MAX_TRANSFER_BYTES {
      ReadEscapes(dev, deviceLbaSize);
    } else {
      forall e: Sqe
        ensures BlockBytes(dev, BlockCount(e)) > MAX_TRANSFER_BYTES
      {
        MulMonotone(1, BlockCount(e), dev.blockSize, dev.blockSize);
      }
    }
  }

  lemma ReadEscapes(dev: Device, deviceLbaSize: U64)
    requires ValidDevice(dev) && 0 < deviceLbaSize != dev.blockSize <= MAX_TRANSFER_BYTES
    ensures !ReadCheckProtects(dev, deviceLbaSize)
  {
    var extents, lba: U64 := [Extent(1, 1, false)], 1;
    var e := NvmeTransfer(OP_READ, dev.nsid, 1, 0, 0, 0);
    TransferFields(OP_READ, dev.nsid, 1, 0, 0, 0);
    hide Slba, BlockCount;
    var file := Blocks(deviceLbaSize, extents);
    var x := if dev.blockSize < deviceLbaSize then dev.blockSize else 2 * dev.blockSize - 1;
    assert InExtent(extents[0], 1);
    assert BlockBytes(dev, 1) == dev.blockSize;
    OutOfBlockOne(file, x);
    hide FileByte;
    assert AllInFile(extents, lba, 1) && ReadOf(e, lba, 1) && !CommandInFile(dev, file, e);
  }

  lemma OutOfBlockOne(file: Blocks, x: nat)
    requires file.deviceLbaSize > 0 && file.extents == [Extent(1, 1, false)]
    requires x < file.deviceLbaSize || x >= 2 * file.deviceLbaSize
    ensures !FileByte(file, x)
  {
    if x >= 2 * file.deviceLbaSize {
      QuotientAtLeast(x, file.deviceLbaSize, 2);
    }
    InOneExtent(file.extents, x / file.deviceLbaSize);
  }

  lemma CommandSized(dev: Device, length: nat)
    requires ValidDevice(dev) && 0 < length <= MAX_TRANSFER_BYTES && Divides(dev.blockSize, length)
    ensures 0 < Quotient(length, dev.blockSize) < 0x1_0000
  {
    Exact(length, dev.blockSize);
    SmallerQuotient(length, 512, dev.blockSize);
  }

  lemma AtMost(n: nat, d: nat)
    requires d > 0
    ensures Quotient(n, d) <= n
  {
    SmallerQuotient(n, 1, d);
  }
}
