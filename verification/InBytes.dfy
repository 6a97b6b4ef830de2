/**
 What the commands come to, in bytes and blocks: what each one stores and shows, which of them reach the device and
 why the others are refused. The block map counts in the namespace's blocks here.
 */
module InBytes {
  import opened Arithmetic
  import opened Bytes
  import opened BlockDevice
  import opened NvmeSpec
  import opened Controller
  import opened Driver
  import opened FileBlocks
  import opened Confinement
  import opened Commands
  import opened Wrappers

  // --- stored and shown -----------------------------------------------------------------------------------------

  /** `n` is the number of blocks that `length` bytes begin. */
  predicate Spans(n: nat, size: nat, length: nat) {
    n * size < length + size && length <= n * size
  }

  /** From byte `at` on the medium holds `data` and everything else is as it was. */
  predicate Holds(before: seq<U8>, after: seq<U8>, at: nat, data: seq<U8>) {
    && |after| == |before| && at + |data| <= |after|
    && (forall i :: 0 <= i < |data| ==> after[at + i] == data[i])
    && (forall x :: 0 <= x < |after| && (x < at || at + |data| <= x) ==> after[x] == before[x])
  }

  /** `text`, and zeros up to `length` bytes. */
  predicate ZeroFilled(data: seq<U8>, text: seq<U8>, length: nat) {
    && |data| == length && text <= data
    && forall i :: |text| <= i < length ==> data[i] == 0
  }

  /** The data is `length` times the same byte. */
  predicate AllThe(data: seq<U8>, byte: U8, length: nat) {
    |data| == length && forall i :: 0 <= i < length ==> data[i] == byte
  }

  lemma HoldsWritten(before: seq<U8>, at: nat, data: seq<U8>)
    requires at + |data| <= |before|
    ensures Holds(before, WriteAt(before, at, data), at, data)
  {
    var after := WriteAt(before, at, data);
    forall i | 0 <= i < |data|
      ensures after[at + i] == data[i]
    {
    }
  }

  lemma TextZeroFilled(text: seq<U8>, size: nat)
    requires size > 0
    ensures |text| <= MapBytes(size, CeilBlocks(|text|, size))
    ensures exists n: nat :: Spans(n, size, |text|) && ZeroFilled(Padded(text, size), text, n * size)
  {
    var n := CeilBlocks(|text|, size);
    PaddedFits(|text|, size);
    assert MapBytes(size, n) == n * size;
    hide CeilBlocks, MapBytes;
    assert Spans(n, size, |text|) && ZeroFilled(Padded(text, size), text, n * size);
  }

  /** What a command that succeeds stores, in a run without timeouts. */
  lemma StoredBytes(dev: Device, size: nat, before: seq<U8>, c: Command, after: seq<U8>, shown: seq<U8>)
      returns (data: seq<U8>)
    requires size > 0 && Did(dev, size, before, c, after, true, shown)
    ensures match c
      case Write(lba, text) =>
        && Holds(before, after, lba * dev.blockSize, data)
        && exists n: nat :: Spans(n, size, |text|) && ZeroFilled(data, text, n * size)
      case Fill(lba, byte, count) =>
        Holds(before, after, lba * dev.blockSize, data) && AllThe(data, byte, count * size)
      case Poke(lba, offset, text) => Holds(before, after, lba * dev.blockSize + offset, text)
      case _ => after == before
  {
    hide Holds, Spans, ZeroFilled, AllThe, WriteAt, Padded, CeilBlocks, MapBytes, Repeated, Torn, Atomic;
    data := [];
    if c.Write? || c.Fill? || c.Poke? {
      data := StoreOf(size, c).data;
      assert BlockBytes(dev, c.lba) == c.lba * dev.blockSize;
      HoldsWritten(before, BlockBytes(dev, c.lba) + StoreOf(size, c).offset, data);
    }
    match c
    case Write(_, text) => TextZeroFilled(text, size);
    case Fill(_, byte, count) => FilledIsAll(size, byte, count);
    case _ =>
  }

  lemma FilledIsAll(size: nat, byte: U8, count: nat)
    ensures AllThe(Repeated(byte, MapBytes(size, count)), byte, count * size)
  {
  }

  /** What a command that succeeds shows, in a run without timeouts. */
  lemma ShownBytes(dev: Device, size: nat, before: seq<U8>, c: Command, after: seq<U8>, shown: seq<U8>)
    requires size > 0 && Did(dev, size, before, c, after, true, shown)
    ensures c.Read? && c.count > 0 ==>
      && |shown| == c.count * dev.blockSize && c.lba * dev.blockSize + |shown| <= |before|
      && forall i :: 0 <= i < |shown| ==> shown[i] == before[c.lba * dev.blockSize + i]
    ensures c.Peek? ==>
      && |shown| == c.len && c.lba * dev.blockSize + c.offset + c.len <= |before|
      && forall i :: 0 <= i < c.len ==> shown[i] == before[c.lba * dev.blockSize + c.offset + i]
    ensures c.Identify? ==> shown == dev.controllerPage
  {
  }

  // --- submitted or refused -------------------------------------------------------------------------------------

  /** A transfer of `n` blocks that lies in the file and fits in the data area. */
  predicate Possible(extents: seq<Extent>, size: nat, lba: nat, n: nat) {
    0 < n && n * size <= 0x1F_B000 && AllInFile(extents, lba, n)
  }

  predicate InOneBlock(size: nat, offset: nat, len: nat) {
    offset < size && offset + len <= size
  }

  /** The commands the device gets to see. */
  ghost predicate Reaches(extents: seq<Extent>, size: nat, c: Command) {
    match c
    case Read(lba, count) => Possible(extents, size, lba, count)
    case Fill(lba, _, count) => Possible(extents, size, lba, count)
    case Write(lba, text) => text != [] && exists n: nat :: Spans(n, size, |text|) && Possible(extents, size, lba, n)
    case Peek(lba, offset, len) => InOneBlock(size, offset, len) && Possible(extents, size, lba, 1)
    case Poke(lba, offset, text) =>
      text != [] && InOneBlock(size, offset, |text|) && Possible(extents, size, lba, 1)
    case _ => false
  }

  /** Blocks that are not all in the file are refused by the check, and others for their number. */
  predicate Blocked(extents: seq<Extent>, lba: nat, n: nat, e: Error) {
    if AllInFile(extents, lba, n) then e == TooLarge else CheckRefuses(extents, lba, n, e)
  }

  /** What a command that the device does not get to see ends with. */
  ghost predicate RefusedFor(extents: seq<Extent>, size: nat, c: Command, failure: Option<Error>) {
    match c
    case Read(lba, count) =>
      if count == 0 then failure.None? else failure.Some? && Blocked(extents, lba, count, failure.value)
    case Fill(lba, _, count) =>
      if count == 0 then failure == Some(ZeroBlocks)
      else if count * size > 0x1F_B000 then failure == Some(TooLarge)
      else failure.Some? && CheckRefuses(extents, lba, count, failure.value)
    case Write(lba, text) =>
      if text == [] then failure == Some(NothingToWrite)
      else failure.Some? && exists n: nat :: Spans(n, size, |text|) && Blocked(extents, lba, n, failure.value)
    case Peek(lba, offset, len) =>
      if !InOneBlock(size, offset, len) then failure == Some(DoesNotFit)
      else failure.Some? && Blocked(extents, lba, 1, failure.value)
    case Poke(lba, offset, text) =>
      if text == [] then failure == Some(NothingToWrite)
      else if !InOneBlock(size, offset, |text|) then failure == Some(DoesNotFit)
      else failure.Some? && Blocked(extents, lba, 1, failure.value)
    case Identify => true
    case _ => failure.None?
  }

  lemma DivideTimes(size: nat, n: nat)
    requires size > 0
    ensures Divides(size, n * size) && Quotient(n * size, size) == n
  {
    var m, q, r := n * size, (n * size) / size, (n * size) % size;
    assert m == q * size + r;
    if q < n {
      MulMonotone(q + 1, n, size, size);
    } else if n < q {
      MulStrict(n, q, size);
    }
  }

  /** Numbers of blocks and of bytes. */
  lemma WholeNumber(size: nat, n: nat)
    requires size >= 512
    ensures Divides(size, n * size) && Quotient(n * size, size) == n
    ensures n * size <= 0x1F_B000 ==> n < 0x1_0000
    ensures n > 0 ==> n * size > 0
  {
    hide Divides, Quotient;
    DivideTimes(size, n);
    if n >= 0x1_0000 {
      MulMonotone(0x1_0000, n, 512, size);
    }
    if n > 0 {
      MulMonotone(1, n, 1, size);
    }
  }

  lemma BlockSizeFits(dev: Device)
    requires ValidDevice(dev)
    ensures 512 <= dev.blockSize
  {
  }

  lemma ReadReaches(dev: Device, blocks: Blocks, lba: nat, n: nat, t: Trace)
    requires dev.blockSize >= 512 && ReadAnswer(dev, blocks, lba, n, t)
    ensures t.was <= t.now && (t.now != t.was <==> Possible(blocks.extents, dev.blockSize, lba, n))
    ensures t.now == t.was && n == 0 ==> t.failure.None?
    ensures t.now == t.was && n > 0 ==> t.failure.Some? && Blocked(blocks.extents, lba, n, t.failure.value)
  {
    WholeNumber(dev.blockSize, n);
    hide AllInFile, CheckRefuses, AnsweredBy, Slba, BlockCount;
    assert BlockBytes(dev, n) == n * dev.blockSize;
    if ReadGoes(dev, blocks, lba, n) {
      assert t.now[..|t.was|] == t.was;
    }
  }

  lemma WriteReaches(dev: Device, blocks: Blocks, lba: nat, n: nat, t: Trace)
    requires dev.blockSize == blocks.deviceLbaSize >= 512 && n > 0
    requires WriteAnswer(dev, blocks, lba, n * dev.blockSize, t)
    ensures t.was <= t.now && (t.now != t.was <==> Possible(blocks.extents, dev.blockSize, lba, n))
    ensures t.now == t.was ==> t.failure.Some? && Blocked(blocks.extents, lba, n, t.failure.value)
  {
    WholeNumber(dev.blockSize, n);
    hide AllInFile, CheckRefuses, AnsweredBy, Slba, BlockCount, Quotient;
    assert (n * dev.blockSize) % dev.blockSize == 0;
    if WriteGoes(dev, blocks, lba, n * dev.blockSize) {
      assert t.now[..|t.was|] == t.was;
    }
  }

  lemma PatchReaches(dev: Device, blocks: Blocks, lba: nat, t: Trace)
    requires dev.blockSize == blocks.deviceLbaSize >= 512 && PatchAnswer(dev, blocks, lba, t)
    ensures t.was <= t.now && (t.now != t.was <==> Possible(blocks.extents, dev.blockSize, lba, 1))
    ensures t.now == t.was ==> t.failure.Some? && Blocked(blocks.extents, lba, 1, t.failure.value)
  {
    hide AllInFile, CheckRefuses, AnsweredBy, Slba, BlockCount, WriteAnswer, IsSuccess, ReadAnswer, ReadGoes;
    if ReadGoes(dev, blocks, lba, 1) {
      assert t.now[..|t.was| + 1][..|t.was|] == t.was;
      OneBlockGoes(dev, blocks, lba);
    } else {
      ReadReaches(dev, blocks, lba, 1, t);
    }
  }

  lemma OneBlockGoes(dev: Device, blocks: Blocks, lba: nat)
    requires dev.blockSize >= 512 && ReadGoes(dev, blocks, lba, 1)
    ensures Possible(blocks.extents, dev.blockSize, lba, 1)
  {
  }

  lemma OneSpan(size: nat, a: nat, b: nat, length: nat)
    requires size > 0 && Spans(a, size, length) && Spans(b, size, length)
    ensures a == b
  {
    if a < b {
      MulMonotone(a + 1, b, size, size);
    } else if b < a {
      MulMonotone(b + 1, a, size, size);
    }
  }

  /**
   A command reaches the device if and only if nothing stands against it, and what stands against it is what the
   user is told.
   */
  lemma ReachesExact(dev: Device, blocks: Blocks, c: Command, t: Trace)
    requires ValidDevice(dev) && blocks.deviceLbaSize == dev.blockSize && CommandAnswer(dev, blocks, c, t)
    ensures t.was <= t.now && (t.now != t.was <==> Reaches(blocks.extents, dev.blockSize, c))
    ensures t.now == t.was ==> RefusedFor(blocks.extents, dev.blockSize, c, t.failure)
  {
    BlockSizeFits(dev);
    hide ValidDevice, AllInFile, CheckRefuses, ReadAnswer, WriteAnswer, PatchAnswer, CeilBlocks, Spans;
    var size := dev.blockSize;
    match c
    case Read(lba, count) => ReadReaches(dev, blocks, lba, count, t);
    case Fill(lba, _, count) =>
      if 0 < count && count * size <= 0x1F_B000 {
        WriteReaches(dev, blocks, lba, count, t);
      }
    case Write(lba, text) =>
      if text != [] {
        PaddedFits(|text|, size);
        WriteReaches(dev, blocks, lba, CeilBlocks(|text|, size), t);
        OnlySpan(size, |text|);
      }
    case Peek(lba, offset, len) =>
      if FitsBlock(blocks, offset, len) {
        ReadReaches(dev, blocks, lba, 1, t);
      }
    case Poke(lba, offset, text) =>
      if text != [] && FitsBlock(blocks, offset, |text|) {
        PatchReaches(dev, blocks, lba, t);
      }
    case _ =>
  }

  lemma OnlySpan(size: nat, length: nat)
    requires size > 0
    ensures var n := CeilBlocks(length, size); Spans(n, size, length)
    ensures forall n: nat :: Spans(n, size, length) ==> n == CeilBlocks(length, size)
  {
    PaddedFits(length, size);
    var n := CeilBlocks(length, size);
    hide CeilBlocks;
    assert Spans(n, size, length);
    forall m: nat | Spans(m, size, length)
      ensures m == n
    {
      OneSpan(size, m, n, length);
    }
  }

  /** A submission queue entry that asks for these blocks. */
  predicate Asks(e: Sqe, opc: U8, lba: nat, n: nat) {
    e.opc == opc && Slba(e) == lba && BlockCount(e) == n
  }

  /** What it asks the device for: Reads are 2, Writes are 1, and only a patch of a block is both. */
  lemma AsksExact(dev: Device, blocks: Blocks, c: Command, t: Trace)
    requires ValidDevice(dev) && blocks.deviceLbaSize == dev.blockSize && CommandAnswer(dev, blocks, c, t)
    requires t.now != t.was
    ensures t.was < t.now
    ensures var e := t.now[|t.was|];
      match c
      case Read(lba, count) => Asks(e, 2, lba, count)
      case Fill(lba, _, count) => Asks(e, 1, lba, count)
      case Write(lba, text) => forall n: nat :: Spans(n, dev.blockSize, |text|) ==> Asks(e, 1, lba, n)
      case Peek(lba, _, _) => Asks(e, 2, lba, 1)
      case Poke(lba, _, _) => Asks(e, 2, lba, 1)
      case _ => false
    ensures |t.now| == |t.was| + 1
         || (c.Poke? && |t.now| == |t.was| + 2 && Asks(t.now[|t.was| + 1], 1, c.lba, 1))
  {
    BlockSizeFits(dev);
    hide ValidDevice, AllInFile, CheckRefuses, ReadAnswer, WriteAnswer, PatchAnswer, CeilBlocks, Spans, Asks;
    match c
    case Read(lba, count) => ReadAsks(dev, blocks, lba, count, t);
    case Fill(lba, _, count) => WriteAsks(dev, blocks, lba, count, t);
    case Write(lba, text) =>
      OnlySpan(dev.blockSize, |text|);
      WriteAsks(dev, blocks, lba, CeilBlocks(|text|, dev.blockSize), t);
    case Peek(lba, _, _) => ReadAsks(dev, blocks, lba, 1, t);
    case Poke(lba, _, _) => PatchAsks(dev, blocks, lba, t);
    case _ =>
  }

  lemma ReadAsks(dev: Device, blocks: Blocks, lba: nat, n: nat, t: Trace)
    requires ReadAnswer(dev, blocks, lba, n, t) && t.now != t.was
    ensures t.was < t.now && |t.now| == |t.was| + 1 && Asks(t.now[|t.was|], 2, lba, n)
  {
    hide ReadGoes, ReadRefuses, AnsweredBy, Slba, BlockCount;
  }

  lemma WriteAsks(dev: Device, blocks: Blocks, lba: nat, n: nat, t: Trace)
    requires dev.blockSize == blocks.deviceLbaSize >= 512 && WriteAnswer(dev, blocks, lba, n * dev.blockSize, t)
    requires t.now != t.was
    ensures t.was < t.now && |t.now| == |t.was| + 1 && Asks(t.now[|t.was|], 1, lba, n)
  {
    WholeNumber(dev.blockSize, n);
    hide WriteGoes, WriteRefuses, AnsweredBy, Slba, BlockCount;
    assert BlocksIn(dev, n * dev.blockSize) == n;
  }

  lemma PatchAsks(dev: Device, blocks: Blocks, lba: nat, t: Trace)
    requires dev.blockSize == blocks.deviceLbaSize >= 512 && PatchAnswer(dev, blocks, lba, t) && t.now != t.was
    ensures t.was < t.now && Asks(t.now[|t.was|], 2, lba, 1)
    ensures |t.now| == |t.was| + 1 || (|t.now| == |t.was| + 2 && Asks(t.now[|t.was| + 1], 1, lba, 1))
  {
    hide ReadGoes, WriteAnswer, ReadAnswer, AnsweredBy, Slba, BlockCount, IsSuccess, Asks, BlockBytes;
    if ReadGoes(dev, blocks, lba, 1) {
      var first := t.now[..|t.was| + 1];
      PatchReads(t.was, t.now, lba);
      if t.now != first {
        assert BlockBytes(dev, 1) == 1 * dev.blockSize by {
          OneBlockBytes(dev);
        }
        WriteAsks(dev, blocks, lba, 1, t.(was := first));
      }
    } else {
      ReadAsks(dev, blocks, lba, 1, t);
    }
  }

  lemma OneBlockBytes(dev: Device)
    ensures BlockBytes(dev, 1) == 1 * dev.blockSize
  {
  }

  lemma PatchReads(was: seq<Sqe>, now: seq<Sqe>, lba: nat)
    requires |was| < |now| && Submits(was, now[..|was| + 1], OP_READ, lba, 1)
    ensures was < now && Asks(now[|was|], 2, lba, 1)
  {
    assert now[..|was| + 1][..|was|] == now[..|was|];
  }
}
