/**
 After the program has ended. Its hugepage is unmapped while the controller is still enabled
 (src/dma_region.rs), so from then on the memory the controller reads may hold anything. What the controller
 can still do to the medium depends on one thing only: whether either queue shows it a command it
 has not fetched, for what it then fetches is anybody's.
 */
module Afterlife {
  import opened Bytes
  import opened NvmeSpec
  import opened DmaLayout
  import opened Prp
  import opened Ring
  import opened Controller
  import opened System
  import opened Submit
  import opened FileBlocks
  import opened Confinement

  /** The controller acts, or somebody else stores something. */
  datatype Later = Act(action: Action) | Rewrite(mem: seq<U8>)

  function StepLater(dev: Device, w: World, l: Later): (v: World)
    requires ValidDevice(dev) && WorldOk(w)
    ensures WorldOk(v) && v.base == w.base && |v.ctl.media| == |w.ctl.media|
  {
    match l
    case Act(a) => Step(dev, w, a)
    case Rewrite(mem) => if |mem| == |w.mem| then w.(mem := mem) else w
  }

  function RunLater(dev: Device, w: World, laters: seq<Later>): (v: World)
    requires ValidDevice(dev) && WorldOk(w)
    ensures WorldOk(v) && v.base == w.base && |v.ctl.media| == |w.ctl.media|
    decreases |laters|
  {
    if laters == [] then w else RunLater(dev, StepLater(dev, w, laters[0]), laters[1..])
  }

  /** Nothing to fetch, nothing foreign at work, and no write in flight that leaves the file. */
  predicate Harmless(dev: Device, blocks: Blocks, q: nat, c: CtlQueue) {
    !CanFetch(c) && forall k :: k in c.jobs ==> HarmlessCommand(dev, blocks, q, c.jobs[k].sqe)
  }

  predicate HarmlessCommand(dev: Device, blocks: Blocks, q: nat, e: Sqe) {
    !Foreign(q, e) && (IsWrite(q, e) ==> CommandInFile(dev, blocks, e))
  }

  predicate BothHarmless(dev: Device, blocks: Blocks, queues: seq<CtlQueue>)
    requires |queues| == 2
  {
    Harmless(dev, blocks, 0, queues[0]) && Harmless(dev, blocks, 1, queues[1])
  }

  /** A byte of the medium that is not part of the file. */
  predicate Outside(blocks: Blocks, size: nat, x: nat) {
    x < size && !FileByte(blocks, x)
  }

  ghost predicate NothingOutside(blocks: Blocks, size: nat) {
    forall x: nat :: !Outside(blocks, size, x)
  }

  /** What keeps the rest of the device safe whatever memory holds. */
  ghost predicate Safe(dev: Device, blocks: Blocks, w: World)
    requires WorldOk(w)
  {
    BothHarmless(dev, blocks, w.ctl.queues) || NothingOutside(blocks, |w.ctl.media|)
  }

  lemma ChangedByte(dev: Device, blocks: Blocks, media: seq<U8>, e: Sqe, b: nat)
    requires ValidDevice(dev) && IsWrite(1, e) && b < TransferLength(dev, media, 1, e)
    requires CommandInFile(dev, blocks, e) || NothingOutside(blocks, |media|)
    ensures MediaStart(dev, e) + b < |media| && FileByte(blocks, MediaStart(dev, e) + b)
  {
    hide FileByte, ValidDevice, BlockBytes;
    WriteByteInRange(dev, media, 1, e, b);
    if !CommandInFile(dev, blocks, e) {
      assert !Outside(blocks, |media|, MediaStart(dev, e) + b);
    }
  }

  lemma ByteChanges(blocks: Blocks, before: seq<U8>, media: seq<U8>, x: nat, v: U8)
    requires OnlyFileChanged(blocks, before, media) && x < |media| && FileByte(blocks, x)
    ensures OnlyFileChanged(blocks, before, media[x := v])
  {
    hide FileByte;
  }

  lemma StepStaysSafe(dev: Device, blocks: Blocks, before: seq<U8>, w: World, l: Later)
    requires ValidDevice(dev) && WorldOk(w) && Safe(dev, blocks, w)
    requires OnlyFileChanged(blocks, before, w.ctl.media)
    ensures var v := StepLater(dev, w, l); Safe(dev, blocks, v) && OnlyFileChanged(blocks, before, v.ctl.media)
  {
    hide OnlyFileChanged, NothingOutside, BothHarmless, FetchEnabled, MoveEnabled, PostEnabled, AlterEnabled,
         DoFetch, DoMove, DoPost, DoAlter, ValidDevice;
    match l
    case Rewrite(mem) =>
    case Act(a) =>
      match a
      case BecomeReady =>
      case BecomeIdle =>
      case FailFatally =>
      case Fetch(q) => if FetchEnabled(w, q) { FetchSafe(dev, blocks, w, q); }
      case Move(q, k, b) => if MoveEnabled(dev, w, q, k, b) { MoveSafe(dev, blocks, before, w, q, k, b); }
      case Post(q, k, bits, result) =>
        if PostEnabled(dev, w, q, k, bits, result) { PostSafe(dev, blocks, w, q, k, bits, result); }
      case Alter(q, k, x, v) => if AlterEnabled(w, q, k, x) { AlterSafe(dev, blocks, before, w, q, k, x, v); }
  }

  lemma FetchSafe(dev: Device, blocks: Blocks, w: World, q: nat)
    requires WorldOk(w) && Safe(dev, blocks, w) && FetchEnabled(w, q)
    ensures Safe(dev, blocks, DoFetch(w, q)) && DoFetch(w, q).ctl.media == w.ctl.media
  {
    hide HarmlessCommand, NothingOutside, DecodeSqe, ReadAt, Fetched, Live, InRegion;
  }

  lemma MoveSafe(dev: Device, blocks: Blocks, before: seq<U8>, w: World, q: nat, k: nat, b: nat)
    requires ValidDevice(dev) && WorldOk(w) && Safe(dev, blocks, w) && MoveEnabled(dev, w, q, k, b)
    requires OnlyFileChanged(blocks, before, w.ctl.media)
    ensures var v := DoMove(dev, w, q, k, b);
      Safe(dev, blocks, v) && OnlyFileChanged(blocks, before, v.ctl.media)
  {
    MoveHarmless(dev, blocks, w, q, k, b);
    hide OnlyFileChanged, NothingOutside, CommandInFile, TransferLength, MoveAddress, SourceByte, WriteAt,
         ValidDevice, Live, FileByte, MediaStart, Foreign, CanFetch;
    var e := w.ctl.queues[q].jobs[k].sqe;
    if IsWrite(q, e) {
      ChangedByte(dev, blocks, w.ctl.media, e, b);
      var x := MediaStart(dev, e) + b;
      ByteChanges(blocks, before, w.ctl.media, x, DoMove(dev, w, q, k, b).ctl.media[x]);
    }
  }

  lemma MoveHarmless(dev: Device, blocks: Blocks, w: World, q: nat, k: nat, b: nat)
    requires ValidDevice(dev) && WorldOk(w) && Safe(dev, blocks, w) && MoveEnabled(dev, w, q, k, b)
    ensures var v := DoMove(dev, w, q, k, b); Safe(dev, blocks, v) && |v.ctl.media| == |w.ctl.media|
  {
    hide NothingOutside, HarmlessCommand, TransferLength, MoveAddress, SourceByte, WriteAt, ValidDevice, Live,
         MediaStart;
    var e := w.ctl.queues[q].jobs[k].sqe;
    if IsWrite(q, e) {
      WriteByteInRange(dev, w.ctl.media, q, e, b);
    }
  }

  lemma PostSafe(dev: Device, blocks: Blocks, w: World, q: nat, k: nat, bits: nat, result: U32)
    requires WorldOk(w) && Safe(dev, blocks, w) && PostEnabled(dev, w, q, k, bits, result)
    ensures var v := DoPost(dev, w, q, k, bits, result); Safe(dev, blocks, v) && v.ctl.media == w.ctl.media
  {
    hide NothingOutside, HarmlessCommand, EncodeCqe, WriteAt, CompletionOf, MaySucceed, InRegion, Live, IsSuccess;
  }

  lemma AlterSafe(dev: Device, blocks: Blocks, before: seq<U8>, w: World, q: nat, k: nat, x: nat, v: U8)
    requires WorldOk(w) && Safe(dev, blocks, w) && AlterEnabled(w, q, k, x)
    requires OnlyFileChanged(blocks, before, w.ctl.media)
    ensures Safe(dev, blocks, DoAlter(w, x, v)) && OnlyFileChanged(blocks, before, DoAlter(w, x, v).ctl.media)
  {
    hide OnlyFileChanged, Foreign, FileByte, CommandInFile, Live, CanFetch;
    assert !BothHarmless(dev, blocks, w.ctl.queues);
    assert !Outside(blocks, |w.ctl.media|, x);
    ByteChanges(blocks, before, w.ctl.media, x, v);
  }

  /** A safe device stays safe for ever. */
  lemma {:induction false} SafeForever(dev: Device, blocks: Blocks, before: seq<U8>, w: World, laters: seq<Later>)
    requires ValidDevice(dev) && WorldOk(w) && Safe(dev, blocks, w)
    requires OnlyFileChanged(blocks, before, w.ctl.media)
    ensures OnlyFileChanged(blocks, before, RunLater(dev, w, laters).ctl.media)
    decreases |laters|
  {
    hide OnlyFileChanged, Safe, ValidDevice, StepLater;
    if laters != [] {
      StepStaysSafe(dev, blocks, before, w, laters[0]);
      SafeForever(dev, blocks, before, StepLater(dev, w, laters[0]), laters[1..]);
    }
  }

  // --- the converse ------------------------------------------------------------------------------------------------

  /** Each ring lies where the driver put it, on an enabled controller. */
  predicate RingInPlace(w: World, q: nat)
    requires WorldOk(w) && q < 2
  {
    var c := w.ctl.queues[q];
    CanFetch(c) && c.sqHead < 64 && c.sqSize == 64 && c.sqBase == w.base + SqOffset(q)
  }

  lemma FetchPossible(dev: Device, before: seq<U8>, w: World, hosts: seq<HostQueue>, q: nat)
    requires SysInv(dev, before, w, hosts) && q < 2 && CanFetch(w.ctl.queues[q])
    ensures WorldOk(w) && RingInPlace(w, q) && Enabled(w.ctl.regs)
  {
    hide CommandsOk, ListsOk, Provenance, QueuesInOrder, TouchedOk, QueueInv, ValidDevice, SqView, CqView, RingInv;
    QueueOf(dev, before, w, hosts, q);
    QueueParts(w.mem, w.base, hosts[q], w.ctl.queues[q], q);
    FetchRoom(hosts[q], w.ctl.queues[q], SqView(w.mem, SqOffset(q)), CqView(w.mem, CqOffset(q)));
  }

  /** Where the next entry of a ring is fetched from. */
  function NextSlot(w: World, q: nat): nat
    requires WorldOk(w) && q < 2
  {
    SqOffset(q) + 64 * w.ctl.queues[q].sqHead
  }

  /** Memory in which somebody else has left the entry `e` there. */
  function StrayMemory(w: World, q: nat, e: Sqe): (mem: seq<U8>)
    requires WorldOk(w) && q < 2 && w.ctl.queues[q].sqHead < 64
    ensures |mem| == |w.mem|
  {
    WriteAt(w.mem, NextSlot(w, q), EncodeSqe(e))
  }

  lemma StrayEntry(w: World, q: nat, e: Sqe)
    requires WorldOk(w) && q < 2 && w.ctl.queues[q].sqHead < 64
    ensures DecodeSqe(ReadAt(StrayMemory(w, q, e), NextSlot(w, q), SQE_SIZE)) == e
  {
    SqeRoundTrip(e);
    hide EncodeSqe, DecodeSqe;
    ReadBack(w.mem, NextSlot(w, q), EncodeSqe(e));
  }

  /** The entry is fetched. */
  lemma StrayFetched(dev: Device, w: World, q: nat, mem: seq<U8>, e: Sqe)
    requires ValidDevice(dev) && WorldOk(w) && q < 2 && Live(w) && RingInPlace(w, q) && |mem| == |w.mem|
    requires DecodeSqe(ReadAt(mem, NextSlot(w, q), SQE_SIZE)) == e
    ensures var v := Step(dev, w.(mem := mem), Fetch(q)); var k := w.ctl.queues[q].fetched;
      && v.mem == mem && v.base == w.base && v.ctl.media == w.ctl.media && Live(v)
      && k in v.ctl.queues[q].jobs && v.ctl.queues[q].jobs[k].sqe == e
  {
    hide DecodeSqe, ReadAt, NextOrigin, ValidDevice, CanFetch;
    var u := w.(mem := mem);
    assert FetchAddress(u, q) - u.base == NextSlot(w, q);
    assert FetchEnabled(u, q);
  }

  /** Fetch a stray entry, then act on it. */
  function StrayRun(w: World, q: nat, mem: seq<U8>, last: Action): seq<Later>
    requires WorldOk(w) && q < 2
  {
    [Act(BecomeReady), Rewrite(mem), Act(Fetch(q)), Act(last)]
  }

  lemma StrayRuns(dev: Device, w: World, q: nat, mem: seq<U8>, e: Sqe, last: Action)
    requires ValidDevice(dev) && WorldOk(w) && q < 2 && Enabled(w.ctl.regs) && RingInPlace(w, q) && |mem| == |w.mem|
    requires DecodeSqe(ReadAt(mem, NextSlot(w, q), SQE_SIZE)) == e
    ensures exists v: World ::
      && WorldOk(v) && v.mem == mem && v.base == w.base && v.ctl.media == w.ctl.media && Live(v)
      && w.ctl.queues[q].fetched in v.ctl.queues[q].jobs && v.ctl.queues[q].jobs[w.ctl.queues[q].fetched].sqe == e
      && RunLater(dev, w, StrayRun(w, q, mem, last)) == Step(dev, v, last)
  {
    hide DecodeSqe, ReadAt, ValidDevice, CanFetch, RunLater;
    var w1 := Step(dev, w, BecomeReady);
    StrayFetched(dev, w1, q, mem, e);
    var v := Step(dev, w1.(mem := mem), Fetch(q));
    FourLaters(dev, w, Act(BecomeReady), Rewrite(mem), Act(Fetch(q)), Act(last));
    assert RunLater(dev, w, StrayRun(w, q, mem, last)) == Step(dev, v, last);
  }

  lemma FourLaters(dev: Device, w: World, a: Later, b: Later, c: Later, d: Later)
    requires ValidDevice(dev) && WorldOk(w)
    ensures RunLater(dev, w, [a, b, c, d])
         == StepLater(dev, StepLater(dev, StepLater(dev, StepLater(dev, w, a), b), c), d)
  {
    hide StepLater, ValidDevice, WorldOk;
    assert [a, b, c, d][1..] == [b, c, d] && [b, c, d][1..] == [c, d] && [c, d][1..] == [d] && [d][1..] == [];
    var w1 := StepLater(dev, w, a);
    var w2 := StepLater(dev, w1, b);
    var w3 := StepLater(dev, w2, c);
    assert RunLater(dev, w, [a, b, c, d]) == RunLater(dev, w1, [b, c, d]) == RunLater(dev, w2, [c, d]);
    assert RunLater(dev, w2, [c, d]) == RunLater(dev, w3, [d]) == RunLater(dev, StepLater(dev, w3, d), []);
  }

  /** Format NVM on the admin queue, a vendor's own command on the I/O queue. */
  const STRAY_OPCODE: U8 := 0x80

  /** Whichever queue still shows something to fetch, any byte of the medium may take any value. */
  lemma ForeignReaches(dev: Device, w: World, q: nat, x: nat, value: U8)
    requires ValidDevice(dev) && WorldOk(w) && q < 2 && Enabled(w.ctl.regs) && RingInPlace(w, q)
    requires x < |w.ctl.media|
    ensures exists laters: seq<Later> :: RunLater(dev, w, laters).ctl.media == w.ctl.media[x := value]
  {
    var e, k := NewSqe(STRAY_OPCODE), w.ctl.queues[q].fetched;
    StrayEntry(w, q, e);
    hide StrayMemory, DecodeSqe, ReadAt, ValidDevice, CanFetch, RunLater, NewSqe, Step, StrayRun;
    var mem := StrayMemory(w, q, e);
    var last := Alter(q, k, x, value);
    StrayRuns(dev, w, q, mem, e, last);
    var v: World :| && WorldOk(v) && v.mem == mem && v.base == w.base && v.ctl.media == w.ctl.media && Live(v)
      && k in v.ctl.queues[q].jobs && v.ctl.queues[q].jobs[k].sqe == e
      && RunLater(dev, w, StrayRun(w, q, mem, last)) == Step(dev, v, last);
    StrayAlters(dev, v, q, k, x, value);
  }

  lemma StrayAlters(dev: Device, w: World, q: nat, k: nat, x: nat, value: U8)
    requires ValidDevice(dev) && WorldOk(w) && q < 2 && Live(w) && x < |w.ctl.media|
    requires k in w.ctl.queues[q].jobs && w.ctl.queues[q].jobs[k].sqe == NewSqe(STRAY_OPCODE)
    ensures Step(dev, w, Alter(q, k, x, value)).ctl.media == w.ctl.media[x := value]
  {
  }

  /** A Write of one block from the start of the data area. */
  function StrayWrite(dev: Device, base: nat, lba: U64): Sqe
    requires GoodBase(base)
  {
    NvmeTransfer(OP_WRITE, dev.nsid, lba, 0, base + DATA_OFFSET, 0)
  }

  lemma StrayLength(dev: Device, base: nat, media: seq<U8>, mem: seq<U8>, lba: U64)
    requires ValidDevice(dev) && GoodBase(base) && BlockBytes(dev, lba + 1) <= |media|
    ensures var e := StrayWrite(dev, base, lba);
      && IsWrite(1, e) && MediaStart(dev, e) == BlockBytes(dev, lba)
      && 0 < TransferLength(dev, media, 1, e)
      && PrpAddress(mem, base, e.prp1, e.prp2, TransferLength(dev, media, 1, e), 0) == base + DATA_OFFSET
  {
    TransferFields(OP_WRITE, dev.nsid, lba, 0, base + DATA_OFFSET, 0);
    assert BlockBytes(dev, lba + 1) == BlockBytes(dev, lba) + BlockBytes(dev, 1);
  }

  /** Its first byte is moved. */
  lemma StrayMoved(dev: Device, w: World, k: nat, lba: U64)
    requires ValidDevice(dev) && WorldOk(w) && Live(w) && BlockBytes(dev, lba + 1) <= |w.ctl.media|
    requires k in w.ctl.queues[1].jobs && w.ctl.queues[1].jobs[k].sqe == StrayWrite(dev, w.base, lba)
    ensures var v := Step(dev, w, Move(1, k, 0)); var x := BlockBytes(dev, lba);
      x < |v.ctl.media| && v.ctl.media[x] == w.mem[DATA_OFFSET]
  {
    var e := StrayWrite(dev, w.base, lba);
    StrayLength(dev, w.base, w.ctl.media, w.mem, lba);
    hide StrayWrite, PrpAddress, BlockBytes, TransferLength, MediaStart, ValidDevice, WriteAt, SourceByte;
    WriteByteInRange(dev, w.ctl.media, 1, e, 0);
    assert MoveEnabled(dev, w, 1, k, 0);
    assert MoveAddress(dev, w, 1, k, 0) == w.base + DATA_OFFSET;
  }

  lemma StrayPayload(w: World, e: Sqe, value: U8)
    requires WorldOk(w) && w.ctl.queues[1].sqHead < 64
    ensures var mem := WriteAt(StrayMemory(w, 1, e), DATA_OFFSET, [value]);
      && |mem| == |w.mem| && mem[DATA_OFFSET] == value
      && DecodeSqe(ReadAt(mem, NextSlot(w, 1), SQE_SIZE)) == e
  {
    StrayEntry(w, 1, e);
    hide DecodeSqe, StrayMemory;
    ReadSame(WriteAt(StrayMemory(w, 1, e), DATA_OFFSET, [value]), StrayMemory(w, 1, e), NextSlot(w, 1), SQE_SIZE);
  }

  /** On the I/O queue an ordinary Write is enough to reach any block. */
  lemma WriteReaches(dev: Device, w: World, lba: U64, value: U8)
    requires ValidDevice(dev) && WorldOk(w) && Enabled(w.ctl.regs) && RingInPlace(w, 1)
    requires BlockBytes(dev, lba + 1) <= |w.ctl.media|
    ensures exists laters: seq<Later> ::
      var media, x := RunLater(dev, w, laters).ctl.media, BlockBytes(dev, lba); x < |media| && media[x] == value
  {
    var e, k := StrayWrite(dev, w.base, lba), w.ctl.queues[1].fetched;
    var mem := WriteAt(StrayMemory(w, 1, e), DATA_OFFSET, [value]);
    StrayPayload(w, e, value);
    hide StrayMemory, StrayWrite, DecodeSqe, ReadAt, WriteAt, BlockBytes, ValidDevice, CanFetch, RunLater, Step,
         StrayRun, NextSlot;
    var last := Move(1, k, 0);
    StrayRuns(dev, w, 1, mem, e, last);
    var v: World :| && WorldOk(v) && v.mem == mem && v.base == w.base && v.ctl.media == w.ctl.media && Live(v)
      && k in v.ctl.queues[1].jobs && v.ctl.queues[1].jobs[k].sqe == e
      && RunLater(dev, w, StrayRun(w, 1, mem, last)) == Step(dev, v, last);
    StrayMoved(dev, v, k, lba);
  }

  // --- exactly --------------------------------------------------------------------------------------------------

  /** Whatever memory comes to hold and the controller does, only the file changes. */
  ghost predicate SafeAfter(dev: Device, blocks: Blocks, before: seq<U8>, w: World)
    requires ValidDevice(dev) && WorldOk(w)
  {
    forall laters: seq<Later> :: OnlyFileChanged(blocks, before, RunLater(dev, w, laters).ctl.media)
  }

  lemma SubmittedHarmless(dev: Device, before: seq<U8>, w: World, hosts: seq<HostQueue>, blocks: Blocks, q: nat)
    requires SysInv(dev, before, w, hosts) && SubmittedInFile(dev, blocks, hosts[1].submitted)
    requires q < 2 && !CanFetch(w.ctl.queues[q])
    ensures Harmless(dev, blocks, q, w.ctl.queues[q])
  {
    hide CommandsOk, ListsOk, Provenance, QueuesInOrder, TouchedOk, QueueInv, ValidDevice, CanFetch, CommandInFile,
         RingsLive, Foreign;
    QueueOf(dev, before, w, hosts, q);
    forall k | k in w.ctl.queues[q].jobs
      ensures HarmlessCommand(dev, blocks, q, w.ctl.queues[q].jobs[k].sqe)
    {
      NoneForeign(dev, before, w, hosts, q, k);
      JobSubmitted(w.mem, w.base, hosts[q], w.ctl.queues[q], q, k);
    }
  }

  lemma SafeNow(dev: Device, before: seq<U8>, w: World, hosts: seq<HostQueue>, blocks: Blocks)
    requires SysInv(dev, before, w, hosts) && SubmittedInFile(dev, blocks, hosts[1].submitted)
    ensures ValidDevice(dev) && WorldOk(w)
    ensures NothingLeft(w.ctl) ==> SafeAfter(dev, blocks, before, w)
  {
    ShapeOf(dev, before, w, hosts);
    hide SysInv, ValidDevice, CanFetch, OnlyFileChanged, SubmittedInFile, Harmless, RunLater;
    if NothingLeft(w.ctl) {
      SubmittedHarmless(dev, before, w, hosts, blocks, 0);
      SubmittedHarmless(dev, before, w, hosts, blocks, 1);
      ConfinedNow(dev, before, w, hosts, blocks);
      forall laters: seq<Later>
        ensures OnlyFileChanged(blocks, before, RunLater(dev, w, laters).ctl.media)
      {
        SafeForever(dev, blocks, before, w, laters);
      }
    }
  }

  /**
   After the program, exactly. The bytes outside the file are safe from everything memory may come to hold, if
   and only if neither queue shows the controller a command left to fetch, or no byte is outside.
   */
  lemma SafeAfterExact(dev: Device, before: seq<U8>, w: World, hosts: seq<HostQueue>, blocks: Blocks)
    requires SysInv(dev, before, w, hosts) && SubmittedInFile(dev, blocks, hosts[1].submitted)
    ensures ValidDevice(dev) && WorldOk(w)
    ensures SafeAfter(dev, blocks, before, w) <==> NothingLeft(w.ctl) || NothingOutside(blocks, |w.ctl.media|)
  {
    ShapeOf(dev, before, w, hosts);
    SafeNow(dev, before, w, hosts, blocks);
    hide SysInv, ValidDevice, CanFetch, OnlyFileChanged, Outside, SubmittedInFile, RunLater;
    if NothingOutside(blocks, |w.ctl.media|) {
      ConfinedNow(dev, before, w, hosts, blocks);
      forall laters: seq<Later>
        ensures OnlyFileChanged(blocks, before, RunLater(dev, w, laters).ctl.media)
      {
        SafeForever(dev, blocks, before, w, laters);
      }
    } else if !NothingLeft(w.ctl) {
      var x: nat :| Outside(blocks, |w.ctl.media|, x);
      Unsafe(dev, before, w, hosts, blocks, if CanFetch(w.ctl.queues[0]) then 0 else 1, x);
    }
  }

  lemma ConfinedNow(dev: Device, before: seq<U8>, w: World, hosts: seq<HostQueue>, blocks: Blocks)
    requires SysInv(dev, before, w, hosts) && SubmittedInFile(dev, blocks, hosts[1].submitted)
    ensures OnlyFileChanged(blocks, before, w.ctl.media)
  {
    hide QueueInv, CommandsOk, ListsOk, QueuesInOrder, TouchedOk, Provenance, SubmittedInFile, OnlyFileChanged,
         RingsLive;
    ConfinedContents(dev, before, w.ctl.media, hosts[1].submitted, blocks);
  }

  /** A value that differs from what a byte was. */
  function Other(v: U8): U8 {
    if v == 0 then 1 else 0
  }

  lemma Unsafe(dev: Device, before: seq<U8>, w: World, hosts: seq<HostQueue>, blocks: Blocks, q: nat, x: nat)
    requires SysInv(dev, before, w, hosts) && q < 2 && CanFetch(w.ctl.queues[q])
    requires Outside(blocks, |w.ctl.media|, x)
    ensures ValidDevice(dev) && WorldOk(w) && !SafeAfter(dev, blocks, before, w)
  {
    ShapeOf(dev, before, w, hosts);
    FetchPossible(dev, before, w, hosts, q);
    SameSize(dev, before, w, hosts);
    hide SysInv, ValidDevice, CanFetch, FileByte, RunLater;
    ForeignReaches(dev, w, q, x, Other(before[x]));
    var laters: seq<Later> :| RunLater(dev, w, laters).ctl.media == w.ctl.media[x := Other(before[x])];
    assert !OnlyFileChanged(blocks, before, RunLater(dev, w, laters).ctl.media);
  }

  lemma SameSize(dev: Device, before: seq<U8>, w: World, hosts: seq<HostQueue>)
    requires SysInv(dev, before, w, hosts)
    ensures |before| == |w.ctl.media|
  {
    hide QueueInv, CommandsOk, ListsOk, QueuesInOrder, TouchedOk, RingsLive, ValidDevice;
  }
}
