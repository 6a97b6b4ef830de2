/** `NvmeUserspaceDriver` of src/nvmetoy.rs. */
module Driver {
  import opened Arithmetic
  import opened Bytes
  import opened NvmeSpec
  import opened DmaLayout
  import opened Prp
  import opened Ring
  import opened Controller
  import opened System
  import opened Submit
  import opened Patience
  import opened Delivery
  import opened Effect
  import opened Calm
  import opened History
  import opened Transfer
  import opened BringUp
  import opened BlockDevice
  import opened Hardware
  import opened QueuePairs
  import opened Wrappers

  const READY_POLLS: nat := 1000

  /** None of the first `n` reads settles the wait. */
  predicate NeverSettled(dev: Device, sched: Schedule, w: World, n: nat, wantReady: bool)
    requires ValidDevice(dev) && WorldOk(w)
  {
    forall i :: 1 <= i <= n ==> Unsettled(Ticks(dev, sched, w, i).ctl.regs, wantReady)
  }

  /** A wait begun in `w` ends in `v`: the controller has run once for each read, and no earlier read settled it. */
  predicate FirstSettled(dev: Device, sched: Schedule, w: World, v: World, wantReady: bool) {
    && ValidDevice(dev) && WorldOk(w) && w.clock < v.clock
    && v == Ticks(dev, sched, w, v.clock - w.clock)
    && NeverSettled(dev, sched, w, v.clock - w.clock - 1, wantReady)
  }

  lemma NoTicks(dev: Device, sched: Schedule, w: World, wantReady: bool)
    requires ValidDevice(dev) && WorldOk(w)
    ensures Ticks(dev, sched, w, 0) == w && NeverSettled(dev, sched, w, 0, wantReady)
  {
  }

  lemma LastUnsettled(dev: Device, sched: Schedule, w: World, n: nat, wantReady: bool)
    requires ValidDevice(dev) && WorldOk(w) && n > 0 && NeverSettled(dev, sched, w, n, wantReady)
    ensures NeverSettled(dev, sched, w, n - 1, wantReady) && Unsettled(Ticks(dev, sched, w, n).ctl.regs, wantReady)
  {
    hide Unsettled, ValidDevice, Ticks;
  }

  lemma OneMoreTick(dev: Device, sched: Schedule, w: World, n: nat, wantReady: bool)
    requires ValidDevice(dev) && WorldOk(w) && NeverSettled(dev, sched, w, n, wantReady)
    ensures var v := Tick(dev, sched, Ticks(dev, sched, w, n));
      && v == Ticks(dev, sched, w, n + 1) && v.clock == w.clock + n + 1
      && (Unsettled(v.ctl.regs, wantReady) ==> NeverSettled(dev, sched, w, n + 1, wantReady))
  {
    hide Tick, ValidDevice, WorldOk;
  }

  /** What bring-up leaves in CC, AQA, ASQ and ACQ. */
  predicate SetUp(r: Registers, base: nat) {
    r.cc == 0x46_0001 && r.aqa == 0x3F_003F && r.asq == base + 0x0000 && r.acq == base + 0x1000
  }

  /** A status that neither ends the wait for RDY nor breaks it off. */
  predicate Unsettled(r: Registers, wantReady: bool) {
    !r.fatal && r.ready != wantReady
  }

  /** A call on queue `q` begun with nothing outstanding, seen from after it. */
  predicate Quietly(dev: Device, w0: World, h: HostQueue, q: nat, command: Sqe, w: World, result: Result<Cqe>)
    requires WorldOk(w0) && WorldOk(w) && HostFits(h) && q < 2
  {
    var s := Start(w0.ctl.media, w0.mem, w0.ctl.queues[1]);
    var n, e := |h.submitted|, Stamped(h, command);
    && Fits(dev, s, q, e) && CallInv(dev, s, w, q, n, e)
    && (result == Err(TimedOut) ==> |w.ctl.queues[q].posted| == n)
    && (result != Err(TimedOut) ==>
          && result.Ok? && |w.ctl.queues[q].posted| == n + 1 && result.value == w.ctl.queues[q].posted[n].cqe
          && (IsSuccess(result.value) <==> Succeeded(w.ctl.queues[q], n)))
  }

  /** Completions stay posted. */
  predicate Grows(c: Ctl, d: Ctl) {
    && |c.queues| == |d.queues| == 2
    && c.queues[0].posted <= d.queues[0].posted && c.queues[1].posted <= d.queues[1].posted
  }

  lemma CommandFits(dev: Device, w: World, h: HostQueue, q: nat, command: Sqe)
    requires ValidDevice(dev) && WorldOk(w) && HostFits(h) && q < 2 && CommandOk(dev, w.base, q, command)
    ensures Fits(dev, Start(w.ctl.media, w.mem, w.ctl.queues[1]), q, Stamped(h, command))
  {
    hide PointerShape, CreateOk, MediaLength, MediaStart;
    CidIrrelevant(dev, command, h.cid);
  }

  /** Everything `SubmitAdmin` and `SubmitIo` need to know about one call. */
  lemma CallFacts(dev: Device, before: seq<U8>, sched: Schedule, w: World, hosts: seq<HostQueue>, q: nat,
                  command: Sqe, limit: nat)
    requires Callable(dev, before, w, hosts, q, command) && Idle(hosts[1 - q])
    ensures var o := SubmitAndWait(dev, sched, w, hosts[q], command, limit);
      && WorldOk(o.w) && o.w.base == w.base && SysInv(dev, before, o.w, hosts[q := o.h]) && Idle(o.h)
      && o.h.submitted == hosts[q].submitted + [Stamped(hosts[q], command)]
      && o.h.timeouts == hosts[q].timeouts + (if o.result == Err(TimedOut) then 1 else 0)
      && (o.result == Err(TimedOut) ==> |o.w.ctl.queues[q].posted| == o.h.consumed)
      && (IoReady(w, hosts) && !IsCreate(q, command) ==> IoReady(o.w, hosts[q := o.h]))
      && Grows(w.ctl, o.w.ctl)
      && (hosts[0].timeouts == 0 && hosts[1].timeouts == 0 ==> Quietly(dev, w, hosts[q], q, command, o.w, o.result))
  {
    hide Grows, SysInv, SubmitAndWait, CallInv, Fits, IoReady, CommandOk, ListOk, Idle, IsSuccess, HostFits, Succeeded;
    CallGrows(dev, before, sched, w, hosts, q, command, limit);
    CallKeeps(dev, before, sched, w, hosts, q, command, limit);
    ShapeOf(dev, before, w, hosts);
    hide ValidDevice, WorldOk;
    if hosts[0].timeouts == 0 && hosts[1].timeouts == 0 {
      assert Settling(hosts[0]) && Settling(hosts[1]);
      CommandFits(dev, w, hosts[q], q, command);
      QuietCall(dev, before, sched, w, hosts, q, command, limit);
    }
  }

  lemma CallGrows(dev: Device, before: seq<U8>, sched: Schedule, w: World, hosts: seq<HostQueue>, q: nat,
                  command: Sqe, limit: nat)
    requires Callable(dev, before, w, hosts, q, command)
    ensures ValidDevice(dev) && WorldOk(w) && |hosts| == 2 && q < 2 && HostFits(hosts[q])
    ensures Grows(w.ctl, SubmitAndWait(dev, sched, w, hosts[q], command, limit).w.ctl)
  {
    hide Callable, SubmitAndWait, ValidDevice, HostFits, NextOrigin;
    CallDescends(dev, before, sched, w, hosts, q, command, limit, 0);
    CallDescends(dev, before, sched, w, hosts, q, command, limit, 1);
  }

  function Check(c: Cqe): Result<()> {
    if IsSuccess(c) then Ok(()) else Err(CommandFailed(StatusCodeType(c), StatusCode(c)))
  }

  function Failure<T>(r: Result<T>): Option<Error> {
    if r.Ok? then None else Some(r.error)
  }

  /** The outcome is what the controller's `n`-th completion says: success, or the failure its status reports. */
  predicate AnsweredBy(posted: seq<Posting>, n: nat, failure: Option<Error>) {
    n < |posted| && failure == Failure(Check(posted[n].cqe))
  }

  /** Commands `n` and `n + 1` create completion queue 1 and then submission queue 1, which posts to it. */
  predicate CreatesAt(submitted: seq<Sqe>, n: nat) {
    && |submitted| >= n + 2
    && var cq, sq := submitted[n], submitted[n + 1];
       && IsCreateCq(cq) && QueueIdOf(cq) == 1 && IsCreateSq(sq) && QueueIdOf(sq) == 1 && TargetCqOf(sq) == 1
  }

  lemma StillCreated(was: seq<Sqe>, now: seq<Sqe>, n: nat)
    requires CreatesAt(was, n) && was <= now
    ensures CreatesAt(now, n)
  {
    assert now[n] == was[n] && now[n + 1] == was[n + 1];
  }

  /** How a call begun with nothing outstanding ends: unanswered, or as its completion says. */
  predicate Ended(posted: seq<Posting>, n: nat, failure: Option<Error>) {
    if failure == Some(TimedOut) then |posted| == n else |posted| == n + 1 && AnsweredBy(posted, n, failure)
  }

  predicate EntrySizesTaken(page: seq<U8>)
    requires |page| == 4096
  {
    page[512] % 16 <= 6 <= page[512] / 16 && page[513] % 16 <= 4 <= page[513] / 16
  }

  /**
   Why bring-up may fail: the controller reports a fatal status, RDY does not follow EN, the newest admin command
   stays unanswered or reports a failure, or the announced entry sizes exclude the driver's.
   */
  predicate BringUpFailure(dev: Device, c: Ctl, e: Error)
    requires ValidDevice(dev) && |c.queues| == 2
  {
    var admin := c.queues[0];
    || (e == Fatal && c.regs.fatal)
    || (e == TimedOut && (c.regs.ready != Enabled(c.regs) || admin.rung == |admin.posted| + 1))
    || (e == EntrySizeRefused && !EntrySizesTaken(dev.controllerPage))
    || (e.CommandFailed? && admin.posted != [] && AnsweredBy(admin.posted, |admin.posted| - 1, Some(e)))
  }

  lemma WhyFailed(dev: Device, c: Ctl, n: nat, e: Error)
    requires ValidDevice(dev) && |c.queues| == 2 && c.queues[0].rung == n + 1
    requires if e == EntrySizeRefused then !EntrySizesTaken(dev.controllerPage)
             else Ended(c.queues[0].posted, n, Some(e)) && (e != TimedOut ==> e.CommandFailed?)
    ensures BringUpFailure(dev, c, e)
  {
  }

  /** One more command, and it is this transfer. */
  predicate Submits(was: seq<Sqe>, now: seq<Sqe>, opc: U8, slba: nat, blockCount: nat) {
    && |now| == |was| + 1 && now[..|was|] == was
    && now[|was|].opc == opc && Slba(now[|was|]) == slba && BlockCount(now[|was|]) == blockCount
  }

  lemma SubmitsOne(submitted: seq<Sqe>, h: HostQueue, opc: U8, nsid: U32, slba: U64, nlb: U16, prp1: U64, prp2: U64)
    requires HostFits(h)
    ensures var e := Stamped(h, NvmeTransfer(opc, nsid, slba, nlb, prp1, prp2));
      Submits(submitted, submitted + [e], opc, slba, nlb + 1)
  {
    TransferFields(opc, nsid, slba, nlb, prp1, prp2);
  }

  /** The transfer commands `read` and `write` build are ones the I/O queue may carry. */
  lemma TransferCommandOk(dev: Device, mem: seq<U8>, base: nat, h: HostQueue, opc: U8, slba: U64, nlb: U16,
                          prp1: U64, prp2: U64)
    requires ValidDevice(dev) && |mem| == HUGE_PAGE_SIZE && HostFits(h) && (opc == OP_READ || opc == OP_WRITE)
    requires var length := BlockBytes(dev, nlb + 1);
      && length <= MAX_TRANSFER_BYTES && PointerShape(base, prp1, prp2, length)
      && ListHolds(mem, base, ListLength(length))
    ensures var e := NvmeTransfer(opc, dev.nsid, slba, nlb, prp1, prp2);
      && CommandOk(dev, base, 1, e) && ListOk(dev, mem, base, e)
      && MediaLength(dev, Stamped(h, e)) == BlockBytes(dev, nlb + 1)
      && MediaStart(dev, Stamped(h, e)) == BlockBytes(dev, slba)
      && Stamped(h, e).opc == opc && !IsCreate(1, e)
  {
    TransferFields(opc, dev.nsid, slba, nlb, prp1, prp2);
    var e := NvmeTransfer(opc, dev.nsid, slba, nlb, prp1, prp2);
    CidIrrelevant(dev, e, h.cid);
    hide PointerShape, ListHolds, BlockBytes;
  }

  /** With no I/O command ever submitted the medium is as it was. */
  lemma NothingWritten(dev: Device, before: seq<U8>, w: World, hosts: seq<HostQueue>)
    requires SysInv(dev, before, w, hosts) && hosts[1].submitted == []
    ensures w.ctl.media == before
  {
    hide QueueInv, CommandsOk, ListsOk, QueuesInOrder, TouchedOk;
    assert forall x :: 0 <= x < |before| ==> w.ctl.media[x] == before[x];
  }

  /** A successful transfer has done what it says. */
  predicate TransferHolds(dev: Device, s: Start, command: Sqe, o: Outcome) {
    o.result.Ok? && IsSuccess(o.result.value) ==>
      && |o.w.mem| == HUGE_PAGE_SIZE && CalmFits(dev, s, GoalOf(dev, command), command)
      && |o.w.ctl.media| == |s.media| && Achieved(GoalOf(dev, command), s, o.w.ctl.media, o.w.mem)
  }

  lemma CalmTransfer(dev: Device, before: seq<U8>, sched: Schedule, s: Start, w: World, hosts: seq<HostQueue>,
                     command: Sqe, limit: nat)
    requires Callable(dev, before, w, hosts, 1, command) && |hosts[1].submitted| < 0x1_0000
    requires var g := GoalOf(dev, command);
      CalmFits(dev, s, g, command) && Sane(g, s, w.ctl.media, w.mem)
      && Undisturbed(dev, w.ctl, hosts, g, |hosts[1].submitted|)
    ensures WorldOk(w) && ValidDevice(dev) && HostFits(hosts[1])
    ensures TransferHolds(dev, s, command, SubmitAndWait(dev, sched, w, hosts[1], command, limit))
  {
    CallableShape(dev, before, w, hosts, 1, command);
    SameGoal(dev, command, hosts[1].cid);
    hide Callable, SysInv, SubmitAndWait, Undisturbed, Sane, Achieved, IsSuccess, ValidDevice, HostFits, Stamped;
    var g := GoalOf(dev, command);
    assert CalmFits(dev, s, g, Stamped(hosts[1], command)) by { FitsStamped(dev, s, g, hosts[1], command); }
    CalmCall(dev, before, sched, s, w, hosts, command, limit, g);
    TrustedHere(dev, before, w, hosts, 1, command, limit);
  }

  /** Whoever is at work, what a watched transfer depends on stays. */
  predicate TickStays(dev: Device, w: World, hosts: seq<HostQueue>, e: Sqe, s: Start)
    requires |w.mem| == HUGE_PAGE_SIZE
  {
    && |w.ctl.queues| == |hosts| == 2 && CalmFits(dev, s, GoalOf(dev, e), e)
    && Undisturbed(dev, w.ctl, hosts, GoalOf(dev, e), |hosts[1].submitted|)
    && Sane(GoalOf(dev, e), s, w.ctl.media, w.mem)
  }

  lemma TickWatched(dev: Device, before: seq<U8>, sched: Schedule, w: World, hosts: seq<HostQueue>, e: Sqe, s: Start)
    requires SysInv(dev, before, w, hosts) && TickStays(dev, w, hosts, e, s)
    ensures TickStays(dev, Tick(dev, sched, w), hosts, e, s)
  {
    ShapeOf(dev, before, w, hosts);
    hide SysInv, Undisturbed, Sane, OwnWork, ValidDevice, Tick;
    var g, n := GoalOf(dev, e), |hosts[1].submitted|;
    CalmBegins(dev, before, s, w, hosts, g, e);
    TickCalm(dev, before, sched, s, w, hosts, g, n, e);
  }

  lemma SaneFrame(dev: Device, s: Start, e: Sqe, media: seq<U8>, mem: seq<U8>, mem2: seq<U8>)
    requires CalmFits(dev, s, GoalOf(dev, e), e) && |mem| == |mem2| == HUGE_PAGE_SIZE
    requires SameIn(mem, mem2, DATA_OFFSET, HUGE_PAGE_SIZE) && Sane(GoalOf(dev, e), s, media, mem)
    ensures Sane(GoalOf(dev, e), s, media, mem2)
  {
  }

  /** What a Read or Write of these blocks transfers. */
  function Asked(dev: Device, opc: U8, slba: nat, blockCount: nat): Goal {
    Goal(opc == OP_WRITE, BlockBytes(dev, slba), BlockBytes(dev, blockCount))
  }

  lemma AskedGoal(dev: Device, opc: U8, slba: U64, blockCount: U16, prp1: U64, prp2: U64)
    requires blockCount > 0
    ensures var e := NvmeTransfer(opc, dev.nsid, slba, blockCount - 1, prp1, prp2);
      GoalOf(dev, e) == Asked(dev, opc, slba, blockCount) && e.opc == opc
  {
    TransferFields(opc, dev.nsid, slba, blockCount - 1, prp1, prp2);
  }

  /** The transfer begun in `w0` has done exactly what it says. */
  predicate Accomplished(dev: Device, g: Goal, w0: World, w: World) {
    && |w0.mem| == |w.mem| == HUGE_PAGE_SIZE && g.length <= MAX_TRANSFER_BYTES && |w.ctl.media| == |w0.ctl.media|
    && |w0.ctl.queues| == 2
    && Achieved(g, Start(w0.ctl.media, w0.mem, w0.ctl.queues[1]), w.ctl.media, w.mem)
  }

  /** These bytes are what the medium holds from a block on. */
  predicate WasThere(dev: Device, media: seq<U8>, slba: nat, data: seq<U8>) {
    var start := BlockBytes(dev, slba);
    start + |data| <= |media| && ReadAt(media, start, |data|) == data
  }

  lemma ReadAccomplished(dev: Device, slba: nat, blockCount: nat, w0: World, w: World)
    requires Accomplished(dev, Asked(dev, OP_READ, slba, blockCount), w0, w)
    ensures |w.mem| == HUGE_PAGE_SIZE && BlockBytes(dev, blockCount) <= MAX_TRANSFER_BYTES
    ensures WasThere(dev, w0.ctl.media, slba, ReadAt(w.mem, DATA_OFFSET, BlockBytes(dev, blockCount)))
  {
    hide BlockBytes;
  }

  lemma WriteAccomplished(dev: Device, slba: nat, blockCount: nat, w0: World, w: World)
    requires Accomplished(dev, Asked(dev, OP_WRITE, slba, blockCount), w0, w)
    ensures |w0.mem| == HUGE_PAGE_SIZE && BlockBytes(dev, blockCount) <= MAX_TRANSFER_BYTES
    ensures WasThere(dev, w.ctl.media, slba, ReadAt(w0.mem, DATA_OFFSET, BlockBytes(dev, blockCount)))
  {
    hide BlockBytes;
  }

  lemma SameGoal(dev: Device, e: Sqe, cid: U16)
    ensures GoalOf(dev, e.(cid := cid)) == GoalOf(dev, e)
  {
    CidIrrelevant(dev, e, cid);
  }

  lemma FitsStamped(dev: Device, s: Start, g: Goal, h: HostQueue, command: Sqe)
    requires HostFits(h) && CalmFits(dev, s, g, command)
    ensures CalmFits(dev, s, g, Stamped(h, command))
  {
    SameGoal(dev, command, h.cid);
    hide GoalOf;
  }

  class NvmeUserspaceDriver {
    const nvmeBar: NvmeBar
    const dmaRegion: DmaRegion
    const doorbellStride: nat
    const adminQueue: QueuePair
    const ioQueue: QueuePair
    const nsid: U32
    var blockSizes: map<U32, nat>

    // The medium as it was, and the run so far as a chain of atomic operations.
    ghost const before: seq<U8>
    ghost var log: seq<Event>
    ghost var states: seq<seq<U8>>

    ghost function TheWorld(): World
      reads nvmeBar, dmaRegion.bytes
    {
      nvmeBar.TheWorld(dmaRegion)
    }

    ghost function Media(): seq<U8>
      reads nvmeBar
    {
      nvmeBar.ctl.media
    }

    ghost function Hosts(): seq<HostQueue>
      reads adminQueue, ioQueue
    {
      [adminQueue.Host(), ioQueue.Host()]
    }

    /** No call has ever given up, on either queue. */
    ghost predicate NoTimeouts()
      reads adminQueue, ioQueue
    {
      adminQueue.timeouts == 0 && ioQueue.timeouts == 0
    }

    ghost predicate Wired()
      reads nvmeBar
    {
      && adminQueue != ioQueue && dmaRegion.Valid() && nvmeBar.Valid()
      && doorbellStride == StrideOf(nvmeBar.dev.capabilities)
    }

    /** What holds after any sequence of calls, whatever the controller did and however many gave up. */
    ghost predicate Sound()
      reads this, nvmeBar, dmaRegion.bytes, adminQueue, ioQueue
    {
      && Wired()
      && SysInv(nvmeBar.dev, before, TheWorld(), Hosts())
      && HostFits(adminQueue.Host()) && HostFits(ioQueue.Host()) && adminQueue.id == 0 && ioQueue.id == 1
      && Idle(adminQueue.Host()) && Idle(ioQueue.Host())
    }

    /** Every cached block size is the one its namespace is formatted with. */
    ghost predicate CacheTrue()
      reads this, nvmeBar
    {
      forall n :: n in blockSizes ==> n == nvmeBar.dev.nsid && blockSizes[n] == nvmeBar.dev.blockSize
    }

    /** As long as nothing has timed out the whole run is a chain of atomic reads and writes. */
    ghost predicate Logged()
      reads this, nvmeBar, adminQueue, ioQueue
    {
      NoTimeouts() ==> Chain(states, log) && states[0] == before && states[|log|] == Media()
    }

    ghost predicate Valid()
      reads this, nvmeBar, dmaRegion.bytes, adminQueue, ioQueue
    {
      Sound() && CacheTrue() && IoReady(TheWorld(), Hosts()) && Logged()
    }

    ghost predicate CacheOk()
      reads this, adminQueue, ioQueue
    {
      nsid in blockSizes || NoTimeouts()
    }

    /** Everything outstanding is a bystander of the transfer `e`, and what the transfer depends on is as in `s`. */
    ghost predicate Watched(e: Sqe, s: Start)
      reads nvmeBar, dmaRegion.bytes, adminQueue, ioQueue
    {
      && |nvmeBar.ctl.queues| == 2 && dmaRegion.bytes.Length == HUGE_PAGE_SIZE
      && CalmFits(nvmeBar.dev, s, GoalOf(nvmeBar.dev, e), e)
      && Undisturbed(nvmeBar.dev, nvmeBar.ctl, Hosts(), GoalOf(nvmeBar.dev, e), |ioQueue.submitted|)
      && Sane(GoalOf(nvmeBar.dev, e), s, Media(), dmaRegion.bytes[..])
    }

    /** Few enough commands to tell apart, and everything outstanding is a bystander of this transfer. */
    ghost predicate Unhindered(opc: U8, slba: nat, blockCount: nat)
      reads nvmeBar, adminQueue, ioQueue
    {
      && |nvmeBar.ctl.queues| == 2 && |ioQueue.submitted| < 0x1_0000
      && Undisturbed(nvmeBar.dev, nvmeBar.ctl, Hosts(), Asked(nvmeBar.dev, opc, slba, blockCount), |ioQueue.submitted|)
    }

    /** An unhindered transfer may be watched from here on. */
    lemma Watching(opc: U8, slba: U64, blockCount: U16)
      requires Wired() && Unhindered(opc, slba, blockCount) && (opc == OP_READ || opc == OP_WRITE)
      requires blockCount > 0 && BlockBytes(nvmeBar.dev, blockCount) <= MAX_TRANSFER_BYTES
      ensures |ioQueue.submitted| < 0x1_0000
      ensures Watched(NvmeTransfer(opc, nvmeBar.dev.nsid, slba, blockCount - 1, 0, 0),
                      Start(Media(), dmaRegion.bytes[..], nvmeBar.ctl.queues[1]))
    {
      AskedGoal(nvmeBar.dev, opc, slba, blockCount, 0, 0);
      hide NvmeTransfer, GoalOf, Undisturbed, ValidDevice;
    }

    /** A watched transfer is unhindered. */
    lemma StillUnhindered(opc: U8, slba: U64, blockCount: U16, s: Start)
      requires |ioQueue.submitted| < 0x1_0000 && blockCount > 0
      requires Watched(NvmeTransfer(opc, nvmeBar.dev.nsid, slba, blockCount - 1, 0, 0), s)
      ensures Unhindered(opc, slba, blockCount)
    {
      AskedGoal(nvmeBar.dev, opc, slba, blockCount, 0, 0);
      hide NvmeTransfer, GoalOf, Undisturbed, Sane;
    }

    /** A watched Write still has its payload in the data area. */
    lemma WatchedPayload(slba: U64, blockCount: U16, s: Start)
      requires blockCount > 0
      requires Watched(NvmeTransfer(OP_WRITE, nvmeBar.dev.nsid, slba, blockCount - 1, 0, 0), s)
      ensures BlockBytes(nvmeBar.dev, blockCount) <= MAX_TRANSFER_BYTES && |s.mem| == HUGE_PAGE_SIZE
      ensures var length := BlockBytes(nvmeBar.dev, blockCount);
        ReadAt(dmaRegion.bytes[..], DATA_OFFSET, length) == ReadAt(s.mem, DATA_OFFSET, length)
    {
      AskedGoal(nvmeBar.dev, OP_WRITE, slba, blockCount, 0, 0);
      hide NvmeTransfer, GoalOf, Undisturbed;
      ReadSame(dmaRegion.bytes[..], s.mem, DATA_OFFSET, BlockBytes(nvmeBar.dev, blockCount));
    }

    /** The pointers of a command do not matter to what it transfers. */
    lemma WatchedAlike(opc: U8, slba: U64, blockCount: U16, prp1: U64, prp2: U64, s: Start)
      requires blockCount > 0 && Watched(NvmeTransfer(opc, nvmeBar.dev.nsid, slba, blockCount - 1, 0, 0), s)
      ensures Watched(NvmeTransfer(opc, nvmeBar.dev.nsid, slba, blockCount - 1, prp1, prp2), s)
    {
      AskedGoal(nvmeBar.dev, opc, slba, blockCount, 0, 0);
      AskedGoal(nvmeBar.dev, opc, slba, blockCount, prp1, prp2);
      hide NvmeTransfer, GoalOf, Undisturbed, Sane;
    }

    lemma WhatAchieved(opc: U8, slba: U64, blockCount: U16, prp1: U64, prp2: U64, w0: World)
      requires |w0.ctl.queues| == 2 && blockCount > 0
      requires AchievedBy(NvmeTransfer(opc, nvmeBar.dev.nsid, slba, blockCount - 1, prp1, prp2),
                          Start(w0.ctl.media, w0.mem, w0.ctl.queues[1]))
      ensures Accomplished(nvmeBar.dev, Asked(nvmeBar.dev, opc, slba, blockCount), w0, TheWorld())
    {
      AskedGoal(nvmeBar.dev, opc, slba, blockCount, prp1, prp2);
      hide NvmeTransfer, GoalOf, Achieved;
    }

    /** The transfer `e` begun in `s` has done exactly what it says. */
    ghost predicate AchievedBy(e: Sqe, s: Start)
      reads nvmeBar, dmaRegion.bytes
    {
      && dmaRegion.bytes.Length == HUGE_PAGE_SIZE && CalmFits(nvmeBar.dev, s, GoalOf(nvmeBar.dev, e), e)
      && |Media()| == |s.media| && Achieved(GoalOf(nvmeBar.dev, e), s, Media(), dmaRegion.bytes[..])
    }

    /** Before the first I/O command the medium is as it was. */
    lemma Untouched()
      requires Sound() && ioQueue.submitted == []
      ensures Media() == before && IoUntouched(nvmeBar.ctl)
      ensures NoTimeouts() ==> NothingLeft(nvmeBar.ctl)
      ensures nvmeBar.ctl.queues[0].rung == |adminQueue.submitted|
    {
      NothingWritten(nvmeBar.dev, before, TheWorld(), Hosts());
      OnlyOwn(nvmeBar.dev, before, TheWorld(), Hosts());
      QuietLeft(nvmeBar.dev, before, TheWorld(), Hosts());
      PointerFacts(nvmeBar.dev, before, TheWorld(), Hosts(), 0);
      hide SysInv, HostFits, Idle, StrideOf, ValidDevice;
    }

    /** Bring-up gives up for a stated reason, and leaves nothing behind but its own commands. */
    lemma BringUpFails(e: Error)
      requires Sound() && ioQueue.submitted == [] && adminQueue.submitted != []
      requires if e == EntrySizeRefused then !EntrySizesTaken(nvmeBar.dev.controllerPage) && NoTimeouts()
               else
                 && Ended(nvmeBar.ctl.queues[0].posted, |adminQueue.submitted| - 1, Some(e))
                 && (e != TimedOut ==> e.CommandFailed? && NoTimeouts())
      ensures Media() == before && IoUntouched(nvmeBar.ctl) && BringUpFailure(nvmeBar.dev, nvmeBar.ctl, e)
      ensures e != TimedOut ==> NothingLeft(nvmeBar.ctl)
    {
      hide Ended, EntrySizesTaken, BringUpFailure, IoUntouched, NothingLeft, SysInv, HostFits, Idle, StrideOf,
           ValidDevice, IoReady, GoodBase;
      Untouched();
      WhyFailed(nvmeBar.dev, nvmeBar.ctl, |adminQueue.submitted| - 1, e);
    }

    lemma BroughtUp()
      requires Sound() && IoReady(TheWorld(), Hosts()) && NoTimeouts() && ioQueue.submitted == []
      requires adminQueue.submitted != [] && CacheTrue() && log == [] && states == [before]
      ensures Media() == before && RingsAgree(TheWorld(), Hosts()) && Valid()
    {
      Untouched();
      hide SysInv, HostFits, StrideOf, ValidDevice, IoReady, GoodBase, RingsAgree;
      AgreementFromUse(nvmeBar.dev, before, TheWorld(), Hosts());
    }

    /** Reads the capabilities for the doorbell stride and sets up both queue pairs. */
    constructor (bar: NvmeBar, dma: DmaRegion, nsid: U32)
      requires bar.Valid() && dma.Valid()
      ensures nvmeBar == bar && dmaRegion == dma && this.nsid == nsid
      ensures fresh(adminQueue) && fresh(ioQueue) && Wired() && Hosts() == FreshHosts()
      ensures blockSizes == map[] && before == bar.ctl.media && log == [] && states == [before]
    {
      nvmeBar := bar;
      dmaRegion := dma;
      doorbellStride := StrideOf(bar.dev.capabilities);
      adminQueue := new QueuePair(0, ADMIN_SUBMISSION_QUEUE_OFFSET, ADMIN_COMPLETION_QUEUE_OFFSET);
      ioQueue := new QueuePair(1, IO_SUBMISSION_QUEUE_OFFSET, IO_COMPLETION_QUEUE_OFFSET);
      blockSizes := map[];
      this.nsid := nsid;
      before := bar.ctl.media;
      log := [];
      states := [bar.ctl.media];
    }

    /**
     Reads the status until it is fatal or RDY is as wanted, a thousand times at most: the first read that settles
     it decides, and only if none of the thousand does is the outcome a timeout.
     */
    method WaitReady(wantReady: bool) returns (result: Result<()>)
      requires Wired() && |Hosts()| == 2
      requires Dead(TheWorld()) || SysInv(nvmeBar.dev, before, TheWorld(), Hosts())
      modifies nvmeBar, dmaRegion.bytes
      ensures Wired() && SameProgramming(old(nvmeBar.ctl.regs), nvmeBar.ctl.regs)
      ensures old(Dead(TheWorld())) ==>
        && Dead(TheWorld()) && TheWorld().mem == old(TheWorld().mem)
        && nvmeBar.ctl == old(nvmeBar.ctl).(regs := nvmeBar.ctl.regs)
        && (old(!nvmeBar.ctl.regs.ready) ==> !nvmeBar.ctl.regs.ready)
      ensures old(SysInv(nvmeBar.dev, before, TheWorld(), Hosts())) ==> SysInv(nvmeBar.dev, before, TheWorld(), Hosts())
      ensures FirstSettled(nvmeBar.dev, nvmeBar.sched, old(TheWorld()), TheWorld(), wantReady)
      ensures 1 <= nvmeBar.clock - old(nvmeBar.clock) <= 1000
      ensures result == Err(TimedOut) ==> nvmeBar.clock == old(nvmeBar.clock) + 1000
      ensures var regs := nvmeBar.ctl.regs;
        result == if regs.fatal then Err(Fatal) else if regs.ready == wantReady then Ok(()) else Err(TimedOut)
    {
      hide SysInv, Dead, Tick, ValidDevice, StrideOf, GoodBase, NeverSettled, Ticks;
      ghost var w0 := TheWorld();
      NoTicks(nvmeBar.dev, nvmeBar.sched, w0, wantReady);
      for spins := 0 to READY_POLLS
        invariant Wired() && SameProgramming(w0.ctl.regs, nvmeBar.ctl.regs)
        invariant Dead(w0) ==>
          && Dead(TheWorld()) && TheWorld().mem == w0.mem
          && nvmeBar.ctl == w0.ctl.(regs := nvmeBar.ctl.regs)
          && (!w0.ctl.regs.ready ==> !nvmeBar.ctl.regs.ready)
        invariant SysInv(nvmeBar.dev, before, w0, Hosts()) ==> SysInv(nvmeBar.dev, before, TheWorld(), Hosts())
        invariant nvmeBar.clock == w0.clock + spins
        invariant TheWorld() == Ticks(nvmeBar.dev, nvmeBar.sched, w0, spins)
        invariant NeverSettled(nvmeBar.dev, nvmeBar.sched, w0, spins, wantReady)
      {
        ghost var w := TheWorld();
        if Dead(w) {
          DeadTick(nvmeBar.dev, nvmeBar.sched, w);
        }
        if SysInv(nvmeBar.dev, before, w, Hosts()) {
          TickKeeps(nvmeBar.dev, before, nvmeBar.sched, w, Hosts());
        }
        OneMoreTick(nvmeBar.dev, nvmeBar.sched, w0, spins, wantReady);
        nvmeBar.Preempt(dmaRegion);
        var status := ReadStatus(nvmeBar.ctl.regs);
        if status / 2 % 2 != 0 {
          return Err(Fatal);
        }
        if (status % 2 != 0) == wantReady {
          return Ok(());
        }
      }
      LastUnsettled(nvmeBar.dev, nvmeBar.sched, w0, READY_POLLS, wantReady);
      return Err(TimedOut);
    }

    /**
     Reset, program the admin queue, enable. The admin queue registers are written only while EN and
     RDY are both 0, and when the controller is ready again the rings satisfy their protocol.
     */
    method ResetAndEnable() returns (result: Result<()>)
      requires Wired() && Hosts() == FreshHosts() && Zeroed(TheWorld().mem) && before == Media() && blockSizes == map[]
      requires nvmeBar.ctl.touched == {} && !nvmeBar.ctl.regs.misprogrammed
      modifies nvmeBar, dmaRegion.bytes
      ensures Wired() && !nvmeBar.ctl.regs.misprogrammed && Media() == before && IoUntouched(nvmeBar.ctl)
      ensures NothingLeft(nvmeBar.ctl)
      ensures result.Err? ==> BringUpFailure(nvmeBar.dev, nvmeBar.ctl, result.error)
      ensures result.Ok? ==>
        Sound() && nvmeBar.ctl.regs.ready && Enabled(nvmeBar.ctl.regs) && EntrySizesAgree(nvmeBar.ctl.regs)
      ensures result.Ok? ==> SetUp(nvmeBar.ctl.regs, dmaRegion.physicalAddress)
    {
      hide SysInv, StrideOf, ValidDevice, Zeroed, GoodBase, HostFits, Idle, Pow2, FirstSettled;
      FreshFacts();
      assert adminQueue.Host() == FreshHosts()[0] && ioQueue.Host() == FreshHosts()[1];
      var configuration := nvmeBar.ctl.regs.cc;
      nvmeBar.WriteRegister32(CC, configuration - configuration % 2);
      assert Dead(TheWorld());
      var _ :- WaitReady(false);
      EnableAdminQueue();
      hide WriteConfiguration, Write32, Dead;
      result := WaitReady(true);
      NothingWritten(nvmeBar.dev, before, TheWorld(), Hosts());
      OnlyOwn(nvmeBar.dev, before, TheWorld(), Hosts());
      QuietLeft(nvmeBar.dev, before, TheWorld(), Hosts());
    }

    /** Programs the admin queue of a controller that is off, and turns it on. */
    method EnableAdminQueue()
      requires Wired() && Hosts() == FreshHosts() && Dead(TheWorld()) && Zeroed(TheWorld().mem) && before == Media()
      requires nvmeBar.ctl.touched == {} && !nvmeBar.ctl.regs.misprogrammed && !nvmeBar.ctl.regs.ready
      modifies nvmeBar`ctl
      ensures Wired() && SysInv(nvmeBar.dev, before, TheWorld(), Hosts())
      ensures Enabled(nvmeBar.ctl.regs) && EntrySizesAgree(nvmeBar.ctl.regs) && !nvmeBar.ctl.regs.misprogrammed
      ensures SetUp(nvmeBar.ctl.regs, dmaRegion.physicalAddress)
    {
      hide SysInv, StrideOf, ValidDevice, Zeroed, GoodBase, HostFits, Idle, Pow2, FreshHosts;
      var attributes := 63 * 0x1_0000 + 63;
      nvmeBar.WriteRegister32(AQA, attributes);
      nvmeBar.WriteRegister64(ASQ, dmaRegion.PhysicalAddressAt(ADMIN_SUBMISSION_QUEUE_OFFSET));
      nvmeBar.WriteRegister64(ACQ, dmaRegion.PhysicalAddressAt(ADMIN_COMPLETION_QUEUE_OFFSET));
      assert !nvmeBar.ctl.regs.misprogrammed;

      var configuration := 4 * 0x10_0000 + 6 * 0x1_0000 + 1;
      EnableKeeps(nvmeBar.dev, TheWorld(), configuration);
      nvmeBar.WriteRegister32(CC, configuration);
      EnableValue(nvmeBar.ctl.regs);
    }

    /** One call on the admin queue. It gives up only after 200001 polls, the last of which still found nothing. */
    method SubmitAdmin(command: Sqe) returns (result: Result<Cqe>)
      requires Sound() && MaySubmit(nvmeBar.dev, TheWorld(), Hosts(), 0, command)
      modifies nvmeBar, dmaRegion.bytes, adminQueue
      ensures Sound()
      ensures old(IoReady(TheWorld(), Hosts())) && !IsCreate(0, command) ==> IoReady(TheWorld(), Hosts())
      ensures adminQueue.submitted == old(adminQueue.submitted) + [Stamped(old(adminQueue.Host()), command)]
      ensures adminQueue.timeouts == old(adminQueue.timeouts) + (if result == Err(TimedOut) then 1 else 0)
      ensures result == Err(TimedOut) ==>
        nvmeBar.clock == old(nvmeBar.clock) + 200_003 && |nvmeBar.ctl.queues[0].posted| == adminQueue.consumed
      ensures nvmeBar.clock <= old(nvmeBar.clock) + 200_004
      ensures SameProgramming(old(nvmeBar.ctl.regs), nvmeBar.ctl.regs) && Grows(old(nvmeBar.ctl), nvmeBar.ctl)
      ensures old(NoTimeouts()) ==>
        Quietly(nvmeBar.dev, old(TheWorld()), old(adminQueue.Host()), 0, command, TheWorld(), result)
    {
      hide SysInv, MaySubmit, Submit.SubmitAndWait, Quietly, Grows, IoReady, Idle, HostFits, StrideOf, ValidDevice,
           GoodBase;
      ghost var w, hosts := TheWorld(), Hosts();
      assert Callable(nvmeBar.dev, before, w, hosts, 0, command);
      CallFacts(nvmeBar.dev, before, nvmeBar.sched, w, hosts, 0, command, adminQueue.spinLimit);
      result := adminQueue.SubmitAndWait(nvmeBar, dmaRegion, doorbellStride, command);
      assert Hosts() == hosts[0 := adminQueue.Host()];
    }

    /** One call on the I/O queue, which is as patient. */
    method SubmitIo(command: Sqe) returns (result: Result<Cqe>)
      requires Sound() && MaySubmit(nvmeBar.dev, TheWorld(), Hosts(), 1, command)
      modifies nvmeBar, dmaRegion.bytes, ioQueue
      ensures Sound()
      ensures old(IoReady(TheWorld(), Hosts())) ==> IoReady(TheWorld(), Hosts())
      ensures ioQueue.submitted == old(ioQueue.submitted) + [Stamped(old(ioQueue.Host()), command)]
      ensures ioQueue.timeouts == old(ioQueue.timeouts) + (if result == Err(TimedOut) then 1 else 0)
      ensures result == Err(TimedOut) ==>
        nvmeBar.clock == old(nvmeBar.clock) + 200_003 && |nvmeBar.ctl.queues[1].posted| == ioQueue.consumed
      ensures nvmeBar.clock <= old(nvmeBar.clock) + 200_004
      ensures SameProgramming(old(nvmeBar.ctl.regs), nvmeBar.ctl.regs) && Grows(old(nvmeBar.ctl), nvmeBar.ctl)
      ensures old(NoTimeouts()) ==>
        Quietly(nvmeBar.dev, old(TheWorld()), old(ioQueue.Host()), 1, command, TheWorld(), result)
      ensures forall s: Start ::
        old(Watched(command, s)) && old(|ioQueue.submitted|) < 0x1_0000 && result.Ok? && IsSuccess(result.value) ==>
          AchievedBy(command, s)
    {
      hide SysInv, MaySubmit, Submit.SubmitAndWait, Quietly, Grows, IoReady, Idle, HostFits, StrideOf, ValidDevice,
           GoodBase, Undisturbed, Sane, Achieved, CalmFits, IsSuccess;
      ghost var w, hosts := TheWorld(), Hosts();
      assert Callable(nvmeBar.dev, before, w, hosts, 1, command);
      CallFacts(nvmeBar.dev, before, nvmeBar.sched, w, hosts, 1, command, ioQueue.spinLimit);
      ghost var limit := ioQueue.spinLimit;
      forall s: Start | Watched(command, s) && |hosts[1].submitted| < 0x1_0000
        ensures TransferHolds(nvmeBar.dev, s, command,
                              Submit.SubmitAndWait(nvmeBar.dev, nvmeBar.sched, w, hosts[1], command, limit))
      {
        CalmTransfer(nvmeBar.dev, before, nvmeBar.sched, s, w, hosts, command, limit);
      }
      result := ioQueue.SubmitAndWait(nvmeBar, dmaRegion, doorbellStride, command);
      assert Hosts() == hosts[1 := ioQueue.Host()];
    }

    /** The completion queue first, then the submission queue that posts to it. */
    method CreateIoQueues() returns (result: Result<()>)
      requires Sound() && NoTimeouts() && ioQueue.submitted == []
      modifies nvmeBar, dmaRegion.bytes, adminQueue
      ensures Sound() && ioQueue.submitted == []
      ensures SameProgramming(old(nvmeBar.ctl.regs), nvmeBar.ctl.regs)
      ensures result.Err? ==>
        && |adminQueue.submitted| > 0
        && Ended(nvmeBar.ctl.queues[0].posted, |adminQueue.submitted| - 1, Failure(result))
        && (result.error != TimedOut ==> result.error.CommandFailed? && NoTimeouts())
      ensures result.Ok? ==>
        && NoTimeouts() && IoReady(TheWorld(), Hosts())
        && var n := old(|adminQueue.submitted|);
           && |adminQueue.submitted| == n + 2 && old(adminQueue.submitted) <= adminQueue.submitted
           && CreatesAt(adminQueue.submitted, n)
    {
      hide SysInv, MaySubmit, Quietly, Idle, HostFits, ValidDevice, StrideOf, GoodBase, Ended, IsSuccess, AnsweredBy;
      var dev := nvmeBar.dev;
      var cq := dmaRegion.PhysicalAddressAt(IO_COMPLETION_QUEUE_OFFSET);
      var command := NvmeCreateIoCompletionQueue(1, 64, cq);
      MayCreate(dev, before, TheWorld(), Hosts(), command);
      ghost var w, h := TheWorld(), adminQueue.Host();
      var answer := SubmitAdmin(command);
      QuietlyPosted(dev, w, h, 0, command, TheWorld(), answer);
      var completion :- answer;
      var _ :- Check(completion);
      CreatedRing(dev, w, h, command, TheWorld(), Ok(completion));

      var sq := dmaRegion.PhysicalAddressAt(IO_SUBMISSION_QUEUE_OFFSET);
      command := NvmeCreateIoSubmissionQueue(1, 64, 1, sq);
      MayCreate(dev, before, TheWorld(), Hosts(), command);
      w, h := TheWorld(), adminQueue.Host();
      answer := SubmitAdmin(command);
      QuietlyPosted(dev, w, h, 0, command, TheWorld(), answer);
      completion :- answer;
      var _ :- Check(completion);
      CreatedRing(dev, w, h, command, TheWorld(), Ok(completion));
      assert Settling(adminQueue.Host());
      QuietNoCreates(dev, before, TheWorld(), Hosts());
      result := Ok(());
    }

    method Identify(structure: U8, identifiedNsid: U32) returns (result: Result<seq<U8>>)
      requires Sound() && structure in {CNS_NAMESPACE, CNS_CONTROLLER}
      modifies nvmeBar, dmaRegion.bytes, adminQueue
      ensures Sound()
      ensures old(IoReady(TheWorld(), Hosts())) ==> IoReady(TheWorld(), Hosts())
      ensures old(adminQueue.submitted) <= adminQueue.submitted
      ensures |adminQueue.submitted| == |old(adminQueue.submitted)| + 1
      ensures SameProgramming(old(nvmeBar.ctl.regs), nvmeBar.ctl.regs) && Grows(old(nvmeBar.ctl), nvmeBar.ctl)
      ensures NoTimeouts() ==> old(NoTimeouts()) && Media() == old(Media())
      ensures NoTimeouts() ==> AnsweredBy(nvmeBar.ctl.queues[0].posted, old(|adminQueue.submitted|), Failure(result))
      ensures old(NoTimeouts()) ==> Ended(nvmeBar.ctl.queues[0].posted, old(|adminQueue.submitted|), Failure(result))
      ensures result.Ok? ==> |result.value| == 4096 && adminQueue.timeouts == old(adminQueue.timeouts)
      ensures old(NoTimeouts()) && result.Ok? ==>
        && (structure == CNS_CONTROLLER ==> result.value == nvmeBar.dev.controllerPage)
        && (structure == CNS_NAMESPACE ==>
              identifiedNsid == nvmeBar.dev.nsid && result.value == nvmeBar.dev.namespacePage)
      ensures old(NoTimeouts()) && result.Err? ==>
        result == Err(TimedOut) || (result.error.CommandFailed? && NoTimeouts())
    {
      hide SysInv, MaySubmit, Quietly, Grows, Idle, HostFits, ValidDevice, StrideOf, GoodBase, IoReady, IsSuccess,
           Ended;
      var data := dmaRegion.PhysicalAddressAt(DATA_OFFSET);
      var command := NvmeIdentify(structure, identifiedNsid, data);
      MayIdentify(nvmeBar.dev, before, TheWorld(), Hosts(), command);
      ghost var w, h := TheWorld(), adminQueue.Host();
      var completion := SubmitAdmin(command);
      if old(NoTimeouts()) {
        Identified(nvmeBar.dev, w, h, command, TheWorld(), completion);
        QuietlyPosted(nvmeBar.dev, w, h, 0, command, TheWorld(), completion);
      }
      var answer :- completion;
      var _ :- Check(answer);
      var output := dmaRegion.ReadBytes(DATA_OFFSET, 4096);
      result := Ok(output);
    }

    method IdentifyController() returns (result: Result<seq<U8>>)
      requires Valid()
      modifies nvmeBar, dmaRegion.bytes, adminQueue
      ensures Valid()
      ensures NoTimeouts() ==> old(NoTimeouts()) && Media() == old(Media())
      ensures result.Ok? ==> |result.value| == 4096
      ensures old(NoTimeouts()) && result.Ok? ==> result.value == nvmeBar.dev.controllerPage
      ensures NoTimeouts() ==> AnsweredBy(nvmeBar.ctl.queues[0].posted, old(|adminQueue.submitted|), Failure(result))
      ensures Grows(old(nvmeBar.ctl), nvmeBar.ctl)
    {
      hide Grows, AnsweredBy, SysInv, IoReady, ValidDevice, StrideOf, HostFits, Idle, Chain;
      result := Identify(CNS_CONTROLLER, 0);
    }

    /** The controller must take our 64-byte and 16-byte entries: low nibble minimum, high nibble maximum. */
    method CheckQueueEntrySizes() returns (result: Result<()>)
      requires Sound()
      modifies nvmeBar, dmaRegion.bytes, adminQueue
      ensures Sound()
      ensures old(adminQueue.submitted) <= adminQueue.submitted
      ensures |adminQueue.submitted| == |old(adminQueue.submitted)| + 1
      ensures SameProgramming(old(nvmeBar.ctl.regs), nvmeBar.ctl.regs)
      ensures NoTimeouts() ==> old(NoTimeouts()) && Media() == old(Media())
      ensures result.Ok? ==> adminQueue.timeouts == old(adminQueue.timeouts)
      ensures old(NoTimeouts()) && result.Ok? ==>
        EntrySizesTaken(nvmeBar.dev.controllerPage)
      ensures old(NoTimeouts()) && result.Err? ==>
        if result.error == EntrySizeRefused then !EntrySizesTaken(nvmeBar.dev.controllerPage) && NoTimeouts()
        else
          && Ended(nvmeBar.ctl.queues[0].posted, old(|adminQueue.submitted|), Failure(result))
          && (result.error != TimedOut ==> result.error.CommandFailed? && NoTimeouts())
    {
      hide SysInv, IoReady, ValidDevice, StrideOf, HostFits, Idle;
      var data :- Identify(CNS_CONTROLLER, 0);
      var submission, completion := data[512], data[513];
      if !(submission % 16 <= 6 <= submission / 16) {
        return Err(EntrySizeRefused);
      }
      if !(completion % 16 <= 4 <= completion / 16) {
        return Err(EntrySizeRefused);
      }
      return Ok(());
    }

    /**
     The block size of a namespace, from the cache or by Identify through the data page. A true cache stays true
     if nothing has timed out or the size is cached already. A lookup adds at most this one namespace.
     */
    method NamespaceBlockSize(wanted: U32) returns (result: Result<nat>)
      requires Sound()
      modifies this`blockSizes, nvmeBar, dmaRegion.bytes, adminQueue
      ensures Sound()
      ensures old(IoReady(TheWorld(), Hosts())) ==> IoReady(TheWorld(), Hosts())
      ensures SameProgramming(old(nvmeBar.ctl.regs), nvmeBar.ctl.regs) && Grows(old(nvmeBar.ctl), nvmeBar.ctl)
      ensures old(adminQueue.submitted) <= adminQueue.submitted
      ensures old(CacheTrue()) && (old(NoTimeouts()) || old(wanted in blockSizes)) ==> CacheTrue()
      ensures forall n :: n in old(blockSizes) ==> n in blockSizes && blockSizes[n] == old(blockSizes)[n]
      ensures forall n :: n in blockSizes && n !in old(blockSizes) ==> n == wanted
      ensures result.Ok? <==> wanted in blockSizes
      ensures result.Ok? ==> result.value == blockSizes[wanted] && adminQueue.timeouts == old(adminQueue.timeouts)
      ensures NoTimeouts() ==> old(NoTimeouts()) && Media() == old(Media())
      ensures NoTimeouts() && old(wanted !in blockSizes) ==>
        AnsweredBy(nvmeBar.ctl.queues[0].posted, old(|adminQueue.submitted|), Failure(result))
      ensures old(NoTimeouts()) && result.Err? ==>
        && |adminQueue.submitted| == old(|adminQueue.submitted|) + 1
        && Ended(nvmeBar.ctl.queues[0].posted, old(|adminQueue.submitted|), Failure(result))
        && (result.error != TimedOut ==> result.error.CommandFailed? && NoTimeouts())
      ensures old(wanted in blockSizes) ==> TheWorld() == old(TheWorld()) && Hosts() == old(Hosts())
    {
      hide SysInv, IoReady, StrideOf, HostFits, Idle, Pow2, AnsweredBy;
      if wanted in blockSizes {
        return Ok(blockSizes[wanted]);
      }
      var data :- Identify(CNS_NAMESPACE, wanted);
      var formatIndex := data[26] % 16;
      var blockSize := Pow2(data[128 + 4 * formatIndex + 2]);
      assert ValidDevice(nvmeBar.dev) by { ShapeOf(nvmeBar.dev, before, TheWorld(), Hosts()); }
      blockSizes := blockSizes[wanted := blockSize];
      return Ok(blockSize);
    }

    /** The controller runs for a while between two of the host's stores. With nothing outstanding it does nothing. */
    method Interlude()
      requires Sound() && IoReady(TheWorld(), Hosts())
      modifies nvmeBar, dmaRegion.bytes
      ensures Sound() && IoReady(TheWorld(), Hosts())
      ensures SameProgramming(old(nvmeBar.ctl.regs), nvmeBar.ctl.regs) && Grows(old(nvmeBar.ctl), nvmeBar.ctl)
      ensures SameIn(old(dmaRegion.bytes[..]), dmaRegion.bytes[..], PRP_LIST_OFFSET, DATA_OFFSET)
      ensures old(NoTimeouts()) ==>
        nvmeBar.ctl == old(nvmeBar.ctl).(regs := nvmeBar.ctl.regs) && dmaRegion.bytes[..] == old(dmaRegion.bytes[..])
      ensures forall e: Sqe, s: Start :: old(Watched(e, s)) ==> Watched(e, s)
    {
      hide SysInv, IoReady, StrideOf, HostFits, Idle, ValidDevice, GoodBase, Tick, CalmFits, Undisturbed, Sane;
      ghost var w, hosts := TheWorld(), Hosts();
      TickKeeps(nvmeBar.dev, before, nvmeBar.sched, w, hosts);
      TickCarries(nvmeBar.dev, before, nvmeBar.sched, w, hosts);
      if NoTimeouts() {
        RestTick(nvmeBar.dev, before, nvmeBar.sched, w, hosts);
      }
      forall e: Sqe, s: Start | Watched(e, s)
        ensures var v := Tick(nvmeBar.dev, nvmeBar.sched, w);
          |v.mem| == HUGE_PAGE_SIZE && TickStays(nvmeBar.dev, v, hosts, e, s)
      {
        TickWatched(nvmeBar.dev, before, nvmeBar.sched, w, hosts, e, s);
      }
      nvmeBar.Preempt(dmaRegion);
    }

    /**
     PRP construction, with the controller running between the stores: the pointers name the first `length` bytes
     of the data area through a list that is right when they are published, and at no moment is a list
     that an outstanding command may be walking anything but right.
     */
    method DataPointers(length: nat) returns (prp1: U64, prp2: U64)
      requires Sound() && IoReady(TheWorld(), Hosts()) && 0 < length <= MAX_TRANSFER_BYTES
      modifies nvmeBar, dmaRegion.bytes
      ensures Sound() && IoReady(TheWorld(), Hosts())
      ensures SameProgramming(old(nvmeBar.ctl.regs), nvmeBar.ctl.regs) && Grows(old(nvmeBar.ctl), nvmeBar.ctl)
      ensures PointerShape(dmaRegion.physicalAddress, prp1, prp2, length)
      ensures ListHolds(dmaRegion.bytes[..], dmaRegion.physicalAddress, ListLength(length))
      ensures old(NoTimeouts()) ==>
        && nvmeBar.ctl == old(nvmeBar.ctl).(regs := nvmeBar.ctl.regs)
        && SameIn(old(dmaRegion.bytes[..]), dmaRegion.bytes[..], DATA_OFFSET, HUGE_PAGE_SIZE)
      ensures forall e: Sqe, s: Start :: old(Watched(e, s)) ==> Watched(e, s)
    {
      hide SysInv, IoReady, StrideOf, HostFits, Idle, ValidDevice, GoodBase, WriteAt, U64Bytes, EntryHolds, Watched;
      var base := dmaRegion.physicalAddress;
      prp1 := dmaRegion.PhysicalAddressAt(DATA_OFFSET);
      var pageCount := (length + 4095) / 4096;
      assert pageCount == PageCount(length) <= DATA_PAGES;
      EmptyList(dmaRegion.bytes[..], base);
      GrowsSelf(nvmeBar.ctl);
      if pageCount <= 1 {
        prp2 := 0;
      } else if pageCount == 2 {
        prp2 := dmaRegion.PhysicalAddressAt(DATA_OFFSET + 4096);
      } else {
        prp2 := dmaRegion.PhysicalAddressAt(PRP_LIST_OFFSET);
        assert pageCount - 1 <= PRP_LIST_CAPACITY;
        for index := 0 to pageCount - 1
          invariant Sound() && IoReady(TheWorld(), Hosts()) && Wired()
          invariant SameProgramming(old(nvmeBar.ctl.regs), nvmeBar.ctl.regs) && Grows(old(nvmeBar.ctl), nvmeBar.ctl)
          invariant ListHolds(dmaRegion.bytes[..], base, index)
          invariant old(NoTimeouts()) ==>
            && nvmeBar.ctl == old(nvmeBar.ctl).(regs := nvmeBar.ctl.regs)
            && SameIn(old(dmaRegion.bytes[..]), dmaRegion.bytes[..], DATA_OFFSET, HUGE_PAGE_SIZE)
          invariant forall e: Sqe, s: Start :: old(Watched(e, s)) ==> Watched(e, s)
        {
          StoreEntry(index);
        }
      }
    }

    /** One turn of the loop: a store, and then the controller's turn. */
    method StoreEntry(index: nat)
      requires Sound() && IoReady(TheWorld(), Hosts()) && index + 1 < DATA_PAGES
      requires ListHolds(dmaRegion.bytes[..], dmaRegion.physicalAddress, index)
      modifies nvmeBar, dmaRegion.bytes
      ensures Sound() && IoReady(TheWorld(), Hosts())
      ensures SameProgramming(old(nvmeBar.ctl.regs), nvmeBar.ctl.regs) && Grows(old(nvmeBar.ctl), nvmeBar.ctl)
      ensures ListHolds(dmaRegion.bytes[..], dmaRegion.physicalAddress, index + 1)
      ensures old(NoTimeouts()) ==>
        && nvmeBar.ctl == old(nvmeBar.ctl).(regs := nvmeBar.ctl.regs)
        && SameIn(old(dmaRegion.bytes[..]), dmaRegion.bytes[..], DATA_OFFSET, HUGE_PAGE_SIZE)
      ensures forall e: Sqe, s: Start :: old(Watched(e, s)) ==> Watched(e, s)
    {
      hide SysInv, IoReady, StrideOf, HostFits, Idle, ValidDevice, WriteAt, U64Bytes, ListHolds, Grows, CalmFits,
           Undisturbed, Sane;
      ghost var w := TheWorld();
      EntryKeeps(nvmeBar.dev, before, w, Hosts(), index);
      ListSlotAligned(index);
      var page := dmaRegion.PhysicalAddressAt(DATA_OFFSET + (index + 1) * 4096);
      dmaRegion.WriteU64(PRP_LIST_OFFSET + index * 8, page);
      assert TheWorld() == w.(mem := EntryStored(w.mem, w.base, index));
      MemoryOnly(w, TheWorld(), Hosts());
      ghost var mem := dmaRegion.bytes[..];
      forall e: Sqe, s: Start | old(Watched(e, s))
        ensures Watched(e, s)
      {
        SaneFrame(nvmeBar.dev, s, e, w.ctl.media, w.mem, mem);
      }
      Interlude();
      ListHoldsFrame(mem, dmaRegion.bytes[..], dmaRegion.physicalAddress, index + 1);
    }

    /**
     The common part of `read` and `write`: pointers, command, call, status. With nothing timed out the
     medium and the data area end up as the command says, and the outcome is what its completion says.
     */
    method Transfer(opc: U8, slba: U64, blockCount: U16, length: nat) returns (result: Result<()>)
      requires Sound() && IoReady(TheWorld(), Hosts())
      requires (opc == OP_READ || opc == OP_WRITE) && nsid == nvmeBar.dev.nsid
      requires blockCount > 0 && length == BlockBytes(nvmeBar.dev, blockCount) && 0 < length <= MAX_TRANSFER_BYTES
      modifies nvmeBar, dmaRegion.bytes, ioQueue
      ensures Sound() && IoReady(TheWorld(), Hosts()) && Grows(old(nvmeBar.ctl), nvmeBar.ctl)
      ensures Submits(old(ioQueue.submitted), ioQueue.submitted, opc, slba, blockCount)
      ensures NoTimeouts() ==> old(NoTimeouts())
      ensures result.Ok? ==> ioQueue.timeouts == old(ioQueue.timeouts)
      ensures NoTimeouts() ==>
        && AnsweredBy(nvmeBar.ctl.queues[1].posted, old(|ioQueue.submitted|), Failure(result))
        && Transferred(nvmeBar.dev, opc, slba, blockCount, old(TheWorld()), TheWorld(), result.Ok?)
      ensures result.Ok? && old(Unhindered(opc, slba, blockCount)) ==>
        Accomplished(nvmeBar.dev, Asked(nvmeBar.dev, opc, slba, blockCount), old(TheWorld()), TheWorld())
    {
      hide SysInv, IoReady, ValidDevice, StrideOf, HostFits, Idle, MaySubmit, Quietly, GoodBase, BlockBytes,
           Submits, Transferred, PointerShape, ListHolds, IsSuccess, Grows, Watched, AchievedBy, Unhindered,
           Accomplished;
      ghost var w := TheWorld();
      ghost var s := Start(w.ctl.media, w.mem, w.ctl.queues[1]);
      ghost var hindered := !Unhindered(opc, slba, blockCount);
      if !hindered {
        Watching(opc, slba, blockCount);
      }
      var prp1, prp2 := DataPointers(length);
      var command := NvmeTransfer(opc, nsid, slba, blockCount - 1, prp1, prp2);
      if !hindered {
        WatchedAlike(opc, slba, blockCount, prp1, prp2, s);
      }
      MayTransfer(nvmeBar.dev, before, TheWorld(), Hosts(), opc, slba, blockCount, prp1, prp2);
      ghost var w1, h1 := TheWorld(), ioQueue.Host();
      SubmitsOne(h1.submitted, h1, opc, nsid, slba, blockCount - 1, prp1, prp2);
      var completion := SubmitIo(command);
      GrowsThrough(w.ctl, w1.ctl, nvmeBar.ctl);
      if NoTimeouts() {
        TransferDone(nvmeBar.dev, w, w1, h1, command, TheWorld(), completion, opc, slba, blockCount);
        QuietlyPosted(nvmeBar.dev, w1, h1, 1, command, TheWorld(), completion);
      }
      if !hindered && completion.Ok? && IsSuccess(completion.value) {
        WhatAchieved(opc, slba, blockCount, prp1, prp2, w);
      }
      var answer :- completion;
      result := Check(answer);
    }

    /**
     Reads whole blocks. Once the block size is known, from the cache or just fetched, exactly the reads that fit
     are submitted, each as one command naming its range. In a run without timeouts the outcome is what that
     command's completion says, the data is what the medium holds in the range, and the log grows by the read.
     */
    method Read(slba: U64, blockCount: U16) returns (result: Result<seq<U8>>)
      requires Valid() && CacheOk()
      modifies this, nvmeBar, dmaRegion.bytes, adminQueue, ioQueue
      ensures Valid() && Grows(old(nvmeBar.ctl), nvmeBar.ctl)
      ensures forall n :: n in old(blockSizes) ==> n in blockSizes
      ensures old(nsid in blockSizes) ==> adminQueue.Host() == old(adminQueue.Host())
      ensures var fits := ReadFits(nvmeBar.dev, blockCount);
        && (blockCount == 0 ==> result == Err(ZeroBlocks))
        && (blockCount > 0 && nsid in blockSizes && !fits ==> result == Err(TooLarge))
        && (nsid in blockSizes && fits ==>
              Submits(old(ioQueue.submitted), ioQueue.submitted, OP_READ, slba, blockCount))
        && (nsid !in blockSizes || !fits ==> ioQueue.Host() == old(ioQueue.Host()))
        && (blockCount == 0 || (old(nsid in blockSizes) && !fits) ==> TheWorld() == old(TheWorld()))
      ensures nsid !in blockSizes ==> result.Err?
      ensures NoTimeouts() ==> old(NoTimeouts()) && Media() == old(Media())
      ensures NoTimeouts() && nsid in blockSizes && ReadFits(nvmeBar.dev, blockCount) ==>
        AnsweredBy(nvmeBar.ctl.queues[1].posted, old(|ioQueue.submitted|), Failure(result))
      ensures NoTimeouts() && blockCount > 0 && nsid !in blockSizes ==>
        AnsweredBy(nvmeBar.ctl.queues[0].posted, old(|adminQueue.submitted|), Failure(result))
      ensures result.Ok? ==> blockCount > 0 && |result.value| == BlockBytes(nvmeBar.dev, blockCount)
      ensures NoTimeouts() ==>
        && log == old(log) + (if result.Ok? then [ReadOk(BlockBytes(nvmeBar.dev, slba), result.value)] else [])
        && states == old(states) + (if result.Ok? then [Media()] else [])
      ensures NoTimeouts() && result.Ok? ==>
        Atomic(Media(), ReadOk(BlockBytes(nvmeBar.dev, slba), result.value), Media())
      ensures result.Ok? && old(nsid in blockSizes && Unhindered(OP_READ, slba, blockCount)) ==>
        WasThere(nvmeBar.dev, old(Media()), slba, result.value)
    {
      hide SysInv, IoReady, ValidDevice, StrideOf, HostFits, Idle, GoodBase, Chain, BlockBytes, Submits, AnsweredBy,
           Grows, Atomic, Ended, Undisturbed, WasThere;
      GrowsSelf(nvmeBar.ctl);
      if blockCount == 0 {
        NoBlocks(nvmeBar.dev);
        return Err(ZeroBlocks);
      }
      ghost var ctl0 := nvmeBar.ctl;
      var blockSize :- NamespaceBlockSize(nsid);
      var total := blockCount * blockSize;
      TotalBytes(nvmeBar.dev, blockCount);
      BlocksPositive(nvmeBar.dev, before, TheWorld(), Hosts(), blockCount);
      if total > MAX_TRANSFER_BYTES {
        return Err(TooLarge);
      }
      ghost var ctl1 := nvmeBar.ctl;
      result := TransferIn(slba, blockCount, total);
      GrowsThrough(ctl0, ctl1, nvmeBar.ctl);
    }

    /** The part of `read` that touches the device. */
    method TransferIn(slba: U64, blockCount: U16, total: nat) returns (result: Result<seq<U8>>)
      requires Valid() && nsid in blockSizes
      requires blockCount > 0 && total == BlockBytes(nvmeBar.dev, blockCount) && 0 < total <= MAX_TRANSFER_BYTES
      modifies this`log, this`states, nvmeBar, dmaRegion.bytes, ioQueue
      ensures Valid() && Grows(old(nvmeBar.ctl), nvmeBar.ctl)
      ensures Submits(old(ioQueue.submitted), ioQueue.submitted, OP_READ, slba, blockCount)
      ensures NoTimeouts() ==>
        && old(NoTimeouts()) && Media() == old(Media())
        && AnsweredBy(nvmeBar.ctl.queues[1].posted, old(|ioQueue.submitted|), Failure(result))
      ensures result.Ok? ==> |result.value| == total
      ensures NoTimeouts() ==>
        && log == old(log) + (if result.Ok? then [ReadOk(BlockBytes(nvmeBar.dev, slba), result.value)] else [])
        && states == old(states) + (if result.Ok? then [Media()] else [])
      ensures NoTimeouts() && result.Ok? ==>
        Atomic(Media(), ReadOk(BlockBytes(nvmeBar.dev, slba), result.value), Media())
      ensures result.Ok? && old(Unhindered(OP_READ, slba, blockCount)) ==>
        WasThere(nvmeBar.dev, old(Media()), slba, result.value)
    {
      hide SysInv, IoReady, ValidDevice, StrideOf, HostFits, Idle, GoodBase, Chain, BlockBytes, Submits, AnsweredBy,
           Grows, Atomic, ReadAt, Transferred, Unhindered, Accomplished, Asked, WasThere;
      ghost var w := TheWorld();
      var transferred := Transfer(OP_READ, slba, blockCount, total);
      if NoTimeouts() {
        ReadDone(nvmeBar.dev, slba, blockCount, w, TheWorld(), transferred.Ok?);
      }
      var _ :- transferred;
      var output := dmaRegion.ReadBytes(DATA_OFFSET, total);
      if Accomplished(nvmeBar.dev, Asked(nvmeBar.dev, OP_READ, slba, blockCount), w, TheWorld()) {
        ReadAccomplished(nvmeBar.dev, slba, blockCount, w, TheWorld());
      }
      if NoTimeouts() {
        ghost var ev := ReadOk(BlockBytes(nvmeBar.dev, slba), output);
        ChainGrows(states, log, ev, Media());
        log, states := log + [ev], states + [Media()];
      }
      result := Ok(output);
    }

    /**
     Writes whole blocks. Once the block size is known, from the cache or just fetched, exactly the payloads of whole
     blocks that fit are submitted, each as one command naming its range. In a run without timeouts the
     outcome is what that command's completion says; a success means that the range now holds `data`, a
     failure leaves every byte outside it alone; and the log grows by the write.
     */
    method Write(slba: U64, data: seq<U8>) returns (result: Result<()>)
      requires Valid() && CacheOk()
      modifies this, nvmeBar, dmaRegion.bytes, adminQueue, ioQueue
      ensures Valid() && Grows(old(nvmeBar.ctl), nvmeBar.ctl)
      ensures forall n :: n in old(blockSizes) ==> n in blockSizes
      ensures old(nsid in blockSizes) ==> adminQueue.Host() == old(adminQueue.Host())
      ensures var fits := WholePayload(nvmeBar.dev, |data|);
        && (nsid in blockSizes && !fits ==>
              result == Err(if NotWhole(nvmeBar.dev, |data|) then BadLength else TooLarge))
        && (nsid in blockSizes && fits ==>
              Submits(old(ioQueue.submitted), ioQueue.submitted, OP_WRITE, slba, BlocksIn(nvmeBar.dev, |data|)))
        && (nsid !in blockSizes || !fits ==> ioQueue.Host() == old(ioQueue.Host()))
        && (old(nsid in blockSizes) && !fits ==> TheWorld() == old(TheWorld()))
      ensures nsid !in blockSizes ==> result.Err?
      ensures NoTimeouts() ==> old(NoTimeouts())
      ensures NoTimeouts() && nsid in blockSizes && WholePayload(nvmeBar.dev, |data|) ==>
        AnsweredBy(nvmeBar.ctl.queues[1].posted, old(|ioQueue.submitted|), Failure(result))
      ensures NoTimeouts() && nsid !in blockSizes ==>
        AnsweredBy(nvmeBar.ctl.queues[0].posted, old(|adminQueue.submitted|), Failure(result))
      ensures result.Ok? ==> |data| > 0 && BlockBytes(nvmeBar.dev, BlocksIn(nvmeBar.dev, |data|)) == |data|
      ensures NoTimeouts() ==>
        var ev := WriteEvent(nvmeBar.dev, slba, data, result.Ok?);
        && Atomic(old(Media()), ev, Media())
        && (if nsid in blockSizes && WholePayload(nvmeBar.dev, |data|)
            then log == old(log) + [ev] && states == old(states) + [Media()]
            else log == old(log) && states == old(states) && Media() == old(Media()))
      ensures result.Ok? && old(nsid in blockSizes && Unhindered(OP_WRITE, slba, BlocksIn(nvmeBar.dev, |data|))) ==>
        WasThere(nvmeBar.dev, Media(), slba, data)
    {
      hide SysInv, IoReady, ValidDevice, StrideOf, HostFits, Idle, GoodBase, Chain, BlockBytes, BlocksIn, Atomic,
           WriteAt, Submits, Grows, AnsweredBy, Ended, Undisturbed, WasThere;
      NothingTorn(Media(), BlockBytes(nvmeBar.dev, slba), data);
      GrowsSelf(nvmeBar.ctl);
      BlocksPositive(nvmeBar.dev, before, TheWorld(), Hosts(), 1);
      ghost var ctl0 := nvmeBar.ctl;
      var blockSize :- NamespaceBlockSize(nsid);
      if |data| == 0 || |data| % blockSize != 0 {
        return Err(BadLength);
      }
      if |data| > MAX_TRANSFER_BYTES {
        return Err(TooLarge);
      }
      var blockCount := |data| / blockSize;
      WholeBlocks(nvmeBar.dev, |data|);
      ghost var ctl1 := nvmeBar.ctl;
      result := TransferOut(slba, blockCount, data);
      GrowsThrough(ctl0, ctl1, nvmeBar.ctl);
    }

    /** The part of `write` that touches the device. */
    method TransferOut(slba: U64, blockCount: U16, data: seq<U8>) returns (result: Result<()>)
      requires Valid() && nsid in blockSizes
      requires blockCount > 0 && |data| == BlockBytes(nvmeBar.dev, blockCount) && 0 < |data| <= MAX_TRANSFER_BYTES
      modifies this`log, this`states, nvmeBar, dmaRegion.bytes, ioQueue
      ensures Valid() && Grows(old(nvmeBar.ctl), nvmeBar.ctl)
      ensures Submits(old(ioQueue.submitted), ioQueue.submitted, OP_WRITE, slba, blockCount)
      ensures NoTimeouts() ==>
        && old(NoTimeouts())
        && AnsweredBy(nvmeBar.ctl.queues[1].posted, old(|ioQueue.submitted|), Failure(result))
      ensures NoTimeouts() ==>
        var ev := WriteEvent(nvmeBar.dev, slba, data, result.Ok?);
        && Atomic(old(Media()), ev, Media())
        && log == old(log) + [ev] && states == old(states) + [Media()]
      ensures result.Ok? && old(Unhindered(OP_WRITE, slba, blockCount)) ==>
        WasThere(nvmeBar.dev, Media(), slba, data)
    {
      hide SysInv, IoReady, ValidDevice, StrideOf, HostFits, Idle, GoodBase, Chain, BlockBytes, Atomic, WriteAt,
           Submits, Grows, AnsweredBy, Unhindered, Accomplished, Asked, WasThere;
      ghost var ctl0 := nvmeBar.ctl;
      StorePayload(data, slba, blockCount);
      ghost var stored := TheWorld();
      result := Transfer(OP_WRITE, slba, blockCount, |data|);
      GrowsThrough(ctl0, stored.ctl, nvmeBar.ctl);
      if Accomplished(nvmeBar.dev, Asked(nvmeBar.dev, OP_WRITE, slba, blockCount), stored, TheWorld()) {
        WriteAccomplished(nvmeBar.dev, slba, blockCount, stored, TheWorld());
      }
      if NoTimeouts() {
        ghost var ev := WriteEvent(nvmeBar.dev, slba, data, result.Ok?);
        ChainGrows(states, log, ev, Media());
        log, states := log + [ev], states + [Media()];
      }
    }

    /** Copies the payload of a write into the data area, with the controller running before and after. */
    method StorePayload(data: seq<U8>, ghost slba: U64, ghost blockCount: U16)
      requires Sound() && IoReady(TheWorld(), Hosts()) && |data| <= MAX_TRANSFER_BYTES
      requires blockCount > 0 && BlockBytes(nvmeBar.dev, blockCount) == |data|
      modifies nvmeBar, dmaRegion.bytes
      ensures Sound() && IoReady(TheWorld(), Hosts())
      ensures SameProgramming(old(nvmeBar.ctl.regs), nvmeBar.ctl.regs) && Grows(old(nvmeBar.ctl), nvmeBar.ctl)
      ensures old(NoTimeouts()) ==>
        && nvmeBar.ctl == old(nvmeBar.ctl).(regs := nvmeBar.ctl.regs)
        && ReadAt(dmaRegion.bytes[..], DATA_OFFSET, |data|) == data
      ensures old(Unhindered(OP_WRITE, slba, blockCount)) ==>
        Unhindered(OP_WRITE, slba, blockCount) && ReadAt(dmaRegion.bytes[..], DATA_OFFSET, |data|) == data
    {
      hide SysInv, IoReady, StrideOf, HostFits, Idle, ValidDevice, GoodBase, WriteAt, Grows, Watched, Unhindered,
           BlockBytes;
      ghost var hindered := !Unhindered(OP_WRITE, slba, blockCount);
      ghost var e := NvmeTransfer(OP_WRITE, nvmeBar.dev.nsid, slba, blockCount - 1, 0, 0);
      ghost var s0 := Start(Media(), dmaRegion.bytes[..], nvmeBar.ctl.queues[1]);
      if !hindered {
        Watching(OP_WRITE, slba, blockCount);
      }
      ghost var ctl0 := nvmeBar.ctl;
      Interlude();
      if !hindered {
        StillUnhindered(OP_WRITE, slba, blockCount, s0);
      }
      ghost var w := TheWorld();
      PayloadKeeps(nvmeBar.dev, before, w, Hosts(), data);
      dmaRegion.WriteBytes(DATA_OFFSET, data);
      PayloadReady(w, TheWorld(), Hosts(), data);
      ghost var s := Start(Media(), dmaRegion.bytes[..], nvmeBar.ctl.queues[1]);
      if !hindered {
        Watching(OP_WRITE, slba, blockCount);
      }
      Interlude();
      if !hindered {
        StillUnhindered(OP_WRITE, slba, blockCount, s);
        WatchedPayload(slba, blockCount, s);
      }
      GrowsThrough(ctl0, w.ctl, nvmeBar.ctl);
    }

    /**
     A read returns what was last written: in every run of this driver without timeouts, for a successful write and
     a later successful read of its log, every byte both cover and no write in between covers is read
     as it was written.
     */
    lemma LoggedReadsLastWrite(i: nat, j: nat, x: nat)
      requires Valid() && NoTimeouts() && i < j < |log| && log[i].WriteOk? && log[j].ReadOk?
      requires Covers(log[i], x) && Covers(log[j], x)
      requires forall k :: i < k < j ==> log[k].ReadOk? || !Covers(log[k], x)
      ensures log[j].data[x - log[j].start] == log[i].data[x - log[i].start]
    {
      hide SysInv, IoReady, StrideOf, HostFits, Idle, ValidDevice, GoodBase, Atomic;
      ReadsLastWrite(states, log, i, j, x);
    }

    /**
     Bring-up. If it succeeds, the admin queue registers were written only while EN and RDY were 0, the
     completion queue was created before the submission queue, the controller's decoded ring addresses and
     depths are the host's, nothing has timed out, the medium is untouched and the block size is cached.
     */
    static method Open(bar: NvmeBar, dma: DmaRegion, nsid: U32) returns (result: Result<NvmeUserspaceDriver>)
      requires bar.Valid() && dma.Valid() && Zeroed(dma.bytes[..])
      requires bar.ctl.touched == {} && !bar.ctl.regs.misprogrammed
      modifies bar, dma.bytes
      ensures bar.Valid() && !bar.ctl.regs.misprogrammed && bar.ctl.media == old(bar.ctl.media)
      ensures result.Ok? ==>
        var d := result.value;
        && fresh(d) && fresh(d.adminQueue) && fresh(d.ioQueue) && d.nvmeBar == bar && d.dmaRegion == dma
        && d.nsid == nsid == bar.dev.nsid && d.Valid() && d.NoTimeouts() && nsid in d.blockSizes && d.log == []
        && RingsAgree(d.TheWorld(), d.Hosts()) && Enabled(bar.ctl.regs) && EntrySizesAgree(bar.ctl.regs)
        && SetUp(bar.ctl.regs, dma.physicalAddress)
        && d.ioQueue.submitted == [] && d.ioQueue.id == 1 && CreatesAt(d.adminQueue.submitted, 1)
      ensures result.Err? ==>
        && IoUntouched(bar.ctl) && BringUpFailure(bar.dev, bar.ctl, result.error)
        && (result.error != TimedOut ==> NothingLeft(bar.ctl))
    {
      hide SysInv, IoReady, ValidDevice, StrideOf, HostFits, GoodBase, RingsAgree, Zeroed, Pow2, BringUpFailure,
           Ended, IoUntouched, NothingLeft, EntrySizesTaken, AnsweredBy, Grows, Idle, CreatesAt;
      var driver := new NvmeUserspaceDriver(bar, dma, nsid);
      var _ :- driver.ResetAndEnable();
      var sizes := driver.CheckQueueEntrySizes();
      if sizes.Err? {
        driver.BringUpFails(sizes.error);
      }
      var _ :- sizes;
      var queues := driver.CreateIoQueues();
      if queues.Err? {
        driver.BringUpFails(queues.error);
      }
      var _ :- queues;
      ghost var created := driver.adminQueue.submitted;
      var blockSize := driver.NamespaceBlockSize(nsid);
      StillCreated(created, driver.adminQueue.submitted, 1);
      if blockSize.Err? {
        driver.BringUpFails(blockSize.error);
      }
      var _ :- blockSize;
      driver.BroughtUp();
      result := Ok(driver);
    }
  }

  lemma CreatedRing(dev: Device, w0: World, h: HostQueue, command: Sqe, w: World, result: Result<Cqe>)
    requires WorldOk(w0) && WorldOk(w) && HostFits(h) && Quietly(dev, w0, h, 0, command, w, result)
    requires IsCreate(0, command) && QueueSizeOf(command) == 64 && result.Ok? && IsSuccess(result.value)
    ensures if IsCreateCq(command) then w.ctl.queues[1].cqSize == 64
            else w.ctl.queues[1].sqSize == 64 && w.ctl.queues[1].cqSize == w0.ctl.queues[1].cqSize
  {
    CreateEffect(dev, Start(w0.ctl.media, w0.mem, w0.ctl.queues[1]), w, |h.submitted|, Stamped(h, command));
    hide CallInv, Fits, IsSuccess, Succeeded;
  }

  lemma Identified(dev: Device, w0: World, h: HostQueue, command: Sqe, w: World, result: Result<Cqe>)
    requires WorldOk(w0) && WorldOk(w) && HostFits(h) && Quietly(dev, w0, h, 0, command, w, result)
    requires command.opc == OP_IDENTIFY
    ensures w.ctl.media == w0.ctl.media && (result.Err? ==> result == Err(TimedOut))
    ensures result.Ok? && IsSuccess(result.value) ==>
      && (command.cdw10 == CNS_CONTROLLER ==> ReadAt(w.mem, DATA_OFFSET, 4096) == dev.controllerPage)
      && (command.cdw10 == CNS_NAMESPACE ==>
            command.nsid == dev.nsid && ReadAt(w.mem, DATA_OFFSET, 4096) == dev.namespacePage)
  {
    IdentifyEffect(dev, Start(w0.ctl.media, w0.mem, w0.ctl.queues[1]), w, |h.submitted|, Stamped(h, command));
    hide CallInv, Fits, IsSuccess, Succeeded;
  }

  /** Whole blocks in `length` bytes. */
  function BlocksIn(dev: Device, length: nat): nat {
    if dev.blockSize > 0 then length / dev.blockSize else 0
  }

  lemma TotalBytes(dev: Device, n: nat)
    ensures n * dev.blockSize == BlockBytes(dev, n)
  {
  }

  lemma ListSlotAligned(index: nat)
    requires index < PRP_LIST_CAPACITY
    ensures (PRP_LIST_OFFSET + index * 8) % 8 == 0 && PRP_LIST_OFFSET + index * 8 + 8 <= DATA_OFFSET
  {
  }

  lemma BlocksPositive(dev: Device, before: seq<U8>, w: World, hosts: seq<HostQueue>, blockCount: nat)
    requires SysInv(dev, before, w, hosts) && blockCount > 0
    ensures BlockBytes(dev, blockCount) > 0 && dev.blockSize >= 512
  {
    hide SysInv;
    ShapeOf(dev, before, w, hosts);
    MulMonotone(1, blockCount, dev.blockSize, dev.blockSize);
  }

  /** Once its pointers are built the transfer may be submitted. */
  lemma MayTransfer(dev: Device, before: seq<U8>, w: World, hosts: seq<HostQueue>, opc: U8, slba: U64, blockCount: U16,
                    prp1: U64, prp2: U64)
    requires SysInv(dev, before, w, hosts) && IoReady(w, hosts) && HostFits(hosts[1]) && Idle(hosts[1])
    requires blockCount > 0 && BlockBytes(dev, blockCount) <= MAX_TRANSFER_BYTES && (opc == OP_READ || opc == OP_WRITE)
    requires PointerShape(w.base, prp1, prp2, BlockBytes(dev, blockCount))
    requires ListHolds(w.mem, w.base, ListLength(BlockBytes(dev, blockCount)))
    ensures MaySubmit(dev, w, hosts, 1, NvmeTransfer(opc, dev.nsid, slba, blockCount - 1, prp1, prp2))
  {
    hide SysInv, PointerShape, NoCreates, Idle, ListHolds, ValidDevice, BlockBytes;
    ShapeOf(dev, before, w, hosts);
    TransferCommandOk(dev, w.mem, w.base, hosts[1], opc, slba, blockCount - 1, prp1, prp2);
  }

  lemma GrowsSelf(c: Ctl)
    requires |c.queues| == 2
    ensures Grows(c, c)
  {
  }

  lemma GrowsThrough(c: Ctl, d: Ctl, e: Ctl)
    requires Grows(c, d) && Grows(d, e)
    ensures Grows(c, e)
  {
  }

  /** The accepted completion is the controller's newest. */
  lemma QuietlyPosted(dev: Device, w0: World, h: HostQueue, q: nat, command: Sqe, w: World, result: Result<Cqe>)
    requires WorldOk(w0) && WorldOk(w) && HostFits(h) && q < 2 && Quietly(dev, w0, h, q, command, w, result)
    ensures result.Err? ==> result == Err(TimedOut) && Ended(w.ctl.queues[q].posted, |h.submitted|, Failure(result))
    ensures result.Ok? ==>
      && AnsweredBy(w.ctl.queues[q].posted, |h.submitted|, Failure(Check(result.value)))
      && Ended(w.ctl.queues[q].posted, |h.submitted|, Failure(Check(result.value)))
  {
    hide CallInv, Fits, IsSuccess, Succeeded;
  }

  /** What a store above the rings leaves of the I/O queue's readiness. */
  lemma MemoryOnly(w: World, v: World, hosts: seq<HostQueue>)
    requires WorldOk(w) && |hosts| == 2 && v == w.(mem := v.mem) && |v.mem| == |w.mem|
    ensures IoReady(w, hosts) ==> IoReady(v, hosts)
    ensures Grows(w.ctl, v.ctl)
  {
    hide NoCreates;
  }

  /** The reads the driver submits. */
  predicate ReadFits(dev: Device, blockCount: nat) {
    0 < BlockBytes(dev, blockCount) <= MAX_TRANSFER_BYTES
  }

  /** A write as the event it is. */
  function WriteEvent(dev: Device, slba: nat, data: seq<U8>, ok: bool): Event {
    if ok then WriteOk(BlockBytes(dev, slba), data) else WriteFailed(BlockBytes(dev, slba), data)
  }

  /** The controller has nothing on the I/O queue, and on the admin queue only what this driver submitted. */
  predicate IoUntouched(c: Ctl) {
    && |c.queues| == 2 && c.queues[1].jobs == map[] && !CanFetch(c.queues[1])
    && forall k :: k in c.queues[0].jobs ==> !Foreign(0, c.queues[0].jobs[k].sqe)
  }

  lemma OnlyOwn(dev: Device, before: seq<U8>, w: World, hosts: seq<HostQueue>)
    requires SysInv(dev, before, w, hosts) && hosts[1].submitted == []
    ensures IoUntouched(w.ctl)
  {
    QueueOf(dev, before, w, hosts, 1);
    UnusedIo(w.mem, w.base, hosts[1], w.ctl.queues[1]);
    ShapeOf(dev, before, w, hosts);
    hide SysInv, Foreign, CanFetch;
    forall k | k in w.ctl.queues[0].jobs
      ensures !Foreign(0, w.ctl.queues[0].jobs[k].sqe)
    {
      NoneForeign(dev, before, w, hosts, 0, k);
    }
  }

  /** With nothing timed out the controller has fetched everything. */
  lemma QuietLeft(dev: Device, before: seq<U8>, w: World, hosts: seq<HostQueue>)
    requires SysInv(dev, before, w, hosts)
    ensures WorldOk(w) && |hosts| == 2 && (Settling(hosts[0]) && Settling(hosts[1]) ==> NothingLeft(w.ctl))
  {
    ShapeOf(dev, before, w, hosts);
    hide SysInv, Settling;
    if Settling(hosts[0]) && Settling(hosts[1]) {
      QueueOf(dev, before, w, hosts, 0);
      QueueOf(dev, before, w, hosts, 1);
      QuietQueue(w.mem, w.base, hosts[0], w.ctl.queues[0], 0);
      QuietQueue(w.mem, w.base, hosts[1], w.ctl.queues[1], 1);
    }
  }

  lemma UnusedIo(mem: seq<U8>, base: nat, h: HostQueue, c: CtlQueue)
    requires |mem| == HUGE_PAGE_SIZE && QueueInv(mem, base, h, c, 1) && h.submitted == []
    ensures c.jobs == map[] && !CanFetch(c)
  {
    hide SqView, CqView, SqHolds, CqHolds, PostsOk, AnsweredOnce, Lap, CidsOk, InStep, JobsOk, OriginsOk;
    assert |c.jobs| == 0;
  }

  /** What a transfer without timeouts did, given the state before its pointers were built. */
  predicate Transferred(dev: Device, opc: U8, slba: nat, blockCount: nat, w0: World, w: World, succeeded: bool)
    requires WorldOk(w0) && WorldOk(w)
  {
    var start, length := BlockBytes(dev, slba), BlockBytes(dev, blockCount);
    && length <= MAX_TRANSFER_BYTES
    && if opc == OP_READ then
         && w.ctl.media == w0.ctl.media
         && (succeeded ==> Atomic(w.ctl.media, ReadOk(start, ReadAt(w.mem, DATA_OFFSET, length)), w.ctl.media))
       else
         var data := ReadAt(w0.mem, DATA_OFFSET, length);
         && Atomic(w0.ctl.media, WriteFailed(start, data), w.ctl.media)
         && (succeeded ==> Atomic(w0.ctl.media, WriteOk(start, data), w.ctl.media))
  }

  lemma ReadDone(dev: Device, slba: nat, blockCount: nat, w0: World, w: World, succeeded: bool)
    requires WorldOk(w0) && WorldOk(w) && Transferred(dev, OP_READ, slba, blockCount, w0, w, succeeded)
    ensures BlockBytes(dev, blockCount) <= MAX_TRANSFER_BYTES && w.ctl.media == w0.ctl.media
    ensures succeeded ==>
      var shown := ReadAt(w.mem, DATA_OFFSET, BlockBytes(dev, blockCount));
    Atomic(w.ctl.media, ReadOk(BlockBytes(dev, slba), shown), w.ctl.media)
  {
    hide Atomic, ReadAt, BlockBytes;
  }

  lemma TransferDone(dev: Device, w: World, w1: World, h: HostQueue, command: Sqe, w2: World, result: Result<Cqe>,
                     opc: U8, slba: U64, blockCount: U16)
    requires WorldOk(w) && WorldOk(w1) && WorldOk(w2) && HostFits(h) && Quietly(dev, w1, h, 1, command, w2, result)
    requires blockCount > 0 && (opc == OP_READ || opc == OP_WRITE)
    requires BlockBytes(dev, blockCount) <= MAX_TRANSFER_BYTES
    requires command == NvmeTransfer(opc, dev.nsid, slba, blockCount - 1, command.prp1, command.prp2)
    requires w1.ctl.media == w.ctl.media && SameIn(w.mem, w1.mem, DATA_OFFSET, HUGE_PAGE_SIZE)
    ensures Transferred(dev, opc, slba, blockCount, w, w2, result.Ok? && IsSuccess(result.value))
  {
    TransferFields(opc, dev.nsid, slba, blockCount - 1, command.prp1, command.prp2);
    CidIrrelevant(dev, command, h.cid);
    var e := Stamped(h, command);
    assert MediaStart(dev, e) == BlockBytes(dev, slba) && MediaLength(dev, e) == BlockBytes(dev, blockCount);
    ReadSame(w.mem, w1.mem, DATA_OFFSET, BlockBytes(dev, blockCount));
    hide CallInv, Fits, IsSuccess, Succeeded, MediaStart, MediaLength, NvmeTransfer, BlockBytes, ReadAt, Torn;
    var s := Start(w1.ctl.media, w1.mem, w1.ctl.queues[1]);
    if opc == OP_READ {
      ReadEffect(dev, s, w2, |h.submitted|, e);
    } else {
      WriteEffect(dev, s, w2, |h.submitted|, e);
    }
  }

  lemma NothingTorn(media: seq<U8>, start: nat, data: seq<U8>)
    ensures Atomic(media, WriteFailed(start, data), media)
  {
  }

  /** The payloads the driver refuses for their length in blocks. */
  predicate NotWhole(dev: Device, length: nat) {
    length == 0 || (dev.blockSize > 0 && length % dev.blockSize != 0)
  }

  predicate WholePayload(dev: Device, length: nat) {
    dev.blockSize > 0 && 0 < length <= MAX_TRANSFER_BYTES && length % dev.blockSize == 0
  }

  lemma NoBlocks(dev: Device)
    ensures BlockBytes(dev, 0) == 0
  {
  }

  /** A payload of whole blocks within the transfer limit is a 16-bit number of blocks. */
  lemma WholeBlocks(dev: Device, length: nat)
    requires dev.blockSize >= 512 && 0 < length <= MAX_TRANSFER_BYTES && length % dev.blockSize == 0
    ensures BlocksIn(dev, length) == length / dev.blockSize && BlockBytes(dev, BlocksIn(dev, length)) == length
    ensures 0 < BlocksIn(dev, length) < 0x1_0000
  {
    var n := length / dev.blockSize;
    assert length == n * dev.blockSize;
    if n >= 0x1_0000 {
      MulMonotone(0x1_0000, n, 512, dev.blockSize);
    }
  }

  lemma PayloadReady(w: World, v: World, hosts: seq<HostQueue>, data: seq<U8>)
    requires WorldOk(w) && |hosts| == 2 && |data| <= MAX_TRANSFER_BYTES
    requires v == w.(mem := WriteAt(w.mem, DATA_OFFSET, data))
    ensures IoReady(w, hosts) ==> IoReady(v, hosts)
    ensures ReadAt(v.mem, DATA_OFFSET, |data|) == data
  {
    hide NoCreates;
  }
}
