/**
 Why calls after a timeout promise nothing about the data unless everything outstanding is a bystander. A Read that
 timed out may still deliver its bytes, into the payload of a later Write. That Write then succeeds, with its own
 completion, and has stored something else.
 */
module Spoiled {
  import opened Bytes
  import opened NvmeSpec
  import opened DmaLayout
  import opened Prp
  import opened Ring
  import opened Controller
  import opened System
  import opened Submit
  import opened Scripted
  import opened Effect
  import opened Transfer
  import opened BringUp
  import opened Progress
  import opened Reached
  import opened History
  import opened Calm
  import opened Wrappers

  /** Everything has been fetched, everything answered has been read, and Read `k` is still in flight. */
  predicate ReadPending(dev: Device, w: World, h: HostQueue, k: nat)
    requires WorldOk(w)
  {
    var c := w.ctl.queues[1];
    && Live(w) && c.sqSize == c.cqSize == 64 && c.fetched == c.rung == |h.submitted| && |c.posted| == h.consumed
    && k in c.jobs && c.jobs[k].sqe.opc == OP_READ && TransferLength(dev, w.ctl.media, 1, c.jobs[k].sqe) > 0
  }

  /** The late Read moves its first byte; then the new command is fetched, executed and reported as successful. */
  function Spoiling(dev: Device, w: World, h: HostQueue, command: Sqe, k: nat): seq<Action>
    requires HostFits(h)
  {
    [Move(1, k, 0)] + Script(1, |h.submitted|, TransferLength(dev, w.ctl.media, 1, Stamped(h, command)))
  }

  /** The state after the late Read has moved its first byte. */
  predicate Delivered0(dev: Device, w: World, v: World, k: nat)
    requires WorldOk(w) && k in w.ctl.queues[1].jobs
  {
    var x := MediaStart(dev, w.ctl.queues[1].jobs[k].sqe);
    && WorldOk(v) && x < |w.ctl.media| && v.mem[DATA_OFFSET] == w.ctl.media[x]
    && v.ctl.media == w.ctl.media && Live(v) && v.ctl.queues[1] == Moved(w.ctl.queues[1], k, 0)
  }

  lemma LateMoves(dev: Device, before: seq<U8>, w: World, hosts: seq<HostQueue>, k: nat)
    requires SysInv(dev, before, w, hosts) && Live(w) && k in w.ctl.queues[1].jobs
    requires var e := w.ctl.queues[1].jobs[k].sqe; e.opc == OP_READ && TransferLength(dev, w.ctl.media, 1, e) > 0
    ensures WorldOk(w) && ValidDevice(dev) && Delivered0(dev, w, Step(dev, w, Move(1, k, 0)), k)
  {
    hide SysInv, MoveAddress, ValidDevice, MediaStart, MediaLength, TransferLength, Delivered0, Live;
    ShapeOf(dev, before, w, hosts);
    assert MoveEnabled(dev, w, 1, k, 0);
    MoveLandsInData(dev, w, hosts[1], 1, k, 0) by { PartsFor(dev, before, w, hosts, 1); }
    LateMove(dev, w, k);
  }

  /** What containment asks of a state. */
  lemma PartsFor(dev: Device, before: seq<U8>, w: World, hosts: seq<HostQueue>, q: nat)
    requires SysInv(dev, before, w, hosts) && q < 2
    ensures QueueInv(w.mem, w.base, hosts[q], w.ctl.queues[q], q) && CommandsOk(dev, w.base, q, hosts[q].submitted)
    ensures q == 1 ==> ListsOk(dev, w.mem, w.base, hosts[q].submitted)
  {
    hide QueueInv, CommandsOk, ListsOk, QueuesInOrder, TouchedOk, Provenance, RingsLive;
  }

  lemma LateMove(dev: Device, w: World, k: nat)
    requires ValidDevice(dev) && WorldOk(w) && MoveEnabled(dev, w, 1, k, 0)
    requires w.ctl.queues[1].jobs[k].sqe.opc == OP_READ
    requires MoveAddress(dev, w, 1, k, 0) == w.base + DATA_OFFSET
    ensures Delivered0(dev, w, Step(dev, w, Move(1, k, 0)), k)
  {
    hide MoveAddress, MediaStart, MediaLength, ValidDevice;
  }

  /** `k` bytes of a Write have been moved; the first one came from the start of the data area. */
  predicate StoredSoFar(dev: Device, w: World, v: World, n: nat, m: nat, e: Sqe, k: nat)
    requires WorldOk(w) && WorldOk(v)
  {
    && Underway(v, 1, n, m, e, k) && v.mem == w.mem && |v.ctl.media| == |w.ctl.media|
    && v.ctl.queues[1].origins == w.ctl.queues[1].origins
    && (k > 0 ==> MediaStart(dev, e) < |v.ctl.media| && v.ctl.media[MediaStart(dev, e)] == w.mem[DATA_OFFSET])
  }

  /** The moves of a Write take the first byte of the data area to the medium. */
  lemma {:induction false} MovesStore(dev: Device, before: seq<U8>, w: World, hosts: seq<HostQueue>, n: nat, m: nat,
                                      e: Sqe, k: nat)
    requires SysInv(dev, before, w, hosts) && Underway(w, 1, n, m, e, 0) && e.opc == OP_WRITE
    requires k <= TransferLength(dev, w.ctl.media, 1, e)
    ensures ValidDevice(dev) && WorldOk(w)
    ensures var v := Run(dev, w, Moves(1, n, k)); SysInv(dev, before, v, hosts) && StoredSoFar(dev, w, v, n, m, e, k)
    decreases k
  {
    hide SysInv, Step, ValidDevice, Underway, TransferLength, MediaStart, WorldOk;
    ShapeOf(dev, before, w, hosts);
    if k > 0 {
      MovesStore(dev, before, w, hosts, n, m, e, k - 1);
      var v := Run(dev, w, Moves(1, n, k - 1));
      SameLength(dev, w.ctl.media, v.ctl.media, 1, e);
      MoveStores(dev, before, v, hosts, n, m, e, k - 1);
      StepKeeps(dev, before, v, hosts, Move(1, n, k - 1));
      RunAppend(dev, w, Moves(1, n, k - 1), [Move(1, n, k - 1)]);
      RunOne(dev, v, Move(1, n, k - 1));
    }
  }

  lemma MoveStores(dev: Device, before: seq<U8>, w: World, hosts: seq<HostQueue>, n: nat, m: nat, e: Sqe, b: nat)
    requires SysInv(dev, before, w, hosts) && Underway(w, 1, n, m, e, b) && e.opc == OP_WRITE
    requires b < TransferLength(dev, w.ctl.media, 1, e)
    ensures WorldOk(w) && ValidDevice(dev)
    ensures var v, x := Step(dev, w, Move(1, n, b)), MediaStart(dev, e);
      && Underway(v, 1, n, m, e, b + 1) && v.mem == w.mem && |v.ctl.media| == |w.ctl.media|
      && v.ctl.queues[1].origins == w.ctl.queues[1].origins
      && x < |w.ctl.media| && v.ctl.media[x] == if b == 0 then w.mem[DATA_OFFSET] else w.ctl.media[x]
  {
    hide SysInv, MoveAddress, ValidDevice, TransferLength, MediaStart, MediaLength, Step;
    ShapeOf(dev, before, w, hosts);
    assert MoveEnabled(dev, w, 1, n, b);
    MoveLandsInData(dev, w, hosts[1], 1, n, b) by { PartsFor(dev, before, w, hosts, 1); }
    MoveUnderway(dev, w, 1, n, m, e, b);
    MoveStored(dev, w, n, b);
  }

  lemma MoveStored(dev: Device, w: World, n: nat, b: nat)
    requires ValidDevice(dev) && WorldOk(w) && MoveEnabled(dev, w, 1, n, b)
    requires w.ctl.queues[1].jobs[n].sqe.opc == OP_WRITE
    requires MoveAddress(dev, w, 1, n, b) == w.base + DATA_OFFSET + b && b < MAX_TRANSFER_BYTES
    ensures var v, x := Step(dev, w, Move(1, n, b)), MediaStart(dev, w.ctl.queues[1].jobs[n].sqe);
      && v.mem == w.mem && |v.ctl.media| == |w.ctl.media| && v.ctl.queues[1].origins == w.ctl.queues[1].origins
      && x < |w.ctl.media| && v.ctl.media[x] == if b == 0 then w.mem[DATA_OFFSET] else w.ctl.media[x]
  {
    hide MoveAddress, MediaStart, MediaLength, ValidDevice;
  }

  /** The new command has been announced, and everything before it fetched and answers read. */
  predicate AboutToFetch(w: World, h: HostQueue, n: nat, e: Sqe)
    requires WorldOk(w)
  {
    var c := w.ctl.queues[1];
    && n + 1 == |h.submitted| && h.submitted[n] == e && Live(w)
    && c.sqSize == c.cqSize == 64 && c.fetched == n && c.rung == n + 1 && |c.posted| == h.consumed
  }

  /** Then it is fetched. */
  lemma FetchedNew(dev: Device, before: seq<U8>, w: World, hosts: seq<HostQueue>, n: nat, e: Sqe)
    requires SysInv(dev, before, w, hosts) && WorldOk(w) && |hosts| == 2 && AboutToFetch(w, hosts[1], n, e)
    ensures ValidDevice(dev)
    ensures var v := Step(dev, w, Fetch(1)); var c := v.ctl.queues[1];
      && Underway(v, 1, n, hosts[1].consumed, e, 0) && v.mem == w.mem && v.ctl.media == w.ctl.media
      && SysInv(dev, before, v, hosts) && n < |c.origins| && c.origins[n] == n
  {
    hide SysInv, Step, QueueInv, ValidDevice, CanFetch, NextOrigin, Live, Underway, FetchedAs, NextInFlight;
    ShapeOf(dev, before, w, hosts);
    var v := Step(dev, w, Fetch(1));
    FetchableNow(dev, before, w, hosts, 1);
    NextFetched(dev, before, w, hosts, 1);
    StepKeeps(dev, before, w, hosts, Fetch(1));
    QueueOf(dev, before, v, hosts, 1);
    NewInFlight(w.ctl.queues[1], v.ctl.queues[1], n);
    JobOrigin(v.mem, v.base, hosts[1], v.ctl.queues[1], 1, n);
    ReadPlace(v.mem, v.base, hosts[1], v.ctl.queues[1], 1);
    FetchOnly(dev, w);
    NowUnderway(v, hosts[1], n, e);
  }

  lemma NewInFlight(c: CtlQueue, d: CtlQueue, n: nat)
    requires NextInFlight(c, d) && c.fetched == n && c.rung == n + 1
    ensures n in d.jobs && |d.origins| == n + 1 && d.origins[n] == n
    ensures d.posted == c.posted && d.cqSize == c.cqSize
  {
  }

  lemma NowUnderway(w: World, h: HostQueue, n: nat, e: Sqe)
    requires WorldOk(w) && Live(w) && n in w.ctl.queues[1].jobs && n < |h.submitted| && h.submitted[n] == e
    requires var c := w.ctl.queues[1];
      && FetchedAs(h.submitted, c.origins, n, c.jobs[n].sqe) && n < |c.origins| && c.origins[n] == n
      && |c.posted| == h.consumed && c.cqSize == 64
      && c.cqBase == w.base + CqOffset(1) && c.cqTail == c.cqHead == h.consumed % 64
    ensures Underway(w, 1, n, h.consumed, e, 0)
  {
  }

  lemma FetchOnly(dev: Device, w: World)
    requires ValidDevice(dev) && WorldOk(w)
    ensures var v := Step(dev, w, Fetch(1)); v.mem == w.mem && v.ctl.media == w.ctl.media && v.base == w.base
  {
  }

  /** Where the next completion will be posted, when everything posted has been read. */
  lemma ReadPlace(mem: seq<U8>, base: nat, h: HostQueue, c: CtlQueue, q: nat)
    requires |mem| == HUGE_PAGE_SIZE && q < 2 && QueueInv(mem, base, h, c, q)
    requires c.cqSize == 64 && |c.posted| == h.consumed
    ensures c.cqBase == base + CqOffset(q) && c.cqTail == c.cqHead == h.consumed % 64
  {
    hide SqView, CqView, SqHolds, CqHolds, JobsOk, PostsOk, AnsweredOnce, Lap, CidsOk, InStep, OriginsOk, HostOk;
  }

  /** The new command has been answered with success, and the first byte of its range is `v`. */
  predicate Stored0(dev: Device, w: World, m: nat, n: nat, e: Sqe, v: U8)
    requires WorldOk(w)
  {
    var c, x := w.ctl.queues[1], MediaStart(dev, e);
    && |c.posted| == m + 1 && IsSuccess(c.posted[m].cqe) && c.posted[m].cqe.cid == e.cid && Answers(c, c.posted[m], n)
    && x < |w.ctl.media| && w.ctl.media[x] == v
  }

  /** What the run of a Write leaves, once the new command is about to be fetched. */
  lemma ScriptStores(dev: Device, before: seq<U8>, w: World, hosts: seq<HostQueue>, n: nat, e: Sqe)
    requires SysInv(dev, before, w, hosts) && WorldOk(w) && |hosts| == 2 && AboutToFetch(w, hosts[1], n, e)
    requires e.opc == OP_WRITE && TransferLength(dev, w.ctl.media, 1, e) > 0
    ensures ValidDevice(dev)
    ensures Stored0(dev, Run(dev, w, Script(1, n, TransferLength(dev, w.ctl.media, 1, e))), hosts[1].consumed, n, e,
                    w.mem[DATA_OFFSET])
  {
    hide SysInv, TransferLength, ValidDevice, Step, Underway, Live, IsSuccess, Run, Acceptable, MediaStart,
         AboutToFetch;
    ShapeOf(dev, before, w, hosts);
    var length, m := TransferLength(dev, w.ctl.media, 1, e), hosts[1].consumed;
    var first, last := [Fetch(1)], [Post(1, n, 0, 0)];
    FetchedNew(dev, before, w, hosts, n, e);
    RunOne(dev, w, Fetch(1));
    var w1 := Run(dev, w, first);
    MovesStore(dev, before, w1, hosts, n, m, e, length);
    RunAppend(dev, w, first, Moves(1, n, length));
    var w2 := Run(dev, w, first + Moves(1, n, length));
    SameLength(dev, w.ctl.media, w2.ctl.media, 1, e);
    TransfersAccepted(dev, w2.ctl, e);
    PostUnderway(dev, w2, 1, n, m, e);
    RunAppend(dev, w, first + Moves(1, n, length), last);
    RunOne(dev, w2, Post(1, n, 0, 0));
  }

  lemma TransfersAccepted(dev: Device, c: Ctl, e: Sqe)
    requires |c.queues| == 2 && TransferLength(dev, c.media, 1, e) > 0
    ensures Acceptable(dev, c, 1, e)
  {
  }

  /**
   A Write begun while a Read is still in flight: there is a controller under which it succeeds, with its own
   completion, and its first byte on the medium is the Read's.
   */
  lemma WriteSpoiled(dev: Device, before: seq<U8>, w: World, hosts: seq<HostQueue>, command: Sqe, limit: nat, k: nat)
    requires Callable(dev, before, w, hosts, 1, command) && command.opc == OP_WRITE
    requires WorldOk(w) && |hosts| == 2 && ReadPending(dev, w, hosts[1], k)
    requires TransferLength(dev, w.ctl.media, 1, command) > 0
    ensures ValidDevice(dev) && HostFits(hosts[1])
    ensures var h, late := hosts[1], w.ctl.queues[1].jobs[k].sqe;
      var o := SubmitAndWait(dev, Once(Spoiling(dev, w, h, command, k), w.clock + 2), w, h, command, limit);
      var x, y := MediaStart(dev, command), MediaStart(dev, late);
      && o.result.Ok? && IsSuccess(o.result.value) && Ours(h, o)
      && y < |w.ctl.media| && x < |o.w.ctl.media| && o.w.ctl.media[x] == w.ctl.media[y]
  {
    hide Callable, SysInv, SubmitAndWait, ValidDevice, Begun, Called, Once, Run, Waiting, ActsOnce, HostFits,
         TransferLength, MediaStart, Script, Step, Stamped, Delivered0, Stored0, AboutToFetch, ReadPending,
         SpoiledEnd, Ending;
    CallableShape(dev, before, w, hosts, 1, command);
    var h, e, n := hosts[1], Stamped(hosts[1], command), |hosts[1].submitted|;
    var v, g := Begun(dev, w, h, command), Called(h, command);
    var later, length := hosts[1 := g], TransferLength(dev, w.ctl.media, 1, e);
    StampedAlike(dev, w.ctl.media, h, command);
    BegunKeeps(dev, before, w, hosts, 1, command);
    BegunFacts(dev, w, h, command);
    CalledCounts(h, command);
    CalledLast(h, command);
    StillPending(dev, w, v, h, k);
    LateMoves(dev, before, v, later, k);
    StepKeeps(dev, before, v, later, Move(1, k, 0));
    var u := Step(dev, v, Move(1, k, 0));
    NowAbout(dev, w, v, u, h, g, k, n, e);
    ScriptStores(dev, before, u, later, n, e);
    RunOne(dev, v, Move(1, k, 0));
    RunAppend(dev, v, [Move(1, k, 0)], Script(1, n, length));
    var actions := Spoiling(dev, w, h, command, k);
    OnceActs(actions, w.clock);
    OnceCall(dev, before, Once(actions, w.clock + 2), w, hosts, 1, command, limit, actions);
    SpoiledEnding(dev, Run(dev, v, actions), g, w.clock, limit, n, e, u.mem[DATA_OFFSET]);
    SpoiledFacts(dev, w, v, u, h, e, k, SubmitAndWait(dev, Once(actions, w.clock + 2), w, h, command, limit));
  }

  /** The Read is still in flight when the new command has been announced. */
  lemma StillPending(dev: Device, w: World, v: World, h: HostQueue, k: nat)
    requires WorldOk(w) && WorldOk(v) && ReadPending(dev, w, h, k)
    requires v.ctl == w.ctl.(queues := w.ctl.queues[1 := Rung(w.ctl.queues[1], (h.tail + 1) % 64)])
    ensures var e := v.ctl.queues[1].jobs[k].sqe;
      && k in v.ctl.queues[1].jobs && Live(v) && e == w.ctl.queues[1].jobs[k].sqe
      && e.opc == OP_READ && TransferLength(dev, v.ctl.media, 1, e) > 0
  {
    hide TransferLength;
  }

  lemma NowAbout(dev: Device, w: World, v: World, u: World, h: HostQueue, g: HostQueue, k: nat, n: nat, e: Sqe)
    requires WorldOk(w) && WorldOk(v) && ReadPending(dev, w, h, k) && n == |h.submitted|
    requires v.ctl == w.ctl.(queues := w.ctl.queues[1 := Rung(w.ctl.queues[1], (h.tail + 1) % 64)])
    requires k in v.ctl.queues[1].jobs && Delivered0(dev, v, u, k)
    requires g.submitted == h.submitted + [e] && g.consumed == h.consumed
    ensures WorldOk(u) && AboutToFetch(u, g, n, e) && u.ctl.media == w.ctl.media
  {
    hide TransferLength, MediaStart;
  }

  lemma CalledLast(h: HostQueue, command: Sqe)
    requires HostFits(h)
    ensures Called(h, command).submitted == h.submitted + [Stamped(h, command)]
  {
  }

  lemma StampedAlike(dev: Device, media: seq<U8>, h: HostQueue, command: Sqe)
    requires HostFits(h)
    ensures var e := Stamped(h, command);
      && TransferLength(dev, media, 1, e) == TransferLength(dev, media, 1, command)
      && MediaStart(dev, e) == MediaStart(dev, command) && e.opc == command.opc && e.cid == h.cid
  {
  }

  /** The call has succeeded with completion `n`, and the first byte of its range is `v`. */
  predicate SpoiledEnd(dev: Device, o: Outcome, m: nat, n: nat, e: Sqe, v: U8) {
    && WorldOk(o.w) && o.result.Ok? && IsSuccess(o.result.value)
    && var c, x := o.w.ctl.queues[1], MediaStart(dev, e);
       m < |c.posted| && Answers(c, c.posted[m], n) && x < |o.w.ctl.media| && o.w.ctl.media[x] == v
  }

  lemma SpoiledEnding(dev: Device, w: World, g: HostQueue, start: nat, limit: nat, n: nat, e: Sqe, v: U8)
    requires WorldOk(w) && HostFits(g) && g.id == 1 && Stored0(dev, w, g.consumed, n, e, v)
    ensures SpoiledEnd(dev, Ending(dev, w, g, e.cid, start, limit), g.consumed, n, e, v)
  {
    hide IsSuccess, Write32, CqDoorbell, StrideOf, MediaStart;
    FreedQueues(dev, w, Consumed(g), 1);
  }

  lemma SpoiledFacts(dev: Device, w: World, v: World, u: World, h: HostQueue, e: Sqe, k: nat, o: Outcome)
    requires WorldOk(w) && WorldOk(v) && k in w.ctl.queues[1].jobs && k in v.ctl.queues[1].jobs && h.id == 1
    requires v.ctl.media == w.ctl.media && v.ctl.queues[1].jobs[k].sqe == w.ctl.queues[1].jobs[k].sqe
    requires Delivered0(dev, v, u, k) && SpoiledEnd(dev, o, h.consumed, |h.submitted|, e, u.mem[DATA_OFFSET])
    ensures WorldOk(o.w) && o.result.Ok? && IsSuccess(o.result.value) && Ours(h, o)
    ensures var x, y := MediaStart(dev, e), MediaStart(dev, w.ctl.queues[1].jobs[k].sqe);
      y < |w.ctl.media| && x < |o.w.ctl.media| && o.w.ctl.media[x] == w.ctl.media[y]
  {
    hide IsSuccess, MediaStart;
  }

  // --- from bring-up on -------------------------------------------------------------------------------------------

  /** A Read or Write of one block, which fits a page. */
  function OneBlock(dev: Device, base: nat, opc: U8, lba: U64): Sqe
    requires GoodBase(base)
  {
    NvmeTransfer(opc, dev.nsid, lba, 0, base + DATA_OFFSET, 0)
  }

  lemma OneBlockOk(dev: Device, mem: seq<U8>, base: nat, opc: U8, lba: U64)
    requires ValidDevice(dev) && GoodBase(base) && |mem| == HUGE_PAGE_SIZE && dev.blockSize <= 4096
    requires opc == OP_READ || opc == OP_WRITE
    ensures var e := OneBlock(dev, base, opc, lba);
      && CommandOk(dev, base, 1, e) && ListOk(dev, mem, base, e) && e.opc == opc
      && MediaStart(dev, e) == BlockBytes(dev, lba) && !IsCreate(1, e)
    ensures var e := OneBlock(dev, base, opc, lba);
      forall media: seq<U8> :: BlockBytes(dev, lba + 1) <= |media| ==> TransferLength(dev, media, 1, e) > 0
  {
    TransferFields(opc, dev.nsid, lba, 0, base + DATA_OFFSET, 0);
    assert BlockBytes(dev, 1) == dev.blockSize;
    assert BlockBytes(dev, lba + 1) == BlockBytes(dev, lba) + BlockBytes(dev, 1);
    assert PageCount(dev.blockSize) == 1;
    EmptyList(mem, base);
  }

  /** A queue just brought up. */
  lemma JustUp(dev: Device, before: seq<U8>, w: World, hosts: seq<HostQueue>, base: nat, results: seq<Result<Cqe>>)
    requires Up(dev, before, base, w, hosts, results, 4)
    ensures WorldOk(w) && |hosts| == 2 && SysInv(dev, before, w, hosts) && Unused(w, hosts[1], 1)
  {
    ShapeOf(dev, before, w, hosts);
    QueueOf(dev, before, w, hosts, 1);
    hide SysInv, QueueInv, AllSucceeded;
    NothingDone(w.mem, w.base, hosts[1], w.ctl.queues[1], 1);
  }

  /** While only Reads have been submitted the medium is as it was. */
  lemma OnlyReads(dev: Device, before: seq<U8>, w: World, hosts: seq<HostQueue>)
    requires SysInv(dev, before, w, hosts)
    requires |hosts[1].submitted| == 1 && hosts[1].submitted[0].opc == OP_READ
    ensures w.ctl.media == before
  {
    hide QueueInv, CommandsOk, ListsOk, QueuesInOrder, TouchedOk;
    assert forall x :: 0 <= x < |before| ==> w.ctl.media[x] == before[x];
  }

  /** The Read that times out. */
  lemma FirstRead(dev: Device, before: seq<U8>, w: World, hosts: seq<HostQueue>, limit: nat, lba: U64)
    requires SysInv(dev, before, w, hosts) && WorldOk(w) && |hosts| == 2 && Unused(w, hosts[1], 1)
    requires dev.blockSize <= 4096 && BlockBytes(dev, lba + 1) <= |before|
    requires var command := OneBlock(dev, w.base, OP_READ, lba); Callable(dev, before, w, hosts, 1, command)
    ensures ValidDevice(dev) && HostFits(hosts[1])
    ensures var command := OneBlock(dev, w.base, OP_READ, lba);
      var o := SubmitAndWait(dev, Once([Fetch(1)], w.clock + 2), w, hosts[1], command, limit);
      && o.result == Err(TimedOut) && Callable(dev, before, o.w, hosts[1 := o.h], 1, command)
      && ReadPending(dev, o.w, o.h, 0) && o.w.ctl.media == before && o.w.base == w.base
      && MediaStart(dev, o.w.ctl.queues[1].jobs[0].sqe) == BlockBytes(dev, lba)
  {
    hide Callable, SysInv, SubmitAndWait, ValidDevice, Once, HostFits, OneBlock, Unused, CommandOk, ListOk,
         MediaStart, TransferLength, Along, BlockBytes, Settled;
    var command := OneBlock(dev, w.base, OP_READ, lba);
    CallableShape(dev, before, w, hosts, 1, command);
    OneBlockOk(dev, w.mem, w.base, OP_READ, lba);
    NothingAlong(dev, before, w, hosts, 1);
    UnheardCall(dev, before, w, hosts, 1, command, limit, []);
    var sched := Once([Fetch(1)], w.clock + 2);
    CallAgain(dev, before, sched, w, hosts, 1, command, limit);
    CallKeeps(dev, before, sched, w, hosts, 1, command, limit);
    var o := SubmitAndWait(dev, sched, w, hosts[1], command, limit);
    GaveUp(hosts[1], command, o);
    var later := hosts[1 := o.h];
    StampedAlike(dev, before, hosts[1], command);
    CallableShape(dev, before, o.w, later, 1, command);
    OnlyReads(dev, before, o.w, later) by { NothingBefore(w, hosts[1]); }
    NothingBefore(w, hosts[1]);
    PendingAlong(dev, before, o.w, later, Stamped(hosts[1], command));
  }

  lemma NothingBefore(w: World, h: HostQueue)
    requires WorldOk(w) && Unused(w, h, 1)
    ensures h.submitted == []
  {
  }

  lemma GaveUp(h: HostQueue, command: Sqe, o: Outcome)
    requires HostFits(h) && WorldOk(o.w) && h.id < 2 && o.result == Err(TimedOut)
    requires Settled(Called(h, command), o, h.cid)
    ensures o.h.submitted == h.submitted + [Stamped(h, command)] && o.h.id == h.id
  {
  }

  lemma PendingAlong(dev: Device, before: seq<U8>, w: World, hosts: seq<HostQueue>, e: Sqe)
    requires SysInv(dev, before, w, hosts) && WorldOk(w) && Along(w, hosts[1], 1, [] + [false])
    requires hosts[1].submitted == [e] && e.opc == OP_READ && TransferLength(dev, w.ctl.media, 1, e) > 0
    ensures ReadPending(dev, w, hosts[1], 0) && w.ctl.queues[1].jobs[0].sqe == e
  {
    OneMore([], false);
    QueueOf(dev, before, w, hosts, 1);
    hide SysInv, QueueInv, TransferLength;
    assert 0 in Unheard([] + [false]);
    JobOrigin(w.mem, w.base, hosts[1], w.ctl.queues[1], 1, 0);
  }

  /** The payload is stored, and the Write may be submitted. */
  lemma PayloadStored(dev: Device, before: seq<U8>, w: World, hosts: seq<HostQueue>, command: Sqe, data: seq<U8>,
                      next: Sqe)
    requires Callable(dev, before, w, hosts, 1, command) && WorldOk(w) && |hosts| == 2 && |data| <= MAX_TRANSFER_BYTES
    requires CommandOk(dev, w.base, 1, next) && !IsCreate(1, next)
    requires forall mem: seq<U8> :: |mem| == HUGE_PAGE_SIZE ==> ListOk(dev, mem, w.base, next)
    ensures Callable(dev, before, w.(mem := WriteAt(w.mem, DATA_OFFSET, data)), hosts, 1, next)
  {
    hide SysInv, CommandOk, ListOk, NoCreates, Idle, WriteAt, HostFits;
    PayloadKeeps(dev, before, w, hosts, data);
  }

  /** Bring-up, a Read of block `a` that times out, and a Write of `data` to block `b` that stores something else. */
  ghost predicate SpoiledRun(dev: Device, w: World, limit: nat, a: U64, b: U64, data: seq<U8>,
                             scheds: seq<Schedule>, first: Schedule, second: Schedule)
    requires ValidDevice(dev) && WorldOk(w) && HostFits(FreshHosts()[0]) && HostFits(FreshHosts()[1])
    requires 0 < |data| <= MAX_TRANSFER_BYTES
  {
    && |scheds| == 4
    && var (v, h0, results) := Calls(dev, scheds, w, FreshHosts()[0], BringUpCommands(dev, w), limit);
       var read := SubmitAndWait(dev, first, v, FreshHosts()[1], OneBlock(dev, v.base, OP_READ, a), limit);
       var u := read.w.(mem := WriteAt(read.w.mem, DATA_OFFSET, data));
       var written := SubmitAndWait(dev, second, u, read.h, OneBlock(dev, v.base, OP_WRITE, b), limit);
       && AllSucceeded(results) && read.result == Err(TimedOut)
       && written.result.Ok? && IsSuccess(written.result.value) && read.h.id == 1 && Ours(read.h, written)
       && var x := BlockBytes(dev, b); x < |written.w.ctl.media| && written.w.ctl.media[x] != data[0]
  }

  /** The two calls after bring-up. */
  lemma SpoiledCalls(dev: Device, before: seq<U8>, w: World, hosts: seq<HostQueue>, limit: nat, a: U64, b: U64,
                     data: seq<U8>)
    returns (first: Schedule, second: Schedule)
    requires SysInv(dev, before, w, hosts) && WorldOk(w) && |hosts| == 2 && Unused(w, hosts[1], 1)
    requires TakesTransfers(dev, before, w, hosts)
    requires dev.blockSize <= 4096 && BlockBytes(dev, a + 1) <= |before| && BlockBytes(dev, b + 1) <= |before|
    requires 0 < |data| <= MAX_TRANSFER_BYTES && BlockBytes(dev, a) < |before| && data[0] != before[BlockBytes(dev, a)]
    ensures ValidDevice(dev) && HostFits(hosts[1])
    ensures var read := SubmitAndWait(dev, first, w, hosts[1], OneBlock(dev, w.base, OP_READ, a), limit);
      var u := read.w.(mem := WriteAt(read.w.mem, DATA_OFFSET, data));
      && read.result == Err(TimedOut) && WorldOk(u) && HostFits(read.h) && read.h.id == 1
      && var written := SubmitAndWait(dev, second, u, read.h, OneBlock(dev, w.base, OP_WRITE, b), limit);
         && written.result.Ok? && IsSuccess(written.result.value) && Ours(read.h, written)
         && var x := BlockBytes(dev, b); x < |written.w.ctl.media| && written.w.ctl.media[x] != data[0]
  {
    hide Callable, SysInv, SubmitAndWait, Once, HostFits, OneBlock, Unused, CommandOk, ListOk, MediaStart,
         TransferLength, ReadPending, BlockBytes, WriteAt, IsSuccess, Ours, Spoiling, ValidDevice;
    ShapeOf(dev, before, w, hosts);
    var r, c := OneBlock(dev, w.base, OP_READ, a), OneBlock(dev, w.base, OP_WRITE, b);
    OneBlockOk(dev, w.mem, w.base, OP_READ, a);
    assert Callable(dev, before, w, hosts, 1, r);
    CallableShape(dev, before, w, hosts, 1, r);
    FirstRead(dev, before, w, hosts, limit, a);
    first := Once([Fetch(1)], w.clock + 2);
    var read := SubmitAndWait(dev, first, w, hosts[1], r, limit);
    var later := hosts[1 := read.h];
    CallableShape(dev, before, read.w, later, 1, r);
    forall mem: seq<U8> | |mem| == HUGE_PAGE_SIZE
      ensures ListOk(dev, mem, w.base, c)
    {
      OneBlockOk(dev, mem, w.base, OP_WRITE, b);
    }
    OneBlockOk(dev, w.mem, w.base, OP_WRITE, b);
    PayloadStored(dev, before, read.w, later, r, data, c);
    var u := read.w.(mem := WriteAt(read.w.mem, DATA_OFFSET, data));
    SamePending(dev, read.w, u, read.h);
    second := Once(Spoiling(dev, u, read.h, c, 0), u.clock + 2);
    WriteSpoiled(dev, before, u, later, c, limit, 0);
  }

  lemma SamePending(dev: Device, w: World, u: World, h: HostQueue)
    requires WorldOk(w) && WorldOk(u) && ReadPending(dev, w, h, 0) && u.ctl == w.ctl
    ensures ReadPending(dev, u, h, 0)
  {
    hide TransferLength;
  }

  /**
   The wrong data is reached: for every device whose blocks fit a page, every two blocks and every payload that does
   not begin like the block read, there is a controller under which bring-up succeeds, a Read times out, and the
   Write that follows succeeds with its own completion and has not stored its payload.
   */
  lemma SpoiledReached(dev: Device, w: World, limit: nat, a: U64, b: U64, data: seq<U8>)
    requires Programmed(dev, w) && dev.blockSize <= 4096
    requires BlockBytes(dev, a + 1) <= |w.ctl.media| && BlockBytes(dev, b + 1) <= |w.ctl.media|
    requires |data| == dev.blockSize && BlockBytes(dev, a) < |w.ctl.media| && data[0] != w.ctl.media[BlockBytes(dev, a)]
    ensures WorldOk(JustEnabled(w)) && HostFits(FreshHosts()[0]) && HostFits(FreshHosts()[1])
    ensures exists scheds: seq<Schedule>, first: Schedule, second: Schedule ::
      SpoiledRun(dev, JustEnabled(w), limit, a, b, data, scheds, first, second)
  {
    hide JustEnabled, FreshHosts, HostFits, ComingUp, Dead, Zeroed, Idle, SysInv, Calls, SubmitAndWait, Up,
         BringUpCommands, OneBlock, BlockBytes, WriteAt, IsSuccess, Ours, AllSucceeded, TakesTransfers, Unused;
    EnabledFacts(dev, w);
    JustComingUp(dev, w);
    FreshFacts();
    var v, media := JustEnabled(w), w.ctl.media;
    var scheds := CommandsCanSucceed(dev, media, v, FreshHosts(), limit);
    assert BringUpCommands(dev, v)[..4] == BringUpCommands(dev, v);
    var (u, h, results) := Calls(dev, scheds, v, FreshHosts()[0], BringUpCommands(dev, v), limit);
    var hosts := FreshHosts()[0 := h];
    AllUp(dev, media, v, u, hosts, results);
    JustUp(dev, media, u, hosts, v.base, results);
    UpResults(dev, media, v.base, u, hosts, results);
    var first, second := SpoiledCalls(dev, media, u, hosts, limit, a, b, data);
    assert SpoiledRun(dev, v, limit, a, b, data, scheds, first, second);
  }

  lemma UpResults(dev: Device, before: seq<U8>, base: nat, w: World, hosts: seq<HostQueue>, results: seq<Result<Cqe>>)
    requires Up(dev, before, base, w, hosts, results, 4)
    ensures AllSucceeded(results) && w.base == base
  {
  }
}
