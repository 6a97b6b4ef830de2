/**
 What a call does to the data when nothing has timed out. With no command outstanding on either
 queue, the only job the controller can have during a call is the call's own. However its fetch,
 its single-byte moves and its completion interleave with the host, the medium and the data area are
 at every moment the old ones with exactly the moved bytes copied; and a success status
 means that all of them have been.
 */
module Effect {
  import opened Bytes
  import opened NvmeSpec
  import opened DmaLayout
  import opened Ring
  import opened Controller
  import opened System
  import opened Submit
  import opened Wrappers

  // --- the one job of a call ---------------------------------------------------------------------------

  /** Not yet fetched, in flight, or posted: the life of submission `n`, whose command is `e`. */
  predicate Stage(c: CtlQueue, n: nat, e: Sqe) {
    || (c.fetched == n && c.jobs == map[] && |c.posted| == n)
    || (c.fetched == n + 1 && c.jobs.Keys == {n} && c.jobs[n].sqe == e && |c.posted| == n)
    || (c.fetched == n + 1 && c.jobs == map[] && |c.posted| == n + 1
        && c.posted[n].number == n && c.posted[n].sqe == e)
  }

  function MovedBytes(c: CtlQueue, n: nat): set<nat> {
    if n in c.jobs then c.jobs[n].moved
    else if |c.posted| > n then c.posted[n].moved
    else {}
  }

  predicate Succeeded(c: CtlQueue, n: nat) {
    |c.posted| > n && IsSuccess(c.posted[n].cqe)
  }

  predicate AllMoved(moved: set<nat>, length: nat) {
    forall b: nat :: b < length ==> b in moved
  }

  // --- the data ---------------------------------------------------------------------------------------------

  /** The medium `media0` with the bytes `moved` of a Write copied from the host's data area. */
  predicate Copied(dev: Device, media0: seq<U8>, mem0: seq<U8>, media: seq<U8>, e: Sqe, moved: set<nat>)
    requires |mem0| == HUGE_PAGE_SIZE && MediaLength(dev, e) <= MAX_TRANSFER_BYTES
  {
    var start, length := MediaStart(dev, e), MediaLength(dev, e);
    && |media| == |media0|
    && forall x :: 0 <= x < |media| ==>
         media[x] == if start <= x < start + length && x - start in moved then mem0[DATA_OFFSET + x - start]
                      else media0[x]
  }

  /** The data area holds the bytes `moved` of what the command sends to the host. */
  predicate Delivered(dev: Device, media0: seq<U8>, mem: seq<U8>, q: nat, e: Sqe, moved: set<nat>)
    requires |mem| == HUGE_PAGE_SIZE && |dev.controllerPage| == |dev.namespacePage| == 4096
    requires TransferLength(dev, media0, q, e) <= MAX_TRANSFER_BYTES
  {
    forall b: nat :: b < TransferLength(dev, media0, q, e) && b in moved ==>
      mem[DATA_OFFSET + b] == SourceByte(dev, media0, q, e, b)
  }

  predicate Effects(dev: Device, media0: seq<U8>, mem0: seq<U8>, media: seq<U8>, mem: seq<U8>, q: nat, e: Sqe,
                    moved: set<nat>)
    requires |mem0| == |mem| == HUGE_PAGE_SIZE && ValidDevice(dev)
    requires TransferLength(dev, media0, q, e) <= MAX_TRANSFER_BYTES
    requires q == 1 ==> MediaLength(dev, e) <= MAX_TRANSFER_BYTES
  {
    if IsWrite(q, e) then
      SameIn(mem0, mem, DATA_OFFSET, HUGE_PAGE_SIZE) && Copied(dev, media0, mem0, media, e, moved)
    else
      media == media0 && Delivered(dev, media0, mem, q, e, moved)
  }

  lemma NothingMoved(dev: Device, media0: seq<U8>, mem0: seq<U8>, mem: seq<U8>, q: nat, e: Sqe)
    requires |mem0| == |mem| == HUGE_PAGE_SIZE && ValidDevice(dev)
    requires TransferLength(dev, media0, q, e) <= MAX_TRANSFER_BYTES
    requires q == 1 ==> MediaLength(dev, e) <= MAX_TRANSFER_BYTES
    requires SameIn(mem0, mem, DATA_OFFSET, HUGE_PAGE_SIZE)
    ensures Effects(dev, media0, mem0, media0, mem, q, e, {})
  {
    hide TransferLength, MediaStart, MediaLength, SourceByte;
  }

  /** A store outside the data area changes nothing the effects speak of. */
  lemma EffectsFrame(dev: Device, media0: seq<U8>, mem0: seq<U8>, media: seq<U8>, mem: seq<U8>, after: seq<U8>,
                     q: nat, e: Sqe, moved: set<nat>)
    requires |mem0| == |mem| == |after| == HUGE_PAGE_SIZE && ValidDevice(dev)
    requires TransferLength(dev, media0, q, e) <= MAX_TRANSFER_BYTES
    requires q == 1 ==> MediaLength(dev, e) <= MAX_TRANSFER_BYTES
    requires SameIn(mem, after, DATA_OFFSET, HUGE_PAGE_SIZE)
    requires Effects(dev, media0, mem0, media, mem, q, e, moved)
    ensures Effects(dev, media0, mem0, media, after, q, e, moved)
  {
    hide TransferLength, MediaStart, MediaLength, SourceByte, Copied;
  }

  lemma WriteMoves(dev: Device, media0: seq<U8>, mem0: seq<U8>, media: seq<U8>, mem: seq<U8>, e: Sqe,
                   moved: set<nat>, b: nat)
    requires |mem0| == |mem| == HUGE_PAGE_SIZE && MediaLength(dev, e) <= MAX_TRANSFER_BYTES
    requires SameIn(mem0, mem, DATA_OFFSET, HUGE_PAGE_SIZE)
    requires b < MediaLength(dev, e) && MediaStart(dev, e) + b < |media|
    requires Copied(dev, media0, mem0, media, e, moved)
    ensures Copied(dev, media0, mem0, media[MediaStart(dev, e) + b := mem[DATA_OFFSET + b]], e, moved + {b})
  {
    hide MediaStart, MediaLength;
  }

  lemma ReadMoves(dev: Device, media0: seq<U8>, mem: seq<U8>, q: nat, e: Sqe, moved: set<nat>, b: nat)
    requires |mem| == HUGE_PAGE_SIZE && |dev.controllerPage| == |dev.namespacePage| == 4096
    requires b < TransferLength(dev, media0, q, e) <= MAX_TRANSFER_BYTES
    requires Delivered(dev, media0, mem, q, e, moved)
    ensures Delivered(dev, media0, WriteAt(mem, DATA_OFFSET + b, [SourceByte(dev, media0, q, e, b)]), q, e, moved + {b})
  {
    hide TransferLength, SourceByte;
  }

  // --- the invariant of a call ------------------------------------------------------------------------------

  /** Queue `1 - q` has nothing to do. */
  predicate AtRest(c: CtlQueue) {
    c.jobs == map[] && c.sqHead == c.sqTail
  }

  /** The rings of the I/O queue change only when a create command succeeds, and then as it asks. */
  predicate RingsAsAsked(io0: CtlQueue, io: CtlQueue, c: CtlQueue, q: nat, n: nat, e: Sqe) {
    && io.cqSize == (if q == 0 && IsCreateCq(e) && Succeeded(c, n) then QueueSizeOf(e) else io0.cqSize)
    && io.sqSize == (if q == 0 && IsCreateSq(e) && Succeeded(c, n) then QueueSizeOf(e) else io0.sqSize)
  }

  datatype Start = Start(media: seq<U8>, mem: seq<U8>, io: CtlQueue)

  predicate Fits(dev: Device, s: Start, q: nat, e: Sqe) {
    && ValidDevice(dev) && |s.mem| == HUGE_PAGE_SIZE
    && TransferLength(dev, s.media, q, e) <= MAX_TRANSFER_BYTES
    && (q == 1 ==> MediaLength(dev, e) <= MAX_TRANSFER_BYTES)
  }

  predicate CallInv(dev: Device, s: Start, w: World, q: nat, n: nat, e: Sqe)
    requires WorldOk(w) && q < 2 && Fits(dev, s, q, e)
  {
    var c := w.ctl.queues[q];
    && AtRest(w.ctl.queues[1 - q]) && Stage(c, n, e)
    && |w.ctl.media| == |s.media|
    && Effects(dev, s.media, s.mem, w.ctl.media, w.mem, q, e, MovedBytes(c, n))
    && (Succeeded(c, n) ==> AllMoved(MovedBytes(c, n), TransferLength(dev, s.media, q, e)))
    && (Succeeded(c, n) ==> TransferLength(dev, s.media, q, e) > 0 || IsCreate(q, e))
    && RingsAsAsked(s.io, w.ctl.queues[1], c, q, n, e)
  }

  /** The host's side: submission `n` is the command, or not stored yet, and nothing has timed out. */
  predicate HostCalls(h: HostQueue, n: nat, e: Sqe) {
    h.timeouts == 0 && n <= |h.submitted| <= n + 1 && (|h.submitted| > n ==> h.submitted[n] == e)
  }

  lemma FetchIsOurs(h: HostQueue, c: CtlQueue, sq: seq<Sqe>, cq: seq<Cqe>, n: nat, e: Sqe)
    requires RingInv(h, c, sq, cq) && CanFetch(c) && c.sqHead < 64 && Stage(c, n, e) && HostCalls(h, n, e)
    ensures c.fetched == n && sq[c.sqHead] == e
  {
    hide CqHolds, JobsOk, PostsOk, AnsweredOnce, Lap, CidsOk, InStep, OriginsOk, NextOrigin;
    SlotOwner(h, c, sq);
  }

  lemma FetchCall(dev: Device, before: seq<U8>, s: Start, w: World, hosts: seq<HostQueue>, q: nat, n: nat,
                  e: Sqe, a: nat)
    requires SysInv(dev, before, w, hosts) && q < 2 && Fits(dev, s, q, e) && HostCalls(hosts[q], n, e)
    requires CallInv(dev, s, w, q, n, e) && FetchEnabled(w, a)
    ensures CallInv(dev, s, DoFetch(w, a), q, n, e)
  {
    hide RingInv, CommandsOk, ListsOk, NoCreates, TouchedOk, Provenance, DecodeSqe, ReadAt, SqView, CqView, Effects,
         AllMoved, IsSuccess, TransferLength, Fits, HostCalls;
    FetchReadsSlot(w, hosts[a], a);
    assert a == q;
    hide CanFetch;
    FetchIsOurs(hosts[q], w.ctl.queues[q], SqView(w.mem, SqOffset(q)), CqView(w.mem, CqOffset(q)), n, e);
  }

  lemma MoveCall(dev: Device, before: seq<U8>, s: Start, w: World, hosts: seq<HostQueue>, q: nat, n: nat,
                 e: Sqe, a: nat, k: nat, b: nat)
    requires SysInv(dev, before, w, hosts) && q < 2 && Fits(dev, s, q, e)
    requires CallInv(dev, s, w, q, n, e) && MoveEnabled(dev, w, a, k, b)
    ensures CallInv(dev, s, DoMove(dev, w, a, k, b), q, n, e)
  {
    hide RingInv, QueueInv, CommandsOk, ListsOk, NoCreates, TouchedOk, Provenance, Effects, AllMoved, IsSuccess,
         TransferLength, MoveAddress, DoMove, Live;
    assert a == q && k == n && w.ctl.queues[q].jobs[n].sqe == e;
    MoveLandsInData(dev, w, hosts[q], q, k, b);
    MoveFrame(dev, w, q, k, b);
    var moved := MovedBytes(w.ctl.queues[q], n);
    var v := DoMove(dev, w, q, n, b);
    MoveEffects(dev, s, w, q, n, e, b);
    assert MovedBytes(v.ctl.queues[q], n) == moved + {b};
  }

  lemma MoveEffects(dev: Device, s: Start, w: World, q: nat, n: nat, e: Sqe, b: nat)
    requires WorldOk(w) && q < 2 && Fits(dev, s, q, e) && |w.ctl.media| == |s.media|
    requires MoveEnabled(dev, w, q, n, b) && w.ctl.queues[q].jobs[n].sqe == e
    requires MoveAddress(dev, w, q, n, b) == w.base + DATA_OFFSET + b && b < MAX_TRANSFER_BYTES
    requires Effects(dev, s.media, s.mem, w.ctl.media, w.mem, q, e, w.ctl.queues[q].jobs[n].moved)
    ensures var v := DoMove(dev, w, q, n, b);
      Effects(dev, s.media, s.mem, v.ctl.media, v.mem, q, e, w.ctl.queues[q].jobs[n].moved + {b})
  {
    hide MoveAddress, Copied, Delivered, WriteAt, Live, MediaStart, MediaLength, SourceByte;
    SameLength(dev, s.media, w.ctl.media, q, e);
    if IsWrite(q, e) {
      WriteMoves(dev, s.media, s.mem, w.ctl.media, w.mem, e, w.ctl.queues[q].jobs[n].moved, b);
    } else {
      ReadMoves(dev, s.media, w.mem, q, e, w.ctl.queues[q].jobs[n].moved, b);
    }
  }

  lemma SameLength(dev: Device, media0: seq<U8>, media: seq<U8>, q: nat, e: Sqe)
    requires |media0| == |media|
    ensures TransferLength(dev, media0, q, e) == TransferLength(dev, media, q, e)
  {
    hide MediaStart, MediaLength;
  }

  lemma PostCall(dev: Device, before: seq<U8>, s: Start, w: World, hosts: seq<HostQueue>, q: nat, n: nat, e: Sqe,
                 a: nat, k: nat, bits: nat, result: U32)
    requires SysInv(dev, before, w, hosts) && q < 2 && Fits(dev, s, q, e)
    requires CallInv(dev, s, w, q, n, e) && PostEnabled(dev, w, a, k, bits, result)
    ensures CallInv(dev, s, DoPost(dev, w, a, k, bits, result), q, n, e)
  {
    hide RingInv, QueueInv, CommandsOk, ListsOk, NoCreates, TouchedOk, Provenance, Effects, TransferLength, Live,
         EncodeCqe, WriteAt, CompletionOf, PostAddress, InRegion, Phase, IsSuccess, QueueSizeOf;
    assert a == q && k == n && w.ctl.queues[q].jobs[n].sqe == e;
    var entry := PostEntry(w, q, n, bits, result);
    PostedQueues(w, hosts, q, n, entry);
    var v := DoPost(dev, w, q, n, bits, result);
    EffectsFrame(dev, s.media, s.mem, w.ctl.media, w.mem, v.mem, q, e, w.ctl.queues[q].jobs[n].moved);
    SameLength(dev, s.media, w.ctl.media, q, e);
    assert v.ctl.queues[q].posted == w.ctl.queues[q].posted + [Posting(n, e, w.ctl.queues[q].jobs[n].moved, entry)];
  }

  lemma StepCall(dev: Device, before: seq<U8>, s: Start, w: World, hosts: seq<HostQueue>, q: nat, n: nat,
                 e: Sqe, a: Action)
    requires SysInv(dev, before, w, hosts) && q < 2 && Fits(dev, s, q, e) && HostCalls(hosts[q], n, e)
    requires CallInv(dev, s, w, q, n, e)
    ensures CallInv(dev, s, Step(dev, w, a), q, n, e)
  {
    hide RingInv, QueueInv, CommandsOk, ListsOk, NoCreates, TouchedOk, Provenance, Effects, FetchEnabled,
         MoveEnabled, PostEnabled, AlterEnabled, DoFetch, DoMove, DoPost, DoAlter, AllMoved, Stage, TransferLength,
         HostCalls, Fits;
    match a
    case BecomeReady =>
    case BecomeIdle =>
    case FailFatally =>
    case Fetch(r) => if FetchEnabled(w, r) { FetchCall(dev, before, s, w, hosts, q, n, e, r); }
    case Move(r, k, b) => if MoveEnabled(dev, w, r, k, b) { MoveCall(dev, before, s, w, hosts, q, n, e, r, k, b); }
    case Post(r, k, bits, result) =>
      if PostEnabled(dev, w, r, k, bits, result) { PostCall(dev, before, s, w, hosts, q, n, e, r, k, bits, result); }
    case Alter(r, k, x, v) => NeverAlters(dev, before, w, hosts, r, k, x);
  }

  lemma {:induction false} RunCall(dev: Device, before: seq<U8>, s: Start, w: World, hosts: seq<HostQueue>,
                                   q: nat, n: nat, e: Sqe, actions: seq<Action>)
    requires SysInv(dev, before, w, hosts) && q < 2 && Fits(dev, s, q, e) && HostCalls(hosts[q], n, e)
    requires CallInv(dev, s, w, q, n, e)
    ensures CallInv(dev, s, Run(dev, w, actions), q, n, e)
    decreases |actions|
  {
    assert ValidDevice(dev) && WorldOk(w) && |hosts| == 2;
    hide SysInv, Step, WorldOk, ValidDevice, CallInv, Fits, HostCalls;
    if actions != [] {
      StepCall(dev, before, s, w, hosts, q, n, e, actions[0]);
      StepKeeps(dev, before, w, hosts, actions[0]);
      RunCall(dev, before, s, Step(dev, w, actions[0]), hosts, q, n, e, actions[1..]);
    }
  }

  lemma TickCall(dev: Device, before: seq<U8>, sched: Schedule, s: Start, w: World, hosts: seq<HostQueue>,
                 q: nat, n: nat, e: Sqe)
    requires SysInv(dev, before, w, hosts) && q < 2 && Fits(dev, s, q, e) && HostCalls(hosts[q], n, e)
    requires CallInv(dev, s, w, q, n, e)
    ensures CallInv(dev, s, Tick(dev, sched, w), q, n, e)
  {
    hide SysInv, Fits, HostCalls, Effects, Stage, AllMoved, Succeeded, TransferLength, RingsAsAsked, AtRest;
    assert ValidDevice(dev) && WorldOk(w) by { ShapeOf(dev, before, w, hosts); }
    RunCall(dev, before, s, w, hosts, q, n, e, sched(w.clock));
  }

  // --- a whole call --------------------------------------------------------------------------------------------

  /** Nothing has timed out on this queue and no call is in progress. */
  predicate Settling(h: HostQueue) {
    Idle(h) && h.timeouts == 0
  }

  /** Then the controller has nothing left to do for it. */
  lemma QuietQueue(mem: seq<U8>, base: nat, h: HostQueue, c: CtlQueue, q: nat)
    requires |mem| == HUGE_PAGE_SIZE && q < 2 && QueueInv(mem, base, h, c, q) && Settling(h)
    ensures AtRest(c) && c.fetched == |h.submitted| == |c.posted| == h.consumed
  {
    hide SqView, CqView, SqHolds, CqHolds, JobsOk, PostsOk, AnsweredOnce, Lap, CidsOk, InStep, OriginsOk, NextOrigin;
    assert |c.jobs| == 0;
  }

  lemma CallBegins(dev: Device, before: seq<U8>, w: World, hosts: seq<HostQueue>, q: nat, e: Sqe)
    requires SysInv(dev, before, w, hosts) && q < 2 && Settling(hosts[0]) && Settling(hosts[1])
    requires Fits(dev, Start(w.ctl.media, w.mem, w.ctl.queues[1]), q, e)
    ensures CallInv(dev, Start(w.ctl.media, w.mem, w.ctl.queues[1]), w, q, |hosts[q].submitted|, e)
  {
    hide QueueInv, CommandsOk, ListsOk, QueuesInOrder, TouchedOk, Provenance, Settling, TransferLength, Effects,
         IsSuccess;
    QuietQueue(w.mem, w.base, hosts[0], w.ctl.queues[0], 0);
    QuietQueue(w.mem, w.base, hosts[1], w.ctl.queues[1], 1);
    NothingMoved(dev, w.ctl.media, w.mem, w.mem, q, e);
  }

  /** Host stores below the data area and doorbell writes leave the invariant of the call alone. */
  lemma HostStepCall(dev: Device, s: Start, w: World, v: World, q: nat, n: nat, e: Sqe)
    requires WorldOk(w) && WorldOk(v) && q < 2 && Fits(dev, s, q, e) && CallInv(dev, s, w, q, n, e)
    requires SameIn(w.mem, v.mem, DATA_OFFSET, HUGE_PAGE_SIZE) && v.ctl.media == w.ctl.media
    requires SameWork(w.ctl.queues[q], v.ctl.queues[q]) && SameWork(w.ctl.queues[1], v.ctl.queues[1])
    requires v.ctl.queues[1 - q] == w.ctl.queues[1 - q]
    ensures CallInv(dev, s, v, q, n, e)
  {
    hide TransferLength, Effects, IsSuccess, AllMoved;
    EffectsFrame(dev, s.media, s.mem, w.ctl.media, w.mem, v.mem, q, e, MovedBytes(w.ctl.queues[q], n));
  }

  /** Two controller queues that differ at most in the doorbell values. */
  predicate SameWork(c: CtlQueue, d: CtlQueue) {
    d == c.(sqTail := d.sqTail, cqHead := d.cqHead, rung := d.rung)
  }

  lemma {:induction false} PollCall(dev: Device, before: seq<U8>, sched: Schedule, s: Start, w: World,
                                    hosts: seq<HostQueue>,
                                    q: nat, n: nat, e: Sqe, cid: nat, spins: nat, limit: nat)
    requires SysInv(dev, before, w, hosts) && q < 2 && hosts[q].id == q && Waiting(hosts[q]) && spins <= limit
    requires Fits(dev, s, q, e) && HostCalls(hosts[q], n, e) && CallInv(dev, s, w, q, n, e)
    ensures var o := Poll(dev, sched, w, hosts[q], cid, spins, limit);
      CallInv(dev, s, o.w, q, n, e)
    decreases limit - spins
  {
    hide RingInv, QueueInv, CommandsOk, ListsOk, Provenance, TouchedOk, QueuesInOrder, Idle, Tick, RingCompletion,
         Phase, DecodeCqe, ReadAt, CallInv, Fits;
    var h := hosts[q];
    var v := Tick(dev, sched, w);
    TickKeeps(dev, before, sched, w, hosts);
    TickCall(dev, before, sched, s, w, hosts, q, n, e);
    PollExact(v.mem, v.base, h, v.ctl.queues[q], q);
    if Phase(Polled(v, h)) == h.phase {
      var g := Consumed(h);
      var u := RingCompletion(dev, v, g);
      ConsumeStep(dev, before, v, hosts, q);
      FreedQueues(dev, v, g, q);
      HostStepCall(dev, s, v, u, q, n, e);
      TickCall(dev, before, sched, s, u, hosts[q := g], q, n, e);
    } else if spins < limit {
      PollCall(dev, before, sched, s, v, hosts, q, n, e, cid, spins + 1, limit);
    }
  }

  lemma LaunchCall(dev: Device, before: seq<U8>, sched: Schedule, s: Start, w: World, hosts: seq<HostQueue>,
                   q: nat, command: Sqe)
    requires Callable(dev, before, w, hosts, q, command) && hosts[q].timeouts == 0
    requires var e := Stamped(hosts[q], command); Fits(dev, s, q, e) && CallInv(dev, s, w, q, |hosts[q].submitted|, e)
    ensures var (v, g) := Launched(dev, sched, w, hosts[q], command); var e := Stamped(hosts[q], command);
      CallInv(dev, s, v, q, |hosts[q].submitted|, e) && HostCalls(g, |hosts[q].submitted|, e)
  {
    hide SysInv, Waiting, HostFits, Tick, EncodeSqe, WriteAt, IoReady, CommandOk, ListOk, Idle, Write32, Stamped,
         CallInv, Fits;
    ShapeOf(dev, before, w, hosts);
    var h, e := hosts[q], Stamped(hosts[q], command);
    var g, n := Stored(h, e), |h.submitted|;
    WaitingHost(h, command);
    TickCallable(dev, before, sched, w, hosts, q, command);
    var w1 := Tick(dev, sched, w);
    var w2 := StoreEntry(w1, h, e);
    var hs := hosts[q := g];
    var w3 := Tick(dev, sched, w2);
    TickCall(dev, before, sched, s, w, hosts, q, n, e);
    StoreStep(dev, before, w1, hosts, q, command);
    assert SameIn(w1.mem, w2.mem, DATA_OFFSET, HUGE_PAGE_SIZE) by {
      assert h.sqOffset + 64 * h.tail + SQE_SIZE <= DATA_OFFSET by { StoreBelowData(h); }
      StoreFrame(w1.mem, h.sqOffset + 64 * h.tail, EncodeSqe(e));
    }
    HostStepCall(dev, s, w1, w2, q, n, e);
    TickCall(dev, before, sched, s, w2, hs, q, n, e);
    RungQueues(dev, w3, g, q);
    HostStepCall(dev, s, w3, RingSubmission(dev, w3, g), q, n, e);
  }

  lemma StoreBelowData(h: HostQueue)
    requires HostFits(h)
    ensures h.sqOffset + 64 * h.tail + SQE_SIZE <= DATA_OFFSET
  {
  }

  /**
   A call begun with nothing outstanding anywhere. If it does not give up it always gets its own
   completion, and the medium, the data area and the I/O rings are as its command asks.
   */
  lemma QuietCall(dev: Device, before: seq<U8>, sched: Schedule, w: World, hosts: seq<HostQueue>, q: nat,
                  command: Sqe, limit: nat)
    requires Callable(dev, before, w, hosts, q, command) && Settling(hosts[0]) && Settling(hosts[1])
    requires Fits(dev, Start(w.ctl.media, w.mem, w.ctl.queues[1]), q, Stamped(hosts[q], command))
    ensures var o := SubmitAndWait(dev, sched, w, hosts[q], command, limit);
            var s := Start(w.ctl.media, w.mem, w.ctl.queues[1]);
            var n, e := |hosts[q].submitted|, Stamped(hosts[q], command);
      && CallInv(dev, s, o.w, q, n, e)
      && (o.result == Err(TimedOut) ==> |o.w.ctl.queues[q].posted| == n)
      && (o.result != Err(TimedOut) ==>
            && o.result.Ok? && Settling(o.h) && |o.w.ctl.queues[q].posted| == n + 1
            && o.result.value == o.w.ctl.queues[q].posted[n].cqe
            && (IsSuccess(o.result.value) <==> Succeeded(o.w.ctl.queues[q], n)))
  {
    var h := hosts[q];
    var s := Start(w.ctl.media, w.mem, w.ctl.queues[1]);
    var n, e := |h.submitted|, Stamped(h, command);
    CallBegins(dev, before, w, hosts, q, e);
    LaunchCall(dev, before, sched, s, w, hosts, q, command);
    LaunchKeeps(dev, before, sched, w, hosts, q, command);
    var (v, g) := Launched(dev, sched, w, h, command);
    CallKeeps(dev, before, sched, w, hosts, q, command, limit);
    var origin := AcceptedFacts(dev, before, sched, w, hosts, q, command, limit);
    assert h.consumed == n;
    hide SysInv, Launched, Poll, CallInv, Fits, HostCalls, Waiting, IoReady, MaySubmit, Called, IsSuccess;
    PollCall(dev, before, sched, s, v, hosts[q := g], q, n, e, h.cid, 0, limit);
    var o := Poll(dev, sched, v, g, h.cid, 0, limit);
    StageOf(dev, s, o.w, q, n, e);
  }

  lemma StageOf(dev: Device, s: Start, w: World, q: nat, n: nat, e: Sqe)
    requires WorldOk(w) && q < 2 && Fits(dev, s, q, e) && CallInv(dev, s, w, q, n, e)
    ensures Stage(w.ctl.queues[q], n, e)
  {
    hide Effects, AllMoved, Stage, TransferLength, RingsAsAsked, AtRest;
  }
}
