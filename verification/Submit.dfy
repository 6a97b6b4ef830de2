/**
 One call of `submit_and_wait` (src/queue_pair.rs) as a function of the state, the command and
 the controller's schedule, and what every such call means in terms of the whole history.
 The controller gets a chance to run before the entry is stored, before the doorbell, before every
 poll, and after the completion doorbell.
 */
module Submit {
  import opened Bytes
  import opened NvmeSpec
  import opened DmaLayout
  import opened Prp
  import opened Ring
  import opened Controller
  import opened System
  import opened Wrappers

  datatype Outcome = Outcome(w: World, h: HostQueue, result: Result<Cqe>)

  predicate HostFits(h: HostQueue) {
    h.id < 2 && h.sqOffset == SqOffset(h.id) && h.cqOffset == CqOffset(h.id)
    && h.tail < 64 && h.head < 64 && h.cid < 0x1_0000
  }

  function Stamped(h: HostQueue, command: Sqe): Sqe
    requires HostFits(h)
  {
    command.(cid := h.cid)
  }

  function StoreEntry(w: World, h: HostQueue, e: Sqe): (v: World)
    requires WorldOk(w) && HostFits(h)
    ensures WorldOk(v) && v.base == w.base && v.ctl == w.ctl
  {
    w.(mem := WriteAt(w.mem, h.sqOffset + 64 * h.tail, EncodeSqe(e)))
  }

  /** Ring the submission doorbell with the already advanced tail. */
  function RingSubmission(dev: Device, w: World, h: HostQueue): (v: World)
    requires WorldOk(w) && HostFits(h)
    ensures WorldOk(v) && v.ctl.regs == w.ctl.regs && v.base == w.base && v.ctl.media == w.ctl.media
  {
    w.(ctl := Write32(dev, w.ctl, SqDoorbell(h.id, StrideOf(dev.capabilities)), h.tail))
  }

  function RingCompletion(dev: Device, w: World, h: HostQueue): (v: World)
    requires WorldOk(w) && HostFits(h)
    ensures WorldOk(v) && v.ctl.regs == w.ctl.regs && v.base == w.base && v.ctl.media == w.ctl.media
  {
    w.(ctl := Write32(dev, w.ctl, CqDoorbell(h.id, StrideOf(dev.capabilities)), h.head))
  }

  function Polled(w: World, h: HostQueue): Cqe
    requires WorldOk(w) && HostFits(h)
  {
    DecodeCqe(ReadAt(w.mem, h.cqOffset + 16 * h.head, CQE_SIZE))
  }

  /** The polling loop from `spins` idle polls on; `limit` is the number of idle polls it tolerates. */
  function Poll(dev: Device, sched: Schedule, w: World, h: HostQueue, cid: nat, spins: nat, limit: nat): (o: Outcome)
    requires ValidDevice(dev) && WorldOk(w) && HostFits(h) && spins <= limit
    ensures WorldOk(o.w) && HostFits(o.h) && SameProgramming(w.ctl.regs, o.w.ctl.regs)
    ensures o.w.base == w.base && |o.w.ctl.media| == |w.ctl.media|
    decreases limit - spins
  {
    var v := Tick(dev, sched, w);
    var c := Polled(v, h);
    if Phase(c) == h.phase then
      var g := Consumed(h);
      var u := RingCompletion(dev, v, g);
      Outcome(Tick(dev, sched, u), g, if c.cid != cid then Err(WrongCommand(c.cid, cid)) else Ok(c))
    else if spins + 1 > limit then
      Outcome(v, GivenUp(h), Err(TimedOut))
    else
      Poll(dev, sched, v, h, cid, spins + 1, limit)
  }

  /** The state in which polling starts: entry stored, tail advanced, doorbell rung. */
  function Launched(dev: Device, sched: Schedule, w: World, h: HostQueue, command: Sqe): (r: (World, HostQueue))
    requires ValidDevice(dev) && WorldOk(w) && HostFits(h)
    ensures WorldOk(r.0) && HostFits(r.1) && SameProgramming(w.ctl.regs, r.0.ctl.regs)
    ensures r.0.base == w.base && |r.0.ctl.media| == |w.ctl.media|
  {
    var w1 := StoreEntry(Tick(dev, sched, w), h, Stamped(h, command));
    var g := Stored(h, Stamped(h, command));
    (RingSubmission(dev, Tick(dev, sched, w1), g), Announced(g))
  }

  function SubmitAndWait(dev: Device, sched: Schedule, w: World, h: HostQueue, command: Sqe, limit: nat): (o: Outcome)
    requires ValidDevice(dev) && WorldOk(w) && HostFits(h)
    ensures WorldOk(o.w) && HostFits(o.h) && SameProgramming(w.ctl.regs, o.w.ctl.regs)
    ensures o.w.base == w.base && |o.w.ctl.media| == |w.ctl.media|
  {
    var (v, g) := Launched(dev, sched, w, h, command);
    Poll(dev, sched, v, g, h.cid, 0, limit)
  }

  // --- what the host may submit when -----------------------------------------------------------

  predicate MaySubmit(dev: Device, w: World, hosts: seq<HostQueue>, q: nat, command: Sqe)
    requires WorldOk(w) && |hosts| == 2
  {
    && q < 2 && Idle(hosts[q]) && CommandOk(dev, w.base, q, command)
    && (q == 0 && hosts[1].submitted != [] ==> !IsCreate(0, command))
    && (q == 1 ==> ListOk(dev, w.mem, w.base, command) && IoReady(w, hosts))
  }

  predicate Callable(dev: Device, before: seq<U8>, w: World, hosts: seq<HostQueue>, q: nat, command: Sqe) {
    SysInv(dev, before, w, hosts) && MaySubmit(dev, w, hosts, q, command) && HostFits(hosts[q]) && hosts[q].id == q
  }

  lemma CallableShape(dev: Device, before: seq<U8>, w: World, hosts: seq<HostQueue>, q: nat, command: Sqe)
    requires Callable(dev, before, w, hosts, q, command)
    ensures ValidDevice(dev) && WorldOk(w) && |hosts| == 2 && q < 2 && HostFits(hosts[q]) && hosts[q].id == q
    ensures SysInv(dev, before, w, hosts) && Idle(hosts[q]) && hosts[q].announced == |hosts[q].submitted|
  {
    ShapeOf(dev, before, w, hosts);
    hide SysInv, CommandOk, ListOk, IoReady, HostFits, ValidDevice;
  }

  lemma MayCreate(dev: Device, before: seq<U8>, w: World, hosts: seq<HostQueue>, command: Sqe)
    requires SysInv(dev, before, w, hosts) && Idle(hosts[0]) && hosts[1].submitted == []
    requires || command == NvmeCreateIoCompletionQueue(1, 64, w.base + IO_COMPLETION_QUEUE_OFFSET)
             || command == NvmeCreateIoSubmissionQueue(1, 64, 1, w.base + IO_SUBMISSION_QUEUE_OFFSET)
    ensures MaySubmit(dev, w, hosts, 0, command) && IsCreate(0, command) && QueueSizeOf(command) == 64
    ensures QueueIdOf(command) == 1 && (IsCreateSq(command) ==> TargetCqOf(command) == 1)
  {
    CreateFields(1, 64, 1, w.base + IO_COMPLETION_QUEUE_OFFSET);
    CreateFields(1, 64, 1, w.base + IO_SUBMISSION_QUEUE_OFFSET);
    hide QueueInv, CommandsOk, ListsOk, QueuesInOrder, TouchedOk, Provenance, Idle, Word;
  }

  /** An Identify through the first data page may be submitted at any time. */
  lemma MayIdentify(dev: Device, before: seq<U8>, w: World, hosts: seq<HostQueue>, command: Sqe)
    requires SysInv(dev, before, w, hosts) && Idle(hosts[0])
    requires command.opc == OP_IDENTIFY && command.prp1 == w.base + DATA_OFFSET && command.prp2 == 0
    ensures MaySubmit(dev, w, hosts, 0, command) && !IsCreate(0, command)
  {
    hide QueueInv, CommandsOk, ListsOk, QueuesInOrder, TouchedOk, Provenance, Idle, NoCreates;
    assert PageCount(4096) == 1;
  }

  // --- host steps keep the invariant --------------------------------------------------------------

  lemma StoreStep(dev: Device, before: seq<U8>, w: World, hosts: seq<HostQueue>, q: nat, command: Sqe)
    requires Callable(dev, before, w, hosts, q, command)
    ensures var e := Stamped(hosts[q], command);
      SysInv(dev, before, StoreEntry(w, hosts[q], e), hosts[q := Stored(hosts[q], e)])
  {
    hide QueueInv, RingInv, CommandsOk, CommandOk, ListsOk, ListOk, Provenance, NoCreates, Idle, EncodeSqe, WriteAt,
         TouchedOk;
    var e := Stamped(hosts[q], command);
    var v := StoreEntry(w, hosts[q], e);
    StoreFrame(w.mem, SqOffset(q) + 64 * hosts[q].tail, EncodeSqe(e));
    StoredQueue(w.mem, w.base, hosts[q], w.ctl.queues[q], q, e);
    QueueFrame(w.mem, v.mem, w.base, hosts[1 - q], w.ctl.queues[1 - q], 1 - q);
    ListsFrame(dev, w.mem, v.mem, w.base, hosts[1].submitted);
    StoredCommands(dev, w.base, q, hosts[q].submitted, command, hosts[q].cid);
    if q == 0 {
      StoredNoCreates(hosts[0], w.ctl.queues[0], command);
    } else {
      StoredLists(dev, w.mem, v.mem, w.base, hosts[1].submitted, command, hosts[1].cid);
      StoredProvenance(dev, before, w.ctl.media, hosts[1].submitted, e);
    }
  }

  lemma StoredQueue(mem: seq<U8>, base: nat, h: HostQueue, c: CtlQueue, q: nat, e: Sqe)
    requires |mem| == HUGE_PAGE_SIZE && q < 2 && QueueInv(mem, base, h, c, q)
    requires Idle(h) && e.cid == h.cid && h.tail < 64
    ensures QueueInv(WriteAt(mem, SqOffset(q) + 64 * h.tail, EncodeSqe(e)), base, Stored(h, e), c, q)
  {
    hide EncodeSqe, WriteAt, SqView, CqView, RingInv, Idle;
    var after := WriteAt(mem, SqOffset(q) + 64 * h.tail, EncodeSqe(e));
    StoreFrame(mem, SqOffset(q) + 64 * h.tail, EncodeSqe(e));
    ViewsSame(mem, after, CqOffset(q));
    SqViewStore(mem, SqOffset(q), h.tail, e);
    StoreKeeps(h, c, SqView(mem, SqOffset(q)), CqView(mem, CqOffset(q)), e);
  }

  lemma StoredCommands(dev: Device, base: nat, q: nat, submitted: seq<Sqe>, command: Sqe, cid: U16)
    requires CommandsOk(dev, base, q, submitted) && CommandOk(dev, base, q, command)
    ensures CommandsOk(dev, base, q, submitted + [command.(cid := cid)])
  {
    assert CommandOk(dev, base, q, command.(cid := cid)) by {
      hide PointerShape, MediaLength;
      CidIrrelevant(dev, command, cid);
      assert MediaLength(dev, command.(cid := cid)) == MediaLength(dev, command);
    }
    hide CommandOk;
  }

  lemma CidIrrelevant(dev: Device, command: Sqe, cid: U16)
    ensures MediaLength(dev, command.(cid := cid)) == MediaLength(dev, command)
    ensures MediaStart(dev, command.(cid := cid)) == MediaStart(dev, command)
  {
  }

  lemma StoredLists(dev: Device, mem: seq<U8>, after: seq<U8>, base: nat, submitted: seq<Sqe>, command: Sqe, cid: U16)
    requires |mem| == |after| == HUGE_PAGE_SIZE && SameIn(mem, after, PRP_LIST_OFFSET, DATA_OFFSET)
    requires ListsOk(dev, after, base, submitted) && ListOk(dev, mem, base, command)
    ensures ListsOk(dev, after, base, submitted + [command.(cid := cid)])
  {
    CidIrrelevant(dev, command, cid);
    ListHoldsFrame(mem, after, base, ListLength(MediaLength(dev, command)));
    assert ListOk(dev, after, base, command.(cid := cid)) by {
      hide ListHolds;
    }
    hide ListOk;
  }

  lemma StoredNoCreates(h: HostQueue, c: CtlQueue, command: Sqe)
    requires HostFits(h)
    ensures NoCreates(h, c) && !IsCreate(0, command) ==> NoCreates(Stored(h, Stamped(h, command)), c)
  {
  }

  lemma StoredProvenance(dev: Device, before: seq<U8>, media: seq<U8>, submitted: seq<Sqe>, e: Sqe)
    requires Provenance(dev, before, media, submitted)
    ensures Provenance(dev, before, media, submitted + [e])
  {
    hide InRange;
    forall x | 0 <= x < |media| && media[x] != before[x]
      ensures WrittenBySome(dev, submitted + [e], x)
    {
      assert WrittenBySome(dev, submitted, x);
      var n :| 0 <= n < |submitted| && InRange(dev, submitted[n], x);
      assert InRange(dev, (submitted + [e])[n], x);
    }
  }

  lemma AnnounceStep(dev: Device, before: seq<U8>, w: World, hosts: seq<HostQueue>, q: nat)
    requires SysInv(dev, before, w, hosts) && q < 2 && HostFits(hosts[q]) && hosts[q].id == q
    requires hosts[q].announced < |hosts[q].submitted|
    ensures SysInv(dev, before, RingSubmission(dev, w, hosts[q]), hosts[q := Announced(hosts[q])])
  {
    hide QueueInv, RingInv, CommandsOk, ListsOk, Provenance, NoCreates, TouchedOk, Write32, SqDoorbell, StrideOf;
    DoorbellsReachTheirQueue(dev, w.ctl, q, hosts[q].tail);
    AnnouncedQueue(w.mem, w.base, hosts[q], w.ctl.queues[q], q);
    if q == 0 {
      PointerNoCreates(hosts[0], Announced(hosts[0]), w.ctl.queues[0], Rung(w.ctl.queues[0], hosts[0].tail));
    }
  }

  lemma PointerNoCreates(h: HostQueue, g: HostQueue, c: CtlQueue, d: CtlQueue)
    requires h.submitted == g.submitted && c.jobs == d.jobs && c.fetched == d.fetched
    ensures NoCreates(h, c) ==> NoCreates(g, d)
  {
  }

  lemma AnnouncedQueue(mem: seq<U8>, base: nat, h: HostQueue, c: CtlQueue, q: nat)
    requires |mem| == HUGE_PAGE_SIZE && q < 2 && QueueInv(mem, base, h, c, q) && h.announced < |h.submitted|
    ensures QueueInv(mem, base, Announced(h), Rung(c, h.tail), q)
  {
    hide RingInv, SqView, CqView;
    AnnounceKeeps(h, c, SqView(mem, SqOffset(q)), CqView(mem, CqOffset(q)));
  }

  /** A poll sees a fresh entry exactly when one is there, and it is the oldest unconsumed one. */
  lemma PollExact(mem: seq<U8>, base: nat, h: HostQueue, c: CtlQueue, q: nat)
    requires |mem| == HUGE_PAGE_SIZE && q < 2 && QueueInv(mem, base, h, c, q) && HostFits(h)
    ensures var e := DecodeCqe(ReadAt(mem, h.cqOffset + 16 * h.head, CQE_SIZE));
      && (Phase(e) == h.phase <==> h.consumed < |c.posted|)
      && (h.consumed < |c.posted| ==> e == c.posted[h.consumed].cqe)
  {
    hide RingInv, DecodeCqe, Phase, QueueInv, SqView, CqView, ReadAt;
    QueueParts(mem, base, h, c, q);
    PhaseExact(h, c, SqView(mem, SqOffset(q)), CqView(mem, CqOffset(q)));
    ViewAt(mem, CqOffset(q), h.head);
  }

  lemma ViewAt(mem: seq<U8>, offset: nat, i: nat)
    requires offset + 4096 <= |mem| && i < 64
    ensures CqView(mem, offset)[i] == DecodeCqe(ReadAt(mem, offset + 16 * i, CQE_SIZE))
  {
    hide DecodeCqe, ReadAt;
  }

  lemma ConsumeStep(dev: Device, before: seq<U8>, w: World, hosts: seq<HostQueue>, q: nat)
    requires SysInv(dev, before, w, hosts) && q < 2 && HostFits(hosts[q]) && hosts[q].id == q
    requires !Idle(hosts[q]) && hosts[q].announced == |hosts[q].submitted|
    requires hosts[q].consumed < |w.ctl.queues[q].posted|
    ensures HostFits(Consumed(hosts[q])) && Idle(Consumed(hosts[q]))
    ensures SysInv(dev, before, RingCompletion(dev, w, Consumed(hosts[q])), hosts[q := Consumed(hosts[q])])
  {
    hide QueueInv, RingInv, CommandsOk, ListsOk, Provenance, NoCreates, TouchedOk, Write32, CqDoorbell, StrideOf, Idle;
    var g := Consumed(hosts[q]);
    DoorbellsReachTheirQueue(dev, w.ctl, q, g.head);
    ConsumedQueue(w.mem, w.base, hosts[q], w.ctl.queues[q], q);
    if q == 0 {
      PointerNoCreates(hosts[0], g, w.ctl.queues[0], w.ctl.queues[0].(cqHead := g.head));
    }
  }

  lemma ConsumedQueue(mem: seq<U8>, base: nat, h: HostQueue, c: CtlQueue, q: nat)
    requires |mem| == HUGE_PAGE_SIZE && q < 2 && QueueInv(mem, base, h, c, q)
    requires !Idle(h) && h.announced == |h.submitted| && h.consumed < |c.posted|
    ensures QueueInv(mem, base, Consumed(h), c.(cqHead := Consumed(h).head), q) && Idle(Consumed(h))
  {
    hide RingInv, SqView, CqView, Idle;
    ConsumeKeeps(h, c, SqView(mem, SqOffset(q)), CqView(mem, CqOffset(q)));
  }

  lemma TimeoutStep(dev: Device, before: seq<U8>, w: World, hosts: seq<HostQueue>, q: nat)
    requires SysInv(dev, before, w, hosts) && q < 2
    requires !Idle(hosts[q]) && hosts[q].announced == |hosts[q].submitted|
    ensures SysInv(dev, before, w, hosts[q := GivenUp(hosts[q])]) && Idle(GivenUp(hosts[q]))
  {
    hide QueueInv, RingInv, CommandsOk, ListsOk, Provenance, NoCreates, TouchedOk, Idle;
    TimedOutQueue(w.mem, w.base, hosts[q], w.ctl.queues[q], q);
    if q == 0 {
      PointerNoCreates(hosts[0], GivenUp(hosts[0]), w.ctl.queues[0], w.ctl.queues[0]);
    }
  }

  lemma TimedOutQueue(mem: seq<U8>, base: nat, h: HostQueue, c: CtlQueue, q: nat)
    requires |mem| == HUGE_PAGE_SIZE && q < 2 && QueueInv(mem, base, h, c, q)
    requires !Idle(h) && h.announced == |h.submitted|
    ensures QueueInv(mem, base, GivenUp(h), c, q) && Idle(GivenUp(h))
  {
    hide RingInv, SqView, CqView, Idle;
    TimeoutKeeps(h, c, SqView(mem, SqOffset(q)), CqView(mem, CqOffset(q)));
  }

  // --- a whole call ------------------------------------------------------------------------------------

  /** Inside a call: the command is announced and not yet accounted for. */
  predicate Waiting(h: HostQueue) {
    HostFits(h) && h.announced == |h.submitted| && !Idle(h)
  }

  /**
   How polling ends. Either the call gives up with nothing unread and the command stays outstanding, or it consumes
   the oldest unconsumed completion and accepts it only if the identifier is the call's own.
   */
  predicate Settled(h: HostQueue, o: Outcome, cid: nat)
    requires WorldOk(o.w) && h.id < 2
  {
    var posted := o.w.ctl.queues[h.id].posted;
    || (o.result == Err(TimedOut) && o.h == GivenUp(h) && |posted| == h.consumed)
    || (&& o.h == Consumed(h) && h.consumed < |posted|
        && var c := posted[h.consumed].cqe;
           o.result == if c.cid != cid then Err(WrongCommand(c.cid, cid)) else Ok(c))
  }

  lemma {:induction false} PollKeeps(dev: Device, before: seq<U8>, sched: Schedule, w: World, hosts: seq<HostQueue>,
                                     q: nat, cid: nat, spins: nat, limit: nat)
    requires SysInv(dev, before, w, hosts) && q < 2 && hosts[q].id == q && Waiting(hosts[q]) && spins <= limit
    ensures var o := Poll(dev, sched, w, hosts[q], cid, spins, limit);
      && WorldOk(o.w) && SysInv(dev, before, o.w, hosts[q := o.h])
      && Idle(o.h) && Settled(hosts[q], o, cid)
    decreases limit - spins
  {
    hide RingInv, QueueInv, CommandsOk, ListsOk, Provenance, TouchedOk, QueuesInOrder, Idle, Tick, RingCompletion,
         Phase, DecodeCqe, ReadAt;
    var h := hosts[q];
    var v := Tick(dev, sched, w);
    TickKeeps(dev, before, sched, w, hosts);
    PollExact(v.mem, v.base, h, v.ctl.queues[q], q);
    if Phase(Polled(v, h)) == h.phase {
      ConsumeStep(dev, before, v, hosts, q);
      var g := Consumed(h);
      var u := RingCompletion(dev, v, g);
      RingKeepsPosted(dev, v, g, q);
      TickKeeps(dev, before, sched, u, hosts[q := g]);
      TickCarries(dev, before, sched, u, hosts[q := g]);
    } else if spins + 1 > limit {
      ReadInOrder(v.mem, v.base, h, v.ctl.queues[q], q);
      TimeoutStep(dev, before, v, hosts, q);
    } else {
      PollKeeps(dev, before, sched, v, hosts, q, cid, spins + 1, limit);
    }
  }

  lemma ReadInOrder(mem: seq<U8>, base: nat, h: HostQueue, c: CtlQueue, q: nat)
    requires |mem| == HUGE_PAGE_SIZE && q < 2 && QueueInv(mem, base, h, c, q)
    ensures h.consumed <= |c.posted|
  {
    hide SqView, CqView, Lap;
  }

  lemma RingKeepsPosted(dev: Device, w: World, h: HostQueue, q: nat)
    requires WorldOk(w) && HostFits(h) && h.id == q
    ensures RingCompletion(dev, w, h).ctl.queues[q].posted == w.ctl.queues[q].posted
  {
    DoorbellsReachTheirQueue(dev, w.ctl, q, h.head);
    hide Write32, StrideOf, CqDoorbell;
  }

  /** The waiting host of a call: the command stored and announced. */
  function Called(h: HostQueue, command: Sqe): HostQueue
    requires HostFits(h)
  {
    Announced(Stored(h, Stamped(h, command)))
  }

  lemma TickCallable(dev: Device, before: seq<U8>, sched: Schedule, w: World, hosts: seq<HostQueue>, q: nat,
                     command: Sqe)
    requires Callable(dev, before, w, hosts, q, command)
    ensures Callable(dev, before, Tick(dev, sched, w), hosts, q, command) && Carried(w, Tick(dev, sched, w), hosts)
  {
    TickKeeps(dev, before, sched, w, hosts);
    TickCarries(dev, before, sched, w, hosts);
    hide SysInv, CommandOk, ListOk, Idle, Tick, IsCreate, HostFits, IoReady;
    if q == 1 {
      ListCarried(dev, w.mem, Tick(dev, sched, w).mem, w.base, command);
    }
  }

  lemma StoreReady(dev: Device, w: World, hosts: seq<HostQueue>, q: nat, command: Sqe)
    requires WorldOk(w) && |hosts| == 2 && q < 2 && HostFits(hosts[q]) && hosts[q].id == q
    requires IoReady(w, hosts) && !IsCreate(q, command)
    ensures var e := Stamped(hosts[q], command);
      IoReady(StoreEntry(w, hosts[q], e), hosts[q := Stored(hosts[q], e)])
  {
    hide EncodeSqe, WriteAt;
    if q == 0 {
      StoredNoCreates(hosts[0], w.ctl.queues[0], command);
    }
    hide NoCreates;
  }

  lemma AnnounceReady(dev: Device, w: World, hosts: seq<HostQueue>, q: nat)
    requires WorldOk(w) && |hosts| == 2 && q < 2 && HostFits(hosts[q]) && hosts[q].id == q && IoReady(w, hosts)
    ensures IoReady(RingSubmission(dev, w, hosts[q]), hosts[q := Announced(hosts[q])])
  {
    RungQueues(dev, w, hosts[q], q);
    hide RingSubmission, NoCreates;
    if q == 0 {
      PointerNoCreates(hosts[0], Announced(hosts[0]), w.ctl.queues[0], Rung(w.ctl.queues[0], hosts[0].tail));
    }
  }

  lemma WaitingHost(h: HostQueue, command: Sqe)
    requires HostFits(h) && Idle(h)
    ensures Waiting(Called(h, command)) && Called(h, command).id == h.id
    ensures var g := Stored(h, Stamped(h, command)); HostFits(g) && g.id == h.id && g.announced < |g.submitted|
  {
  }

  /** Launching keeps the invariant and a working I/O queue, and leaves exactly the new command waiting. */
  lemma LaunchKeeps(dev: Device, before: seq<U8>, sched: Schedule, w: World, hosts: seq<HostQueue>, q: nat,
                    command: Sqe)
    requires Callable(dev, before, w, hosts, q, command)
    ensures var (v, g) := Launched(dev, sched, w, hosts[q], command);
      && WorldOk(v) && v.base == w.base && SysInv(dev, before, v, hosts[q := g]) && Waiting(g) && g.id == q
      && g == Called(hosts[q], command)
      && (IoReady(w, hosts) && !IsCreate(q, command) ==> IoReady(v, hosts[q := g]))
  {
    hide SysInv, Waiting, HostFits, Tick, EncodeSqe, WriteAt, IoReady, CommandOk, ListOk, Idle, Write32, Stored,
         Announced, Stamped;
    ShapeOf(dev, before, w, hosts);
    var h, e := hosts[q], Stamped(hosts[q], command);
    var g := Stored(h, e);
    WaitingHost(h, command);
    TickCallable(dev, before, sched, w, hosts, q, command);
    var w1 := Tick(dev, sched, w);
    var w2 := StoreEntry(w1, h, e);
    var hs := hosts[q := g];
    var w3 := Tick(dev, sched, w2);
    StoreStep(dev, before, w1, hosts, q, command);
    TickKeeps(dev, before, sched, w2, hs);
    TickCarries(dev, before, sched, w2, hs);
    AnnounceStep(dev, before, w3, hs, q);
    assert hosts[q := Announced(g)] == hs[q := Announced(g)];
    if IoReady(w, hosts) && !IsCreate(q, command) {
      StoreReady(dev, w1, hosts, q, command);
      AnnounceReady(dev, w3, hs, q);
    }
  }

  lemma RungQueues(dev: Device, w: World, h: HostQueue, q: nat)
    requires WorldOk(w) && HostFits(h) && h.id == q
    ensures RingSubmission(dev, w, h) == w.(ctl := w.ctl.(queues := w.ctl.queues[q := Rung(w.ctl.queues[q], h.tail)]))
  {
    DoorbellsReachTheirQueue(dev, w.ctl, q, h.tail);
    hide Write32, StrideOf, SqDoorbell;
  }

  lemma ListCarried(dev: Device, mem: seq<U8>, after: seq<U8>, base: nat, e: Sqe)
    requires |mem| == |after| == HUGE_PAGE_SIZE && SameIn(mem, after, PRP_LIST_OFFSET, DATA_OFFSET)
    requires ListOk(dev, mem, base, e)
    ensures ListOk(dev, after, base, e)
  {
    ListHoldsFrame(mem, after, base, ListLength(MediaLength(dev, e)));
    hide ListHolds, MediaLength;
  }

  /**
   Every call, with any schedule and any number of earlier timeouts, keeps the invariant and
   accounts for its command: it is consumed or it has timed out, and nothing else changes on the host.
   */
  lemma CallKeeps(dev: Device, before: seq<U8>, sched: Schedule, w: World, hosts: seq<HostQueue>, q: nat,
                  command: Sqe, limit: nat)
    requires Callable(dev, before, w, hosts, q, command)
    ensures var o := SubmitAndWait(dev, sched, w, hosts[q], command, limit);
      && WorldOk(o.w) && SysInv(dev, before, o.w, hosts[q := o.h])
      && Idle(o.h) && Settled(Called(hosts[q], command), o, hosts[q].cid)
      && (IoReady(w, hosts) && !IsCreate(q, command) ==> IoReady(o.w, hosts[q := o.h]))
  {
    hide SysInv, Launched, Poll, Idle, IoReady, QueueInv, Waiting, Settled, Called, CommandOk, ListOk, HostFits,
         ValidDevice, WorldOk;
    ShapeOf(dev, before, w, hosts);
    LaunchKeeps(dev, before, sched, w, hosts, q, command);
    var (v, g) := Launched(dev, sched, w, hosts[q], command);
    PollKeeps(dev, before, sched, v, hosts[q := g], q, hosts[q].cid, 0, limit);
    PollCarries(dev, before, sched, v, hosts[q := g], q, hosts[q].cid, 0, limit);
    var o := Poll(dev, sched, v, g, hosts[q].cid, 0, limit);
    assert hosts[q := g][q := o.h] == hosts[q := o.h];
  }

  lemma {:induction false} PollCarries(dev: Device, before: seq<U8>, sched: Schedule, w: World, hosts: seq<HostQueue>,
                                       q: nat, cid: nat, spins: nat, limit: nat)
    requires SysInv(dev, before, w, hosts) && q < 2 && hosts[q].id == q && Waiting(hosts[q]) && spins <= limit
    ensures var o := Poll(dev, sched, w, hosts[q], cid, spins, limit);
      && WorldOk(o.w) && o.w.base == w.base && |o.w.ctl.media| == |w.ctl.media|
      && (IoReady(w, hosts) ==> IoReady(o.w, hosts[q := o.h]))
    decreases limit - spins
  {
    hide RingInv, QueueInv, CommandsOk, ListsOk, Provenance, TouchedOk, QueuesInOrder, Idle, Tick, RingCompletion,
         Phase, DecodeCqe, ReadAt, NoCreates;
    var h := hosts[q];
    var v := Tick(dev, sched, w);
    TickKeeps(dev, before, sched, w, hosts);
    TickCarries(dev, before, sched, w, hosts);
    PollExact(v.mem, v.base, h, v.ctl.queues[q], q);
    if Phase(Polled(v, h)) == h.phase {
      var g := Consumed(h);
      var u := RingCompletion(dev, v, g);
      ConsumeStep(dev, before, v, hosts, q);
      FreedQueues(dev, v, g, q);
      PointerNoCreates(hosts[0], hosts[q := g][0], v.ctl.queues[0], u.ctl.queues[0]);
      TickCarries(dev, before, sched, u, hosts[q := g]);
    } else if spins + 1 > limit {
      PointerNoCreates(hosts[0], hosts[q := GivenUp(h)][0], v.ctl.queues[0], v.ctl.queues[0]);
    } else {
      PollCarries(dev, before, sched, v, hosts, q, cid, spins + 1, limit);
    }
  }

  lemma FreedQueues(dev: Device, w: World, h: HostQueue, q: nat)
    requires WorldOk(w) && HostFits(h) && h.id == q
    ensures RingCompletion(dev, w, h)
         == w.(ctl := w.ctl.(queues := w.ctl.queues[q := w.ctl.queues[q].(cqHead := h.head)]))
  {
    DoorbellsReachTheirQueue(dev, w.ctl, q, h.head);
    hide Write32, StrideOf, CqDoorbell;
  }

  // --- delivery -------------------------------------------------------------------------------------------

  /** Conservation: after any call, submitted minus consumed is the number of calls that gave up. */
  lemma Conservation(dev: Device, before: seq<U8>, sched: Schedule, w: World, hosts: seq<HostQueue>, q: nat,
                     command: Sqe, limit: nat)
    requires Callable(dev, before, w, hosts, q, command)
    ensures var o := SubmitAndWait(dev, sched, w, hosts[q], command, limit);
      && |o.h.submitted| - o.h.consumed == o.h.timeouts
      && |o.h.submitted| == |hosts[q].submitted| + 1
      && o.h.timeouts == hosts[q].timeouts + (if o.result == Err(TimedOut) then 1 else 0)
      && o.h.cid % 64 == o.h.tail
  {
    hide SysInv, SubmitAndWait, CommandOk, ListOk, IoReady, QueueInv, ValidDevice;
    ShapeOf(dev, before, w, hosts);
    CallKeeps(dev, before, sched, w, hosts, q, command, limit);
    var o := SubmitAndWait(dev, sched, w, hosts[q], command, limit);
    QueueOf(dev, before, o.w, hosts[q := o.h], q);
    HostOf(o.w.mem, o.w.base, o.h, o.w.ctl.queues[q], q);
    CidSlot(|o.h.submitted|);
  }

  lemma HostOf(mem: seq<U8>, base: nat, h: HostQueue, c: CtlQueue, q: nat)
    requires |mem| == HUGE_PAGE_SIZE && q < 2 && QueueInv(mem, base, h, c, q)
    ensures HostOk(h)
  {
    hide SqView, CqView, HostOk;
  }

  lemma CidSlot(n: nat)
    ensures n % 0x1_0000 % 64 == n % 64
  {
  }

  /** The completion a call accepted. */
  function Accepted(h: HostQueue, o: Outcome): Posting
    requires WorldOk(o.w) && h.id < 2 && h.consumed < |o.w.ctl.queues[h.id].posted|
  {
    o.w.ctl.queues[h.id].posted[h.consumed]
  }

  /** Which submission a posting answers. */
  predicate Answers(c: CtlQueue, p: Posting, n: nat) {
    p.number < |c.origins| && c.origins[p.number] == n
  }

  /** No posting the host has consumed answers submission `n`. */
  predicate Unanswered(h: HostQueue, o: Outcome, n: nat)
    requires WorldOk(o.w) && h.id < 2 && h.consumed <= |o.w.ctl.queues[h.id].posted|
  {
    var c := o.w.ctl.queues[h.id];
    forall m :: 0 <= m < h.consumed ==> !Answers(c, c.posted[m], n)
  }

  /** No earlier command still without a consumed answer is 2^16 or more submissions old. */
  predicate RecentOnly(h: HostQueue, o: Outcome)
    requires WorldOk(o.w) && h.id < 2 && h.consumed <= |o.w.ctl.queues[h.id].posted|
  {
    forall n :: 0 <= n < |h.submitted| && Unanswered(h, o, n) ==> |h.submitted| < n + 0x1_0000
  }

  /** The accepted completion is the one of the command just submitted. */
  predicate Ours(h: HostQueue, o: Outcome)
    requires WorldOk(o.w) && h.id < 2
  {
    h.consumed < |o.w.ctl.queues[h.id].posted| && Answers(o.w.ctl.queues[h.id], Accepted(h, o), |h.submitted|)
  }

  /**
   The facts about the accepted completion that every delivery theorem rests on, after any number of
   timeouts: it answers a submission `n` no other consumed completion answers, it carries the identifier
   `n` modulo 2^16, and the verdict is the comparison with the call's own identifier.
   */
  lemma AcceptedFacts(dev: Device, before: seq<U8>, sched: Schedule, w: World, hosts: seq<HostQueue>, q: nat,
                      command: Sqe, limit: nat)
    returns (n: nat)
    requires Callable(dev, before, w, hosts, q, command)
    ensures var h := hosts[q]; var o := SubmitAndWait(dev, sched, w, h, command, limit);
      && WorldOk(o.w)
      && (o.result != Err(TimedOut) ==>
            && h.consumed < |o.w.ctl.queues[q].posted|
            && var p := Accepted(h, o);
            && Answers(o.w.ctl.queues[q], p, n) && n <= |h.submitted| && n % 64 == p.number % 64 && p.number <= n
            && p.sqe == (h.submitted + [Stamped(h, command)])[n]
            && p.cqe.cid == n % 0x1_0000 && Unanswered(h, o, n)
            && o.result == (if p.cqe.cid == |h.submitted| % 0x1_0000 then Ok(p.cqe)
                            else Err(WrongCommand(p.cqe.cid, |h.submitted| % 0x1_0000))))
  {
    hide SysInv, SubmitAndWait, CommandOk, ListOk, IoReady, Idle, QueueInv, Answers, Unanswered, ValidDevice;
    ShapeOf(dev, before, w, hosts);
    CallKeeps(dev, before, sched, w, hosts, q, command, limit);
    var h := hosts[q];
    var o := SubmitAndWait(dev, sched, w, h, command, limit);
    QueueOf(dev, before, w, hosts, q);
    QueueOf(dev, before, o.w, hosts[q := o.h], q);
    CallCid(w.mem, w.base, h, w.ctl.queues[q], q);
    n := 0;
    if o.result != Err(TimedOut) {
      n := AcceptedPosting(o.w.mem, o.w.base, o.h, o.w.ctl.queues[q], q, h.consumed);
      NoneAnswered(h, o, n);
    }
  }

  lemma QueueOf(dev: Device, before: seq<U8>, w: World, hosts: seq<HostQueue>, q: nat)
    requires SysInv(dev, before, w, hosts) && q < 2
    ensures QueueInv(w.mem, w.base, hosts[q], w.ctl.queues[q], q)
  {
    hide QueueInv, CommandsOk, ListsOk, Provenance, QueuesInOrder, TouchedOk, RingsLive;
  }

  /** The next identifier is the next submission number modulo 2^16. */
  lemma CallCid(mem: seq<U8>, base: nat, h: HostQueue, c: CtlQueue, q: nat)
    requires |mem| == HUGE_PAGE_SIZE && q < 2 && QueueInv(mem, base, h, c, q)
    ensures h.cid == |h.submitted| % 0x1_0000 && |h.submitted| <= h.consumed + h.timeouts + 1
  {
    hide SqView, CqView, SqHolds, CqHolds, JobsOk, PostsOk, AnsweredOnce, Lap, CidsOk, OriginsOk, InStep, PointersOk;
  }

  lemma NoneAnswered(h: HostQueue, o: Outcome, n: nat)
    requires WorldOk(o.w) && h.id < 2 && h.consumed < |o.w.ctl.queues[h.id].posted|
    requires forall i :: 0 <= i < h.consumed ==>
      !Answers(o.w.ctl.queues[h.id], o.w.ctl.queues[h.id].posted[i], n)
    ensures Unanswered(h, o, n)
  {
  }

  lemma AcceptedPosting(mem: seq<U8>, base: nat, h: HostQueue, c: CtlQueue, q: nat, m: nat) returns (n: nat)
    requires |mem| == HUGE_PAGE_SIZE && q < 2 && QueueInv(mem, base, h, c, q) && m < |c.posted|
    ensures var p := c.posted[m];
      && Answers(c, p, n) && n < |h.submitted| && p.sqe == h.submitted[n] && p.cqe.cid == n % 0x1_0000
      && n % 64 == p.number % 64 && p.number <= n
      && forall i :: 0 <= i < m ==> !Answers(c, c.posted[i], n)
  {
    hide SqView, CqView, RingInv;
    QueueParts(mem, base, h, c, q);
    n := PostingOrigin(h, c, SqView(mem, SqOffset(q)), CqView(mem, CqOffset(q)), m);
  }

  lemma PostingOrigin(h: HostQueue, c: CtlQueue, sq: seq<Sqe>, cq: seq<Cqe>, m: nat) returns (n: nat)
    requires RingInv(h, c, sq, cq) && m < |c.posted|
    ensures var p := c.posted[m];
      && Answers(c, p, n) && n < |h.submitted| && p.sqe == h.submitted[n] && p.cqe.cid == n % 0x1_0000
      && n % 64 == p.number % 64 && p.number <= n
      && forall i :: 0 <= i < m ==> !Answers(c, c.posted[i], n)
  {
    hide HostOk, PointersOk, SqHolds, CqHolds, JobsOk, Lap, Phase, NextOrigin, InStep;
    var p := c.posted[m];
    assert PostingOk(h.submitted, c.origins, p, m);
    n := c.origins[p.number];
    forall i | 0 <= i < m
      ensures !Answers(c, c.posted[i], n)
    {
      if Answers(c, c.posted[i], n) {
        OriginsDiffer(c, |h.submitted|, c.posted[i].number, p.number);
      }
    }
  }

  lemma OriginsDiffer(c: CtlQueue, count: nat, j: nat, k: nat)
    requires OriginsOk(c, count) && j < |c.origins| && k < |c.origins| && j != k
    ensures c.origins[j] != c.origins[k]
  {
    hide NextOrigin;
  }

  /**
   Out-of-order completion, after any number of timeouts: if no other outstanding command is 2^16 or more
   submissions old, an accepted completion is the completion of the command just submitted, whatever order
   the controller completes in.
   */
  lemma AcceptedIsOurs(dev: Device, before: seq<U8>, sched: Schedule, w: World, hosts: seq<HostQueue>, q: nat,
                       command: Sqe, limit: nat)
    requires Callable(dev, before, w, hosts, q, command)
    requires var o := SubmitAndWait(dev, sched, w, hosts[q], command, limit);
      o.result.Ok? && WorldOk(o.w) && hosts[q].consumed <= |o.w.ctl.queues[q].posted| && RecentOnly(hosts[q], o)
    ensures var o := SubmitAndWait(dev, sched, w, hosts[q], command, limit);
      && Ours(hosts[q], o)
      && Accepted(hosts[q], o).sqe == Stamped(hosts[q], command)
      && o.result.value == Accepted(hosts[q], o).cqe
  {
    var n := AcceptedFacts(dev, before, sched, w, hosts, q, command, limit);
    hide SysInv, MaySubmit, SubmitAndWait, Unanswered, Answers;
    var h := hosts[q];
    var o := SubmitAndWait(dev, sched, w, h, command, limit);
    if n < |h.submitted| {
      assert Unanswered(h, o, n);
      SameCid(n, |h.submitted|);
    }
  }

  lemma SameCid(k: nat, n: nat)
    requires k < n < k + 0x1_0000
    ensures k % 0x1_0000 != n % 0x1_0000
  {
  }

  /** Completions arrive in the order the commands were fetched. */
  predicate InOrder(posted: seq<Posting>) {
    forall m :: 0 <= m < |posted| ==> posted[m].number == m
  }

  /**
   In-order completion. A submission and the fetch that found it share a ring slot, so a call can succeed only
   if the number of earlier timeouts is a multiple of 64; with fewer than 64 that means none. With fewer than
   2^16 an accepted completion is the call's own.
   */
  lemma InOrderDelivery(dev: Device, before: seq<U8>, sched: Schedule, w: World, hosts: seq<HostQueue>, q: nat,
                        command: Sqe, limit: nat)
    requires Callable(dev, before, w, hosts, q, command)
    requires var o := SubmitAndWait(dev, sched, w, hosts[q], command, limit);
      WorldOk(o.w) && InOrder(o.w.ctl.queues[q].posted)
    ensures var h := hosts[q]; var o := SubmitAndWait(dev, sched, w, h, command, limit);
      && (h.timeouts % 64 != 0 ==> o.result.Err?)
      && (h.timeouts < 0x1_0000 && o.result.Ok? ==> Ours(h, o) && Accepted(h, o).sqe == Stamped(h, command))
      && (h.timeouts == 0 && o.result != Err(TimedOut) ==> o.result.Ok?)
  {
    hide SysInv, Callable, SubmitAndWait, Unanswered, Idle, HostFits, Stamped;
    CallableShape(dev, before, w, hosts, q, command);
    AllAccounted(hosts[q]);
    var n := AcceptedFacts(dev, before, sched, w, hosts, q, command, limit);
    InOrderNumbers(hosts[q].consumed, hosts[q].timeouts, n);
  }

  lemma AllAccounted(h: HostQueue)
    requires Idle(h)
    ensures |h.submitted| == h.consumed + h.timeouts
  {
  }

  lemma InOrderNumbers(consumed: nat, timeouts: nat, n: nat)
    ensures n % 64 == consumed % 64 && n % 0x1_0000 == (consumed + timeouts) % 0x1_0000 ==> timeouts % 64 == 0
    ensures consumed <= n <= consumed + timeouts && n % 0x1_0000 == (consumed + timeouts) % 0x1_0000
            && timeouts < 0x1_0000 ==>
      n == consumed + timeouts
  {
    if n % 64 == consumed % 64 && n % 0x1_0000 == (consumed + timeouts) % 0x1_0000 {
      SlotsAgree(consumed, timeouts, n);
    }
    if consumed <= n < consumed + timeouts && timeouts < 0x1_0000 {
      SameCid(n, consumed + timeouts);
    }
  }

  lemma SlotsAgree(consumed: nat, timeouts: nat, n: nat)
    requires n % 64 == consumed % 64 && n % 0x1_0000 == (consumed + timeouts) % 0x1_0000
    ensures timeouts % 64 == 0
  {
    CidSlot(n);
    CidSlot(consumed + timeouts);
    assert (consumed + timeouts) % 64 == consumed % 64;
  }
}
