/**
 Host and controller together. `SysInv` says what holds between the steps of any run: both
 rings keep their protocol in their own part of the region, every command in flight
 points into the data area through a list that is still intact, and every byte of the medium that
 has changed lies in a block range some submitted Write named. Each controller action keeps it,
 however late it comes and however many calls have timed out.
 */
module System {
  import opened Bytes
  import opened NvmeSpec
  import opened DmaLayout
  import opened Prp
  import opened Ring
  import opened Controller

  // --- the rings as they lie in memory -----------------------------------------------------------

  function SqView(mem: seq<U8>, offset: nat): (sq: seq<Sqe>)
    requires offset + 4096 <= |mem|
    ensures |sq| == 64
  {
    seq(64, i requires 0 <= i < 64 => DecodeSqe(ReadAt(mem, offset + 64 * i, SQE_SIZE)))
  }

  function CqView(mem: seq<U8>, offset: nat): (cq: seq<Cqe>)
    requires offset + 4096 <= |mem|
    ensures |cq| == 64
  {
    seq(64, i requires 0 <= i < 64 => DecodeCqe(ReadAt(mem, offset + 16 * i, CQE_SIZE)))
  }

  lemma ViewsSame(a: seq<U8>, b: seq<U8>, offset: nat)
    requires offset + 4096 <= |a| && SameIn(a, b, offset, offset + 4096)
    ensures SqView(a, offset) == SqView(b, offset) && CqView(a, offset) == CqView(b, offset)
  {
    hide DecodeSqe, DecodeCqe;
    forall i | 0 <= i < 64
      ensures SqView(a, offset)[i] == SqView(b, offset)[i] && CqView(a, offset)[i] == CqView(b, offset)[i]
    {
      ReadSame(a, b, offset + 64 * i, SQE_SIZE);
      ReadSame(a, b, offset + 16 * i, CQE_SIZE);
    }
  }

  lemma SqViewStore(mem: seq<U8>, offset: nat, slot: nat, e: Sqe)
    requires offset + 4096 <= |mem| && slot < 64
    ensures SqView(WriteAt(mem, offset + 64 * slot, EncodeSqe(e)), offset) == SqView(mem, offset)[slot := e]
  {
    SqeRoundTrip(e);
    SqStore(mem, offset, slot, EncodeSqe(e));
    hide EncodeSqe, DecodeSqe, WriteAt, SqView;
  }

  lemma SqStore(mem: seq<U8>, offset: nat, slot: nat, bs: seq<U8>)
    requires offset + 4096 <= |mem| && slot < 64 && |bs| == SQE_SIZE
    ensures SqView(WriteAt(mem, offset + 64 * slot, bs), offset) == SqView(mem, offset)[slot := DecodeSqe(bs)]
  {
    hide DecodeSqe;
    var r := WriteAt(mem, offset + 64 * slot, bs);
    forall i | 0 <= i < 64
      ensures SqView(r, offset)[i] == SqView(mem, offset)[slot := DecodeSqe(bs)][i]
    {
      hide WriteAt;
      if i == slot {
        ReadBack(mem, offset + 64 * slot, bs);
      } else {
        ReadSame(r, mem, offset + 64 * i, SQE_SIZE);
      }
    }
  }

  lemma CqViewStore(mem: seq<U8>, offset: nat, slot: nat, e: Cqe)
    requires offset + 4096 <= |mem| && slot < 64
    ensures CqView(WriteAt(mem, offset + 16 * slot, EncodeCqe(e)), offset) == CqView(mem, offset)[slot := e]
  {
    CqeRoundTrip(e);
    CqStore(mem, offset, slot, EncodeCqe(e));
    hide EncodeCqe, DecodeCqe, WriteAt, CqView;
  }

  lemma CqStore(mem: seq<U8>, offset: nat, slot: nat, bs: seq<U8>)
    requires offset + 4096 <= |mem| && slot < 64 && |bs| == CQE_SIZE
    ensures CqView(WriteAt(mem, offset + 16 * slot, bs), offset) == CqView(mem, offset)[slot := DecodeCqe(bs)]
  {
    hide DecodeCqe;
    var r := WriteAt(mem, offset + 16 * slot, bs);
    forall i | 0 <= i < 64
      ensures CqView(r, offset)[i] == CqView(mem, offset)[slot := DecodeCqe(bs)][i]
    {
      hide WriteAt;
      if i == slot {
        ReadBack(mem, offset + 16 * slot, bs);
      } else {
        ReadSame(r, mem, offset + 16 * i, CQE_SIZE);
      }
    }
  }

  // --- the invariant ---------------------------------------------------------------------------------

  /** One queue pair: its protocol, over its own rings, at the addresses the controller was given. */
  predicate QueueInv(mem: seq<U8>, base: nat, h: HostQueue, c: CtlQueue, id: nat)
    requires |mem| == HUGE_PAGE_SIZE && id < 2
  {
    && Placed(base, h, c, id)
    && RingInv(h, c, SqView(mem, SqOffset(id)), CqView(mem, CqOffset(id)))
  }

  predicate Placed(base: nat, h: HostQueue, c: CtlQueue, id: nat)
    requires id < 2
  {
    && h.id == id && h.sqOffset == SqOffset(id) && h.cqOffset == CqOffset(id)
    && (c.sqSize > 0 ==> c.sqBase == base + SqOffset(id))
    && (c.cqSize > 0 ==> c.cqBase == base + CqOffset(id))
  }

  lemma QueueParts(mem: seq<U8>, base: nat, h: HostQueue, c: CtlQueue, id: nat)
    requires |mem| == HUGE_PAGE_SIZE && id < 2 && QueueInv(mem, base, h, c, id)
    ensures Placed(base, h, c, id) && RingInv(h, c, SqView(mem, SqOffset(id)), CqView(mem, CqOffset(id)))
  {
    hide RingInv, SqView, CqView;
  }

  lemma QueueMake(mem: seq<U8>, base: nat, h: HostQueue, c: CtlQueue, id: nat)
    requires |mem| == HUGE_PAGE_SIZE && id < 2
    requires Placed(base, h, c, id) && RingInv(h, c, SqView(mem, SqOffset(id)), CqView(mem, CqOffset(id)))
    ensures QueueInv(mem, base, h, c, id)
  {
    hide RingInv, SqView, CqView;
  }

  /** The commands this driver submits. */
  predicate CommandOk(dev: Device, base: nat, q: nat, e: Sqe) {
    if q == 0 then
      || (e.opc == OP_IDENTIFY && PointerShape(base, e.prp1, e.prp2, 4096))
      || CreateOk(base, e)
    else
      && (e.opc == OP_READ || e.opc == OP_WRITE)
      && MediaLength(dev, e) <= MAX_TRANSFER_BYTES
      && PointerShape(base, e.prp1, e.prp2, MediaLength(dev, e))
  }

  /** A create command names queue 1, 64 entries, at the place the driver reserved for it. */
  predicate CreateOk(base: nat, e: Sqe) {
    && QueueIdOf(e) == 1 && QueueSizeOf(e) == 64
    && ((IsCreateCq(e) && e.prp1 == base + IO_COMPLETION_QUEUE_OFFSET)
        || (IsCreateSq(e) && e.prp1 == base + IO_SUBMISSION_QUEUE_OFFSET))
  }

  predicate CommandsOk(dev: Device, base: nat, q: nat, submitted: seq<Sqe>) {
    forall n :: 0 <= n < |submitted| ==> CommandOk(dev, base, q, submitted[n])
  }

  /** The list in memory is still right for every transfer ever submitted. */
  predicate ListsOk(dev: Device, mem: seq<U8>, base: nat, submitted: seq<Sqe>)
    requires |mem| == HUGE_PAGE_SIZE
  {
    forall n :: 0 <= n < |submitted| ==> ListOk(dev, mem, base, submitted[n])
  }

  predicate ListOk(dev: Device, mem: seq<U8>, base: nat, e: Sqe)
    requires |mem| == HUGE_PAGE_SIZE
  {
    ListLength(MediaLength(dev, e)) < DATA_PAGES && ListHolds(mem, base, ListLength(MediaLength(dev, e)))
  }

  /** Once the I/O queue is in use, no create command is left that could touch it again. */
  predicate NoCreates(h: HostQueue, c: CtlQueue) {
    && (forall k :: k in c.jobs ==> !IsCreate(0, c.jobs[k].sqe))
    && (forall n :: c.fetched <= n < |h.submitted| ==> !IsCreate(0, h.submitted[n]))
  }

  predicate QueuesInOrder(hosts: seq<HostQueue>, queues: seq<CtlQueue>)
    requires |hosts| == |queues| == 2
  {
    hosts[1].submitted != [] ==>
      NoCreates(hosts[0], queues[0]) && queues[1].sqSize == queues[1].cqSize == 64
  }

  predicate InDataArea(base: nat, address: nat) {
    base + DATA_OFFSET <= address < base + HUGE_PAGE_SIZE
  }

  predicate TouchedOk(base: nat, touched: set<nat>) {
    forall a :: a in touched ==> InDataArea(base, a)
  }

  predicate InRange(dev: Device, e: Sqe, x: nat) {
    e.opc == OP_WRITE && MediaStart(dev, e) <= x < MediaStart(dev, e) + MediaLength(dev, e)
  }

  predicate WrittenBySome(dev: Device, submitted: seq<Sqe>, x: nat) {
    exists n :: 0 <= n < |submitted| && InRange(dev, submitted[n], x)
  }

  predicate Provenance(dev: Device, before: seq<U8>, media: seq<U8>, submitted: seq<Sqe>) {
    && |before| == |media|
    && forall x :: 0 <= x < |media| && media[x] != before[x] ==> WrittenBySome(dev, submitted, x)
  }

  /** Rings exist only on an enabled controller, and both admin rings exist together. */
  predicate RingsLive(c: Ctl)
    requires |c.queues| == 2
  {
    && c.queues[0].sqSize == c.queues[0].cqSize
    && forall q :: 0 <= q < 2 && c.queues[q].sqSize + c.queues[q].cqSize > 0 ==> Enabled(c.regs)
  }

  predicate SysInv(dev: Device, before: seq<U8>, w: World, hosts: seq<HostQueue>) {
    && ValidDevice(dev) && WorldOk(w) && |hosts| == 2
    && QueueInv(w.mem, w.base, hosts[0], w.ctl.queues[0], 0)
    && QueueInv(w.mem, w.base, hosts[1], w.ctl.queues[1], 1)
    && CommandsOk(dev, w.base, 0, hosts[0].submitted)
    && CommandsOk(dev, w.base, 1, hosts[1].submitted)
    && ListsOk(dev, w.mem, w.base, hosts[1].submitted)
    && QueuesInOrder(hosts, w.ctl.queues) && RingsLive(w.ctl)
    && TouchedOk(w.base, w.ctl.touched)
    && Provenance(dev, before, w.ctl.media, hosts[1].submitted)
  }

  lemma ShapeOf(dev: Device, before: seq<U8>, w: World, hosts: seq<HostQueue>)
    requires SysInv(dev, before, w, hosts)
    ensures ValidDevice(dev) && WorldOk(w) && |hosts| == 2
  {
  }

  // --- memory frames ------------------------------------------------------------------------------------

  /** A store inside `[lo, hi)` leaves every ring outside that range and its protocol alone. */
  lemma QueueFrame(a: seq<U8>, b: seq<U8>, base: nat, h: HostQueue, c: CtlQueue, id: nat)
    requires |a| == |b| == HUGE_PAGE_SIZE && id < 2 && QueueInv(a, base, h, c, id)
    requires SameIn(a, b, SqOffset(id), SqOffset(id) + 4096) && SameIn(a, b, CqOffset(id), CqOffset(id) + 4096)
    ensures QueueInv(b, base, h, c, id)
  {
    ViewsSame(a, b, SqOffset(id));
    ViewsSame(a, b, CqOffset(id));
    hide RingInv, SqView, CqView;
  }

  lemma StoreFrame(mem: seq<U8>, offset: nat, bs: seq<U8>)
    requires offset + |bs| <= |mem|
    ensures SameIn(mem, WriteAt(mem, offset, bs), 0, offset)
    ensures SameIn(mem, WriteAt(mem, offset, bs), offset + |bs|, |mem|)
  {
  }

  lemma ListsFrame(dev: Device, a: seq<U8>, b: seq<U8>, base: nat, submitted: seq<Sqe>)
    requires |a| == |b| == HUGE_PAGE_SIZE && SameIn(a, b, PRP_LIST_OFFSET, DATA_OFFSET)
    requires ListsOk(dev, a, base, submitted)
    ensures ListsOk(dev, b, base, submitted)
  {
    forall n | 0 <= n < |submitted|
      ensures ListOk(dev, b, base, submitted[n])
    {
      assert ListOk(dev, a, base, submitted[n]);
      ListHoldsFrame(a, b, base, ListLength(MediaLength(dev, submitted[n])));
    }
  }

  // --- controller actions ---------------------------------------------------------------------------------

  /** The address the controller computes is the slot of the host's ring. */
  lemma FetchReadsSlot(w: World, h: HostQueue, q: nat)
    requires WorldOk(w) && FetchEnabled(w, q) && QueueInv(w.mem, w.base, h, w.ctl.queues[q], q)
    ensures w.ctl.queues[q].sqHead < 64 && CanFetch(w.ctl.queues[q]) && w.ctl.queues[q].sqSize == 64
    ensures DecodeSqe(ReadAt(w.mem, FetchAddress(w, q) - w.base, SQE_SIZE))
         == SqView(w.mem, SqOffset(q))[w.ctl.queues[q].sqHead]
  {
    hide DecodeSqe, QueueInv, RingInv, CqView, ReadAt, CanFetch, Live;
    QueueParts(w.mem, w.base, h, w.ctl.queues[q], q);
    FetchRoom(h, w.ctl.queues[q], SqView(w.mem, SqOffset(q)), CqView(w.mem, CqOffset(q)));
  }

  lemma FetchRoom(h: HostQueue, c: CtlQueue, sq: seq<Sqe>, cq: seq<Cqe>)
    requires RingInv(h, c, sq, cq) && CanFetch(c)
    ensures c.sqHead < 64 && c.sqSize == 64
  {
    hide CqHolds, SqHolds, JobsOk, PostsOk, AnsweredOnce, Lap, CidsOk, InStep, OriginsOk;
  }

  lemma FetchNoCreates(h: HostQueue, c: CtlQueue, sq: seq<Sqe>, cq: seq<Cqe>)
    requires RingInv(h, c, sq, cq) && CanFetch(c)
    ensures c.sqHead < 64 && (NoCreates(h, c) ==> NoCreates(h, Fetched(c, sq[c.sqHead])))
  {
    SlotOwner(h, c, sq);
  }

  lemma FetchStep(dev: Device, before: seq<U8>, w: World, hosts: seq<HostQueue>, q: nat)
    requires SysInv(dev, before, w, hosts) && FetchEnabled(w, q)
    ensures SysInv(dev, before, DoFetch(w, q), hosts)
  {
    hide QueueInv, RingInv, CommandsOk, ListsOk, NoCreates, TouchedOk, Provenance, DecodeSqe, ReadAt, CanFetch,
         SqView, CqView;
    FetchReadsSlot(w, hosts[q], q);
    FetchedQueue(w.mem, w.base, hosts[q], w.ctl.queues[q], q);
  }

  lemma FetchedQueue(mem: seq<U8>, base: nat, h: HostQueue, c: CtlQueue, q: nat)
    requires |mem| == HUGE_PAGE_SIZE && q < 2 && QueueInv(mem, base, h, c, q) && CanFetch(c) && c.sqHead < 64
    ensures var d := Fetched(c, SqView(mem, SqOffset(q))[c.sqHead]);
      QueueInv(mem, base, h, d, q) && (q == 0 && NoCreates(h, c) ==> NoCreates(h, d))
  {
    hide RingInv, SqView, CqView, NoCreates, CanFetch;
    var sq, cq := SqView(mem, SqOffset(q)), CqView(mem, CqOffset(q));
    FetchKeeps(h, c, sq, cq);
    FetchNoCreates(h, c, sq, cq);
  }

  /**
   Containment of one transferred byte: whichever job it belongs to, and however late it is
   moved, it lies at its own place in the data area.
   */
  lemma MoveLandsInData(dev: Device, w: World, h: HostQueue, q: nat, k: nat, b: nat)
    requires WorldOk(w) && MoveEnabled(dev, w, q, k, b) && QueueInv(w.mem, w.base, h, w.ctl.queues[q], q)
    requires CommandsOk(dev, w.base, q, h.submitted)
    requires q == 1 ==> ListsOk(dev, w.mem, w.base, h.submitted)
    ensures MoveAddress(dev, w, q, k, b) == w.base + DATA_OFFSET + b
    ensures b < TransferLength(dev, w.ctl.media, q, w.ctl.queues[q].jobs[k].sqe) <= MAX_TRANSFER_BYTES
    ensures w.ctl.queues[q].jobs[k].sqe in h.submitted
  {
    var e := w.ctl.queues[q].jobs[k].sqe;
    hide QueueInv, PrpAddress, CommandsOk, ListsOk, CommandOk, ListOk, TransferLength, Live;
    JobSubmitted(w.mem, w.base, h, w.ctl.queues[q], q, k);
    SubmittedOk(dev, w.base, q, h.submitted, e);
    if q == 1 {
      SubmittedList(dev, w.mem, w.base, h.submitted, e);
    }
    CommandAddress(dev, w.mem, w.base, w.ctl.media, q, e, b);
  }

  /** The controller's walk over a command of this driver's making. */
  lemma CommandAddress(dev: Device, mem: seq<U8>, base: nat, media: seq<U8>, q: nat, e: Sqe, b: nat)
    requires |mem| == HUGE_PAGE_SIZE && GoodBase(base) && q < 2 && CommandOk(dev, base, q, e)
    requires q == 1 ==> ListOk(dev, mem, base, e)
    requires b < TransferLength(dev, media, q, e)
    ensures TransferLength(dev, media, q, e) <= MAX_TRANSFER_BYTES
    ensures PrpAddress(mem, base, e.prp1, e.prp2, TransferLength(dev, media, q, e), b) == base + DATA_OFFSET + b
  {
    hide PrpAddress, PointerShape, ListHolds, MediaLength, MediaStart;
    if q == 0 {
      assert ListHolds(mem, base, ListLength(4096)) by {
        assert ListLength(4096) == 0;
        EmptyList(mem, base);
      }
      PrpExact(mem, base, e.prp1, e.prp2, 4096, b);
    } else {
      PrpExact(mem, base, e.prp1, e.prp2, MediaLength(dev, e), b);
    }
  }

  lemma EmptyList(mem: seq<U8>, base: nat)
    requires |mem| == HUGE_PAGE_SIZE
    ensures ListHolds(mem, base, 0)
  {
  }

  lemma JobSubmitted(mem: seq<U8>, base: nat, h: HostQueue, c: CtlQueue, q: nat, k: nat)
    requires |mem| == HUGE_PAGE_SIZE && q < 2 && QueueInv(mem, base, h, c, q) && k in c.jobs
    ensures c.jobs[k].sqe in h.submitted
  {
    hide SqView, CqView, OriginsOk, HostOk, PointersOk, SqHolds, CqHolds, PostsOk;
  }

  lemma SubmittedOk(dev: Device, base: nat, q: nat, submitted: seq<Sqe>, e: Sqe)
    requires CommandsOk(dev, base, q, submitted) && e in submitted
    ensures CommandOk(dev, base, q, e)
  {
    hide CommandOk;
  }

  lemma SubmittedList(dev: Device, mem: seq<U8>, base: nat, submitted: seq<Sqe>, e: Sqe)
    requires |mem| == HUGE_PAGE_SIZE && ListsOk(dev, mem, base, submitted) && e in submitted
    ensures ListOk(dev, mem, base, e)
  {
    hide ListOk;
  }

  lemma MoveStep(dev: Device, before: seq<U8>, w: World, hosts: seq<HostQueue>, q: nat, k: nat, b: nat)
    requires SysInv(dev, before, w, hosts) && MoveEnabled(dev, w, q, k, b)
    ensures SysInv(dev, before, DoMove(dev, w, q, k, b), hosts)
  {
    hide DoMove, MoveAddress, MoveEnabled, QueueInv, RingInv, CommandsOk, ListsOk, Provenance, TransferLength,
         NoCreates, Moved, GoodBase, ValidDevice;
    MoveNames(dev, w, q, k, b);
    MoveLandsInData(dev, w, hosts[q], q, k, b);
    MoveMedia(dev, before, w, hosts, q, k, b);
    MoveFrame(dev, w, q, k, b);
    MovedInv(dev, before, w, DoMove(dev, w, q, k, b), hosts, q, k, b);
  }

  /** A change of the data area, the medium and one job's progress keeps everything else. */
  lemma MovedInv(dev: Device, before: seq<U8>, w: World, v: World, hosts: seq<HostQueue>, q: nat, k: nat, b: nat)
    requires SysInv(dev, before, w, hosts) && q < 2 && k in w.ctl.queues[q].jobs && b < MAX_TRANSFER_BYTES
    requires |v.mem| == HUGE_PAGE_SIZE && SameIn(w.mem, v.mem, 0, DATA_OFFSET)
    requires v == w.(mem := v.mem, ctl := w.ctl.(queues := w.ctl.queues[q := Moved(w.ctl.queues[q], k, b)],
                                           media := v.ctl.media,
                                             touched := w.ctl.touched + {w.base + DATA_OFFSET + b}))
    requires Provenance(dev, before, v.ctl.media, hosts[1].submitted)
    ensures SysInv(dev, before, v, hosts)
  {
    hide QueueInv, RingInv, CommandsOk, ListsOk, Provenance, NoCreates, GoodBase, ValidDevice, Moved, SameIn;
    MovedSizes(w.ctl.queues[q], k, b);
    SameInParts(w.mem, v.mem);
    QueueFrame(w.mem, v.mem, w.base, hosts[0], w.ctl.queues[0], 0);
    QueueFrame(w.mem, v.mem, w.base, hosts[1], w.ctl.queues[1], 1);
    ListsFrame(dev, w.mem, v.mem, w.base, hosts[1].submitted);
    MovedQueue(w, v, hosts, q, k, b);
  }

  lemma MovedSizes(c: CtlQueue, k: nat, b: nat)
    requires k in c.jobs
    ensures Moved(c, k, b).sqSize == c.sqSize && Moved(c, k, b).cqSize == c.cqSize
  {
  }

  lemma SameInParts(a: seq<U8>, b: seq<U8>)
    requires SameIn(a, b, 0, DATA_OFFSET)
    ensures SameIn(a, b, SqOffset(0), SqOffset(0) + 4096) && SameIn(a, b, CqOffset(0), CqOffset(0) + 4096)
    ensures SameIn(a, b, SqOffset(1), SqOffset(1) + 4096) && SameIn(a, b, CqOffset(1), CqOffset(1) + 4096)
    ensures SameIn(a, b, PRP_LIST_OFFSET, DATA_OFFSET)
  {
  }

  lemma MoveFrame(dev: Device, w: World, q: nat, k: nat, b: nat)
    requires ValidDevice(dev) && WorldOk(w) && MoveEnabled(dev, w, q, k, b)
    requires MoveAddress(dev, w, q, k, b) == w.base + DATA_OFFSET + b && b < MAX_TRANSFER_BYTES
    ensures var v := DoMove(dev, w, q, k, b);
      && SameIn(w.mem, v.mem, 0, DATA_OFFSET)
      && v == w.(mem := v.mem, ctl := w.ctl.(queues := w.ctl.queues[q := Moved(w.ctl.queues[q], k, b)],
                                             media := v.ctl.media,
                                             touched := w.ctl.touched + {w.base + DATA_OFFSET + b}))
      && k in w.ctl.queues[q].jobs && q < 2 && |v.ctl.media| == |w.ctl.media|
  {
    hide MoveAddress, MediaStart, MediaLength, SourceByte;
  }

  lemma MovedQueue(w: World, v: World, hosts: seq<HostQueue>, q: nat, k: nat, b: nat)
    requires WorldOk(w) && WorldOk(v) && |hosts| == 2 && q < 2 && k in w.ctl.queues[q].jobs
    requires QueueInv(v.mem, w.base, hosts[q], w.ctl.queues[q], q)
    ensures QueueInv(v.mem, w.base, hosts[q], Moved(w.ctl.queues[q], k, b), q)
    ensures NoCreates(hosts[q], w.ctl.queues[q]) ==> NoCreates(hosts[q], Moved(w.ctl.queues[q], k, b))
  {
    hide RingInv, SqView, CqView;
    MoveKeeps(hosts[q], w.ctl.queues[q], SqView(v.mem, SqOffset(q)), CqView(v.mem, CqOffset(q)), k, b);
    MovedNoCreates(hosts[q], w.ctl.queues[q], k, b);
    hide NoCreates;
  }

  lemma MovedNoCreates(h: HostQueue, c: CtlQueue, k: nat, b: nat)
    requires k in c.jobs
    ensures NoCreates(h, c) ==> NoCreates(h, Moved(c, k, b))
  {
  }

  lemma SubmittedRange(dev: Device, submitted: seq<Sqe>, e: Sqe, x: nat)
    requires e in submitted && InRange(dev, e, x)
    ensures WrittenBySome(dev, submitted, x)
  {
    hide InRange;
  }

  lemma WriteByteInRange(dev: Device, media: seq<U8>, q: nat, e: Sqe, b: nat)
    requires IsWrite(q, e) && b < TransferLength(dev, media, q, e)
    ensures InRange(dev, e, MediaStart(dev, e) + b) && MediaStart(dev, e) + b < |media|
  {
    hide MediaStart, MediaLength;
  }

  lemma ProvenanceUpdate(dev: Device, before: seq<U8>, media: seq<U8>, submitted: seq<Sqe>, x: nat, v: U8)
    requires Provenance(dev, before, media, submitted) && x < |media| && WrittenBySome(dev, submitted, x)
    ensures Provenance(dev, before, media[x := v], submitted)
  {
    hide WrittenBySome;
  }

  /** Only a Write changes the medium, and only inside the range that Write named. */
  lemma MoveMedia(dev: Device, before: seq<U8>, w: World, hosts: seq<HostQueue>, q: nat, k: nat, b: nat)
    requires SysInv(dev, before, w, hosts) && MoveEnabled(dev, w, q, k, b)
    ensures Provenance(dev, before, DoMove(dev, w, q, k, b).ctl.media, hosts[1].submitted)
  {
    hide QueueInv, CommandsOk, ListsOk, MediaStart, MediaLength, QueuesInOrder, TouchedOk, MoveAddress, SourceByte,
         WriteAt, Provenance, TransferLength, InRange, WrittenBySome, Live;
    var e := w.ctl.queues[q].jobs[k].sqe;
    MoveLandsInData(dev, w, hosts[q], q, k, b);
    if IsWrite(q, e) {
      WriteByteInRange(dev, w.ctl.media, q, e, b);
      SubmittedRange(dev, hosts[1].submitted, e, MediaStart(dev, e) + b);
      var v := DoMove(dev, w, q, k, b).ctl.media[MediaStart(dev, e) + b];
      ProvenanceUpdate(dev, before, w.ctl.media, hosts[1].submitted, MediaStart(dev, e) + b, v);
    }
  }

  lemma PostStep(dev: Device, before: seq<U8>, w: World, hosts: seq<HostQueue>, q: nat, k: nat, bits: nat, result: U32)
    requires SysInv(dev, before, w, hosts) && PostEnabled(dev, w, q, k, bits, result)
    ensures SysInv(dev, before, DoPost(dev, w, q, k, bits, result), hosts)
  {
    var e := w.ctl.queues[q].jobs[k].sqe;
    var entry := PostEntry(w, q, k, bits, result);
    hide RingInv, QueueInv, CommandsOk, ListsOk, Provenance, EncodeCqe, WriteAt, NoCreates, MaySucceed,
         CompletionOf, PostAddress, CanPost, IsSuccess, IsCreate, Configured, PostedWorld, InRegion, Live;
    PostPlain(dev, before, w, hosts, q, k, entry);
    if IsSuccess(entry) && IsCreate(q, e) {
      CreateTakesEffect(dev, before, w, PostedWorld(w, q, k, entry), hosts, k);
    }
  }

  lemma PostPlain(dev: Device, before: seq<U8>, w: World, hosts: seq<HostQueue>, q: nat, k: nat, entry: Cqe)
    requires SysInv(dev, before, w, hosts) && q < 2
    requires CanPost(w.ctl.queues[q], k) && InRegion(w, PostAddress(w, q), CQE_SIZE)
    requires Phase(entry) == w.ctl.queues[q].cqTag && entry.cid == w.ctl.queues[q].jobs[k].sqe.cid
    ensures SysInv(dev, before, PostedWorld(w, q, k, entry), hosts)
  {
    hide RingInv, QueueInv, CommandsOk, ListsOk, Provenance, EncodeCqe, PostAddress, CanPost, Phase, WriteAt;
    PostedQueues(w, hosts, q, k, entry);
    ListsFrame(dev, w.mem, PostedWorld(w, q, k, entry).mem, w.base, hosts[1].submitted);
  }

  lemma PostedQueues(w: World, hosts: seq<HostQueue>, q: nat, k: nat, entry: Cqe)
    requires WorldOk(w) && |hosts| == 2 && q < 2
    requires QueueInv(w.mem, w.base, hosts[0], w.ctl.queues[0], 0)
    requires QueueInv(w.mem, w.base, hosts[1], w.ctl.queues[1], 1)
    requires CanPost(w.ctl.queues[q], k) && InRegion(w, PostAddress(w, q), CQE_SIZE)
    requires Phase(entry) == w.ctl.queues[q].cqTag && entry.cid == w.ctl.queues[q].jobs[k].sqe.cid
    ensures var mem := WriteAt(w.mem, PostAddress(w, q) - w.base, EncodeCqe(entry));
      && QueueInv(mem, w.base, hosts[q], Posted(w.ctl.queues[q], k, entry), q)
      && QueueInv(mem, w.base, hosts[1 - q], w.ctl.queues[1 - q], 1 - q)
      && SameIn(w.mem, mem, PRP_LIST_OFFSET, HUGE_PAGE_SIZE)
  {
    hide EncodeCqe, WriteAt, QueueInv, PostAddress, CanPost, Phase, Posted;
    var c := w.ctl.queues[q];
    PostSlot(w, hosts[q], q, k);
    var mem := WriteAt(w.mem, CqOffset(q) + 16 * c.cqTail, EncodeCqe(entry));
    CqStoreFrame(w.mem, q, c.cqTail, EncodeCqe(entry));
    hide SameIn;
    PostedQueue(w.mem, w.base, hosts[q], c, q, k, entry);
    QueueFrame(w.mem, mem, w.base, hosts[1 - q], w.ctl.queues[1 - q], 1 - q);
  }

  lemma PostSlot(w: World, h: HostQueue, q: nat, k: nat)
    requires WorldOk(w) && q < 2 && QueueInv(w.mem, w.base, h, w.ctl.queues[q], q) && CanPost(w.ctl.queues[q], k)
    ensures PostAddress(w, q) - w.base == CqOffset(q) + 16 * w.ctl.queues[q].cqTail
    ensures w.ctl.queues[q].cqTail < 64
  {
    hide SqView, CqView;
  }

  /** A completion slot of one queue lies outside every other part of the layout. */
  lemma CqStoreFrame(mem: seq<U8>, q: nat, slot: nat, bs: seq<U8>)
    requires |mem| == HUGE_PAGE_SIZE && q < 2 && slot < 64 && |bs| == CQE_SIZE
    ensures var after := WriteAt(mem, CqOffset(q) + 16 * slot, bs);
      && SameIn(mem, after, SqOffset(q), SqOffset(q) + 4096)
      && SameIn(mem, after, SqOffset(1 - q), SqOffset(1 - q) + 4096)
      && SameIn(mem, after, CqOffset(1 - q), CqOffset(1 - q) + 4096)
      && SameIn(mem, after, PRP_LIST_OFFSET, HUGE_PAGE_SIZE)
  {
    StoreFrame(mem, CqOffset(q) + 16 * slot, bs);
    hide WriteAt;
  }

  lemma PostedRings(c: CtlQueue, k: nat, entry: Cqe)
    requires CanPost(c, k)
    ensures var d := Posted(c, k, entry);
      d.sqBase == c.sqBase && d.sqSize == c.sqSize && d.cqBase == c.cqBase && d.cqSize == c.cqSize
  {
  }

  lemma PostedViews(mem: seq<U8>, q: nat, slot: nat, entry: Cqe)
    requires |mem| == HUGE_PAGE_SIZE && q < 2 && slot < 64
    ensures var after := WriteAt(mem, CqOffset(q) + 16 * slot, EncodeCqe(entry));
      && SqView(after, SqOffset(q)) == SqView(mem, SqOffset(q))
      && CqView(after, CqOffset(q)) == CqView(mem, CqOffset(q))[slot := entry]
  {
    hide WriteAt, SqView, CqView, EncodeCqe, SameIn;
    CqStoreFrame(mem, q, slot, EncodeCqe(entry));
    ViewsSame(mem, WriteAt(mem, CqOffset(q) + 16 * slot, EncodeCqe(entry)), SqOffset(q));
    CqViewStore(mem, CqOffset(q), slot, entry);
  }

  lemma PostedQueue(mem: seq<U8>, base: nat, h: HostQueue, c: CtlQueue, q: nat, k: nat, entry: Cqe)
    requires |mem| == HUGE_PAGE_SIZE && q < 2 && QueueInv(mem, base, h, c, q) && CanPost(c, k) && c.cqTail < 64
    requires Phase(entry) == c.cqTag && entry.cid == c.jobs[k].sqe.cid
    ensures QueueInv(WriteAt(mem, CqOffset(q) + 16 * c.cqTail, EncodeCqe(entry)), base, h, Posted(c, k, entry), q)
  {
    hide WriteAt, SqView, CqView, RingInv, Phase, Posted, QueueInv, EncodeCqe;
    PostedRings(c, k, entry);
    QueueParts(mem, base, h, c, q);
    PostedViews(mem, q, c.cqTail, entry);
    PostKeeps(h, c, SqView(mem, SqOffset(q)), CqView(mem, CqOffset(q)), k, entry);
    QueueMake(WriteAt(mem, CqOffset(q) + 16 * c.cqTail, EncodeCqe(entry)), base, h, Posted(c, k, entry), q);
  }

  /** A create command finds the I/O queue unused, and gives it the rings the driver reserved. */
  lemma CreateTakesEffect(dev: Device, before: seq<U8>, w: World, v: World, hosts: seq<HostQueue>, k: nat)
    requires SysInv(dev, before, w, hosts) && SysInv(dev, before, v, hosts) && v.base == w.base && Enabled(v.ctl.regs)
    requires k in w.ctl.queues[0].jobs && IsCreate(0, w.ctl.queues[0].jobs[k].sqe)
    ensures SysInv(dev, before, SetQueue(v, 1, Configured(v.ctl.queues[1], w.ctl.queues[0].jobs[k].sqe)), hosts)
  {
    var e := w.ctl.queues[0].jobs[k].sqe;
    CreateIsOurs(dev, before, w, hosts, k);
    assert hosts[1].submitted == [];
    UnusedQueue(v.mem, v.base, hosts[1], v.ctl.queues[1], e);
    hide RingInv, QueueInv, CommandsOk, ListsOk, Provenance;
  }

  lemma CreateIsOurs(dev: Device, before: seq<U8>, w: World, hosts: seq<HostQueue>, k: nat)
    requires SysInv(dev, before, w, hosts)
    requires k in w.ctl.queues[0].jobs && IsCreate(0, w.ctl.queues[0].jobs[k].sqe)
    ensures CreateOk(w.base, w.ctl.queues[0].jobs[k].sqe)
  {
    var e := w.ctl.queues[0].jobs[k].sqe;
    JobSubmitted(w.mem, w.base, hosts[0], w.ctl.queues[0], 0, k);
    var n :| 0 <= n < |hosts[0].submitted| && hosts[0].submitted[n] == e;
    assert CommandOk(dev, w.base, 0, hosts[0].submitted[n]);
  }

  lemma UnusedQueue(mem: seq<U8>, base: nat, h: HostQueue, c: CtlQueue, e: Sqe)
    requires |mem| == HUGE_PAGE_SIZE && QueueInv(mem, base, h, c, 1) && h.submitted == [] && CreateOk(base, e)
    ensures QueueInv(mem, base, h, Configured(c, e), 1)
  {
    assert Pristine(c);
    assert RingInv(h, Configured(c, e), SqView(mem, SqOffset(1)), CqView(mem, CqOffset(1))) by {
      hide SqView, CqView;
    }
    hide RingInv, SqView, CqView;
  }

  /** The driver never submits a foreign command, so none is ever at work. */
  lemma NoneForeign(dev: Device, before: seq<U8>, w: World, hosts: seq<HostQueue>, q: nat, k: nat)
    requires SysInv(dev, before, w, hosts) && q < 2 && k in w.ctl.queues[q].jobs
    ensures !Foreign(q, w.ctl.queues[q].jobs[k].sqe)
  {
    hide QueueInv, CommandsOk, CommandOk, ListsOk, NoCreates, TouchedOk, Provenance, RingsLive, QueuesInOrder;
    JobSubmitted(w.mem, w.base, hosts[q], w.ctl.queues[q], q, k);
    SubmittedOk(dev, w.base, q, hosts[q].submitted, w.ctl.queues[q].jobs[k].sqe);
    OwnCommand(dev, w.base, q, w.ctl.queues[q].jobs[k].sqe);
  }

  lemma OwnCommand(dev: Device, base: nat, q: nat, e: Sqe)
    requires CommandOk(dev, base, q, e)
    ensures !Foreign(q, e)
  {
    hide PointerShape, MediaLength;
  }

  lemma NeverAlters(dev: Device, before: seq<U8>, w: World, hosts: seq<HostQueue>, q: nat, k: nat, x: nat)
    requires SysInv(dev, before, w, hosts)
    ensures WorldOk(w) && !AlterEnabled(w, q, k, x)
  {
    ShapeOf(dev, before, w, hosts);
    hide SysInv, Foreign, Live;
    if q < 2 && k in w.ctl.queues[q].jobs {
      NoneForeign(dev, before, w, hosts, q, k);
    }
  }

  lemma RegsStep(dev: Device, before: seq<U8>, w: World, hosts: seq<HostQueue>, r: Registers)
    requires SysInv(dev, before, w, hosts) && r.cc == w.ctl.regs.cc
    ensures SysInv(dev, before, SetRegs(w, r), hosts)
  {
    hide RingInv, QueueInv, CommandsOk, ListsOk, Provenance;
  }

  /** Every action the controller can take keeps the invariant. */
  lemma StepKeeps(dev: Device, before: seq<U8>, w: World, hosts: seq<HostQueue>, a: Action)
    requires SysInv(dev, before, w, hosts)
    ensures SysInv(dev, before, Step(dev, w, a), hosts)
  {
    hide QueueInv, RingInv, CommandsOk, ListsOk, NoCreates, TouchedOk, Provenance, FetchEnabled, MoveEnabled,
         PostEnabled, AlterEnabled, DoFetch, DoMove, DoPost, DoAlter;
    match a
    case BecomeReady => RegsStep(dev, before, w, hosts, w.ctl.regs.(ready := true));
    case BecomeIdle => RegsStep(dev, before, w, hosts, w.ctl.regs.(ready := false));
    case FailFatally => RegsStep(dev, before, w, hosts, w.ctl.regs.(fatal := true));
    case Fetch(q) => if FetchEnabled(w, q) { FetchStep(dev, before, w, hosts, q); }
    case Move(q, k, b) => if MoveEnabled(dev, w, q, k, b) { MoveStep(dev, before, w, hosts, q, k, b); }
    case Post(q, k, bits, result) =>
      if PostEnabled(dev, w, q, k, bits, result) { PostStep(dev, before, w, hosts, q, k, bits, result); }
    case Alter(q, k, x, v) => NeverAlters(dev, before, w, hosts, q, k, x);
  }

  lemma {:induction false} RunKeeps(dev: Device, before: seq<U8>, w: World, hosts: seq<HostQueue>, actions: seq<Action>)
    requires SysInv(dev, before, w, hosts)
    ensures SysInv(dev, before, Run(dev, w, actions), hosts)
    decreases |actions|
  {
    assert ValidDevice(dev) && WorldOk(w);
    hide SysInv, Step, WorldOk, ValidDevice;
    if actions != [] {
      StepKeeps(dev, before, w, hosts, actions[0]);
      RunKeeps(dev, before, Step(dev, w, actions[0]), hosts, actions[1..]);
    }
  }

  lemma TickKeeps(dev: Device, before: seq<U8>, sched: Schedule, w: World, hosts: seq<HostQueue>)
    requires SysInv(dev, before, w, hosts)
    ensures SysInv(dev, before, Tick(dev, sched, w), hosts)
  {
    RunKeeps(dev, before, w, hosts, sched(w.clock));
    hide QueueInv, CommandsOk, ListsOk, Provenance;
  }

  // --- what a controller run carries along ---------------------------------------------------------------

  /** The I/O queue exists and no create command is outstanding. */
  predicate IoReady(w: World, hosts: seq<HostQueue>)
    requires WorldOk(w) && |hosts| == 2
  {
    NoCreates(hosts[0], w.ctl.queues[0]) && w.ctl.queues[1].sqSize == w.ctl.queues[1].cqSize == 64
  }

  /** The PRP list is left alone, posted completions stay posted, and a working I/O queue keeps working. */
  predicate Carried(w: World, v: World, hosts: seq<HostQueue>)
    requires WorldOk(w) && WorldOk(v) && |hosts| == 2
  {
    && v.base == w.base && |v.ctl.media| == |w.ctl.media|
    && SameIn(w.mem, v.mem, PRP_LIST_OFFSET, DATA_OFFSET)
    && w.ctl.queues[0].posted <= v.ctl.queues[0].posted
    && w.ctl.queues[1].posted <= v.ctl.queues[1].posted
    && (IoReady(w, hosts) ==> IoReady(v, hosts))
  }

  lemma FetchCarries(dev: Device, before: seq<U8>, w: World, hosts: seq<HostQueue>, q: nat)
    requires SysInv(dev, before, w, hosts) && FetchEnabled(w, q)
    ensures Carried(w, DoFetch(w, q), hosts)
  {
    hide QueueInv, RingInv, CommandsOk, ListsOk, NoCreates, TouchedOk, Provenance, DecodeSqe, ReadAt, CanFetch,
         SqView, CqView;
    FetchReadsSlot(w, hosts[q], q);
    FetchedQueue(w.mem, w.base, hosts[q], w.ctl.queues[q], q);
  }

  lemma MoveCarries(dev: Device, before: seq<U8>, w: World, hosts: seq<HostQueue>, q: nat, k: nat, b: nat)
    requires SysInv(dev, before, w, hosts) && MoveEnabled(dev, w, q, k, b)
    ensures Carried(w, DoMove(dev, w, q, k, b), hosts)
  {
    hide QueueInv, RingInv, CommandsOk, ListsOk, NoCreates, TouchedOk, Provenance, TransferLength, MoveAddress,
         DoMove, MoveEnabled;
    assert q < 2 && k in w.ctl.queues[q].jobs by { MoveNames(dev, w, q, k, b); }
    MoveLandsInData(dev, w, hosts[q], q, k, b);
    MoveFrame(dev, w, q, k, b);
    if q == 0 {
      MovedNoCreates(hosts[0], w.ctl.queues[0], k, b);
    }
    assert Moved(w.ctl.queues[q], k, b).posted == w.ctl.queues[q].posted;
  }

  lemma MoveNames(dev: Device, w: World, q: nat, k: nat, b: nat)
    requires WorldOk(w) && MoveEnabled(dev, w, q, k, b)
    ensures q < 2 && k in w.ctl.queues[q].jobs
  {
  }

  lemma PostCarries(dev: Device, before: seq<U8>, w: World, hosts: seq<HostQueue>, q: nat, k: nat, bits: nat,
                    result: U32)
    requires SysInv(dev, before, w, hosts) && PostEnabled(dev, w, q, k, bits, result)
    ensures Carried(w, DoPost(dev, w, q, k, bits, result), hosts)
  {
    hide RingInv, QueueInv, CommandsOk, ListsOk, Provenance, EncodeCqe, WriteAt, MaySucceed, CompletionOf,
         PostAddress, IsSuccess, InRegion, Live, Phase;
    PostedQueues(w, hosts, q, k, PostEntry(w, q, k, bits, result));
  }

  lemma StepCarries(dev: Device, before: seq<U8>, w: World, hosts: seq<HostQueue>, a: Action)
    requires SysInv(dev, before, w, hosts)
    ensures Carried(w, Step(dev, w, a), hosts)
  {
    hide QueueInv, RingInv, CommandsOk, ListsOk, NoCreates, TouchedOk, Provenance, FetchEnabled, MoveEnabled,
         PostEnabled, AlterEnabled, DoFetch, DoMove, DoPost, DoAlter;
    match a
    case BecomeReady =>
    case BecomeIdle =>
    case FailFatally =>
    case Fetch(q) => if FetchEnabled(w, q) { FetchCarries(dev, before, w, hosts, q); }
    case Move(q, k, b) => if MoveEnabled(dev, w, q, k, b) { MoveCarries(dev, before, w, hosts, q, k, b); }
    case Post(q, k, bits, result) =>
      if PostEnabled(dev, w, q, k, bits, result) { PostCarries(dev, before, w, hosts, q, k, bits, result); }
    case Alter(q, k, x, v) => NeverAlters(dev, before, w, hosts, q, k, x);
  }

  lemma CarriedThrough(u: World, v: World, w: World, hosts: seq<HostQueue>)
    requires WorldOk(u) && WorldOk(v) && WorldOk(w) && |hosts| == 2
    requires Carried(u, v, hosts) && Carried(v, w, hosts)
    ensures Carried(u, w, hosts)
  {
    hide IoReady;
  }

  lemma {:induction false} RunCarries(dev: Device, before: seq<U8>, w: World, hosts: seq<HostQueue>,
                                      actions: seq<Action>)
    requires SysInv(dev, before, w, hosts)
    ensures Carried(w, Run(dev, w, actions), hosts)
    decreases |actions|
  {
    assert ValidDevice(dev) && WorldOk(w) && |hosts| == 2;
    hide SysInv, Step, WorldOk, ValidDevice, IoReady;
    if actions != [] {
      hide Carried;
      var v := Step(dev, w, actions[0]);
      StepCarries(dev, before, w, hosts, actions[0]);
      StepKeeps(dev, before, w, hosts, actions[0]);
      RunCarries(dev, before, v, hosts, actions[1..]);
      CarriedThrough(w, v, Run(dev, v, actions[1..]), hosts);
    }
  }

  lemma TickCarries(dev: Device, before: seq<U8>, sched: Schedule, w: World, hosts: seq<HostQueue>)
    requires SysInv(dev, before, w, hosts)
    ensures Carried(w, Tick(dev, sched, w), hosts)
  {
    hide QueueInv, CommandsOk, ListsOk, Provenance, QueuesInOrder, NoCreates;
    RunCarries(dev, before, w, hosts, sched(w.clock));
  }
}
