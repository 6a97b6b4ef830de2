/**
 What a transfer does although earlier commands are still outstanding. A command that timed out may run at any
 later moment, through the same data area. If every outstanding one is a bystander, a Write of other blocks or of
 the same start, a successful call has still done exactly what it says.
 */
module Calm {
  import opened Bytes
  import opened NvmeSpec
  import opened DmaLayout
  import opened Ring
  import opened Controller
  import opened System
  import opened Submit
  import opened Delivery
  import opened Effect

  // --- who may disturb a transfer ---------------------------------------------------------------------------------

  /** What is transferred: to the medium or from it, and which bytes. */
  datatype Goal = Goal(writes: bool, start: nat, length: nat)

  function GoalOf(dev: Device, e: Sqe): Goal {
    Goal(e.opc == OP_WRITE, MediaStart(dev, e), MediaLength(dev, e))
  }

  predicate Apart(dev: Device, g: Goal, e: Sqe) {
    MediaStart(dev, e) + MediaLength(dev, e) <= g.start || g.start + g.length <= MediaStart(dev, e)
  }

  /**
   A command that transfers nothing, or writes blocks the goal does not name; a goal that writes does not mind a
   Write from the same start either, for that stores the same bytes.
   */
  predicate Bystander(dev: Device, media: seq<U8>, g: Goal, q: nat, e: Sqe) {
    || TransferLength(dev, media, q, e) == 0
    || (IsWrite(q, e) && (Apart(dev, g, e) || (g.writes && MediaStart(dev, e) == g.start)))
  }

  /** Submission `m` is in flight, or may still be fetched. */
  predicate Outstanding(c: CtlQueue, count: nat, m: nat) {
    m < count && (NextOrigin(c) <= m || exists k :: k in c.jobs && k < |c.origins| && c.origins[k] == m)
  }

  /** Every outstanding command of a queue is a bystander, except the goal's own, number `n` of the I/O queue. */
  predicate QueueCalm(dev: Device, media: seq<U8>, g: Goal, c: CtlQueue, submitted: seq<Sqe>, q: nat, n: nat) {
    forall m :: 0 <= m < |submitted| && Outstanding(c, |submitted|, m) ==>
      (q == 1 && m == n) || Bystander(dev, media, g, q, submitted[m])
  }

  predicate Undisturbed(dev: Device, c: Ctl, hosts: seq<HostQueue>, g: Goal, n: nat)
    requires |c.queues| == |hosts| == 2
  {
    && QueueCalm(dev, c.media, g, c.queues[0], hosts[0].submitted, 0, n)
    && QueueCalm(dev, c.media, g, c.queues[1], hosts[1].submitted, 1, n)
  }

  lemma SameBystander(dev: Device, media0: seq<U8>, media: seq<U8>, g: Goal, q: nat, e: Sqe)
    requires |media0| == |media|
    ensures Bystander(dev, media0, g, q, e) == Bystander(dev, media, g, q, e)
  {
    SameLength(dev, media0, media, q, e);
    hide TransferLength, MediaStart, MediaLength;
  }

  /** Nothing new becomes outstanding by itself. */
  lemma CalmLater(dev: Device, media0: seq<U8>, media: seq<U8>, g: Goal, c: CtlQueue, d: CtlQueue,
                  submitted: seq<Sqe>, q: nat, n: nat)
    requires QueueCalm(dev, media0, g, c, submitted, q, n) && |media0| == |media|
    requires Descends(c, d) && NumbersOk(c)
    ensures QueueCalm(dev, media, g, d, submitted, q, n)
  {
    hide Bystander, NextOrigin;
    forall m: nat | Outstanding(d, |submitted|, m)
      ensures (q == 1 && m == n) || Bystander(dev, media, g, q, submitted[m])
    {
      SameBystander(dev, media0, media, g, q, submitted[m]);
      if NextOrigin(d) > m {
        var k :| k in d.jobs && k < |d.origins| && d.origins[k] == m;
        assert FromJobOrLater(c, d, k);
      }
      assert Outstanding(c, |submitted|, m);
    }
  }

  lemma CalmStored(dev: Device, media: seq<U8>, g: Goal, c: CtlQueue, submitted: seq<Sqe>, e: Sqe)
    requires QueueCalm(dev, media, g, c, submitted, 1, |submitted|)
    ensures QueueCalm(dev, media, g, c, submitted + [e], 1, |submitted|)
  {
    hide Bystander, NextOrigin;
    forall m: nat | Outstanding(c, |submitted| + 1, m) && m != |submitted|
      ensures Bystander(dev, media, g, 1, (submitted + [e])[m])
    {
      assert Outstanding(c, |submitted|, m);
    }
  }

  // --- the data ---------------------------------------------------------------------------------------------------

  /** What the goal depends on is as it was: the payload in the data area, or the blocks to be read. */
  predicate Sane(g: Goal, s: Start, media: seq<U8>, mem: seq<U8>)
    requires |s.mem| == |mem| == HUGE_PAGE_SIZE && g.length <= MAX_TRANSFER_BYTES
  {
    && |media| == |s.media|
    && if g.writes then SameIn(s.mem, mem, DATA_OFFSET, DATA_OFFSET + g.length)
       else forall x: nat :: g.start <= x < g.start + g.length && x < |media| ==> media[x] == s.media[x]
  }

  /** Byte `b` is where it should go. */
  predicate HeldAt(g: Goal, s: Start, media: seq<U8>, mem: seq<U8>, b: nat)
    requires |s.mem| == |mem| == HUGE_PAGE_SIZE && b < MAX_TRANSFER_BYTES && |media| == |s.media|
  {
    g.start + b < |media| ==>
      if g.writes then media[g.start + b] == s.mem[DATA_OFFSET + b] else mem[DATA_OFFSET + b] == s.media[g.start + b]
  }

  predicate Held(g: Goal, s: Start, media: seq<U8>, mem: seq<U8>, moved: set<nat>)
    requires |s.mem| == |mem| == HUGE_PAGE_SIZE && g.length <= MAX_TRANSFER_BYTES && |media| == |s.media|
  {
    forall b: nat :: b in moved && b < g.length ==> HeldAt(g, s, media, mem, b)
  }

  /** A change that spoils nothing. */
  predicate Spares(g: Goal, s: Start, media: seq<U8>, mem: seq<U8>, media2: seq<U8>, mem2: seq<U8>)
    requires |s.mem| == |mem| == |mem2| == HUGE_PAGE_SIZE && g.length <= MAX_TRANSFER_BYTES && |media| == |s.media|
  {
    && Sane(g, s, media2, mem2)
    && forall b: nat :: b < g.length && HeldAt(g, s, media, mem, b) ==> HeldAt(g, s, media2, mem2, b)
  }

  /** The goal's own command, in flight or answered: what it has moved is right, and success means all of it. */
  predicate OwnWork(g: Goal, s: Start, c: CtlQueue, media: seq<U8>, mem: seq<U8>, n: nat)
    requires |s.mem| == |mem| == HUGE_PAGE_SIZE && g.length <= MAX_TRANSFER_BYTES && |media| == |s.media|
  {
    && (forall k :: k in c.jobs && k < |c.origins| && c.origins[k] == n ==> Held(g, s, media, mem, c.jobs[k].moved))
    && (forall m :: 0 <= m < |c.posted| && Answers(c, c.posted[m], n) ==> OwnPosting(g, s, media, mem, c.posted[m]))
  }

  predicate OwnPosting(g: Goal, s: Start, media: seq<U8>, mem: seq<U8>, p: Posting)
    requires |s.mem| == |mem| == HUGE_PAGE_SIZE && g.length <= MAX_TRANSFER_BYTES && |media| == |s.media|
  {
    && Held(g, s, media, mem, p.moved)
    && (IsSuccess(p.cqe) ==> AllMoved(p.moved, g.length) && g.start + g.length <= |media|)
  }

  lemma HeldSpared(g: Goal, s: Start, media: seq<U8>, mem: seq<U8>, media2: seq<U8>, mem2: seq<U8>, moved: set<nat>)
    requires |s.mem| == |mem| == |mem2| == HUGE_PAGE_SIZE && g.length <= MAX_TRANSFER_BYTES && |media| == |s.media|
    requires Spares(g, s, media, mem, media2, mem2) && Held(g, s, media, mem, moved)
    ensures Held(g, s, media2, mem2, moved)
  {
    hide HeldAt;
  }

  /** With the same work, a change that spoils nothing leaves the own work right. */
  lemma OwnSpared(g: Goal, s: Start, c: CtlQueue, d: CtlQueue, media: seq<U8>, mem: seq<U8>, media2: seq<U8>,
                  mem2: seq<U8>, n: nat)
    requires |s.mem| == |mem| == |mem2| == HUGE_PAGE_SIZE && g.length <= MAX_TRANSFER_BYTES && |media| == |s.media|
    requires |media2| == |s.media| && Spares(g, s, media, mem, media2, mem2) && OwnWork(g, s, c, media, mem, n)
    requires d.jobs == c.jobs && d.origins == c.origins && d.posted == c.posted
    ensures OwnWork(g, s, d, media2, mem2, n)
  {
    hide Held, Spares, IsSuccess, AllMoved;
    forall k | k in d.jobs && k < |d.origins| && d.origins[k] == n
      ensures Held(g, s, media2, mem2, d.jobs[k].moved)
    {
      HeldSpared(g, s, media, mem, media2, mem2, d.jobs[k].moved);
    }
    forall m | 0 <= m < |d.posted| && Answers(d, d.posted[m], n)
      ensures OwnPosting(g, s, media2, mem2, d.posted[m])
    {
      assert Answers(c, c.posted[m], n);
      HeldSpared(g, s, media, mem, media2, mem2, d.posted[m].moved);
    }
  }

  lemma MemorySpares(g: Goal, s: Start, media: seq<U8>, mem: seq<U8>, mem2: seq<U8>)
    requires |s.mem| == |mem| == |mem2| == HUGE_PAGE_SIZE && g.length <= MAX_TRANSFER_BYTES
    requires Sane(g, s, media, mem) && SameIn(mem, mem2, DATA_OFFSET, HUGE_PAGE_SIZE)
    ensures Spares(g, s, media, mem, media, mem2)
  {
  }

  /** A byte stored on the medium: elsewhere, or from the payload to its own place. */
  lemma StoreSpares(g: Goal, s: Start, media: seq<U8>, mem: seq<U8>, x: nat, v: U8)
    requires |s.mem| == |mem| == HUGE_PAGE_SIZE && g.length <= MAX_TRANSFER_BYTES && Sane(g, s, media, mem)
    requires x < |media|
    requires g.start <= x < g.start + g.length ==> g.writes && v == s.mem[DATA_OFFSET + x - g.start]
    ensures Spares(g, s, media, mem, media[x := v], mem)
    ensures g.writes && g.start <= x < g.start + g.length ==> HeldAt(g, s, media[x := v], mem, x - g.start)
  {
  }

  /** A byte delivered to its own place. */
  lemma DeliverySpares(g: Goal, s: Start, media: seq<U8>, mem: seq<U8>, b: nat)
    requires |s.mem| == |mem| == HUGE_PAGE_SIZE && g.length <= MAX_TRANSFER_BYTES && Sane(g, s, media, mem)
    requires !g.writes && b < g.length && g.start + b < |media|
    ensures var mem2 := WriteAt(mem, DATA_OFFSET + b, [media[g.start + b]]);
      Spares(g, s, media, mem, media, mem2) && HeldAt(g, s, media, mem2, b)
  {
  }

  // --- the invariant of a call -----------------------------------------------------------------------------------

  predicate CalmFits(dev: Device, s: Start, g: Goal, e: Sqe) {
    && |s.mem| == HUGE_PAGE_SIZE && g == GoalOf(dev, e) && g.length <= MAX_TRANSFER_BYTES
    && (e.opc == OP_READ || e.opc == OP_WRITE)
  }

  predicate CalmInv(dev: Device, s: Start, w: World, hosts: seq<HostQueue>, g: Goal, n: nat, e: Sqe)
    requires WorldOk(w) && |hosts| == 2 && CalmFits(dev, s, g, e)
  {
    && Undisturbed(dev, w.ctl, hosts, g, n)
    && Sane(g, s, w.ctl.media, w.mem) && OwnWork(g, s, w.ctl.queues[1], w.ctl.media, w.mem, n)
    && (|hosts[1].submitted| > n ==> hosts[1].submitted[n] == e)
  }

  lemma JobOrigin(mem: seq<U8>, base: nat, h: HostQueue, c: CtlQueue, q: nat, k: nat)
    requires |mem| == HUGE_PAGE_SIZE && q < 2 && QueueInv(mem, base, h, c, q) && k in c.jobs
    ensures FetchedAs(h.submitted, c.origins, k, c.jobs[k].sqe)
  {
    hide SqView, CqView, OriginsOk, HostOk, PointersOk, SqHolds, CqHolds, PostsOk;
  }

  /** Whoever is at work is a bystander, or the call's own command. */
  lemma WhoseJob(dev: Device, before: seq<U8>, s: Start, w: World, hosts: seq<HostQueue>, g: Goal, n: nat, e: Sqe,
                 q: nat, k: nat)
    requires SysInv(dev, before, w, hosts) && CalmFits(dev, s, g, e) && CalmInv(dev, s, w, hosts, g, n, e)
    requires q < 2 && k in w.ctl.queues[q].jobs
    ensures k < |w.ctl.queues[q].origins|
    ensures var c := w.ctl.queues[q];
      if q == 1 && c.origins[k] == n then c.jobs[k].sqe == e else Bystander(dev, w.ctl.media, g, q, c.jobs[k].sqe)
  {
    QueueOf(dev, before, w, hosts, q);
    hide SysInv, QueueInv, Bystander, OwnWork, Sane;
    JobOrigin(w.mem, w.base, hosts[q], w.ctl.queues[q], q, k);
    assert Outstanding(w.ctl.queues[q], |hosts[q].submitted|, w.ctl.queues[q].origins[k]);
  }

  /** Later work leaves the outside world calm. */
  lemma StillUndisturbed(dev: Device, before: seq<U8>, w: World, v: World, hosts: seq<HostQueue>, g: Goal, n: nat)
    requires SysInv(dev, before, w, hosts) && WorldOk(v) && |v.ctl.media| == |w.ctl.media|
    requires Undisturbed(dev, w.ctl, hosts, g, n)
    requires Descends(w.ctl.queues[0], v.ctl.queues[0]) && Descends(w.ctl.queues[1], v.ctl.queues[1])
    ensures Undisturbed(dev, v.ctl, hosts, g, n)
  {
    PointerFacts(dev, before, w, hosts, 0);
    PointerFacts(dev, before, w, hosts, 1);
    hide SysInv, Descends, QueueCalm, NumbersOk, OriginsOk;
    CalmLater(dev, w.ctl.media, v.ctl.media, g, w.ctl.queues[0], v.ctl.queues[0], hosts[0].submitted, 0, n);
    CalmLater(dev, w.ctl.media, v.ctl.media, g, w.ctl.queues[1], v.ctl.queues[1], hosts[1].submitted, 1, n);
  }

  lemma StepUndisturbed(dev: Device, before: seq<U8>, w: World, hosts: seq<HostQueue>, g: Goal, n: nat, a: Action)
    requires SysInv(dev, before, w, hosts) && Undisturbed(dev, w.ctl, hosts, g, n)
    ensures Undisturbed(dev, Step(dev, w, a).ctl, hosts, g, n)
  {
    ShapeOf(dev, before, w, hosts);
    SelfDescends(dev, before, w, hosts, 0);
    SelfDescends(dev, before, w, hosts, 1);
    hide SysInv, Descends, Step, Undisturbed, ValidDevice;
    StepDescends(dev, before, w, hosts, 0, w.ctl.queues[0], a);
    StepDescends(dev, before, w, hosts, 1, w.ctl.queues[1], a);
    StillUndisturbed(dev, before, w, Step(dev, w, a), hosts, g, n);
  }

  lemma SelfDescends(dev: Device, before: seq<U8>, w: World, hosts: seq<HostQueue>, q: nat)
    requires SysInv(dev, before, w, hosts) && q < 2
    ensures Descends(w.ctl.queues[q], w.ctl.queues[q])
  {
    PointerFacts(dev, before, w, hosts, q);
    hide SysInv, Descends, OriginsOk;
    DescendsSelf(w.ctl.queues[q]);
  }

  // --- controller actions ----------------------------------------------------------------------------------------

  lemma FetchOwn(g: Goal, s: Start, c: CtlQueue, x: Sqe, media: seq<U8>, mem: seq<U8>, n: nat)
    requires |s.mem| == |mem| == HUGE_PAGE_SIZE && g.length <= MAX_TRANSFER_BYTES && |media| == |s.media|
    requires OwnWork(g, s, c, media, mem, n) && NumbersOk(c) && |c.origins| == c.fetched && c.sqSize > 0
    ensures OwnWork(g, s, Fetched(c, x), media, mem, n)
  {
    hide HeldAt, IsSuccess, NextOrigin, OwnPosting;
    var d := Fetched(c, x);
    forall m | 0 <= m < |d.posted| && Answers(d, d.posted[m], n)
      ensures OwnPosting(g, s, media, mem, d.posted[m])
    {
      assert Answers(c, c.posted[m], n);
    }
  }

  lemma FetchChanges(w: World, q: nat) returns (e: Sqe)
    requires WorldOk(w) && FetchEnabled(w, q)
    ensures q < 2 && w.ctl.queues[q].sqSize > 0
    ensures var v := DoFetch(w, q);
      && v.mem == w.mem && v.ctl.media == w.ctl.media && |v.ctl.queues| == 2
      && v.ctl.queues[q] == Fetched(w.ctl.queues[q], e)
      && (q == 0 ==> v.ctl.queues[1] == w.ctl.queues[1])
  {
    hide DecodeSqe, ReadAt, Fetched, Live;
    e := DecodeSqe(ReadAt(w.mem, FetchAddress(w, q) - w.base, SQE_SIZE));
  }

  lemma FetchCalm(dev: Device, before: seq<U8>, s: Start, w: World, hosts: seq<HostQueue>, g: Goal, n: nat, e: Sqe,
                  q: nat)
    requires SysInv(dev, before, w, hosts) && CalmFits(dev, s, g, e) && CalmInv(dev, s, w, hosts, g, n, e)
    requires FetchEnabled(w, q)
    ensures var v := DoFetch(w, q);
      Sane(g, s, v.ctl.media, v.mem) && OwnWork(g, s, v.ctl.queues[1], v.ctl.media, v.mem, n)
  {
    hide SysInv, CalmInv, OwnWork, Sane, OriginsOk, NumbersOk, CalmFits, Fetched, FetchEnabled, DoFetch,
         ValidDevice;
    ShapeOf(dev, before, w, hosts);
    PointerFacts(dev, before, w, hosts, 1);
    PartsOf(dev, s, w, hosts, g, n, e);
    var found := FetchChanges(w, q);
    if q == 1 {
      FetchOwn(g, s, w.ctl.queues[1], found, w.ctl.media, w.mem, n);
    }
  }

  /** One moved byte spoils nothing, and one of the call's own is then right. */
  lemma MoveSpares(dev: Device, before: seq<U8>, s: Start, w: World, hosts: seq<HostQueue>, g: Goal, n: nat, e: Sqe,
                   q: nat, k: nat, b: nat)
    requires SysInv(dev, before, w, hosts) && CalmFits(dev, s, g, e) && CalmInv(dev, s, w, hosts, g, n, e)
    requires MoveEnabled(dev, w, q, k, b)
    ensures var v, c := DoMove(dev, w, q, k, b), w.ctl.queues[q];
      && Spares(g, s, w.ctl.media, w.mem, v.ctl.media, v.mem) && k < |c.origins|
      && (q == 1 && c.origins[k] == n ==> b < g.length && HeldAt(g, s, v.ctl.media, v.mem, b))
  {
    WhoseJob(dev, before, s, w, hosts, g, n, e, q, k);
    MoveLandsInData(dev, w, hosts[q], q, k, b);
    hide SysInv, OwnWork, Undisturbed, CalmInv, MoveAddress, Live, Spares, Sane, HeldAt;
    var c := w.ctl.queues[q];
    var job := c.jobs[k].sqe;
    PartsOf(dev, s, w, hosts, g, n, e);
    if q == 1 && c.origins[k] == n && !g.writes {
      OwnReadMoves(dev, s, w, g, e, k, b);
    } else {
      WriteMovesOnly(dev, s, w, g, e, q, k, b);
    }
  }

  lemma PartsOf(dev: Device, s: Start, w: World, hosts: seq<HostQueue>, g: Goal, n: nat, e: Sqe)
    requires WorldOk(w) && |hosts| == 2 && CalmFits(dev, s, g, e) && CalmInv(dev, s, w, hosts, g, n, e)
    ensures |s.mem| == HUGE_PAGE_SIZE && g.length <= MAX_TRANSFER_BYTES && |w.ctl.media| == |s.media|
    ensures Sane(g, s, w.ctl.media, w.mem) && OwnWork(g, s, w.ctl.queues[1], w.ctl.media, w.mem, n)
  {
    hide OwnWork, Undisturbed;
  }

  lemma OwnReadMoves(dev: Device, s: Start, w: World, g: Goal, e: Sqe, k: nat, b: nat)
    requires ValidDevice(dev) && WorldOk(w) && CalmFits(dev, s, g, e) && Sane(g, s, w.ctl.media, w.mem) && !g.writes
    requires MoveEnabled(dev, w, 1, k, b) && w.ctl.queues[1].jobs[k].sqe == e && b < MAX_TRANSFER_BYTES
    requires MoveAddress(dev, w, 1, k, b) == w.base + DATA_OFFSET + b
    ensures var v := DoMove(dev, w, 1, k, b);
      && Spares(g, s, w.ctl.media, w.mem, v.ctl.media, v.mem)
      && b < g.length && HeldAt(g, s, v.ctl.media, v.mem, b)
  {
    hide MoveAddress, Live, Spares, Sane, HeldAt, MediaStart, MediaLength, WriteAt, ValidDevice;
    DeliverySpares(g, s, w.ctl.media, w.mem, b);
  }

  /** Any other move is a Write's: elsewhere, or of the payload from the same start. */
  lemma WriteMovesOnly(dev: Device, s: Start, w: World, g: Goal, e: Sqe, q: nat, k: nat, b: nat)
    requires ValidDevice(dev) && WorldOk(w) && CalmFits(dev, s, g, e) && Sane(g, s, w.ctl.media, w.mem)
    requires MoveEnabled(dev, w, q, k, b) && b < MAX_TRANSFER_BYTES
    requires MoveAddress(dev, w, q, k, b) == w.base + DATA_OFFSET + b
    requires var job := w.ctl.queues[q].jobs[k].sqe;
      (q == 1 && job == e && g.writes) || Bystander(dev, w.ctl.media, g, q, job)
    ensures var v := DoMove(dev, w, q, k, b);
      && Spares(g, s, w.ctl.media, w.mem, v.ctl.media, v.mem)
      && (q == 1 && w.ctl.queues[q].jobs[k].sqe == e && g.writes ==>
            b < g.length && HeldAt(g, s, v.ctl.media, v.mem, b))
  {
    var job := w.ctl.queues[q].jobs[k].sqe;
    var x := MediaStart(dev, job) + b;
    WriteByteInRange(dev, w.ctl.media, q, job, b);
    PayloadByte(g, s, w.ctl.media, w.mem, b);
    hide MoveAddress, Live, Spares, Sane, HeldAt, MediaStart, MediaLength, ValidDevice, TransferLength;
    StoreSpares(g, s, w.ctl.media, w.mem, x, w.mem[DATA_OFFSET + b]);
  }

  lemma PayloadByte(g: Goal, s: Start, media: seq<U8>, mem: seq<U8>, b: nat)
    requires |s.mem| == |mem| == HUGE_PAGE_SIZE && g.length <= MAX_TRANSFER_BYTES && Sane(g, s, media, mem)
    requires b < MAX_TRANSFER_BYTES
    ensures g.writes && b < g.length ==> mem[DATA_OFFSET + b] == s.mem[DATA_OFFSET + b]
  {
  }

  lemma MovedOwn(g: Goal, s: Start, c: CtlQueue, media: seq<U8>, mem: seq<U8>, n: nat, k: nat, b: nat)
    requires |s.mem| == |mem| == HUGE_PAGE_SIZE && g.length <= MAX_TRANSFER_BYTES && |media| == |s.media|
    requires OwnWork(g, s, c, media, mem, n) && k in c.jobs
    requires k < |c.origins| && c.origins[k] == n ==> b < g.length && HeldAt(g, s, media, mem, b)
    ensures OwnWork(g, s, Moved(c, k, b), media, mem, n)
  {
    hide HeldAt, OwnPosting;
    var d := Moved(c, k, b);
    forall m | 0 <= m < |d.posted| && Answers(d, d.posted[m], n)
      ensures OwnPosting(g, s, media, mem, d.posted[m])
    {
      assert Answers(c, c.posted[m], n);
    }
  }

  lemma MoveCalm(dev: Device, before: seq<U8>, s: Start, w: World, hosts: seq<HostQueue>, g: Goal, n: nat, e: Sqe,
                 q: nat, k: nat, b: nat)
    requires SysInv(dev, before, w, hosts) && CalmFits(dev, s, g, e) && CalmInv(dev, s, w, hosts, g, n, e)
    requires MoveEnabled(dev, w, q, k, b)
    ensures var v := DoMove(dev, w, q, k, b);
      Sane(g, s, v.ctl.media, v.mem) && OwnWork(g, s, v.ctl.queues[1], v.ctl.media, v.mem, n)
  {
    MoveSpares(dev, before, s, w, hosts, g, n, e, q, k, b);
    hide SysInv, OwnWork, Undisturbed, MoveAddress, Live, Sane, HeldAt, TransferLength, WriteAt, SourceByte,
         MediaStart, CalmFits, Moved;
    var v, c := DoMove(dev, w, q, k, b), w.ctl.queues[1];
    OwnSpared(g, s, c, c, w.ctl.media, w.mem, v.ctl.media, v.mem, n);
    if q == 1 {
      MovedOwn(g, s, c, v.ctl.media, v.mem, n, k, b);
    }
  }

  lemma PostedOwn(g: Goal, s: Start, c: CtlQueue, media: seq<U8>, mem: seq<U8>, n: nat, k: nat, cqe: Cqe)
    requires |s.mem| == |mem| == HUGE_PAGE_SIZE && g.length <= MAX_TRANSFER_BYTES && |media| == |s.media|
    requires OwnWork(g, s, c, media, mem, n) && CanPost(c, k)
    requires k < |c.origins| && c.origins[k] == n && IsSuccess(cqe) ==>
      AllMoved(c.jobs[k].moved, g.length) && g.start + g.length <= |media|
    ensures OwnWork(g, s, Posted(c, k, cqe), media, mem, n)
  {
    hide Held, IsSuccess, AllMoved;
    var d := Posted(c, k, cqe);
    forall m | 0 <= m < |d.posted| && Answers(d, d.posted[m], n)
      ensures OwnPosting(g, s, media, mem, d.posted[m])
    {
      if m < |c.posted| {
        assert Answers(c, c.posted[m], n);
      }
    }
  }

  /** A success status for the call's own command means that every byte has been moved. */
  lemma OwnSuccess(dev: Device, s: Start, c: Ctl, g: Goal, e: Sqe, job: Job)
    requires |c.queues| == 2 && CalmFits(dev, s, g, e) && job.sqe == e && MaySucceed(dev, c, 1, job)
    ensures AllMoved(job.moved, g.length) && g.start + g.length <= |c.media|
  {
    hide MediaStart, MediaLength;
  }

  lemma PostCalm(dev: Device, before: seq<U8>, s: Start, w: World, hosts: seq<HostQueue>, g: Goal, n: nat, e: Sqe,
                 q: nat, k: nat, bits: nat, result: U32)
    requires SysInv(dev, before, w, hosts) && CalmFits(dev, s, g, e) && CalmInv(dev, s, w, hosts, g, n, e)
    requires PostEnabled(dev, w, q, k, bits, result)
    ensures var v := DoPost(dev, w, q, k, bits, result);
      Sane(g, s, v.ctl.media, v.mem) && OwnWork(g, s, v.ctl.queues[1], v.ctl.media, v.mem, n)
  {
    WhoseJob(dev, before, s, w, hosts, g, n, e, q, k);
    PostKeepsData(dev, before, w, hosts, q, k, bits, result);
    hide SysInv, OwnWork, Undisturbed, Live, Sane, CalmFits, Posted, MaySucceed, InRegion, EncodeCqe, WriteAt,
         CompletionOf, IsSuccess, Bystander, CanPost, PostAddress;
    var v, c := DoPost(dev, w, q, k, bits, result), w.ctl.queues[1];
    MemorySpares(g, s, w.ctl.media, w.mem, v.mem);
    OwnSpared(g, s, c, c, w.ctl.media, w.mem, v.ctl.media, v.mem, n);
    var entry := PostEntry(w, q, k, bits, result);
    if q == 1 {
      if c.origins[k] == n && IsSuccess(entry) {
        OwnSuccess(dev, s, w.ctl, g, e, c.jobs[k]);
      }
      PostedOwn(g, s, c, v.ctl.media, v.mem, n, k, entry);
    } else {
      SameOwn(g, s, c, v.ctl.queues[1], v.ctl.media, v.mem, n);
    }
  }

  lemma SameOwn(g: Goal, s: Start, c: CtlQueue, d: CtlQueue, media: seq<U8>, mem: seq<U8>, n: nat)
    requires |s.mem| == |mem| == HUGE_PAGE_SIZE && g.length <= MAX_TRANSFER_BYTES && |media| == |s.media|
    requires OwnWork(g, s, c, media, mem, n)
    requires d.jobs == c.jobs && d.origins == c.origins && d.posted == c.posted
    ensures OwnWork(g, s, d, media, mem, n)
  {
    hide Held, OwnPosting;
    forall m | 0 <= m < |d.posted| && Answers(d, d.posted[m], n)
      ensures OwnPosting(g, s, media, mem, d.posted[m])
    {
      assert Answers(c, c.posted[m], n);
    }
  }

  /** A posting leaves the data area and the medium alone, and the I/O queue's work if it is the admin queue's. */
  lemma PostKeepsData(dev: Device, before: seq<U8>, w: World, hosts: seq<HostQueue>, q: nat, k: nat, bits: nat,
                      result: U32)
    requires SysInv(dev, before, w, hosts) && PostEnabled(dev, w, q, k, bits, result)
    ensures var v := DoPost(dev, w, q, k, bits, result);
      && v.ctl.media == w.ctl.media && SameIn(w.mem, v.mem, DATA_OFFSET, HUGE_PAGE_SIZE)
      && (q == 0 ==>
            var c, d := w.ctl.queues[1], v.ctl.queues[1];
            d.jobs == c.jobs && d.origins == c.origins && d.posted == c.posted)
      && (q == 1 ==> v.ctl.queues[1] == Posted(w.ctl.queues[1], k, PostEntry(w, q, k, bits, result)))
  {
    hide RingInv, QueueInv, CommandsOk, ListsOk, NoCreates, TouchedOk, Provenance, TransferLength, Live, EncodeCqe,
         WriteAt, CompletionOf, PostAddress, InRegion, Phase, IsSuccess, QueueSizeOf, Posted;
    PostedQueues(w, hosts, q, k, PostEntry(w, q, k, bits, result));
  }

  lemma StepCalm(dev: Device, before: seq<U8>, s: Start, w: World, hosts: seq<HostQueue>, g: Goal, n: nat, e: Sqe,
                 a: Action)
    requires SysInv(dev, before, w, hosts) && CalmFits(dev, s, g, e) && CalmInv(dev, s, w, hosts, g, n, e)
    ensures CalmInv(dev, s, Step(dev, w, a), hosts, g, n, e)
  {
    ShapeOf(dev, before, w, hosts);
    StepUndisturbed(dev, before, w, hosts, g, n, a);
    hide SysInv, OwnWork, Undisturbed, Sane, CalmFits, FetchEnabled, MoveEnabled, PostEnabled, AlterEnabled,
         DoFetch, DoMove, DoPost, DoAlter, ValidDevice;
    match a
    case BecomeReady =>
    case BecomeIdle =>
    case FailFatally =>
    case Fetch(r) => if FetchEnabled(w, r) { FetchCalm(dev, before, s, w, hosts, g, n, e, r); }
    case Move(r, k, b) => if MoveEnabled(dev, w, r, k, b) { MoveCalm(dev, before, s, w, hosts, g, n, e, r, k, b); }
    case Post(r, k, bits, result) =>
      if PostEnabled(dev, w, r, k, bits, result) { PostCalm(dev, before, s, w, hosts, g, n, e, r, k, bits, result); }
    case Alter(r, k, x, v) => NeverAlters(dev, before, w, hosts, r, k, x);
  }

  lemma {:induction false} RunCalm(dev: Device, before: seq<U8>, s: Start, w: World, hosts: seq<HostQueue>, g: Goal,
                                   n: nat, e: Sqe, actions: seq<Action>)
    requires SysInv(dev, before, w, hosts) && CalmFits(dev, s, g, e) && CalmInv(dev, s, w, hosts, g, n, e)
    ensures CalmInv(dev, s, Run(dev, w, actions), hosts, g, n, e)
    decreases |actions|
  {
    ShapeOf(dev, before, w, hosts);
    hide SysInv, Step, WorldOk, ValidDevice, CalmInv, CalmFits;
    if actions != [] {
      StepCalm(dev, before, s, w, hosts, g, n, e, actions[0]);
      StepKeeps(dev, before, w, hosts, actions[0]);
      RunCalm(dev, before, s, Step(dev, w, actions[0]), hosts, g, n, e, actions[1..]);
    }
  }

  lemma TickCalm(dev: Device, before: seq<U8>, sched: Schedule, s: Start, w: World, hosts: seq<HostQueue>, g: Goal,
                 n: nat, e: Sqe)
    requires SysInv(dev, before, w, hosts) && CalmFits(dev, s, g, e) && CalmInv(dev, s, w, hosts, g, n, e)
    ensures CalmInv(dev, s, Tick(dev, sched, w), hosts, g, n, e)
  {
    ShapeOf(dev, before, w, hosts);
    hide SysInv, CalmFits, OwnWork, Undisturbed, Sane, ValidDevice;
    RunCalm(dev, before, s, w, hosts, g, n, e, sched(w.clock));
  }

  // --- host steps --------------------------------------------------------------------------------------------------

  /** What the host itself does outside the data area. */
  lemma HostCalm(dev: Device, s: Start, w: World, v: World, hosts: seq<HostQueue>, later: seq<HostQueue>, g: Goal,
                 n: nat, e: Sqe)
    requires WorldOk(w) && WorldOk(v) && |hosts| == |later| == 2 && CalmFits(dev, s, g, e)
    requires CalmInv(dev, s, w, hosts, g, n, e) && Undisturbed(dev, v.ctl, later, g, n)
    requires SameIn(w.mem, v.mem, DATA_OFFSET, HUGE_PAGE_SIZE) && v.ctl.media == w.ctl.media
    requires var c, d := w.ctl.queues[1], v.ctl.queues[1];
      d.jobs == c.jobs && d.origins == c.origins && d.posted == c.posted
    requires |later[1].submitted| > n ==> later[1].submitted[n] == e
    ensures CalmInv(dev, s, v, later, g, n, e)
  {
    PartsOf(dev, s, w, hosts, g, n, e);
    hide OwnWork, Undisturbed, Sane, Spares, CalmFits;
    MemorySpares(g, s, w.ctl.media, w.mem, v.mem);
    SanityOf(g, s, w.ctl.media, w.mem, v.ctl.media, v.mem);
    OwnSpared(g, s, w.ctl.queues[1], v.ctl.queues[1], w.ctl.media, w.mem, v.ctl.media, v.mem, n);
  }

  lemma SanityOf(g: Goal, s: Start, media: seq<U8>, mem: seq<U8>, media2: seq<U8>, mem2: seq<U8>)
    requires |s.mem| == |mem| == |mem2| == HUGE_PAGE_SIZE && g.length <= MAX_TRANSFER_BYTES && |media| == |s.media|
    requires Spares(g, s, media, mem, media2, mem2)
    ensures Sane(g, s, media2, mem2)
  {
  }

  lemma CalmBegins(dev: Device, before: seq<U8>, s: Start, w: World, hosts: seq<HostQueue>, g: Goal, e: Sqe)
    requires SysInv(dev, before, w, hosts) && CalmFits(dev, s, g, e) && Sane(g, s, w.ctl.media, w.mem)
    requires Undisturbed(dev, w.ctl, hosts, g, |hosts[1].submitted|)
    ensures CalmInv(dev, s, w, hosts, g, |hosts[1].submitted|, e)
  {
    PointerFacts(dev, before, w, hosts, 1);
    hide SysInv, Undisturbed, Sane, Held, OwnPosting, NextOrigin;
  }

  lemma StoreUndisturbed(dev: Device, w: World, hosts: seq<HostQueue>, g: Goal, h: HostQueue, e: Sqe)
    requires WorldOk(w) && |hosts| == 2 && Undisturbed(dev, w.ctl, hosts, g, |hosts[1].submitted|)
    requires h.submitted == hosts[1].submitted + [e]
    ensures Undisturbed(dev, w.ctl, hosts[1 := h], g, |hosts[1].submitted|)
  {
    hide QueueCalm;
    CalmStored(dev, w.ctl.media, g, w.ctl.queues[1], hosts[1].submitted, e);
  }

  /** Doorbells make nothing new outstanding. */
  lemma DoorbellUndisturbed(dev: Device, before: seq<U8>, w: World, v: World, hosts: seq<HostQueue>,
                            later: seq<HostQueue>, g: Goal, n: nat)
    requires SysInv(dev, before, w, hosts) && Undisturbed(dev, w.ctl, hosts, g, n)
    requires |later| == 2 && later[0] == hosts[0] && later[1].submitted == hosts[1].submitted
    requires WorldOk(v) && v.ctl.media == w.ctl.media && v.ctl.queues[0] == w.ctl.queues[0]
    requires var c, d := w.ctl.queues[1], v.ctl.queues[1];
      d.jobs == c.jobs && d.origins == c.origins && d.posted == c.posted && NextOrigin(c) <= NextOrigin(d)
    ensures Undisturbed(dev, v.ctl, later, g, n)
  {
    ShapeOf(dev, before, w, hosts);
    SelfDescends(dev, before, w, hosts, 0);
    SelfDescends(dev, before, w, hosts, 1);
    hide SysInv, Descends, QueueCalm, ValidDevice, NextOrigin;
    SameWorkDescends(w.ctl.queues[1], w.ctl.queues[1], v.ctl.queues[1]);
    StillUndisturbed(dev, before, w, v, hosts, g, n);
  }

  lemma LaunchCalm(dev: Device, before: seq<U8>, sched: Schedule, s: Start, w: World, hosts: seq<HostQueue>,
                   command: Sqe, g: Goal)
    requires Callable(dev, before, w, hosts, 1, command)
    requires var n, e := |hosts[1].submitted|, Stamped(hosts[1], command);
      WorldOk(w) && CalmFits(dev, s, g, e) && CalmInv(dev, s, w, hosts, g, n, e)
    ensures var (v, h) := Launched(dev, sched, w, hosts[1], command);
      CalmInv(dev, s, v, hosts[1 := h], g, |hosts[1].submitted|, Stamped(hosts[1], command))
  {
    hide Callable, SysInv, Waiting, HostFits, Tick, EncodeSqe, WriteAt, IoReady, Idle, Write32, Stamped, CalmInv,
         CalmFits, Undisturbed, NextOrigin, ValidDevice;
    CallableShape(dev, before, w, hosts, 1, command);
    var h, e := hosts[1], Stamped(hosts[1], command);
    var k, n := Stored(h, e), |h.submitted|;
    WaitingHost(h, command);
    TickCallable(dev, before, sched, w, hosts, 1, command);
    var w1 := Tick(dev, sched, w);
    TickCalm(dev, before, sched, s, w, hosts, g, n, e);
    var w2 := StoreEntry(w1, h, e);
    StoredCalm(dev, before, s, w1, hosts, command, g);
    var w3 := Tick(dev, sched, w2);
    StoreStep(dev, before, w1, hosts, 1, command);
    TickKeeps(dev, before, sched, w2, hosts[1 := k]);
    TickCalm(dev, before, sched, s, w2, hosts[1 := k], g, n, e);
    AnnouncedCalm(dev, before, s, w3, hosts[1 := k], g, n, e);
    assert hosts[1 := k][1 := Announced(k)] == hosts[1 := Announced(k)];
  }

  lemma StoredCalm(dev: Device, before: seq<U8>, s: Start, w: World, hosts: seq<HostQueue>, command: Sqe, g: Goal)
    requires Callable(dev, before, w, hosts, 1, command)
    requires var n, e := |hosts[1].submitted|, Stamped(hosts[1], command);
      WorldOk(w) && CalmFits(dev, s, g, e) && CalmInv(dev, s, w, hosts, g, n, e)
    ensures var e := Stamped(hosts[1], command);
      CalmInv(dev, s, StoreEntry(w, hosts[1], e), hosts[1 := Stored(hosts[1], e)], g, |hosts[1].submitted|, e)
  {
    CallableShape(dev, before, w, hosts, 1, command);
    var h, e := hosts[1], Stamped(hosts[1], command);
    StoreBelowData(h);
    hide Callable, SysInv, HostFits, EncodeSqe, WriteAt, Stamped, OwnWork, Sane, CalmFits, QueueCalm, ValidDevice;
    StoreFrame(w.mem, h.sqOffset + 64 * h.tail, EncodeSqe(e));
    StoreUndisturbed(dev, w, hosts, g, Stored(h, e), e);
    HostCalm(dev, s, w, StoreEntry(w, h, e), hosts, hosts[1 := Stored(h, e)], g, |h.submitted|, e);
  }

  lemma AnnouncedCalm(dev: Device, before: seq<U8>, s: Start, w: World, hosts: seq<HostQueue>, g: Goal, n: nat, e: Sqe)
    requires SysInv(dev, before, w, hosts) && HostFits(hosts[1]) && hosts[1].id == 1
    requires CalmFits(dev, s, g, e) && CalmInv(dev, s, w, hosts, g, n, e)
    ensures CalmInv(dev, s, RingSubmission(dev, w, hosts[1]), hosts[1 := Announced(hosts[1])], g, n, e)
  {
    hide SysInv, HostFits, OwnWork, Sane, CalmFits, QueueCalm, NextOrigin, ValidDevice, RingSubmission;
    ShapeOf(dev, before, w, hosts);
    RungQueues(dev, w, hosts[1], 1);
    OriginGrows(w.ctl.queues[1], hosts[1].tail);
    var v, later := RingSubmission(dev, w, hosts[1]), hosts[1 := Announced(hosts[1])];
    DoorbellUndisturbed(dev, before, w, v, hosts, later, g, n);
    HostCalm(dev, s, w, v, hosts, later, g, n, e);
  }

  lemma FreedCalm(dev: Device, before: seq<U8>, s: Start, w: World, hosts: seq<HostQueue>, h: HostQueue, g: Goal,
                  n: nat, e: Sqe)
    requires SysInv(dev, before, w, hosts) && HostFits(h) && h.id == 1 && h.submitted == hosts[1].submitted
    requires CalmFits(dev, s, g, e) && CalmInv(dev, s, w, hosts, g, n, e)
    ensures CalmInv(dev, s, RingCompletion(dev, w, h), hosts[1 := h], g, n, e)
  {
    hide SysInv, HostFits, OwnWork, Sane, CalmFits, QueueCalm, ValidDevice, RingCompletion;
    ShapeOf(dev, before, w, hosts);
    FreedQueues(dev, w, h, 1);
    var v, later := RingCompletion(dev, w, h), hosts[1 := h];
    DoorbellUndisturbed(dev, before, w, v, hosts, later, g, n);
    HostCalm(dev, s, w, v, hosts, later, g, n, e);
  }

  lemma KeepsHistory(h: HostQueue)
    ensures Consumed(h).submitted == GivenUp(h).submitted == h.submitted && Consumed(h).id == h.id
  {
  }

  lemma {:induction false} PollCalm(dev: Device, before: seq<U8>, sched: Schedule, s: Start, w: World,
                                    hosts: seq<HostQueue>, g: Goal, n: nat, e: Sqe, cid: nat, spins: nat, limit: nat)
    requires SysInv(dev, before, w, hosts) && hosts[1].id == 1 && Waiting(hosts[1]) && spins <= limit
    requires CalmFits(dev, s, g, e) && CalmInv(dev, s, w, hosts, g, n, e)
    ensures var o := Poll(dev, sched, w, hosts[1], cid, spins, limit);
      CalmInv(dev, s, o.w, hosts[1 := o.h], g, n, e)
    decreases limit - spins
  {
    hide SysInv, CalmFits, CalmInv, Tick, RingCompletion, Phase, DecodeCqe, ReadAt, Idle, QueueInv, ValidDevice,
         HostFits, Consumed, GivenUp;
    ShapeOf(dev, before, w, hosts);
    var h := hosts[1];
    KeepsHistory(h);
    var v := Tick(dev, sched, w);
    TickKeeps(dev, before, sched, w, hosts);
    TickCalm(dev, before, sched, s, w, hosts, g, n, e);
    QueueOf(dev, before, v, hosts, 1);
    PollExact(v.mem, v.base, h, v.ctl.queues[1], 1);
    if Phase(Polled(v, h)) == h.phase {
      ConsumeStep(dev, before, v, hosts, 1);
      FreedCalm(dev, before, s, v, hosts, Consumed(h), g, n, e);
      TickCalm(dev, before, sched, s, RingCompletion(dev, v, Consumed(h)), hosts[1 := Consumed(h)], g, n, e);
    } else if spins < limit {
      PollCalm(dev, before, sched, s, v, hosts, g, n, e, cid, spins + 1, limit);
    } else {
      SameHistory(dev, s, v, hosts, hosts[1 := GivenUp(h)], g, n, e);
    }
  }

  /** The invariant speaks of what has been submitted, not of the host's counters. */
  lemma SameHistory(dev: Device, s: Start, w: World, hosts: seq<HostQueue>, later: seq<HostQueue>, g: Goal, n: nat,
                    e: Sqe)
    requires WorldOk(w) && |hosts| == |later| == 2 && CalmFits(dev, s, g, e) && CalmInv(dev, s, w, hosts, g, n, e)
    requires later[0].submitted == hosts[0].submitted && later[1].submitted == hosts[1].submitted
    ensures CalmInv(dev, s, w, later, g, n, e)
  {
    hide OwnWork, Sane, QueueCalm, CalmFits;
  }

  // --- a whole call -------------------------------------------------------------------------------------------------

  /** The transfer has done exactly what it says. */
  predicate Achieved(g: Goal, s: Start, media: seq<U8>, mem: seq<U8>)
    requires |s.mem| == |mem| == HUGE_PAGE_SIZE && g.length <= MAX_TRANSFER_BYTES && |media| == |s.media|
  {
    && g.start + g.length <= |media|
    && if g.writes then ReadAt(media, g.start, g.length) == ReadAt(s.mem, DATA_OFFSET, g.length)
       else ReadAt(mem, DATA_OFFSET, g.length) == ReadAt(s.media, g.start, g.length)
  }

  lemma AllHeld(g: Goal, s: Start, media: seq<U8>, mem: seq<U8>, moved: set<nat>)
    requires |s.mem| == |mem| == HUGE_PAGE_SIZE && g.length <= MAX_TRANSFER_BYTES && |media| == |s.media|
    requires Held(g, s, media, mem, moved) && AllMoved(moved, g.length) && g.start + g.length <= |media|
    ensures Achieved(g, s, media, mem)
  {
    assert forall b: nat :: b < g.length ==> HeldAt(g, s, media, mem, b);
    if g.writes {
      forall b | 0 <= b < g.length
        ensures ReadAt(media, g.start, g.length)[b] == ReadAt(s.mem, DATA_OFFSET, g.length)[b]
      {
        assert HeldAt(g, s, media, mem, b);
      }
    } else {
      forall b | 0 <= b < g.length
        ensures ReadAt(mem, DATA_OFFSET, g.length)[b] == ReadAt(s.media, g.start, g.length)[b]
      {
        assert HeldAt(g, s, media, mem, b);
      }
    }
  }

  /**
   A transfer among late commands, in any run: if everything outstanding is a bystander, a call that reports success
   with its own completion has read exactly what the medium held, or stored exactly the payload.
   */
  lemma CalmCall(dev: Device, before: seq<U8>, sched: Schedule, s: Start, w: World, hosts: seq<HostQueue>,
                 command: Sqe, limit: nat, g: Goal)
    requires Callable(dev, before, w, hosts, 1, command)
    requires CalmFits(dev, s, g, Stamped(hosts[1], command)) && Sane(g, s, w.ctl.media, w.mem)
    requires Undisturbed(dev, w.ctl, hosts, g, |hosts[1].submitted|)
    ensures var o := SubmitAndWait(dev, sched, w, hosts[1], command, limit);
      && WorldOk(o.w) && |o.w.ctl.media| == |s.media| && Sane(g, s, o.w.ctl.media, o.w.mem)
      && (o.result.Ok? && IsSuccess(o.result.value) && Ours(hosts[1], o) ==> Achieved(g, s, o.w.ctl.media, o.w.mem))
  {
    hide Callable, SysInv, Launched, Poll, CalmInv, CalmFits, Waiting, IoReady, Called, IsSuccess, Undisturbed,
         Sane, Stamped, ValidDevice, Achieved, HostFits, Idle, Settled, OwnWork;
    CallableShape(dev, before, w, hosts, 1, command);
    var h, e, n := hosts[1], Stamped(hosts[1], command), |hosts[1].submitted|;
    CalmBegins(dev, before, s, w, hosts, g, e);
    LaunchCalm(dev, before, sched, s, w, hosts, command, g);
    LaunchKeeps(dev, before, sched, w, hosts, 1, command);
    CallKeeps(dev, before, sched, w, hosts, 1, command, limit);
    var (v, k) := Launched(dev, sched, w, h, command);
    PollCalm(dev, before, sched, s, v, hosts[1 := k], g, n, e, h.cid, 0, limit);
    var o := Poll(dev, sched, v, k, h.cid, 0, limit);
    assert hosts[1 := k][1 := o.h] == hosts[1 := o.h];
    PartsOf(dev, s, o.w, hosts[1 := o.h], g, n, e);
    if o.result.Ok? && IsSuccess(o.result.value) && Ours(h, o) {
      AcceptedOwn(h, command, o);
      OwnAchieved(g, s, o.w.ctl.queues[1], o.w.ctl.media, o.w.mem, n, h.consumed);
    }
  }

  lemma AcceptedOwn(h: HostQueue, command: Sqe, o: Outcome)
    requires HostFits(h) && WorldOk(o.w) && h.id == 1 && Settled(Called(h, command), o, h.cid) && o.result.Ok?
    ensures var posted := o.w.ctl.queues[1].posted;
      h.consumed < |posted| && posted[h.consumed].cqe == o.result.value
  {
  }

  lemma OwnAchieved(g: Goal, s: Start, c: CtlQueue, media: seq<U8>, mem: seq<U8>, n: nat, m: nat)
    requires |s.mem| == |mem| == HUGE_PAGE_SIZE && g.length <= MAX_TRANSFER_BYTES && |media| == |s.media|
    requires OwnWork(g, s, c, media, mem, n)
    requires m < |c.posted| && Answers(c, c.posted[m], n) && IsSuccess(c.posted[m].cqe)
    ensures Achieved(g, s, media, mem)
  {
    hide Held, IsSuccess, AllMoved;
    AllHeld(g, s, media, mem, c.posted[m].moved);
  }
}
