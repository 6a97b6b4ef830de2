/**
 Whose completion a call accepts, exactly. The host compares 16-bit identifiers, so a command that
 timed out can be mistaken for a later one. `DeliveryExact` says when that can happen, for every state
 in which a call may be made.
 */
module Delivery {
  import opened Bytes
  import opened NvmeSpec
  import opened DmaLayout
  import opened Ring
  import opened Controller
  import opened System
  import opened Submit
  import opened Scripted
  import opened Progress

  // --- where later work comes from ---------------------------------------------------------------------------

  /** Command number `k` of `d` is one `c` was already working on, or one fetched since. */
  predicate FromJobOrLater(c: CtlQueue, d: CtlQueue, k: nat) {
    k < |d.origins| && (k in c.jobs || NextOrigin(c) <= d.origins[k])
  }

  /** `d` is a later state of `c`: postings stay, and new postings and present jobs have a known source. */
  predicate Descends(c: CtlQueue, d: CtlQueue) {
    && c.posted <= d.posted && c.origins <= d.origins && NextOrigin(c) <= NextOrigin(d)
    && (forall k :: k in d.jobs ==> FromJobOrLater(c, d, k))
    && (forall m :: |c.posted| <= m < |d.posted| ==> FromJobOrLater(c, d, d.posted[m].number))
  }

  lemma DescendsSelf(c: CtlQueue)
    requires forall k :: k in c.jobs ==> k < |c.origins|
    ensures Descends(c, c)
  {
    hide NextOrigin;
  }

  lemma FetchDescends(c: CtlQueue, d: CtlQueue, e: Sqe)
    requires Descends(c, d) && CanFetch(d) && d.fetched <= d.rung
    requires d.fetched % 64 != d.rung % 64 && |d.origins| == d.fetched
    ensures Descends(c, Fetched(d, e))
  {
    OriginSteps(d, e);
    hide NextOrigin;
  }

  lemma MoveDescends(c: CtlQueue, d: CtlQueue, k: nat, b: nat)
    requires Descends(c, d) && k in d.jobs
    ensures Descends(c, Moved(d, k, b))
  {
  }

  lemma PostDescends(c: CtlQueue, d: CtlQueue, k: nat, e: Cqe)
    requires Descends(c, d) && CanPost(d, k)
    ensures Descends(c, Posted(d, k, e))
  {
    hide NextOrigin;
    assert NextOrigin(Posted(d, k, e)) == NextOrigin(d) by { PostedOrigin(d, k, e); }
  }

  lemma PostedOrigin(d: CtlQueue, k: nat, e: Cqe)
    requires CanPost(d, k)
    ensures NextOrigin(Posted(d, k, e)) == NextOrigin(d)
  {
  }

  /** Doorbells and ring configuration change no work. */
  lemma SameWorkDescends(c: CtlQueue, d: CtlQueue, e: CtlQueue)
    requires Descends(c, d) && e.origins == d.origins && e.jobs == d.jobs && e.posted == d.posted
    requires NextOrigin(d) <= NextOrigin(e)
    ensures Descends(c, e)
  {
    hide NextOrigin;
  }

  // --- along a run ----------------------------------------------------------------------------------------------

  /** Jobs and postings are numbered by fetches that have happened. */
  predicate NumbersOk(c: CtlQueue) {
    && (forall k :: k in c.jobs ==> k < |c.origins|)
    && (forall m :: 0 <= m < |c.posted| ==> c.posted[m].number < |c.origins|)
  }

  lemma PointerFacts(dev: Device, before: seq<U8>, w: World, hosts: seq<HostQueue>, q: nat)
    requires SysInv(dev, before, w, hosts) && q < 2
    ensures var c := w.ctl.queues[q];
      && |c.origins| == c.fetched <= c.rung && c.sqHead == c.fetched % 64 && c.sqTail == c.rung % 64
      && c.rung == hosts[q].announced && hosts[q].consumed <= |c.posted|
      && OriginsOk(c, |hosts[q].submitted|) && NumbersOk(c)
  {
    hide CommandsOk, ListsOk, Provenance, QueuesInOrder, TouchedOk, RingsLive, QueueInv, ValidDevice, RingInv,
         SqView, CqView, OriginsOk, NumbersOk;
    QueueOf(dev, before, w, hosts, q);
    QueueParts(w.mem, w.base, hosts[q], w.ctl.queues[q], q);
    RingFacts(hosts[q], w.ctl.queues[q], SqView(w.mem, SqOffset(q)), CqView(w.mem, CqOffset(q)));
  }

  lemma RingFacts(h: HostQueue, c: CtlQueue, sq: seq<Sqe>, cq: seq<Cqe>)
    requires RingInv(h, c, sq, cq)
    ensures |c.origins| == c.fetched <= c.rung && c.sqHead == c.fetched % 64 && c.sqTail == c.rung % 64
    ensures OriginsOk(c, |h.submitted|) && NumbersOk(c) && c.rung == h.announced && h.consumed <= |c.posted|
  {
    hide SqHolds, CqHolds, PostsOk, Lap, CidsOk, InStep, NextOrigin, HostOk;
  }

  lemma StepDescends(dev: Device, before: seq<U8>, w: World, hosts: seq<HostQueue>, q: nat, c: CtlQueue, a: Action)
    requires SysInv(dev, before, w, hosts) && q < 2 && Descends(c, w.ctl.queues[q])
    ensures Descends(c, Step(dev, w, a).ctl.queues[q])
  {
    hide SysInv, Descends, FetchEnabled, MoveEnabled, PostEnabled, DoFetch, DoMove, DoPost, OriginsOk, NumbersOk;
    ShapeOf(dev, before, w, hosts);
    PointerFacts(dev, before, w, hosts, q);
    match a
    case BecomeReady =>
    case BecomeIdle =>
    case FailFatally =>
    case Fetch(r) => if FetchEnabled(w, r) { FetchStepDescends(w, q, c, r); }
    case Move(r, k, b) => if MoveEnabled(dev, w, r, k, b) { MoveStepDescends(dev, w, q, c, r, k, b); }
    case Post(r, k, bits, result) =>
      if PostEnabled(dev, w, r, k, bits, result) { PostStepDescends(dev, w, q, c, r, k, bits, result); }
    case Alter(r, k, x, v) =>
  }

  lemma FetchStepDescends(w: World, q: nat, c: CtlQueue, r: nat)
    requires WorldOk(w) && q < 2 && Descends(c, w.ctl.queues[q]) && FetchEnabled(w, r)
    requires var d := w.ctl.queues[q];
      |d.origins| == d.fetched <= d.rung && d.sqHead == d.fetched % 64 && d.sqTail == d.rung % 64
    ensures Descends(c, DoFetch(w, r).ctl.queues[q])
  {
    hide Descends, DecodeSqe, ReadAt, Fetched, Live;
    if r == q {
      FetchDescends(c, w.ctl.queues[q], DecodeSqe(ReadAt(w.mem, FetchAddress(w, q) - w.base, SQE_SIZE)));
    }
  }

  lemma MoveStepDescends(dev: Device, w: World, q: nat, c: CtlQueue, r: nat, k: nat, b: nat)
    requires ValidDevice(dev) && WorldOk(w) && q < 2 && Descends(c, w.ctl.queues[q]) && MoveEnabled(dev, w, r, k, b)
    ensures Descends(c, DoMove(dev, w, r, k, b).ctl.queues[q])
  {
    hide Descends, TransferLength, MoveAddress, SourceByte, WriteAt, MediaStart, Moved, Live;
    if r == q {
      MoveDescends(c, w.ctl.queues[q], k, b);
    }
  }

  lemma PostStepDescends(dev: Device, w: World, q: nat, c: CtlQueue, r: nat, k: nat, bits: nat, result: U32)
    requires WorldOk(w) && q < 2 && Descends(c, w.ctl.queues[q]) && PostEnabled(dev, w, r, k, bits, result)
    ensures Descends(c, DoPost(dev, w, r, k, bits, result).ctl.queues[q])
  {
    hide Descends, EncodeCqe, WriteAt, CompletionOf, MaySucceed, InRegion, Live, IsSuccess, Posted;
    var entry := PostEntry(w, r, k, bits, result);
    var v := PostedWorld(w, r, k, entry);
    if r == q {
      PostDescends(c, w.ctl.queues[q], k, entry);
    }
    var d := v.ctl.queues[1];
    if q == 1 {
      ConfiguredOrigin(d, w.ctl.queues[r].jobs[k].sqe);
      SameWorkDescends(c, d, Configured(d, w.ctl.queues[r].jobs[k].sqe));
    }
  }

  lemma ConfiguredOrigin(d: CtlQueue, e: Sqe)
    ensures var f := Configured(d, e);
      NextOrigin(f) == NextOrigin(d) && f.origins == d.origins && f.jobs == d.jobs && f.posted == d.posted
  {
  }

  lemma {:induction false} RunDescends(dev: Device, before: seq<U8>, w: World, hosts: seq<HostQueue>, q: nat,
                                       c: CtlQueue, actions: seq<Action>)
    requires SysInv(dev, before, w, hosts) && q < 2 && Descends(c, w.ctl.queues[q])
    ensures Descends(c, Run(dev, w, actions).ctl.queues[q])
    decreases |actions|
  {
    ShapeOf(dev, before, w, hosts);
    hide SysInv, Descends, Step, ValidDevice;
    if actions != [] {
      StepDescends(dev, before, w, hosts, q, c, actions[0]);
      StepKeeps(dev, before, w, hosts, actions[0]);
      RunDescends(dev, before, Step(dev, w, actions[0]), hosts, q, c, actions[1..]);
    }
  }

  lemma TickDescends(dev: Device, before: seq<U8>, sched: Schedule, w: World, hosts: seq<HostQueue>, q: nat,
                     c: CtlQueue)
    requires SysInv(dev, before, w, hosts) && q < 2 && Descends(c, w.ctl.queues[q])
    ensures Descends(c, Tick(dev, sched, w).ctl.queues[q])
  {
    ShapeOf(dev, before, w, hosts);
    hide SysInv, Descends, ValidDevice;
    RunDescends(dev, before, w, hosts, q, c, sched(w.clock));
  }

  lemma {:induction false} PollDescends(dev: Device, before: seq<U8>, sched: Schedule, w: World, hosts: seq<HostQueue>,
                                        q: nat, cid: nat, spins: nat, limit: nat, r: nat, c: CtlQueue)
    requires SysInv(dev, before, w, hosts) && q < 2 && hosts[q].id == q && Waiting(hosts[q]) && spins <= limit
    requires r < 2 && Descends(c, w.ctl.queues[r])
    ensures Descends(c, Poll(dev, sched, w, hosts[q], cid, spins, limit).w.ctl.queues[r])
    decreases limit - spins
  {
    hide SysInv, Descends, Tick, RingCompletion, Phase, DecodeCqe, ReadAt, Idle, QueueInv, ValidDevice;
    ShapeOf(dev, before, w, hosts);
    var h := hosts[q];
    var v := Tick(dev, sched, w);
    TickKeeps(dev, before, sched, w, hosts);
    TickDescends(dev, before, sched, w, hosts, r, c);
    QueueOf(dev, before, v, hosts, q);
    PollExact(v.mem, v.base, h, v.ctl.queues[q], q);
    if Phase(Polled(v, h)) == h.phase {
      var g := Consumed(h);
      ConsumeStep(dev, before, v, hosts, q);
      FreedQueues(dev, v, g, q);
      FreedDescends(c, v.ctl.queues[r], g.head);
      TickDescends(dev, before, sched, RingCompletion(dev, v, g), hosts[q := g], r, c);
    } else if spins < limit {
      PollDescends(dev, before, sched, v, hosts, q, cid, spins + 1, limit, r, c);
    }
  }

  lemma FreedDescends(c: CtlQueue, d: CtlQueue, head: nat)
    requires Descends(c, d)
    ensures Descends(c, d.(cqHead := head))
  {
  }

  lemma LaunchDescends(dev: Device, before: seq<U8>, sched: Schedule, w: World, hosts: seq<HostQueue>, q: nat,
                       command: Sqe,
                        r: nat, c: CtlQueue)
    requires Callable(dev, before, w, hosts, q, command) && WorldOk(w) && |hosts| == 2 && q < 2 && HostFits(hosts[q])
    requires r < 2 && Descends(c, w.ctl.queues[r])
    ensures ValidDevice(dev)
    ensures Descends(c, Launched(dev, sched, w, hosts[q], command).0.ctl.queues[r])
  {
    CallableShape(dev, before, w, hosts, q, command);
    TickCallable(dev, before, sched, w, hosts, q, command);
    hide Callable, SysInv, HostFits, Tick, EncodeSqe, WriteAt, Idle, Write32, Stamped, Descends, Carried,
         ValidDevice, NextOrigin;
    var h, e := hosts[q], Stamped(hosts[q], command);
    var w1 := Tick(dev, sched, w);
    var w2 := StoreEntry(w1, h, e);
    TickDescends(dev, before, sched, w, hosts, r, c);
    StoreStep(dev, before, w1, hosts, q, command);
    WaitingHost(h, command);
    TickDescends(dev, before, sched, w2, hosts[q := Stored(h, e)], r, c);
    var d := Tick(dev, sched, w2).ctl.queues[r];
    RungQueues(dev, Tick(dev, sched, w2), Stored(h, e), q);
    OriginGrows(d, Stored(h, e).tail);
    SameWorkDescends(c, d, Rung(d, Stored(h, e).tail));
  }

  /** What a call leaves behind on a queue, its own or the other, comes from the state it began in. */
  lemma CallDescends(dev: Device, before: seq<U8>, sched: Schedule, w: World, hosts: seq<HostQueue>, q: nat,
                     command: Sqe, limit: nat, r: nat)
    requires Callable(dev, before, w, hosts, q, command) && r < 2
    ensures ValidDevice(dev) && WorldOk(w) && |hosts| == 2 && q < 2 && HostFits(hosts[q])
    ensures Descends(w.ctl.queues[r], SubmitAndWait(dev, sched, w, hosts[q], command, limit).w.ctl.queues[r])
  {
    CallableShape(dev, before, w, hosts, q, command);
    hide Callable, SysInv, Launched, Poll, Waiting, Descends, HostFits, OriginsOk;
    var c := w.ctl.queues[r];
    PointerFacts(dev, before, w, hosts, r);
    DescendsSelf(c);
    LaunchDescends(dev, before, sched, w, hosts, q, command, r, c);
    LaunchKeeps(dev, before, sched, w, hosts, q, command);
    var (v, g) := Launched(dev, sched, w, hosts[q], command);
    PollDescends(dev, before, sched, v, hosts[q := g], q, hosts[q].cid, 0, limit, r, c);
  }

  // --- the exact condition -------------------------------------------------------------------------------------

  /** Command number `k`, fetched earlier, carries the identifier the next command will carry. */
  predicate SameIdentifier(c: CtlQueue, k: nat, next: nat) {
    k < |c.origins| && c.origins[k] % 0x1_0000 == next % 0x1_0000
  }

  /**
   What can go wrong with the next call: the oldest unread completion, or if there is none a command
   the controller is still working on, is a multiple of 2^16 submissions older than it.
   */
  predicate Confusable(h: HostQueue, c: CtlQueue) {
    if h.consumed < |c.posted| then SameIdentifier(c, c.posted[h.consumed].number, |h.submitted|)
    else exists k :: k in c.jobs && SameIdentifier(c, k, |h.submitted|)
  }

  /** An unfetched command is too young to be confused with the next one. */
  lemma YoungEnough(h: HostQueue, c: CtlQueue, count: nat)
    requires OriginsOk(c, count) && c.fetched <= c.rung == |h.submitted|
    ensures |h.submitted| < NextOrigin(c) + 64
  {
  }

  lemma OursUnlessConfused(dev: Device, before: seq<U8>, sched: Schedule, w: World, hosts: seq<HostQueue>,
                           q: nat, command: Sqe, limit: nat)
    requires Callable(dev, before, w, hosts, q, command)
    ensures ValidDevice(dev) && WorldOk(w) && |hosts| == 2 && q < 2 && HostFits(hosts[q]) && hosts[q].id == q
    ensures var o := SubmitAndWait(dev, sched, w, hosts[q], command, limit);
      o.result.Ok? ==> Ours(hosts[q], o) || Confusable(hosts[q], w.ctl.queues[q])
  {
    hide Callable, SysInv, SubmitAndWait, ValidDevice, Unanswered, HostFits, Descends, OriginsOk, NumbersOk,
         Confusable;
    CallableShape(dev, before, w, hosts, q, command);
    var n := AcceptedFacts(dev, before, sched, w, hosts, q, command, limit);
    CallDescends(dev, before, sched, w, hosts, q, command, limit, q);
    PointerFacts(dev, before, w, hosts, q);
    var o := SubmitAndWait(dev, sched, w, hosts[q], command, limit);
    if o.result.Ok? && n < |hosts[q].submitted| {
      YoungEnough(hosts[q], w.ctl.queues[q], |hosts[q].submitted|);
      ConfusedBy(hosts[q], w.ctl.queues[q], o.w.ctl.queues[q], n);
    }
  }

  lemma ConfusedBy(h: HostQueue, c: CtlQueue, d: CtlQueue, n: nat)
    requires Descends(c, d) && h.consumed < |d.posted| && Answers(d, d.posted[h.consumed], n)
    requires h.consumed <= |c.posted| && NumbersOk(c)
    requires n < |h.submitted| < NextOrigin(c) + 64 && n % 0x1_0000 == |h.submitted| % 0x1_0000
    ensures Confusable(h, c)
  {
    hide NextOrigin;
    if h.consumed < |c.posted| {
      assert d.posted[h.consumed] == c.posted[h.consumed];
    } else {
      assert FromJobOrLater(c, d, d.posted[h.consumed].number);
      if NextOrigin(c) <= n {
        SameCid(n, |h.submitted|);
      }
    }
  }

  // --- a late completion accepted in error -----------------------------------------------------------------------

  /** Fail command `k` now. */
  function LateActions(q: nat, k: nat): seq<Action> {
    [BecomeReady, Post(q, k, 2, 0)]
  }

  lemma FailureStatus(c: CtlQueue, k: nat, q: U16)
    requires k in c.jobs
    ensures !IsSuccess(CompletionOf(c, k, q, 2, 0))
  {
  }

  /** The facts about a waiting queue pair that a late completion rests on. */
  lemma LateRing(h: HostQueue, c: CtlQueue, sq: seq<Sqe>, cq: seq<Cqe>, k: nat)
    requires RingInv(h, c, sq, cq) && c.cqSize == 64 && |c.posted| == h.consumed && k in c.jobs
    ensures c.cqTail < 64 && CanPost(c, k)
    ensures k < |c.origins| && c.jobs[k].sqe.cid == c.origins[k] % 0x1_0000
  {
    hide SqHolds, CqHolds, PostsOk, AnsweredOnce, Lap, InStep, OriginsOk;
    SlotsDiffer(h.consumed, h.consumed + 1);
    SlotStep(h.consumed);
  }

  lemma LateFacts(dev: Device, before: seq<U8>, w: World, hosts: seq<HostQueue>, q: nat, k: nat)
    requires SysInv(dev, before, w, hosts) && q < 2
    requires var c := w.ctl.queues[q]; c.cqSize == 64 && |c.posted| == hosts[q].consumed && k in c.jobs
    ensures var c := w.ctl.queues[q];
      && Enabled(w.ctl.regs) && c.cqBase == w.base + CqOffset(q) && c.cqTail < 64 && CanPost(c, k)
      && k < |c.origins| && c.jobs[k].sqe.cid == c.origins[k] % 0x1_0000
  {
    hide SqView, CqView, RingInv, QueueInv, CanPost, CommandsOk, ListsOk, Provenance, QueuesInOrder, TouchedOk,
         ValidDevice;
    QueueOf(dev, before, w, hosts, q);
    QueueParts(w.mem, w.base, hosts[q], w.ctl.queues[q], q);
    LateRing(hosts[q], w.ctl.queues[q], SqView(w.mem, SqOffset(q)), CqView(w.mem, CqOffset(q)), k);
  }

  lemma LatePost(dev: Device, before: seq<U8>, w: World, hosts: seq<HostQueue>, q: nat, k: nat)
    requires SysInv(dev, before, w, hosts) && q < 2
    requires var c := w.ctl.queues[q]; c.cqSize == 64 && |c.posted| == hosts[q].consumed && k in c.jobs
    ensures ValidDevice(dev)
    ensures var c0, c := w.ctl.queues[q], Run(dev, w, LateActions(q, k)).ctl.queues[q];
      && |c.posted| == hosts[q].consumed + 1 && c.origins == c0.origins
      && var p := c.posted[hosts[q].consumed]; p.number == k < |c.origins| && p.cqe.cid == c.origins[k] % 0x1_0000
  {
    hide SysInv, CanPost, IsSuccess, EncodeCqe, WriteAt, CompletionOf, MaySucceed, ValidDevice;
    ShapeOf(dev, before, w, hosts);
    LateFacts(dev, before, w, hosts, q, k);
    var v := Step(dev, w, BecomeReady);
    FailureStatus(v.ctl.queues[q], k, q);
    assert PostEnabled(dev, v, q, k, 2, 0);
    RunTwo(dev, w, BecomeReady, Post(q, k, 2, 0));
  }

  lemma RunTwo(dev: Device, w: World, a: Action, b: Action)
    requires ValidDevice(dev) && WorldOk(w)
    ensures Run(dev, w, [a, b]) == Step(dev, Step(dev, w, a), b)
  {
    hide Step, ValidDevice, WorldOk;
    RunAppend(dev, w, [a], [b]);
    assert [a] + [b] == [a, b];
    RunOne(dev, w, a);
    RunOne(dev, Step(dev, w, a), b);
  }

  /** Both queues the host may submit to can complete what they have fetched. */
  lemma CanComplete(dev: Device, before: seq<U8>, w: World, hosts: seq<HostQueue>, q: nat, command: Sqe, k: nat)
    requires Callable(dev, before, w, hosts, q, command)
    requires WorldOk(w) && q < 2 && k in w.ctl.queues[q].jobs
    ensures w.ctl.queues[q].cqSize == 64
  {
    hide CommandsOk, ListsOk, Provenance, TouchedOk, QueueInv, CommandOk, ListOk, ValidDevice, HostFits, GoodBase,
         QueuesInOrder, NoCreates, Idle;
    QueueOf(dev, before, w, hosts, q);
    FetchedRing(w.mem, w.base, hosts[q], w.ctl.queues[q], q, k);
  }

  lemma FetchedRing(mem: seq<U8>, base: nat, h: HostQueue, c: CtlQueue, q: nat, k: nat)
    requires |mem| == HUGE_PAGE_SIZE && q < 2 && QueueInv(mem, base, h, c, q) && k in c.jobs
    ensures c.sqSize == 64
  {
    hide SqView, CqView, SqHolds, CqHolds, PostsOk, AnsweredOnce, Lap, CidsOk, InStep, HostOk, JobsOk, OriginsOk;
    assert |c.jobs| > 0;
  }

  /** The actions that deceive the host: none if the wrong completion is there already. */
  function Deceit(h: HostQueue, c: CtlQueue, q: nat, k: nat): seq<Action> {
    if h.consumed < |c.posted| then [] else LateActions(q, k)
  }

  /** The number of the command whose completion would be taken for the next one's. */
  predicate Confuses(h: HostQueue, c: CtlQueue, k: nat) {
    && SameIdentifier(c, k, |h.submitted|)
    && if h.consumed < |c.posted| then k == c.posted[h.consumed].number else k in c.jobs
  }

  lemma ConfusesAfter(h: HostQueue, c: CtlQueue, command: Sqe, tail: nat, k: nat)
    requires HostFits(h) && Confuses(h, c, k)
    ensures var g, d := Called(h, command), Rung(c, tail);
      && SameIdentifier(d, k, |h.submitted|) && g.consumed == h.consumed && d.posted == c.posted
      && d.jobs == c.jobs && d.cqSize == c.cqSize && d.origins == c.origins
  {
  }

  /** If some command can be confused with the next one, some schedule makes the call accept its completion. */
  lemma Misdelivered(dev: Device, before: seq<U8>, w: World, hosts: seq<HostQueue>, q: nat, command: Sqe,
                     limit: nat, k: nat)
    requires Callable(dev, before, w, hosts, q, command)
    requires WorldOk(w) && |hosts| == 2 && q < 2 && HostFits(hosts[q]) && hosts[q].id == q
    requires Confuses(hosts[q], w.ctl.queues[q], k)
    ensures ValidDevice(dev)
    ensures var sched := Once(Deceit(hosts[q], w.ctl.queues[q], q, k), w.clock + 2);
      var o := SubmitAndWait(dev, sched, w, hosts[q], command, limit);
      o.result.Ok? && !Ours(hosts[q], o)
  {
    hide Callable, SysInv, SubmitAndWait, ValidDevice, Begun, Called, Once, Run, HostFits, Waiting, OriginsOk,
         NumbersOk, ActsOnce, Deceit;
    CallableShape(dev, before, w, hosts, q, command);
    var h, c := hosts[q], w.ctl.queues[q];
    var actions := Deceit(h, c, q, k);
    var v, g := Begun(dev, w, h, command), Called(h, command);
    if k in c.jobs {
      CanComplete(dev, before, w, hosts, q, command, k);
    }
    PointerFacts(dev, before, w, hosts, q);
    BegunKeeps(dev, before, w, hosts, q, command);
    BegunFacts(dev, w, h, command);
    ConfusesAfter(h, c, command, (h.tail + 1) % 64, k);
    NextCid(dev, before, w, hosts, q);
    BegunDeceit(dev, before, v, hosts[q := g], q, k, h, c);
    OnceActs(actions, w.clock);
    OnceCall(dev, before, Once(actions, w.clock + 2), w, hosts, q, command, limit, actions);
    EndingDeceived(dev, Run(dev, v, actions), g, h.cid, w.clock, limit, k);
    EarlierOrigin(c, |h.submitted|, k);
    OursByOrigin(h, Ending(dev, Run(dev, v, actions), g, h.cid, w.clock, limit), k);
  }

  lemma BegunDeceit(dev: Device, before: seq<U8>, v: World, hosts: seq<HostQueue>, q: nat, k: nat, h: HostQueue,
                    c: CtlQueue)
    requires SysInv(dev, before, v, hosts) && q < 2 && Confuses(h, c, k) && h.consumed <= |c.posted|
    requires hosts[q].consumed == h.consumed && WorldOk(v) && k < |c.origins|
    requires var d := v.ctl.queues[q];
      d.posted == c.posted && d.jobs == c.jobs && d.origins == c.origins && d.cqSize == c.cqSize
    requires k in c.jobs ==> c.cqSize == 64
    ensures ValidDevice(dev)
    ensures var u := Run(dev, v, Deceit(h, c, q, k)).ctl.queues[q];
      && h.consumed < |u.posted| && u.origins == c.origins
      && u.posted[h.consumed].number == k && u.posted[h.consumed].cqe.cid == c.origins[k] % 0x1_0000
  {
    hide SysInv, QueueInv, ValidDevice;
    ShapeOf(dev, before, v, hosts);
    if h.consumed < |c.posted| {
      QueueOf(dev, before, v, hosts, q);
      var n := AcceptedPosting(v.mem, v.base, hosts[q], v.ctl.queues[q], q, h.consumed);
    } else {
      LatePost(dev, before, v, hosts, q, k);
    }
  }

  lemma NextCid(dev: Device, before: seq<U8>, w: World, hosts: seq<HostQueue>, q: nat)
    requires SysInv(dev, before, w, hosts) && q < 2
    ensures hosts[q].cid == |hosts[q].submitted| % 0x1_0000
  {
    hide CommandsOk, ListsOk, Provenance, QueuesInOrder, TouchedOk, RingsLive, QueueInv, ValidDevice;
    QueueOf(dev, before, w, hosts, q);
    CallCid(w.mem, w.base, hosts[q], w.ctl.queues[q], q);
  }

  lemma EndingDeceived(dev: Device, w: World, h: HostQueue, cid: nat, start: nat, limit: nat, k: nat)
    requires WorldOk(w) && HostFits(h)
    requires var c := w.ctl.queues[h.id];
      h.consumed < |c.posted| && c.posted[h.consumed].cqe.cid == cid && c.posted[h.consumed].number == k
    ensures var o := Ending(dev, w, h, cid, start, limit); var d := o.w.ctl.queues[h.id];
      && o.result.Ok? && h.consumed < |d.posted| && d.posted[h.consumed].number == k
      && d.origins == w.ctl.queues[h.id].origins
  {
    hide Write32, CqDoorbell, StrideOf;
    FreedQueues(dev, w, Consumed(h), h.id);
  }

  lemma EarlierOrigin(c: CtlQueue, count: nat, k: nat)
    requires OriginsOk(c, count) && k < |c.origins|
    ensures c.origins[k] < count
  {
    hide NextOrigin;
  }

  lemma OursByOrigin(h: HostQueue, o: Outcome, k: nat)
    requires WorldOk(o.w) && h.id < 2
    requires var d := o.w.ctl.queues[h.id];
      h.consumed < |d.posted| && d.posted[h.consumed].number == k < |d.origins| && d.origins[k] != |h.submitted|
    ensures !Ours(h, o)
  {
  }

  /** Every schedule's accepted completion is the call's own. */
  ghost predicate AlwaysOurs(dev: Device, w: World, h: HostQueue, command: Sqe, limit: nat)
    requires ValidDevice(dev) && WorldOk(w) && HostFits(h)
  {
    forall sched: Schedule :: var o := SubmitAndWait(dev, sched, w, h, command, limit); o.result.Ok? ==> Ours(h, o)
  }

  /**
   Exact delivery, for every state in which a call may be made: under every schedule an accepted
   completion belongs to the command just submitted, if and only if the oldest unread completion, or with none
   unread every command the controller is working on, is no multiple of 2^16 submissions older.
   */
  lemma DeliveryExact(dev: Device, before: seq<U8>, w: World, hosts: seq<HostQueue>, q: nat, command: Sqe, limit: nat)
    requires Callable(dev, before, w, hosts, q, command)
    ensures ValidDevice(dev) && WorldOk(w) && |hosts| == 2 && q < 2 && HostFits(hosts[q])
    ensures AlwaysOurs(dev, w, hosts[q], command, limit) <==> !Confusable(hosts[q], w.ctl.queues[q])
  {
    hide Callable, SysInv, SubmitAndWait, ValidDevice, Ours, HostFits, Confuses, Confusable, Deceit, Once,
         NumbersOk, OriginsOk;
    CallableShape(dev, before, w, hosts, q, command);
    if Confusable(hosts[q], w.ctl.queues[q]) {
      PointerFacts(dev, before, w, hosts, q);
      var k := WhichConfuses(hosts[q], w.ctl.queues[q]);
      Misdelivered(dev, before, w, hosts, q, command, limit, k);
    } else {
      forall sched: Schedule
        ensures var o := SubmitAndWait(dev, sched, w, hosts[q], command, limit); o.result.Ok? ==> Ours(hosts[q], o)
      {
        OursUnlessConfused(dev, before, sched, w, hosts, q, command, limit);
      }
    }
  }

  lemma WhichConfuses(h: HostQueue, c: CtlQueue) returns (k: nat)
    requires Confusable(h, c)
    ensures Confuses(h, c, k)
  {
    if h.consumed < |c.posted| {
      k := c.posted[h.consumed].number;
    } else {
      k :| k in c.jobs && SameIdentifier(c, k, |h.submitted|);
    }
  }
}
