/**
 Failing runs of the protocol, from bring-up on: a queue filled beyond what its doorbell can say, and a call
 that succeeds after timeouts although completions arrive in order.
 */
module Reached {
  import opened Bytes
  import opened NvmeSpec
  import opened DmaLayout
  import opened Ring
  import opened Controller
  import opened System
  import opened Submit
  import opened Scripted
  import opened BringUp
  import opened Overflow
  import opened Progress
  import opened Delivery
  import opened Wrappers

  /** The command of these runs. */
  function Asking(w: World): Sqe
    requires WorldOk(w)
  {
    NvmeIdentify(CNS_CONTROLLER, 0, w.base + DATA_OFFSET)
  }

  /** A queue pair in its first use: live, both rings there, nothing fetched. */
  predicate Unused(w: World, h: HostQueue, q: nat)
    requires WorldOk(w) && q < 2
  {
    var c := w.ctl.queues[q];
    && Live(w) && c.sqSize == c.cqSize == 64 && c.fetched == 0 && c.jobs == map[] && c.posted == []
    && h.submitted == [] && h.consumed == h.timeouts == 0
  }

  /** Bring-up reaches it. */
  lemma JustUnused(dev: Device, w: World)
    requires Programmed(dev, w)
    ensures var v := JustEnabled(w);
      && WorldOk(v) && |FreshHosts()| == 2 && Callable(dev, w.ctl.media, v, FreshHosts(), 0, Asking(v))
      && Unused(v, FreshHosts()[0], 0)
  {
    hide Callable, JustEnabled, FreshHosts, HostFits, ComingUp, ValidDevice, Dead, Zeroed, Idle, SysInv, QueueInv;
    EnabledFacts(dev, w);
    JustComingUp(dev, w);
    var v := JustEnabled(w);
    BringUpCallable(dev, w.ctl.media, v, FreshHosts(), Asking(v));
    FreshFacts();
    QueueOf(dev, w.ctl.media, v, FreshHosts(), 0);
    NothingDone(v.mem, v.base, FreshHosts()[0], v.ctl.queues[0], 0);
  }

  lemma NothingDone(mem: seq<U8>, base: nat, h: HostQueue, c: CtlQueue, q: nat)
    requires |mem| == HUGE_PAGE_SIZE && q < 2 && QueueInv(mem, base, h, c, q) && Idle(h) && h.submitted == []
    ensures c.fetched == 0 && c.jobs == map[] && c.posted == [] && h.consumed == h.timeouts == 0
  {
    hide SqView, CqView, SqHolds, CqHolds, PostsOk, AnsweredOnce, Lap, CidsOk, InStep, JobsOk, OriginsOk;
    assert |c.jobs| == 0;
  }

  /**
   Overflow is reached: after bring-up, `n` calls nobody hears leave `n` unfetched commands; the doorbell is
   right if and only if `n` is at most 63, and the 64th makes the ring look empty.
   */
  lemma OverflowReached(dev: Device, w: World, limit: nat, n: nat)
    requires Programmed(dev, w)
    ensures ValidDevice(dev) && WorldOk(JustEnabled(w)) && HostFits(FreshHosts()[0])
    ensures var v := JustEnabled(w); var (u, g) := SilentCalls(dev, v, FreshHosts()[0], Asking(v), limit, n);
      var c := u.ctl.queues[0];
      && c.sqHead < 64 && c.sqTail < 64 && |g.submitted| - c.fetched == n
      && (Backlog(c) == n <==> n <= 63) && (CanFetch(c) <==> n % 64 != 0)
  {
    hide Callable, JustEnabled, FreshHosts, HostFits, ValidDevice, Dead, Zeroed, SilentCalls, Backlog, CanFetch;
    JustUnused(dev, w);
    var v := JustEnabled(w);
    CallableShape(dev, w.ctl.media, v, FreshHosts(), 0, Asking(v));
    OverflowExact(dev, w.ctl.media, v, FreshHosts(), 0, Asking(v), limit, n);
    StaysDeaf(dev, w.ctl.media, v, FreshHosts(), 0, Asking(v), limit, n);
  }

  // --- fetch and fail --------------------------------------------------------------------------------------------

  /** Fetch the next command, whichever it is, and report its failure. */
  function FailNext(q: nat, k: nat): seq<Action> {
    [Fetch(q), Post(q, k, 2, 0)]
  }

  /** There is something to fetch, and room to answer it. */
  predicate CanFailNext(w: World, h: HostQueue, q: nat)
    requires WorldOk(w) && q < 2
  {
    var c := w.ctl.queues[q];
    Live(w) && CanFetch(c) && c.cqSize == 64 && |c.posted| == h.consumed
  }

  /** The queue after a fetch and a failure report for what was fetched. */
  predicate FailedNext(c: CtlQueue, d: CtlQueue) {
    && d.fetched == c.fetched + 1 && d.origins == c.origins + [NextOrigin(c)] && d.jobs == c.jobs && d.rung == c.rung
    && d.sqSize == c.sqSize && d.cqSize == c.cqSize
    && |d.posted| == |c.posted| + 1 && d.posted[..|c.posted|] == c.posted
    && d.posted[|c.posted|].number == c.fetched && d.posted[|c.posted|].cqe.cid == NextOrigin(c) % 0x1_0000
  }

  lemma RunFailNext(dev: Device, before: seq<U8>, w: World, hosts: seq<HostQueue>, q: nat)
    requires SysInv(dev, before, w, hosts) && q < 2 && WorldOk(w) && CanFailNext(w, hosts[q], q)
    ensures ValidDevice(dev)
    ensures var c := w.ctl.queues[q]; var v := Run(dev, w, FailNext(q, c.fetched));
      Live(v) && FailedNext(c, v.ctl.queues[q])
  {
    hide SysInv, ValidDevice, FailedNext, CanFetch, QueueInv, Run;
    ShapeOf(dev, before, w, hosts);
    var c := w.ctl.queues[q];
    var v := Step(dev, w, Fetch(q));
    StepKeeps(dev, before, w, hosts, Fetch(q));
    NextFetched(dev, before, w, hosts, q);
    NextFailed(dev, before, v, hosts, q, c);
    RunTwo(dev, w, Fetch(q), Post(q, c.fetched, 2, 0));
  }

  /** The queue after the fetch. */
  predicate NextInFlight(c: CtlQueue, d: CtlQueue) {
    && d.fetched == c.fetched + 1 && d.origins == c.origins + [NextOrigin(c)] && d.rung == c.rung
    && c.fetched !in c.jobs && c.fetched in d.jobs && d.jobs == c.jobs[c.fetched := d.jobs[c.fetched]]
    && d.sqSize == c.sqSize && d.cqSize == c.cqSize && d.posted == c.posted && |c.origins| == c.fetched
  }

  lemma NextFetched(dev: Device, before: seq<U8>, w: World, hosts: seq<HostQueue>, q: nat)
    requires SysInv(dev, before, w, hosts) && q < 2 && WorldOk(w) && CanFailNext(w, hosts[q], q)
    ensures ValidDevice(dev)
    ensures var v := Step(dev, w, Fetch(q)); Live(v) && NextInFlight(w.ctl.queues[q], v.ctl.queues[q])
  {
    hide SysInv, ValidDevice, CanFetch, QueueInv, NextOrigin, DecodeSqe, ReadAt, RingInv;
    ShapeOf(dev, before, w, hosts);
    QueueOf(dev, before, w, hosts, q);
    FetchPlace(w, hosts[q], q);
    FetchCounts(w.mem, w.base, hosts[q], w.ctl.queues[q], q);
    assert FetchEnabled(w, q);
  }

  lemma FetchPlace(w: World, h: HostQueue, q: nat)
    requires WorldOk(w) && q < 2 && QueueInv(w.mem, w.base, h, w.ctl.queues[q], q) && CanFetch(w.ctl.queues[q])
    ensures InRegion(w, FetchAddress(w, q), SQE_SIZE)
  {
    hide SqView, CqView, SqHolds, CqHolds, PostsOk, AnsweredOnce, Lap, CidsOk, InStep, JobsOk, OriginsOk, HostOk;
  }

  lemma FetchCounts(mem: seq<U8>, base: nat, h: HostQueue, c: CtlQueue, q: nat)
    requires |mem| == HUGE_PAGE_SIZE && q < 2 && QueueInv(mem, base, h, c, q)
    ensures c.fetched !in c.jobs && |c.origins| == c.fetched
  {
    hide SqView, CqView, SqHolds, CqHolds, PostsOk, AnsweredOnce, Lap, CidsOk, InStep, HostOk, NextOrigin, PointersOk;
  }

  lemma NextFailed(dev: Device, before: seq<U8>, w: World, hosts: seq<HostQueue>, q: nat, c: CtlQueue)
    requires SysInv(dev, before, w, hosts) && q < 2 && WorldOk(w) && Live(w) && NextInFlight(c, w.ctl.queues[q])
    requires c.cqSize == 64 && |c.posted| == hosts[q].consumed
    ensures ValidDevice(dev)
    ensures var v := Step(dev, w, Post(q, c.fetched, 2, 0)); Live(v) && FailedNext(c, v.ctl.queues[q])
  {
    hide SysInv, ValidDevice, CanPost, IsSuccess, EncodeCqe, WriteAt, CompletionOf, MaySucceed, NextOrigin;
    ShapeOf(dev, before, w, hosts);
    var k := c.fetched;
    LateFacts(dev, before, w, hosts, q, k);
    FailureStatus(w.ctl.queues[q], k, q);
    assert PostEnabled(dev, w, q, k, 2, 0);
    assert w.ctl.queues[q].jobs - {k} == c.jobs;
  }

  /** When a whole call can go like that: afterwards the ring must not look empty. */
  predicate CanFailCall(w: World, h: HostQueue, q: nat)
    requires WorldOk(w) && q < 2
  {
    var c := w.ctl.queues[q];
    Live(w) && c.sqSize == c.cqSize == 64 && |c.posted| == h.consumed && (c.rung + 1 - c.fetched) % 64 != 0
  }

  /** How it ends: the host takes the answer for its own if the identifiers agree. */
  predicate FailedCall(w: World, h: HostQueue, command: Sqe, o: Outcome)
    requires WorldOk(w) && WorldOk(o.w) && HostFits(h)
  {
    var c, d := Rung(w.ctl.queues[h.id], (h.tail + 1) % 64), o.w.ctl.queues[h.id];
    && o.h == Consumed(Called(h, command)) && Live(o.w) && FailedNext(c, d)
    && h.consumed < |d.posted|
    && o.result == var cid := NextOrigin(c) % 0x1_0000;
                   if cid != h.cid then Err(WrongCommand(cid, h.cid)) else Ok(d.posted[h.consumed].cqe)
  }

  /** A whole call in which the controller fetches one command and fails it. */
  lemma FailNextCall(dev: Device, before: seq<U8>, w: World, hosts: seq<HostQueue>, q: nat, command: Sqe, limit: nat)
    requires Callable(dev, before, w, hosts, q, command)
    requires WorldOk(w) && |hosts| == 2 && q < 2 && HostFits(hosts[q])
    requires hosts[q].id == q && CanFailCall(w, hosts[q], q)
    ensures ValidDevice(dev)
    ensures var sched := Once(FailNext(q, w.ctl.queues[q].fetched), w.clock + 2);
      FailedCall(w, hosts[q], command, SubmitAndWait(dev, sched, w, hosts[q], command, limit))
  {
    hide Callable, SysInv, SubmitAndWait, ValidDevice, Begun, Called, Once, Run, Waiting, ActsOnce, FailedNext,
         NextOrigin, FailNext;
    CallableShape(dev, before, w, hosts, q, command);
    var h, c := hosts[q], w.ctl.queues[q];
    var actions := FailNext(q, c.fetched);
    var v, g := Begun(dev, w, h, command), Called(h, command);
    BegunKeeps(dev, before, w, hosts, q, command);
    BegunFacts(dev, w, h, command);
    CalledCounts(h, command);
    FetchableNow(dev, before, v, hosts[q := g], q);
    RunFailNext(dev, before, v, hosts[q := g], q);
    OnceActs(actions, w.clock);
    OnceCall(dev, before, Once(actions, w.clock + 2), w, hosts, q, command, limit, actions);
    FailedEnding(dev, w, Run(dev, v, actions), h, command, limit);
  }

  lemma FetchableNow(dev: Device, before: seq<U8>, w: World, hosts: seq<HostQueue>, q: nat)
    requires SysInv(dev, before, w, hosts) && q < 2 && WorldOk(w)
    requires var c := w.ctl.queues[q]; c.sqSize == 64 && (c.rung - c.fetched) % 64 != 0
    ensures CanFetch(w.ctl.queues[q])
  {
    hide SysInv, OriginsOk, NumbersOk, ValidDevice;
    PointerFacts(dev, before, w, hosts, q);
    var c := w.ctl.queues[q];
    if c.fetched % 64 == c.rung % 64 {
      WholeLaps(c.fetched, c.rung);
    }
  }

  lemma FailedEnding(dev: Device, w: World, u: World, h: HostQueue, command: Sqe, limit: nat)
    requires WorldOk(w) && WorldOk(u) && HostFits(h) && Live(u) && HostFits(Called(h, command))
    requires |w.ctl.queues[h.id].posted| == h.consumed == Called(h, command).consumed
    requires FailedNext(Rung(w.ctl.queues[h.id], (h.tail + 1) % 64), u.ctl.queues[h.id])
    ensures FailedCall(w, h, command, Ending(dev, u, Called(h, command), h.cid, w.clock, limit))
  {
    hide Write32, CqDoorbell, StrideOf, NextOrigin;
    FreedQueues(dev, u, Consumed(Called(h, command)), h.id);
  }

  // --- success after timeouts, in order ---------------------------------------------------------------------------

  /** Every call begun after `t` timeouts, if completions arrive in order, fails. */
  ghost predicate AlwaysFails(dev: Device, t: nat) {
    forall before: seq<U8>, sched: Schedule, w: World, hosts: seq<HostQueue>, q: nat, command: Sqe, limit: nat ::
      Callable(dev, before, w, hosts, q, command) && After(hosts, q, t)
      && CompletesInOrder(dev, sched, w, hosts, q, command, limit)
      ==> CallFails(dev, sched, w, hosts, q, command, limit)
  }

  predicate After(hosts: seq<HostQueue>, q: nat, t: nat) {
    q < |hosts| && hosts[q].timeouts == t
  }

  predicate CompletesInOrder(dev: Device, sched: Schedule, w: World, hosts: seq<HostQueue>, q: nat,
                             command: Sqe, limit: nat) {
    && ValidDevice(dev) && WorldOk(w) && |hosts| == 2 && q < 2 && HostFits(hosts[q])
    && InOrder(SubmitAndWait(dev, sched, w, hosts[q], command, limit).w.ctl.queues[q].posted)
  }

  predicate CallFails(dev: Device, sched: Schedule, w: World, hosts: seq<HostQueue>, q: nat, command: Sqe, limit: nat) {
    && ValidDevice(dev) && WorldOk(w) && |hosts| == 2 && q < 2 && HostFits(hosts[q])
    && SubmitAndWait(dev, sched, w, hosts[q], command, limit).result.Err?
  }

  /**
   In-order completion, exactly: calls begun after `t` timeouts always fail if and only if `t` is no multiple of 64.
   At 64 timeouts the ring has gone round once: the controller that wakes up then fetches the newest command
   from the first slot, and its answer is accepted.
   */
  lemma InOrderExact(dev: Device, w: World, t: nat)
    requires Programmed(dev, w)
    ensures AlwaysFails(dev, t) <==> t % 64 != 0
  {
    hide Callable, SubmitAndWait, CompletesInOrder, CallFails, Programmed, JustEnabled, FreshHosts, HostFits,
         Unused, Asking, ValidDevice;
    if t % 64 == 0 {
      JustUnused(dev, w);
      var v := JustEnabled(w);
      CallableShape(dev, w.ctl.media, v, FreshHosts(), 0, Asking(v));
      var sched, u, g := AfterFullLaps(dev, w.ctl.media, v, FreshHosts(), Asking(v), 0, t);
      var hosts := FreshHosts()[0 := g];
      assert hosts[0] == g;
    } else {
      forall before: seq<U8>, sched: Schedule, u: World, hosts: seq<HostQueue>, q: nat, command: Sqe, limit: nat
        | Callable(dev, before, u, hosts, q, command) && After(hosts, q, t)
          && CompletesInOrder(dev, sched, u, hosts, q, command, limit)
        ensures CallFails(dev, sched, u, hosts, q, command, limit)
      {
        FailsBetweenLaps(dev, before, sched, u, hosts, q, command, limit);
      }
    }
  }

  lemma FailsBetweenLaps(dev: Device, before: seq<U8>, sched: Schedule, w: World, hosts: seq<HostQueue>, q: nat,
                         command: Sqe, limit: nat)
    requires Callable(dev, before, w, hosts, q, command) && hosts[q].timeouts % 64 != 0
    requires CompletesInOrder(dev, sched, w, hosts, q, command, limit)
    ensures CallFails(dev, sched, w, hosts, q, command, limit)
  {
    CallableShape(dev, before, w, hosts, q, command);
    hide Callable, SubmitAndWait;
    InOrderDelivery(dev, before, sched, w, hosts, q, command, limit);
  }

  /** After `t` silent calls, a whole number of laps, a controller that wakes up answers the newest command. */
  lemma AfterFullLaps(dev: Device, before: seq<U8>, w: World, hosts: seq<HostQueue>, command: Sqe, limit: nat, t: nat)
    returns (sched: Schedule, u: World, g: HostQueue)
    requires Callable(dev, before, w, hosts, 0, command) && t % 64 == 0
    requires ValidDevice(dev) && WorldOk(w) && |hosts| == 2 && HostFits(hosts[0]) && Unused(w, hosts[0], 0)
    ensures (u, g) == SilentCalls(dev, w, hosts[0], command, limit, t)
    ensures g.timeouts == t && Callable(dev, before, u, hosts[0 := g], 0, command)
    ensures CompletesInOrder(dev, sched, u, hosts[0 := g], 0, command, limit)
    ensures !CallFails(dev, sched, u, hosts[0 := g], 0, command, limit)
  {
    hide Callable, ValidDevice, SilentCalls, SubmitAndWait, FailNext, Called, NextOrigin, OriginsOk, NumbersOk,
         Once, HostFits;
    StaysDeaf(dev, before, w, hosts, 0, command, limit, t);
    var r := SilentCalls(dev, w, hosts[0], command, limit, t);
    u, g := r.0, r.1;
    var later := hosts[0 := g];
    CallableShape(dev, before, u, later, 0, command);
    PointerFacts(dev, before, u, later, 0);
    NextCid(dev, before, u, later, 0);
    BothRings(dev, before, u, later);
    sched := Once(FailNext(0, 0), u.clock + 2);
    AnswersNewest(dev, before, u, later, command, limit, t);
  }

  /** The call after `t` unheard ones: the first slot holds its own command. */
  lemma AnswersNewest(dev: Device, before: seq<U8>, w: World, hosts: seq<HostQueue>, command: Sqe, limit: nat, t: nat)
    requires Callable(dev, before, w, hosts, 0, command) && t % 64 == 0
    requires ValidDevice(dev) && WorldOk(w) && |hosts| == 2 && HostFits(hosts[0]) && hosts[0].id == 0
    requires |hosts[0].submitted| == t && hosts[0].consumed == 0 && hosts[0].cid == t % 0x1_0000
    requires var c := w.ctl.queues[0];
      Live(w) && c.sqSize == c.cqSize == 64 && c.posted == [] && c.fetched == 0 && c.rung == t
    ensures var sched := Once(FailNext(0, 0), w.clock + 2);
      && CompletesInOrder(dev, sched, w, hosts, 0, command, limit)
      && !CallFails(dev, sched, w, hosts, 0, command, limit)
  {
    hide Callable, ValidDevice, SubmitAndWait, FailNext, Called, NextOrigin, Once, HostFits, Live;
    WholeLapOrigin(w.ctl.queues[0], t, (hosts[0].tail + 1) % 64);
    FailNextCall(dev, before, w, hosts, 0, command, limit);
  }

  lemma WholeLapOrigin(c: CtlQueue, t: nat, tail: nat)
    requires c.fetched == 0 && c.rung == t && t % 64 == 0
    ensures NextOrigin(Rung(c, tail)) == t && (c.rung + 1 - c.fetched) % 64 != 0
  {
  }

  /** The admin queue has both its rings or neither. */
  lemma BothRings(dev: Device, before: seq<U8>, w: World, hosts: seq<HostQueue>)
    requires SysInv(dev, before, w, hosts)
    ensures WorldOk(w) && w.ctl.queues[0].sqSize == w.ctl.queues[0].cqSize
  {
    hide QueueInv, CommandsOk, ListsOk, QueuesInOrder, TouchedOk, Provenance, ValidDevice;
  }
}
