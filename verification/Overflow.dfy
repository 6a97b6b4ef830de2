/**
 How many timeouts the submission ring survives. `submit_and_wait` never checks for a full
 submission queue: a call that gives up leaves its command outstanding, and the tail
 keeps advancing. Up to 62 earlier timeouts the doorbell value is unambiguous; with 63 there is a
 controller for which it is not, and 64 commands look like none.
 */
module Overflow {
  import opened Bytes
  import opened NvmeSpec
  import opened DmaLayout
  import opened Ring
  import opened Controller
  import opened System
  import opened Submit
  import opened Scripted

  /** The number of unfetched commands the controller infers from its head and the doorbell. */
  function Backlog(c: CtlQueue): nat
    requires c.sqHead < 64 && c.sqTail < 64
  {
    (c.sqTail + 64 - c.sqHead) % 64
  }

  /** The inference is right exactly while at most 63 commands are unfetched. */
  lemma BacklogExact(h: HostQueue, c: CtlQueue)
    requires PointersOk(h, c) && h.announced == |h.submitted|
    ensures c.sqHead < 64 && c.sqTail < 64
    ensures Backlog(c) == |h.submitted| - c.fetched <==> |h.submitted| - c.fetched <= 63
  {
    ModDifference(c.fetched, |h.submitted|);
    hide Lap;
  }

  lemma ModDifference(a: nat, b: nat)
    requires a <= b
    ensures (b % 64 + 64 - a % 64) % 64 == (b - a) % 64
  {
    var d := b - a;
    assert (a % 64 + d) % 64 == (a + d) % 64 by { ModAdd(a, d); }
    ModBack(a % 64, d, b % 64);
  }

  lemma ModAdd(a: nat, d: nat)
    ensures (a % 64 + d) % 64 == (a + d) % 64
  {
    var x, q := a % 64, a / 64;
    assert a + d == x + d + 64 * q;
    Laps(x + d, q);
  }

  lemma ModBack(x: nat, d: nat, y: nat)
    requires x < 64 && y < 64 && (x + d) % 64 == y
    ensures (y + 64 - x) % 64 == d % 64
  {
  }

  /**
   Begun after at most 62 timeouts, a call never makes the doorbell ambiguous, never overwrites an
   unfetched entry, and the controller's next fetch is the next submission.
   */
  lemma NoOverflow(h: HostQueue, c: CtlQueue, sq: seq<Sqe>, cq: seq<Cqe>)
    requires RingInv(h, c, sq, cq) && h.timeouts <= 62
    ensures |h.submitted| - c.fetched <= 63
    ensures Idle(h) ==> forall n :: c.fetched <= n < |h.submitted| ==> n % 64 != h.tail
    ensures CanFetch(c) ==> c.sqHead < 64 && sq[c.sqHead] == h.submitted[c.fetched]
  {
    hide CqHolds, JobsOk, PostsOk, AnsweredOnce, Lap, CidsOk, InStep, OriginsOk, NextOrigin;
    if Idle(h) {
      forall n | c.fetched <= n < |h.submitted|
        ensures n % 64 != h.tail
      {
        SlotsDiffer(n, |h.submitted|);
      }
    }
    if CanFetch(c) {
      SlotOwner(h, c, sq);
    }
  }

  // --- the controller that never fetches ----------------------------------------------------------------

  function Silence(): Schedule {
    (t: nat) => []
  }

  lemma SilenceActs(start: nat)
    ensures ActsOnce(Silence(), start, [])
  {
  }

  /** `n` calls with the same command, none of which the controller hears. */
  function SilentCalls(dev: Device, w: World, h: HostQueue, command: Sqe, limit: nat, n: nat): (r: (World, HostQueue))
    requires ValidDevice(dev) && WorldOk(w) && HostFits(h)
    ensures WorldOk(r.0) && HostFits(r.1)
  {
    var r := Calls(dev, seq(n, _ => Silence()), w, h, seq(n, _ => command), limit);
    (r.0, r.1)
  }

  lemma OneMoreCall(dev: Device, w: World, h: HostQueue, command: Sqe, limit: nat, n: nat)
    requires ValidDevice(dev) && WorldOk(w) && HostFits(h)
    ensures var (v, g) := SilentCalls(dev, w, h, command, limit, n);
      var o := SubmitAndWait(dev, Silence(), v, g, command, limit);
      SilentCalls(dev, w, h, command, limit, n + 1) == (o.w, o.h)
  {
    hide SubmitAndWait, Calls, ValidDevice, WorldOk, HostFits, Silence;
    CallsGrow(dev, seq(n, _ => Silence()), w, h, seq(n, _ => command), limit, Silence(), command);
    assert seq(n, _ => Silence()) + [Silence()] == seq(n + 1, _ => Silence());
    assert seq(n, _ => command) + [command] == seq(n + 1, _ => command);
  }

  /** A call the controller does not hear leaves one more command unfetched. */
  lemma Unheard(dev: Device, before: seq<U8>, w: World, hosts: seq<HostQueue>, q: nat, command: Sqe, limit: nat)
    requires Callable(dev, before, w, hosts, q, command)
    ensures WorldOk(w) && HostFits(hosts[q])
    ensures var o := SubmitAndWait(dev, Silence(), w, hosts[q], command, limit);
      && o.w.ctl.queues[q].fetched == w.ctl.queues[q].fetched && o.w.ctl.queues[q].posted == w.ctl.queues[q].posted
      && o.w.ctl.queues[q].sqSize == w.ctl.queues[q].sqSize && o.w.ctl.regs == w.ctl.regs
      && o.w.ctl.queues[q].jobs == w.ctl.queues[q].jobs
      && (|w.ctl.queues[q].posted| == hosts[q].consumed ==> o.h == GivenUp(Called(hosts[q], command)))
  {
    hide Callable, SubmitAndWait, ValidDevice, Begun, Silence, HostFits;
    CallableShape(dev, before, w, hosts, q, command);
    SilenceActs(w.clock);
    OnceCall(dev, before, Silence(), w, hosts, q, command, limit, []);
    BegunFacts(dev, w, hosts[q], command);
    var g := Called(hosts[q], command);
    FreedQueues(dev, Begun(dev, w, hosts[q], command), Consumed(g), q) by { StillFits(g); }
  }

  lemma StillFits(h: HostQueue)
    requires HostFits(h)
    ensures HostFits(Consumed(h)) && Consumed(h).id == h.id
  {
  }

  /** What `n` unheard calls leave behind. */
  predicate Deaf(dev: Device, before: seq<U8>, w: World, hosts: seq<HostQueue>, q: nat, command: Sqe, v: World,
                 g: HostQueue, n: nat)
    requires WorldOk(w) && WorldOk(v) && |hosts| == 2 && q < 2
  {
    && Callable(dev, before, v, hosts[q := g], q, command)
    && |g.submitted| == |hosts[q].submitted| + n
    && v.ctl.queues[q].fetched == w.ctl.queues[q].fetched && v.ctl.queues[q].posted == w.ctl.queues[q].posted
    && v.ctl.queues[q].sqSize == w.ctl.queues[q].sqSize && v.ctl.queues[q].jobs == w.ctl.queues[q].jobs
    && v.ctl.regs == w.ctl.regs
    && (|w.ctl.queues[q].posted| == hosts[q].consumed ==>
          g.consumed == hosts[q].consumed && g.timeouts == hosts[q].timeouts + n)
  }

  lemma {:induction false} StaysDeaf(dev: Device, before: seq<U8>, w: World, hosts: seq<HostQueue>, q: nat,
                                     command: Sqe, limit: nat, n: nat)
    requires Callable(dev, before, w, hosts, q, command)
    ensures ValidDevice(dev) && WorldOk(w) && |hosts| == 2 && HostFits(hosts[q])
    ensures var (v, g) := SilentCalls(dev, w, hosts[q], command, limit, n);
      Deaf(dev, before, w, hosts, q, command, v, g, n)
  {
    hide Callable, SubmitAndWait, ValidDevice, WorldOk, HostFits, Silence, Deaf;
    CallableShape(dev, before, w, hosts, q, command);
    if n == 0 {
      assert hosts[q := hosts[q]] == hosts;
      DeafAtFirst(dev, before, w, hosts, q, command);
    } else {
      hide SilentCalls;
      StaysDeaf(dev, before, w, hosts, q, command, limit, n - 1);
      OneMoreCall(dev, w, hosts[q], command, limit, n - 1);
      var (v, g) := SilentCalls(dev, w, hosts[q], command, limit, n - 1);
      DeafGrows(dev, before, w, hosts, q, command, v, g, limit, n - 1);
    }
  }

  lemma DeafAtFirst(dev: Device, before: seq<U8>, w: World, hosts: seq<HostQueue>, q: nat, command: Sqe)
    requires Callable(dev, before, w, hosts, q, command)
    ensures WorldOk(w) && |hosts| == 2 && q < 2 && Deaf(dev, before, w, hosts, q, command, w, hosts[q], 0)
  {
    CallableShape(dev, before, w, hosts, q, command);
    hide Callable;
    assert hosts[q := hosts[q]] == hosts;
  }

  lemma DeafGrows(dev: Device, before: seq<U8>, w: World, hosts: seq<HostQueue>, q: nat, command: Sqe, v: World,
                  g: HostQueue,
                  limit: nat, n: nat)
    requires ValidDevice(dev) && WorldOk(w) && WorldOk(v) && |hosts| == 2 && q < 2 && HostFits(g)
    requires Deaf(dev, before, w, hosts, q, command, v, g, n)
    ensures var o := SubmitAndWait(dev, Silence(), v, g, command, limit);
      Deaf(dev, before, w, hosts, q, command, o.w, o.h, n + 1)
  {
    hide Callable, SubmitAndWait, ValidDevice, WorldOk, HostFits, Silence, Called;
    Unheard(dev, before, v, hosts[q := g], q, command, limit);
    CallAgain(dev, before, Silence(), v, hosts[q := g], q, command, limit);
    var o := SubmitAndWait(dev, Silence(), v, g, command, limit);
    assert hosts[q := g][q := o.h] == hosts[q := o.h];
    CalledCounts(g, command);
  }

  /**
   The bound is exact. From any state in which a command may be submitted, `n` calls the controller does
   not hear leave `b + n` commands unfetched, where `b` were unfetched before. The doorbell tells the
   controller so if and only if `b + n` is at most 63; and at every multiple of 64 the ring looks empty.
   */
  lemma OverflowExact(dev: Device, before: seq<U8>, w: World, hosts: seq<HostQueue>, q: nat, command: Sqe,
                      limit: nat, n: nat)
    requires Callable(dev, before, w, hosts, q, command)
    ensures ValidDevice(dev) && WorldOk(w) && HostFits(hosts[q])
    ensures var (v, g) := SilentCalls(dev, w, hosts[q], command, limit, n); var c := v.ctl.queues[q];
      var unfetched := |hosts[q].submitted| - w.ctl.queues[q].fetched + n;
      && c.sqHead < 64 && c.sqTail < 64 && |g.submitted| - c.fetched == unfetched
      && (Backlog(c) == unfetched <==> unfetched <= 63)
      && (CanFetch(c) <==> c.sqSize > 0 && unfetched % 64 != 0)
  {
    hide Callable, SilentCalls, ValidDevice, HostFits, Backlog, CanFetch, PointersOk, QueueInv, SysInv, Idle;
    CallableShape(dev, before, w, hosts, q, command);
    StaysDeaf(dev, before, w, hosts, q, command, limit, n);
    var (v, g) := SilentCalls(dev, w, hosts[q], command, limit, n);
    CallableShape(dev, before, v, hosts[q := g], q, command);
    QueueOf(dev, before, v, hosts[q := g], q);
    PointersOf(v.mem, v.base, g, v.ctl.queues[q], q);
    OverflowCounts(g, v.ctl.queues[q]);
  }

  lemma OverflowCounts(h: HostQueue, c: CtlQueue)
    requires PointersOk(h, c) && h.announced == |h.submitted|
    ensures var unfetched := |h.submitted| - c.fetched;
      && c.sqHead < 64 && c.sqTail < 64
      && (Backlog(c) == unfetched <==> unfetched <= 63) && (CanFetch(c) <==> c.sqSize > 0 && unfetched % 64 != 0)
  {
    hide Backlog, CanFetch, Lap;
    BacklogExact(h, c);
    LooksEmpty(h, c);
  }

  lemma PointersOf(mem: seq<U8>, base: nat, h: HostQueue, c: CtlQueue, q: nat)
    requires |mem| == HUGE_PAGE_SIZE && q < 2 && QueueInv(mem, base, h, c, q)
    ensures PointersOk(h, c)
  {
    hide SqView, CqView, PointersOk;
  }

  lemma LooksEmpty(h: HostQueue, c: CtlQueue)
    requires PointersOk(h, c) && h.announced == |h.submitted|
    ensures CanFetch(c) <==> c.sqSize > 0 && (|h.submitted| - c.fetched) % 64 != 0
  {
    hide Lap;
    if c.fetched % 64 != |h.submitted| % 64 {
      Lapsed(c.fetched, |h.submitted|);
    } else {
      WholeLaps(c.fetched, |h.submitted|);
    }
  }
}
