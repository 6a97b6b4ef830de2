/**
 The adversary can also be helpful: for every call that asks for something the device can do there
 is a schedule under which the call succeeds, and bring-up as a whole succeeds too. So nothing proved
 about successful calls is empty, and a completion posted in time is never missed.
 */
module Progress {
  import opened Bytes
  import opened NvmeSpec
  import opened DmaLayout
  import opened Ring
  import opened Controller
  import opened System
  import opened Submit
  import opened Scripted
  import opened Effect
  import opened BringUp
  import opened Wrappers

  function Moves(q: nat, n: nat, length: nat): seq<Action> {
    if length == 0 then [] else Moves(q, n, length - 1) + [Move(q, n, length - 1)]
  }

  /** Fetch the command, move its bytes in order, report success. */
  function Script(q: nat, n: nat, length: nat): seq<Action> {
    [Fetch(q)] + Moves(q, n, length) + [Post(q, n, 0, 0)]
  }

  /** The script for the next command of a queue at rest, at the first poll of a call that begins in `w`. */
  function Helpful(dev: Device, w: World, h: HostQueue, q: nat, command: Sqe): Schedule
    requires HostFits(h)
  {
    Once(Script(q, |h.submitted|, TransferLength(dev, w.ctl.media, q, Stamped(h, command))), w.clock + 2)
  }

  lemma {:induction false} RunAppend(dev: Device, w: World, a: seq<Action>, b: seq<Action>)
    requires ValidDevice(dev) && WorldOk(w)
    ensures Run(dev, w, a + b) == Run(dev, Run(dev, w, a), b)
    decreases |a|
  {
    hide Step, ValidDevice, WorldOk;
    if a == [] {
      assert a + b == b;
    } else {
      assert (a + b)[0] == a[0] && (a + b)[1..] == a[1..] + b;
      RunAppend(dev, Step(dev, w, a[0]), a[1..], b);
    }
  }

  lemma RunOne(dev: Device, w: World, a: Action)
    requires ValidDevice(dev) && WorldOk(w)
    ensures Run(dev, w, [a]) == Step(dev, w, a)
  {
    hide Step, ValidDevice, WorldOk;
    assert [a][1..] == [];
  }

  /** Command `n` is in flight, `k` bytes of it have been moved, and `m` completions are posted and read. */
  predicate Underway(w: World, q: nat, n: nat, m: nat, e: Sqe, k: nat)
    requires WorldOk(w) && q < 2
  {
    var c := w.ctl.queues[q];
    && Live(w) && n in c.jobs && c.jobs[n].sqe == e && |c.posted| == m
    && (forall b: nat :: b < k ==> b in c.jobs[n].moved)
    && c.cqSize == 64 && c.cqBase == w.base + CqOffset(q) && c.cqTail == c.cqHead == m % 64
  }

  /** The rings of the I/O queue, on which the acceptance of create commands depends. */
  predicate SameRings(w: World, v: World)
    requires WorldOk(w) && WorldOk(v)
  {
    v.ctl.queues[1].sqSize == w.ctl.queues[1].sqSize && v.ctl.queues[1].cqSize == w.ctl.queues[1].cqSize
  }

  /** Where the script begins. */
  predicate ScriptReady(w: World, q: nat, n: nat)
    requires WorldOk(w) && q < 2
  {
    var c := w.ctl.queues[q];
    && Live(w) && c.fetched == n && c.sqSize == c.cqSize == 64
    && c.sqHead == c.cqTail == c.cqHead == n % 64 && c.sqTail == (n + 1) % 64
    && c.sqBase == w.base + SqOffset(q) && c.cqBase == w.base + CqOffset(q)
  }

  lemma FetchUnderway(dev: Device, before: seq<U8>, s: Start, w: World, hosts: seq<HostQueue>, q: nat, n: nat, e: Sqe)
    requires SysInv(dev, before, w, hosts) && q < 2 && Fits(dev, s, q, e) && HostCalls(hosts[q], n, e)
    requires CallInv(dev, s, w, q, n, e) && ScriptReady(w, q, n)
    ensures var v := Step(dev, w, Fetch(q)); Underway(v, q, n, n, e, 0) && SameRings(w, v)
  {
    hide RingInv, QueueInv, CommandsOk, ListsOk, NoCreates, TouchedOk, Provenance, Effects, TransferLength,
         DecodeSqe, ReadAt, HostCalls, AllMoved, IsSuccess, NextOrigin, RingsLive;
    SlotsDiffer(n, n + 1);
    StepCall(dev, before, s, w, hosts, q, n, e, Fetch(q));
    StageOf(dev, s, Step(dev, w, Fetch(q)), q, n, e);
    assert FetchEnabled(w, q);
  }

  lemma MoveUnderway(dev: Device, w: World, q: nat, n: nat, m: nat, e: Sqe, k: nat)
    requires ValidDevice(dev) && WorldOk(w) && q < 2 && Underway(w, q, n, m, e, k)
    requires k < TransferLength(dev, w.ctl.media, q, e)
    ensures var v := Step(dev, w, Move(q, n, k)); Underway(v, q, n, m, e, k + 1) && SameRings(w, v)
  {
    hide TransferLength, MoveAddress, SourceByte, MediaStart, WriteAt;
  }

  lemma {:induction false} MovesUnderway(dev: Device, w: World, q: nat, n: nat, m: nat, e: Sqe, k: nat)
    requires ValidDevice(dev) && WorldOk(w) && q < 2 && Underway(w, q, n, m, e, 0)
    requires k <= TransferLength(dev, w.ctl.media, q, e)
    ensures var v := Run(dev, w, Moves(q, n, k)); Underway(v, q, n, m, e, k) && SameRings(w, v)
  {
    hide Step, ValidDevice, WorldOk, Underway, TransferLength;
    if k > 0 {
      MovesUnderway(dev, w, q, n, m, e, k - 1);
      var v := Run(dev, w, Moves(q, n, k - 1));
      SameLength(dev, w.ctl.media, v.ctl.media, q, e);
      MoveUnderway(dev, v, q, n, m, e, k - 1);
      RunAppend(dev, w, Moves(q, n, k - 1), [Move(q, n, k - 1)]);
      RunOne(dev, v, Move(q, n, k - 1));
    }
  }

  /** A completion with all status bits clear reports success, whatever its phase tag. */
  lemma ClearStatus(c: CtlQueue, k: nat, q: U16)
    requires k in c.jobs
    ensures IsSuccess(CompletionOf(c, k, q, 0, 0))
  {
  }

  lemma PostUnderway(dev: Device, w: World, q: nat, n: nat, m: nat, e: Sqe)
    requires ValidDevice(dev) && WorldOk(w) && q < 2 && Acceptable(dev, w.ctl, q, e)
    requires Underway(w, q, n, m, e, TransferLength(dev, w.ctl.media, q, e))
    ensures var v := Step(dev, w, Post(q, n, 0, 0)); var c := v.ctl.queues[q];
      && |c.posted| == m + 1 && IsSuccess(c.posted[m].cqe) && c.posted[m].number == n && c.posted[m].cqe.cid == e.cid
      && Live(v) && v.ctl.media == w.ctl.media && c.origins == w.ctl.queues[q].origins
  {
    ClearStatus(w.ctl.queues[q], n, q);
    SlotsDiffer(m, m + 1);
    SlotStep(m);
    hide TransferLength, IsSuccess, EncodeCqe, WriteAt, CompletionOf, Configured, Acceptable;
    assert PostEnabled(dev, w, q, n, 0, 0);
  }

  lemma StillAcceptable(dev: Device, w: World, v: World, q: nat, e: Sqe)
    requires WorldOk(w) && WorldOk(v) && SameRings(w, v) && |v.ctl.media| == |w.ctl.media|
    ensures Acceptable(dev, w.ctl, q, e) == Acceptable(dev, v.ctl, q, e)
    ensures TransferLength(dev, w.ctl.media, q, e) == TransferLength(dev, v.ctl.media, q, e)
  {
    SameLength(dev, w.ctl.media, v.ctl.media, q, e);
    hide TransferLength;
  }

  lemma ScriptSucceeds(dev: Device, before: seq<U8>, s: Start, w: World, hosts: seq<HostQueue>, q: nat, n: nat, e: Sqe)
    requires SysInv(dev, before, w, hosts) && q < 2 && Fits(dev, s, q, e) && HostCalls(hosts[q], n, e)
    requires CallInv(dev, s, w, q, n, e) && ScriptReady(w, q, n) && Acceptable(dev, w.ctl, q, e)
    ensures var v := Run(dev, w, Script(q, n, TransferLength(dev, w.ctl.media, q, e))); var c := v.ctl.queues[q];
      |c.posted| == n + 1 && IsSuccess(c.posted[n].cqe) && Live(v)
  {
    ShapeOf(dev, before, w, hosts);
    hide SysInv, CallInv, Fits, HostCalls, TransferLength, ValidDevice, WorldOk, Step, Underway, Live, IsSuccess,
         Run, Acceptable, SameRings;
    var length := TransferLength(dev, w.ctl.media, q, e);
    var first, last := [Fetch(q)], [Post(q, n, 0, 0)];
    FetchUnderway(dev, before, s, w, hosts, q, n, e);
    RunOne(dev, w, Fetch(q));
    var w1 := Run(dev, w, first);
    StillAcceptable(dev, w, w1, q, e);
    MovesUnderway(dev, w1, q, n, n, e, length);
    RunAppend(dev, w, first, Moves(q, n, length));
    var w2 := Run(dev, w, first + Moves(q, n, length));
    StillAcceptable(dev, w1, w2, q, e);
    PostUnderway(dev, w2, q, n, n, e);
    RunAppend(dev, w, first + Moves(q, n, length), last);
    RunOne(dev, w2, Post(q, n, 0, 0));
  }

  /** Where the pointers of a queue at rest stand. */
  lemma PointersAtRest(mem: seq<U8>, base: nat, h: HostQueue, c: CtlQueue, q: nat)
    requires |mem| == HUGE_PAGE_SIZE && q < 2 && QueueInv(mem, base, h, c, q) && Settling(h)
    requires c.sqSize == c.cqSize == 64
    ensures var n := |h.submitted|;
      && c.fetched == n && h.consumed == n && h.tail == n % 64 && c.sqHead == c.cqTail == c.cqHead == n % 64
      && c.sqBase == base + SqOffset(q) && c.cqBase == base + CqOffset(q)
      && (h.tail + 1) % 64 == (n + 1) % 64
  {
    QueueParts(mem, base, h, c, q);
    QuietQueue(mem, base, h, c, q);
    hide SqView, CqView, SqHolds, CqHolds, JobsOk, PostsOk, AnsweredOnce, Lap, CidsOk, InStep, OriginsOk,
         NextOrigin, QueueInv;
    SlotStep(|h.submitted|);
  }

  /** The premises under which a helpful controller completes a call successfully. */
  predicate CanServe(dev: Device, w: World, hosts: seq<HostQueue>, q: nat, command: Sqe)
    requires WorldOk(w) && |hosts| == 2 && q < 2 && HostFits(hosts[q])
  {
    && Settling(hosts[0]) && Settling(hosts[1]) && Live(w)
    && w.ctl.queues[q].sqSize == w.ctl.queues[q].cqSize == 64
    && Fits(dev, Start(w.ctl.media, w.mem, w.ctl.queues[1]), q, Stamped(hosts[q], command))
    && Acceptable(dev, w.ctl, q, Stamped(hosts[q], command))
  }

  lemma BegunReady(dev: Device, before: seq<U8>, w: World, hosts: seq<HostQueue>, q: nat, command: Sqe)
    requires Callable(dev, before, w, hosts, q, command)
    requires WorldOk(w) && |hosts| == 2 && q < 2 && HostFits(hosts[q]) && CanServe(dev, w, hosts, q, command)
    ensures var v, n, e := Begun(dev, w, hosts[q], command), |hosts[q].submitted|, Stamped(hosts[q], command);
      && ScriptReady(v, q, n) && hosts[q].consumed == n && hosts[q].timeouts == 0
      && Acceptable(dev, v.ctl, q, e)
      && TransferLength(dev, v.ctl.media, q, e) == TransferLength(dev, w.ctl.media, q, e)
  {
    CallableShape(dev, before, w, hosts, q, command);
    hide Callable, SysInv, QueueInv, Begun, Fits, Acceptable, ValidDevice, TransferLength;
    QueueOf(dev, before, w, hosts, q);
    PointersAtRest(w.mem, w.base, hosts[q], w.ctl.queues[q], q);
    BegunFacts(dev, w, hosts[q], command);
    StillAcceptable(dev, w, Begun(dev, w, hosts[q], command), q, Stamped(hosts[q], command));
  }

  lemma BegunCall(dev: Device, before: seq<U8>, w: World, hosts: seq<HostQueue>, q: nat, command: Sqe)
    requires Callable(dev, before, w, hosts, q, command)
    requires WorldOk(w) && |hosts| == 2 && q < 2 && HostFits(hosts[q]) && CanServe(dev, w, hosts, q, command)
    ensures var s, n, e := Start(w.ctl.media, w.mem, w.ctl.queues[1]), |hosts[q].submitted|, Stamped(hosts[q], command);
      && CallInv(dev, s, Begun(dev, w, hosts[q], command), q, n, e) && HostCalls(Called(hosts[q], command), n, e)
  {
    CallableShape(dev, before, w, hosts, q, command);
    hide Callable, SysInv, Begun, Fits, Acceptable, ValidDevice, TransferLength, CallInv, HostCalls, Launched, Live,
         Called;
    var sched := Once([], 0);
    CallBegins(dev, before, w, hosts, q, Stamped(hosts[q], command));
    LaunchCall(dev, before, sched, Start(w.ctl.media, w.mem, w.ctl.queues[1]), w, hosts, q, command);
    QuietLaunch(dev, sched, w, hosts[q], command);
  }

  /** A helped call succeeds, and leaves a controller that can help again. */
  lemma HelpedCall(dev: Device, before: seq<U8>, sched: Schedule, w: World, hosts: seq<HostQueue>, q: nat,
                   command: Sqe, limit: nat)
    requires Callable(dev, before, w, hosts, q, command)
    requires WorldOk(w) && |hosts| == 2 && q < 2 && HostFits(hosts[q]) && CanServe(dev, w, hosts, q, command)
    requires var n, e := |hosts[q].submitted|, Stamped(hosts[q], command);
      ActsOnce(sched, w.clock, Script(q, n, TransferLength(dev, w.ctl.media, q, e)))
    ensures ValidDevice(dev)
    ensures var o := SubmitAndWait(dev, sched, w, hosts[q], command, limit);
      && o.result != Err(TimedOut) && (o.result.Ok? ==> IsSuccess(o.result.value)) && Live(o.w)
  {
    CallableShape(dev, before, w, hosts, q, command);
    BegunReady(dev, before, w, hosts, q, command);
    BegunCall(dev, before, w, hosts, q, command);
    hide Callable, CanServe, SysInv, Begun, Fits, Acceptable, ValidDevice, TransferLength, CallInv, HostCalls, Live,
         Called, Script, SubmitAndWait, IsSuccess, ScriptReady, ActsOnce, Run, Waiting;
    var n, e := |hosts[q].submitted|, Stamped(hosts[q], command);
    var s := Start(w.ctl.media, w.mem, w.ctl.queues[1]);
    var v, g := Begun(dev, w, hosts[q], command), Called(hosts[q], command);
    BegunKeeps(dev, before, w, hosts, q, command);
    assert Fits(dev, s, q, e) by { ServeFits(dev, w, hosts, q, command); }
    ScriptSucceeds(dev, before, s, v, hosts[q := g], q, n, e);
    var actions := Script(q, n, TransferLength(dev, w.ctl.media, q, e));
    OnceCall(dev, before, sched, w, hosts, q, command, limit, actions);
    CalledCounts(hosts[q], command);
    EndingSucceeds(dev, Run(dev, v, actions), g, hosts[q].cid, w.clock, limit);
  }

  lemma ServeFits(dev: Device, w: World, hosts: seq<HostQueue>, q: nat, command: Sqe)
    requires WorldOk(w) && |hosts| == 2 && q < 2 && HostFits(hosts[q]) && CanServe(dev, w, hosts, q, command)
    ensures Fits(dev, Start(w.ctl.media, w.mem, w.ctl.queues[1]), q, Stamped(hosts[q], command))
  {
  }

  lemma EndingSucceeds(dev: Device, w: World, h: HostQueue, cid: nat, start: nat, limit: nat)
    requires WorldOk(w) && HostFits(h) && Live(w)
    requires var c := w.ctl.queues[h.id]; h.consumed < |c.posted| && IsSuccess(c.posted[h.consumed].cqe)
    ensures var o := Ending(dev, w, h, cid, start, limit);
      o.result != Err(TimedOut) && (o.result.Ok? ==> IsSuccess(o.result.value)) && Live(o.w)
  {
    hide IsSuccess, Write32, CqDoorbell, StrideOf;
    FreedQueues(dev, w, Consumed(h), h.id);
  }

  /**
   Possibility of success: begun with nothing outstanding, every command that the device can accept (Identify,
   Read or Write of something that exists, the creation of a queue that does not) succeeds under some
   schedule, for every number of idle polls the host tolerates.
   */
  lemma CallCanSucceed(dev: Device, before: seq<U8>, w: World, hosts: seq<HostQueue>, q: nat, command: Sqe, limit: nat)
    requires Callable(dev, before, w, hosts, q, command)
    requires WorldOk(w) && |hosts| == 2 && q < 2 && HostFits(hosts[q]) && CanServe(dev, w, hosts, q, command)
    ensures ValidDevice(dev)
    ensures var o := SubmitAndWait(dev, Helpful(dev, w, hosts[q], q, command), w, hosts[q], command, limit);
      o.result.Ok? && IsSuccess(o.result.value) && Settling(o.h) && Live(o.w)
  {
    var n, e := |hosts[q].submitted|, Stamped(hosts[q], command);
    var actions := Script(q, n, TransferLength(dev, w.ctl.media, q, e));
    hide Callable, SysInv, Fits, Acceptable, ValidDevice, TransferLength, CallInv, Live, Script, SubmitAndWait,
         IsSuccess, Settling, Once, ActsOnce, Succeeded;
    var sched := Helpful(dev, w, hosts[q], q, command);
    OnceActs(actions, w.clock);
    HelpedCall(dev, before, sched, w, hosts, q, command, limit);
    QuietCall(dev, before, sched, w, hosts, q, command, limit);
  }

  // --- bring-up as a whole ---------------------------------------------------------------------------------

  /** Bring-up's last register write, followed by the controller raising RDY. */
  function JustEnabled(w: World): World {
    SetRegs(w.(ctl := WriteConfiguration(w.ctl, 0x46_0001)), WriteConfiguration(w.ctl, 0x46_0001).regs.(ready := true))
  }

  /** The reset is done and the admin queue registers are programmed. */
  predicate Programmed(dev: Device, w: World) {
    && ValidDevice(dev) && WorldOk(w) && Dead(w) && Zeroed(w.mem) && w.ctl.touched == {}
    && w.ctl.regs.aqa == ADMIN_ATTRIBUTES
    && w.ctl.regs.asq == w.base + ADMIN_SUBMISSION_QUEUE_OFFSET
    && w.ctl.regs.acq == w.base + ADMIN_COMPLETION_QUEUE_OFFSET
  }

  lemma EnabledFacts(dev: Device, w: World)
    requires Programmed(dev, w)
    ensures var v := JustEnabled(w);
      && WorldOk(v) && v.base == w.base && SysInv(dev, w.ctl.media, v, FreshHosts()) && Live(v)
      && v.ctl.queues[0].sqSize == v.ctl.queues[0].cqSize == 64
      && v.ctl.queues[1] == NO_QUEUE && v.ctl.media == w.ctl.media
  {
    hide SysInv, Zeroed, FreshHosts, ValidDevice;
    var u := w.(ctl := WriteConfiguration(w.ctl, 0x46_0001));
    EnableKeeps(dev, w, 0x46_0001);
    RegsStep(dev, w.ctl.media, u, FreshHosts(), u.ctl.regs.(ready := true));
  }

  /** Between two commands of bring-up. */
  predicate ComingUp(dev: Device, before: seq<U8>, w: World, hosts: seq<HostQueue>) {
    && SysInv(dev, before, w, hosts) && Live(w)
    && Settling(hosts[0]) && Settling(hosts[1]) && hosts[1].submitted == []
    && w.ctl.queues[0].sqSize == w.ctl.queues[0].cqSize == 64
  }

  lemma JustComingUp(dev: Device, w: World)
    requires Programmed(dev, w)
    ensures WorldOk(w) && ComingUp(dev, w.ctl.media, JustEnabled(w), FreshHosts())
  {
    hide SysInv, JustEnabled, FreshHosts, HostFits, Idle;
    EnabledFacts(dev, w);
    FreshFacts();
  }

  /** The commands of bring-up, and when the controller may accept them. */
  predicate BringUpCommand(dev: Device, w: World, command: Sqe)
    requires WorldOk(w)
  {
    var io := w.ctl.queues[1];
    || (command == NvmeIdentify(CNS_CONTROLLER, 0, w.base + DATA_OFFSET))
    || (command == NvmeIdentify(CNS_NAMESPACE, dev.nsid, w.base + DATA_OFFSET))
    || (command == NvmeCreateIoCompletionQueue(1, 64, w.base + IO_COMPLETION_QUEUE_OFFSET) && io.cqSize == 0)
    || (command == NvmeCreateIoSubmissionQueue(1, 64, 1, w.base + IO_SUBMISSION_QUEUE_OFFSET)
        && io.sqSize == 0 && io.cqSize > 0)
  }

  lemma BringUpServed(dev: Device, w: World, h: HostQueue, command: Sqe)
    requires ValidDevice(dev) && WorldOk(w) && HostFits(h) && BringUpCommand(dev, w, command)
    ensures var e := Stamped(h, command);
      && Fits(dev, Start(w.ctl.media, w.mem, w.ctl.queues[1]), 0, e) && Acceptable(dev, w.ctl, 0, e)
  {
    CreateFields(1, 64, 1, w.base + IO_COMPLETION_QUEUE_OFFSET);
    CreateFields(1, 64, 1, w.base + IO_SUBMISSION_QUEUE_OFFSET);
    hide ValidDevice, Word;
  }

  /** A command of bring-up may be submitted. */
  lemma BringUpCallable(dev: Device, before: seq<U8>, w: World, hosts: seq<HostQueue>, command: Sqe)
    requires ComingUp(dev, before, w, hosts) && WorldOk(w) && BringUpCommand(dev, w, command)
    ensures Callable(dev, before, w, hosts, 0, command) && |hosts| == 2 && HostFits(hosts[0])
    ensures CanServe(dev, w, hosts, 0, command)
  {
    ShapeOf(dev, before, w, hosts);
    hide SysInv, MaySubmit, HostFits, Fits, Acceptable, NvmeCreateIoCompletionQueue, NvmeCreateIoSubmissionQueue,
         ValidDevice, Live, Idle, Settling;
    QueueOf(dev, before, w, hosts, 0);
    PlacedHost(w.mem, w.base, hosts[0], w.ctl.queues[0], 0);
    SettlingIdle(hosts[0]);
    BringUpServed(dev, w, hosts[0], command);
    if command.opc == OP_IDENTIFY {
      MayIdentify(dev, before, w, hosts, command);
    } else {
      MayCreate(dev, before, w, hosts, command);
    }
  }

  lemma SettlingIdle(h: HostQueue)
    requires Settling(h)
    ensures Idle(h)
  {
  }

  lemma PlacedHost(mem: seq<U8>, base: nat, h: HostQueue, c: CtlQueue, q: nat)
    requires |mem| == HUGE_PAGE_SIZE && q < 2 && QueueInv(mem, base, h, c, q)
    ensures HostFits(h) && h.id == q
  {
    hide SqView, CqView, SqHolds, CqHolds, JobsOk, PostsOk, AnsweredOnce, Lap, CidsOk, InStep, OriginsOk, PointersOk;
  }

  /** The outcome of a command of bring-up under a helpful controller. */
  function Served(dev: Device, w: World, h: HostQueue, command: Sqe, limit: nat): Outcome
    requires ValidDevice(dev) && WorldOk(w) && HostFits(h)
  {
    SubmitAndWait(dev, Helpful(dev, w, h, 0, command), w, h, command, limit)
  }

  /** Each command of bring-up can succeed, and then has its effect on the rings of the I/O queue. */
  lemma BringUpStep(dev: Device, before: seq<U8>, w: World, hosts: seq<HostQueue>, command: Sqe, limit: nat)
    requires ComingUp(dev, before, w, hosts) && WorldOk(w) && BringUpCommand(dev, w, command)
    ensures ValidDevice(dev) && |hosts| == 2 && HostFits(hosts[0])
    ensures var o := Served(dev, w, hosts[0], command, limit);
      && WorldOk(o.w) && o.w.base == w.base && o.result.Ok? && IsSuccess(o.result.value)
      && ComingUp(dev, before, o.w, hosts[0 := o.h])
      && var io, io0 := o.w.ctl.queues[1], w.ctl.queues[1];
         && io.cqSize == (if IsCreateCq(command) then 64 else io0.cqSize)
         && io.sqSize == (if IsCreateSq(command) then 64 else io0.sqSize)
  {
    hide SysInv, Callable, BringUpCommand, Fits, Acceptable, ValidDevice, SubmitAndWait, IsSuccess, Live, Idle,
         Succeeded, CallInv, Helpful, CanServe, Settling, HostFits;
    BringUpCallable(dev, before, w, hosts, command);
    CallableShape(dev, before, w, hosts, 0, command);
    CallCanSucceed(dev, before, w, hosts, 0, command, limit);
    var sched := Helpful(dev, w, hosts[0], 0, command);
    CallAgain(dev, before, sched, w, hosts, 0, command, limit);
    var o := SubmitAndWait(dev, sched, w, hosts[0], command, limit);
    CallableShape(dev, before, o.w, hosts[0 := o.h], 0, command);
    ServeFits(dev, w, hosts, 0, command);
    QuietCall(dev, before, sched, w, hosts, 0, command, limit);
    RingsAfter(dev, w, hosts[0], command, o.w);
    AdminRings(dev, before, o.w, hosts[0 := o.h]);
  }

  lemma RingsAfter(dev: Device, w: World, h: HostQueue, command: Sqe, v: World)
    requires WorldOk(w) && WorldOk(v) && HostFits(h)
    requires BringUpCommand(dev, w, command)
    requires var s, n, e := Start(w.ctl.media, w.mem, w.ctl.queues[1]), |h.submitted|, Stamped(h, command);
      Fits(dev, s, 0, e) && CallInv(dev, s, v, 0, n, e) && Succeeded(v.ctl.queues[0], n)
    ensures var io, io0 := v.ctl.queues[1], w.ctl.queues[1];
      && io.cqSize == (if IsCreateCq(command) then 64 else io0.cqSize)
      && io.sqSize == (if IsCreateSq(command) then 64 else io0.sqSize)
  {
    CreateFields(1, 64, 1, w.base + IO_COMPLETION_QUEUE_OFFSET);
    CreateFields(1, 64, 1, w.base + IO_SUBMISSION_QUEUE_OFFSET);
    hide Effects, TransferLength, AllMoved, Stage, Word, Fits;
  }

  /** An admin queue that has answered has both its rings. */
  lemma AdminRings(dev: Device, before: seq<U8>, w: World, hosts: seq<HostQueue>)
    requires SysInv(dev, before, w, hosts) && Settling(hosts[0]) && hosts[0].submitted != []
    ensures w.ctl.queues[0].sqSize == w.ctl.queues[0].cqSize == 64
  {
    hide CommandsOk, ListsOk, Provenance, QueuesInOrder, TouchedOk, QueueInv;
    QueueOf(dev, before, w, hosts, 0);
    QuietQueue(w.mem, w.base, hosts[0], w.ctl.queues[0], 0);
    AnsweredRings(w.mem, w.base, hosts[0], w.ctl.queues[0], 0);
  }

  lemma AnsweredRings(mem: seq<U8>, base: nat, h: HostQueue, c: CtlQueue, q: nat)
    requires |mem| == HUGE_PAGE_SIZE && q < 2 && QueueInv(mem, base, h, c, q) && c.posted != []
    ensures c.cqSize == 64
  {
    hide SqView, CqView, SqHolds, CqHolds, JobsOk, PostsOk, AnsweredOnce, Lap, CidsOk, InStep, OriginsOk, HostOk;
  }

  function BringUpCommands(dev: Device, w: World): (commands: seq<Sqe>)
    requires WorldOk(w)
    ensures |commands| == 4
  {
    [NvmeIdentify(CNS_CONTROLLER, 0, w.base + DATA_OFFSET),
     NvmeCreateIoCompletionQueue(1, 64, w.base + IO_COMPLETION_QUEUE_OFFSET),
     NvmeCreateIoSubmissionQueue(1, 64, 1, w.base + IO_SUBMISSION_QUEUE_OFFSET),
     NvmeIdentify(CNS_NAMESPACE, dev.nsid, w.base + DATA_OFFSET)]
  }

  predicate AllSucceeded(results: seq<Result<Cqe>>) {
    forall i :: 0 <= i < |results| ==> results[i].Ok? && IsSuccess(results[i].value)
  }

  /** After `n` of the commands. */
  predicate Up(dev: Device, before: seq<U8>, base: nat, v: World, hosts: seq<HostQueue>,
               results: seq<Result<Cqe>>, n: nat) {
    && AllSucceeded(results) && v.base == base && ComingUp(dev, before, v, hosts) && |v.ctl.queues| == 2
    && v.ctl.queues[1].cqSize == (if n >= 2 then 64 else 0) && v.ctl.queues[1].sqSize == (if n >= 3 then 64 else 0)
  }

  /** The first `n` commands of bring-up, in a run from `w`, have succeeded under `scheds`. */
  ghost predicate CameUp(dev: Device, before: seq<U8>, w: World, hosts: seq<HostQueue>, limit: nat, n: nat,
                         scheds: seq<Schedule>)
    requires ValidDevice(dev) && WorldOk(w) && |hosts| == 2 && HostFits(hosts[0]) && n <= 4
  {
    && |scheds| == n
    && var (v, h, results) := Calls(dev, scheds, w, hosts[0], BringUpCommands(dev, w)[..n], limit);
       Up(dev, before, w.base, v, hosts[0 := h], results, n)
  }

  lemma BringUpOrder(dev: Device, w: World, v: World, n: nat)
    requires WorldOk(w) && WorldOk(v) && v.base == w.base && n < 4
    requires v.ctl.queues[1].cqSize == (if n >= 2 then 64 else 0)
    requires v.ctl.queues[1].sqSize == (if n >= 3 then 64 else 0)
    ensures var command := BringUpCommands(dev, w)[n];
      BringUpCommand(dev, v, command) && (IsCreateCq(command) <==> n == 1) && (IsCreateSq(command) <==> n == 2)
  {
  }

  lemma UpStep(dev: Device, before: seq<U8>, w: World, v: World, hosts: seq<HostQueue>,
               results: seq<Result<Cqe>>, n: nat, limit: nat)
    requires WorldOk(w) && WorldOk(v) && n < 4 && Up(dev, before, w.base, v, hosts, results, n)
    ensures ValidDevice(dev) && |hosts| == 2 && HostFits(hosts[0])
    ensures var o := Served(dev, v, hosts[0], BringUpCommands(dev, w)[n], limit);
      Up(dev, before, w.base, o.w, hosts[0 := o.h], results + [o.result], n + 1)
  {
    hide ComingUp, BringUpCommand, Served, IsSuccess, ValidDevice, BringUpCommands, HostFits;
    BringUpOrder(dev, w, v, n);
    BringUpStep(dev, before, v, hosts, BringUpCommands(dev, w)[n], limit);
  }

  lemma OneMoreUp(dev: Device, before: seq<U8>, w: World, hosts: seq<HostQueue>, limit: nat, n: nat,
                  scheds: seq<Schedule>)
    returns (more: seq<Schedule>)
    requires ValidDevice(dev) && WorldOk(w) && |hosts| == 2 && HostFits(hosts[0]) && n < 4
    requires CameUp(dev, before, w, hosts, limit, n, scheds)
    ensures CameUp(dev, before, w, hosts, limit, n + 1, more)
  {
    hide Up, HostFits, Calls, SubmitAndWait, Helpful, ValidDevice, BringUpCommands;
    var commands := BringUpCommands(dev, w);
    var (v, h, results) := Calls(dev, scheds, w, hosts[0], commands[..n], limit);
    UpStep(dev, before, w, v, hosts[0 := h], results, n, limit);
    var sched := Helpful(dev, v, h, 0, commands[n]);
    more := scheds + [sched];
    CallsGrow(dev, scheds, w, hosts[0], commands[..n], limit, sched, commands[n]);
    assert commands[..n] + [commands[n]] == commands[..n + 1];
    var o := Served(dev, v, h, commands[n], limit);
    assert hosts[0 := h][0 := o.h] == hosts[0 := o.h];
  }

  /** The I/O queue takes every well-formed transfer. */
  ghost predicate TakesTransfers(dev: Device, before: seq<U8>, w: World, hosts: seq<HostQueue>)
    requires |w.mem| == HUGE_PAGE_SIZE
  {
    forall command: Sqe :: CommandOk(dev, w.base, 1, command) && ListOk(dev, w.mem, w.base, command) ==>
      Callable(dev, before, w, hosts, 1, command)
  }

  lemma AllUp(dev: Device, before: seq<U8>, w: World, v: World, hosts: seq<HostQueue>, results: seq<Result<Cqe>>)
    requires WorldOk(w) && WorldOk(v) && Up(dev, before, w.base, v, hosts, results, 4)
    ensures Live(v) && TakesTransfers(dev, before, v, hosts)
  {
    hide HostFits, AllSucceeded, ValidDevice, SysInv, CommandOk, ListOk, NoCreates, Idle;
    ShapeOf(dev, before, v, hosts);
    QuietNoCreates(dev, before, v, hosts);
    QueueOf(dev, before, v, hosts, 1);
    PlacedHost(v.mem, v.base, hosts[1], v.ctl.queues[1], 1);
  }

  /** There are schedules under which all four commands of bring-up succeed. */
  lemma CommandsCanSucceed(dev: Device, before: seq<U8>, w: World, hosts: seq<HostQueue>, limit: nat)
    returns (scheds: seq<Schedule>)
    requires ValidDevice(dev) && WorldOk(w) && |hosts| == 2 && HostFits(hosts[0])
    requires ComingUp(dev, before, w, hosts) && w.ctl.queues[1] == NO_QUEUE
    ensures CameUp(dev, before, w, hosts, limit, 4, scheds)
  {
    hide ComingUp, HostFits, ValidDevice, CameUp, BringUpCommands;
    scheds := [];
    NoneUp(dev, before, w, hosts, limit);
    scheds := OneMoreUp(dev, before, w, hosts, limit, 0, scheds);
    scheds := OneMoreUp(dev, before, w, hosts, limit, 1, scheds);
    scheds := OneMoreUp(dev, before, w, hosts, limit, 2, scheds);
    scheds := OneMoreUp(dev, before, w, hosts, limit, 3, scheds);
  }

  lemma NoneUp(dev: Device, before: seq<U8>, w: World, hosts: seq<HostQueue>, limit: nat)
    requires ValidDevice(dev) && WorldOk(w) && |hosts| == 2 && HostFits(hosts[0])
    requires ComingUp(dev, before, w, hosts) && w.ctl.queues[1] == NO_QUEUE
    ensures CameUp(dev, before, w, hosts, limit, 0, [])
  {
    hide ComingUp, HostFits, ValidDevice, BringUpCommands;
    assert hosts[0 := hosts[0]] == hosts;
  }

  /** Under these schedules all commands of bring-up succeed, and the I/O queue is then in working order. */
  ghost predicate Serves(dev: Device, before: seq<U8>, w: World, hosts: seq<HostQueue>, limit: nat,
                         scheds: seq<Schedule>)
    requires ValidDevice(dev) && WorldOk(w) && |hosts| == 2 && HostFits(hosts[0])
  {
    && |scheds| == 4
    && var (v, h, results) := Calls(dev, scheds, w, hosts[0], BringUpCommands(dev, w), limit);
       AllSucceeded(results) && Live(v) && TakesTransfers(dev, before, v, hosts[0 := h])
  }

  lemma UpServes(dev: Device, before: seq<U8>, w: World, hosts: seq<HostQueue>, limit: nat, scheds: seq<Schedule>)
    requires ValidDevice(dev) && WorldOk(w) && |hosts| == 2 && HostFits(hosts[0])
    requires CameUp(dev, before, w, hosts, limit, 4, scheds)
    ensures Serves(dev, before, w, hosts, limit, scheds)
  {
    hide ComingUp, HostFits, ValidDevice, BringUpCommands, Calls, AllSucceeded, TakesTransfers;
    assert BringUpCommands(dev, w)[..4] == BringUpCommands(dev, w);
    var (v, h, results) := Calls(dev, scheds, w, hosts[0], BringUpCommands(dev, w), limit);
    AllUp(dev, before, w, v, hosts[0 := h], results);
  }

  /**
   Bring-up can succeed: for every device there are schedules under which, after the register writes, all four
   commands of `open` succeed. The I/O queue then takes every well-formed transfer.
   */
  lemma BringUpCanSucceed(dev: Device, w: World, limit: nat)
    requires Programmed(dev, w)
    ensures WorldOk(JustEnabled(w)) && HostFits(FreshHosts()[0])
    ensures exists scheds: seq<Schedule> :: Serves(dev, w.ctl.media, JustEnabled(w), FreshHosts(), limit, scheds)
  {
    hide JustEnabled, FreshHosts, HostFits, ComingUp, ValidDevice, Dead, Zeroed, Idle, Serves, SysInv, CameUp;
    EnabledFacts(dev, w);
    JustComingUp(dev, w);
    FreshFacts();
    var scheds := CommandsCanSucceed(dev, w.ctl.media, JustEnabled(w), FreshHosts(), limit);
    UpServes(dev, w.ctl.media, JustEnabled(w), FreshHosts(), limit, scheds);
  }
}
