/** Resetting and enabling the controller (src/nvmetoy.rs:99-123), up to where the rings come to life. */
module BringUp {
  import opened Bytes
  import opened NvmeSpec
  import opened DmaLayout
  import opened Ring
  import opened Controller
  import opened System
  import opened Submit
  import opened Effect

  function FreshHosts(): (hosts: seq<HostQueue>)
    ensures |hosts| == 2
  {
    [NewHostQueue(0, ADMIN_SUBMISSION_QUEUE_OFFSET, ADMIN_COMPLETION_QUEUE_OFFSET),
     NewHostQueue(1, IO_SUBMISSION_QUEUE_OFFSET, IO_COMPLETION_QUEUE_OFFSET)]
  }

  lemma FreshFacts()
    ensures forall id :: 0 <= id < 2 ==>
      var h := FreshHosts()[id]; HostFits(h) && Idle(h) && h.id == id && h.timeouts == 0 && h.submitted == []
  {
  }

  predicate Zeroed(mem: seq<U8>) {
    forall i :: 0 <= i < |mem| ==> mem[i] == 0
  }

  /** Both controller queues deleted. */
  predicate Dead(w: World) {
    !Enabled(w.ctl.regs) && w.ctl.queues == [NO_QUEUE, NO_QUEUE]
  }

  lemma ZeroCq(mem: seq<U8>, offset: nat, i: nat)
    requires Zeroed(mem) && offset + 4096 <= |mem| && i < 64
    ensures !Phase(CqView(mem, offset)[i])
  {
    var bs := ReadAt(mem, offset + 16 * i, CQE_SIZE);
    assert bs[14] == mem[offset + 16 * i + 14] && bs[15] == mem[offset + 16 * i + 15];
    assert CqView(mem, offset)[i].status == U16Of(bs[14..16]) == 0;
  }

  /** A ring just configured over zeroed completion memory satisfies the protocol. */
  lemma FreshQueue(mem: seq<U8>, base: nat, c: CtlQueue, id: nat)
    requires |mem| == HUGE_PAGE_SIZE && Zeroed(mem) && id < 2 && Pristine(c)
    requires Placed(base, FreshHosts()[id], c, id)
    ensures QueueInv(mem, base, FreshHosts()[id], c, id)
  {
    forall i | 0 <= i < 64
      ensures !Phase(CqView(mem, CqOffset(id))[i])
    {
      ZeroCq(mem, CqOffset(id), i);
    }
    hide Phase, SqView, CqView;
    NewQueueInv(FreshHosts()[id], c, SqView(mem, SqOffset(id)), CqView(mem, CqOffset(id)));
  }

  /** Until CC.EN is set again the controller touches neither memory nor medium, and RDY stays down. */
  lemma DeadStep(dev: Device, w: World, a: Action)
    requires ValidDevice(dev) && WorldOk(w) && Dead(w)
    ensures var v := Step(dev, w, a);
      Dead(v) && v.mem == w.mem && v.ctl == w.ctl.(regs := v.ctl.regs) && (!w.ctl.regs.ready ==> !v.ctl.regs.ready)
  {
    hide DoFetch, DoMove, DoPost, DoAlter, Foreign;
  }

  lemma {:induction false} DeadRun(dev: Device, w: World, actions: seq<Action>)
    requires ValidDevice(dev) && WorldOk(w) && Dead(w)
    ensures var v := Run(dev, w, actions);
      Dead(v) && v.mem == w.mem && v.ctl == w.ctl.(regs := v.ctl.regs) && (!w.ctl.regs.ready ==> !v.ctl.regs.ready)
    decreases |actions|
  {
    hide Step, ValidDevice, Dead;
    if actions != [] {
      DeadStep(dev, w, actions[0]);
      DeadRun(dev, Step(dev, w, actions[0]), actions[1..]);
    }
  }

  lemma DeadTick(dev: Device, sched: Schedule, w: World)
    requires ValidDevice(dev) && WorldOk(w) && Dead(w)
    ensures var v := Tick(dev, sched, w);
      Dead(v) && v.mem == w.mem && v.ctl == w.ctl.(regs := v.ctl.regs) && (!w.ctl.regs.ready ==> !v.ctl.regs.ready)
  {
    DeadRun(dev, w, sched(w.clock));
  }

  /** AQA with both sizes at 64 entries, zero-based. */
  const ADMIN_ATTRIBUTES: U32 := 63 * 0x1_0000 + 63

  /** The value bring-up writes to CC: enabled, with entries of 2^6 and 2^4 bytes. */
  lemma EnableValue(r: Registers)
    requires r.cc == 4 * 0x10_0000 + 6 * 0x1_0000 + 1
    ensures EntrySizesAgree(r) && Enabled(r)
  {
    assert r.cc / 0x1_0000 % 16 == 6 && r.cc / 0x10_0000 % 16 == 4;
    assert Pow2(2) == 4 && Pow2(4) == 16 && Pow2(6) == 64;
  }

  /** Enabling gives the controller the admin queue the host is about to use. */
  lemma EnableKeeps(dev: Device, w: World, value: U32)
    requires ValidDevice(dev) && WorldOk(w) && Dead(w) && Zeroed(w.mem) && w.ctl.touched == {} && value % 2 == 1
    requires w.ctl.regs.aqa == ADMIN_ATTRIBUTES
    requires w.ctl.regs.asq == w.base + ADMIN_SUBMISSION_QUEUE_OFFSET
    requires w.ctl.regs.acq == w.base + ADMIN_COMPLETION_QUEUE_OFFSET
    ensures var v := w.(ctl := WriteConfiguration(w.ctl, value));
      && SysInv(dev, w.ctl.media, v, FreshHosts())
      && v.ctl.queues[0].sqSize == v.ctl.queues[0].cqSize == 64
      && v.ctl.queues[1] == NO_QUEUE
  {
    var v := w.(ctl := WriteConfiguration(w.ctl, value));
    assert w.ctl.regs.aqa % 0x1000 + 1 == 64 && w.ctl.regs.aqa / 0x1_0000 % 0x1000 + 1 == 64;
    FreshQueue(v.mem, v.base, v.ctl.queues[0], 0);
    FreshQueue(v.mem, v.base, NO_QUEUE, 1);
    hide QueueInv;
  }

  /** Bring-up is complete: what the controller decoded is what the host's queue pairs use. */
  predicate RingsAgree(w: World, hosts: seq<HostQueue>)
    requires WorldOk(w) && |hosts| == 2
  {
    forall id :: 0 <= id < 2 ==> RingAgrees(w.base, hosts[id], w.ctl.queues[id])
  }

  predicate RingAgrees(base: nat, h: HostQueue, c: CtlQueue) {
    c.sqBase == base + h.sqOffset && c.cqBase == base + h.cqOffset && c.sqSize == c.cqSize == QUEUE_DEPTH
  }

  /** The admin queue has answered and the I/O queue is ready, so both agree. */
  lemma AgreementFromUse(dev: Device, before: seq<U8>, w: World, hosts: seq<HostQueue>)
    requires SysInv(dev, before, w, hosts) && IoReady(w, hosts) && hosts[0].consumed > 0
    ensures RingsAgree(w, hosts)
  {
    QueueParts(w.mem, w.base, hosts[0], w.ctl.queues[0], 0);
    QueueParts(w.mem, w.base, hosts[1], w.ctl.queues[1], 1);
    hide SqView, CqView, SqHolds, CqHolds, JobsOk, PostsOk, AnsweredOnce, Lap, CidsOk, InStep, OriginsOk,
         NextOrigin, NoCreates, QueueInv, CommandsOk, ListsOk, Provenance;
  }

  /** After a clean bring-up no create command is outstanding. */
  lemma QuietNoCreates(dev: Device, before: seq<U8>, w: World, hosts: seq<HostQueue>)
    requires SysInv(dev, before, w, hosts) && Settling(hosts[0])
    ensures NoCreates(hosts[0], w.ctl.queues[0])
  {
    QuietQueue(w.mem, w.base, hosts[0], w.ctl.queues[0], 0);
    hide QueueInv, CommandsOk, ListsOk, Provenance, QueuesInOrder;
  }
}
