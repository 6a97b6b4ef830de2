/**
 How long the host waits. The clock advances once for each chance the controller gets, so it counts the polls.
 A call takes the first completion a poll finds, and gives up only when none of the polls it makes found one.
 */
module Patience {
  import opened Bytes
  import opened NvmeSpec
  import opened Ring
  import opened Controller
  import opened System
  import opened Submit
  import opened Wrappers

  /** The world after the controller has had `n` chances to run and the host has done nothing. */
  function Ticks(dev: Device, sched: Schedule, w: World, n: nat): (v: World)
    requires ValidDevice(dev) && WorldOk(w)
    ensures WorldOk(v) && v.clock == w.clock + n
  {
    if n == 0 then w else Tick(dev, sched, Ticks(dev, sched, w, n - 1))
  }

  lemma {:induction false} TicksFirst(dev: Device, sched: Schedule, w: World, n: nat)
    requires ValidDevice(dev) && WorldOk(w)
    ensures Ticks(dev, sched, w, n + 1) == Ticks(dev, sched, Tick(dev, sched, w), n)
  {
    hide Tick, ValidDevice, WorldOk;
    if n > 0 {
      TicksFirst(dev, sched, w, n - 1);
    }
  }

  // --- polls by the clock ---------------------------------------------------------------------------------------

  lemma {:induction false} PollClock(dev: Device, sched: Schedule, w: World, h: HostQueue, cid: nat, spins: nat,
                                     limit: nat)
    requires ValidDevice(dev) && WorldOk(w) && HostFits(h) && spins <= limit
    ensures var o := Poll(dev, sched, w, h, cid, spins, limit);
      if o.result == Err(TimedOut) then o.w.clock == w.clock + (limit - spins) + 1
      else w.clock + 2 <= o.w.clock <= w.clock + (limit - spins) + 2
    decreases limit - spins
  {
    hide Run, ValidDevice, HostFits, Phase, DecodeCqe, ReadAt, Write32, CqDoorbell, StrideOf, WorldOk;
    if spins < limit {
      PollClock(dev, sched, Tick(dev, sched, w), h, cid, spins + 1, limit);
    }
  }

  /** Two chances for the controller before the first poll, one before each poll, one after the completion doorbell. */
  lemma CallClock(dev: Device, sched: Schedule, w: World, h: HostQueue, command: Sqe, limit: nat)
    requires ValidDevice(dev) && WorldOk(w) && HostFits(h)
    ensures var o := SubmitAndWait(dev, sched, w, h, command, limit);
      if o.result == Err(TimedOut) then o.w.clock == w.clock + limit + 3
      else w.clock + 4 <= o.w.clock <= w.clock + limit + 4
  {
    hide Run, Poll, ValidDevice, HostFits, EncodeSqe, WriteAt, Write32, SqDoorbell, StrideOf, Stamped;
    var (v, g) := Launched(dev, sched, w, h, command);
    PollClock(dev, sched, v, g, h.cid, 0, limit);
  }

  // --- the first completion wins --------------------------------------------------------------------------------

  /** A completion of the queue has been posted and not been read. */
  predicate Unread(w: World, h: HostQueue)
    requires WorldOk(w) && h.id < 2
  {
    h.consumed < |w.ctl.queues[h.id].posted|
  }

  /** None of the first `most` polls finds a completion. */
  predicate NoneFound(dev: Device, sched: Schedule, w: World, h: HostQueue, most: nat)
    requires ValidDevice(dev) && WorldOk(w) && h.id < 2
  {
    forall i :: 1 <= i <= most ==> !Unread(Ticks(dev, sched, w, i), h)
  }

  /**
   How waiting ends after at most `most` polls. It is given up exactly when no poll finds a completion; otherwise the
   first poll that finds one, number `m`, takes the oldest.
   */
  predicate Waited(dev: Device, sched: Schedule, w: World, h: HostQueue, o: Outcome, most: nat)
    requires ValidDevice(dev) && WorldOk(w) && HostFits(h) && HostFits(Consumed(h))
  {
    if o.result == Err(TimedOut) then
      o.w == Ticks(dev, sched, w, most) && NoneFound(dev, sched, w, h, most)
    else
      var m := o.w.clock - w.clock - 1;
      && 1 <= m <= most && Unread(Ticks(dev, sched, w, m), h)
      && o.w == Tick(dev, sched, RingCompletion(dev, Ticks(dev, sched, w, m), Consumed(h)))
      && NoneFound(dev, sched, w, h, m - 1)
  }

  lemma {:induction false} PollWaits(dev: Device, before: seq<U8>, sched: Schedule, w: World, hosts: seq<HostQueue>,
                                     q: nat, cid: nat, spins: nat, limit: nat)
    requires SysInv(dev, before, w, hosts) && q < 2 && hosts[q].id == q && Waiting(hosts[q]) && spins <= limit
    ensures ValidDevice(dev) && WorldOk(w) && HostFits(hosts[q]) && HostFits(Consumed(hosts[q]))
    ensures Waited(dev, sched, w, hosts[q], Poll(dev, sched, w, hosts[q], cid, spins, limit), limit - spins + 1)
    decreases limit - spins
  {
    hide SysInv, Phase, DecodeCqe, ReadAt, QueueInv, ValidDevice, RingCompletion, Tick, Idle;
    ShapeOf(dev, before, w, hosts);
    var h := hosts[q];
    var v := Tick(dev, sched, w);
    TickKeeps(dev, before, sched, w, hosts);
    QueueOf(dev, before, v, hosts, q);
    PollExact(v.mem, v.base, h, v.ctl.queues[q], q);
    assert Ticks(dev, sched, w, 0) == w;
    assert Ticks(dev, sched, w, 1) == v;
    TickClock(dev, sched, w);
    if Phase(Polled(v, h)) == h.phase {
      ConsumeStep(dev, before, v, hosts, q);
      DoorbellClock(dev, v, Consumed(h));
      TickClock(dev, sched, RingCompletion(dev, v, Consumed(h)));
    } else if spins == limit {
      assert NoneFound(dev, sched, w, h, 1);
    }
    if Phase(Polled(v, h)) != h.phase && spins < limit {
      PollWaits(dev, before, sched, v, hosts, q, cid, spins + 1, limit);
      LaterWait(dev, sched, w, h, Poll(dev, sched, v, h, cid, spins + 1, limit), limit - spins);
    }
  }

  lemma NoneFoundLater(dev: Device, sched: Schedule, w: World, h: HostQueue, most: nat)
    requires ValidDevice(dev) && WorldOk(w) && h.id < 2 && !Unread(Ticks(dev, sched, w, 1), h)
    requires NoneFound(dev, sched, Tick(dev, sched, w), h, most)
    ensures NoneFound(dev, sched, w, h, most + 1)
  {
    hide Tick, Unread, ValidDevice, WorldOk, Ticks;
    forall i | 1 <= i <= most + 1
      ensures !Unread(Ticks(dev, sched, w, i), h)
    {
      if i > 1 {
        TicksFirst(dev, sched, w, i - 1);
      }
    }
  }

  /** A wait that begins one poll later. */
  lemma LaterWait(dev: Device, sched: Schedule, w: World, h: HostQueue, o: Outcome, most: nat)
    requires ValidDevice(dev) && WorldOk(w) && HostFits(h) && HostFits(Consumed(h))
    requires !Unread(Ticks(dev, sched, w, 1), h)
    requires Waited(dev, sched, Tick(dev, sched, w), h, o, most)
    ensures Waited(dev, sched, w, h, o, most + 1)
  {
    hide Tick, Unread, RingCompletion, ValidDevice, Consumed, Ticks, NoneFound;
    TickClock(dev, sched, w);
    if o.result == Err(TimedOut) {
      TicksFirst(dev, sched, w, most);
      NoneFoundLater(dev, sched, w, h, most);
    } else {
      var m := o.w.clock - w.clock - 1;
      TicksFirst(dev, sched, w, m - 1);
      NoneFoundLater(dev, sched, w, h, m - 2);
    }
  }

  lemma TickClock(dev: Device, sched: Schedule, w: World)
    requires ValidDevice(dev) && WorldOk(w)
    ensures Tick(dev, sched, w).clock == w.clock + 1
  {
    hide Run;
  }

  lemma DoorbellClock(dev: Device, w: World, h: HostQueue)
    requires WorldOk(w) && HostFits(h)
    ensures RingCompletion(dev, w, h).clock == w.clock
  {
    hide Write32, CqDoorbell, StrideOf;
  }

  /**
   The whole wait of a call, exactly: from the state in which polling starts, it ends with the first of `limit + 1`
   polls that finds a completion, and is given up only if none does.
   */
  lemma CallWaits(dev: Device, before: seq<U8>, sched: Schedule, w: World, hosts: seq<HostQueue>, q: nat,
                  command: Sqe, limit: nat)
    requires Callable(dev, before, w, hosts, q, command)
    ensures ValidDevice(dev) && WorldOk(w) && |hosts| == 2 && q < 2 && HostFits(hosts[q])
    ensures var (v, g) := Launched(dev, sched, w, hosts[q], command);
      && HostFits(Consumed(g))
      && Waited(dev, sched, v, g, SubmitAndWait(dev, sched, w, hosts[q], command, limit), limit + 1)
  {
    hide Callable, SysInv, Launched, Poll, Waiting, ValidDevice, HostFits, Waited, Consumed;
    CallableShape(dev, before, w, hosts, q, command);
    LaunchKeeps(dev, before, sched, w, hosts, q, command);
    var (v, g) := Launched(dev, sched, w, hosts[q], command);
    PollWaits(dev, before, sched, v, hosts[q := g], q, hosts[q].cid, 0, limit);
  }
}
