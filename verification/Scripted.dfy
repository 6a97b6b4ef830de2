/**
 Calls under schedules that are known: the controller does nothing except, at the first poll, one
 given list of actions. What such a call returns and leaves behind can be written down.
 */
module Scripted {
  import opened Bytes
  import opened NvmeSpec
  import opened DmaLayout
  import opened Prp
  import opened Ring
  import opened Controller
  import opened System
  import opened Submit
  import opened Wrappers

  /** Do nothing but, at one moment, all of `actions`. */
  function Once(actions: seq<Action>, moment: nat): Schedule {
    (t: nat) => if t == moment then actions else []
  }

  /** As seen from a call that begins at `start`: these actions at its first poll and nothing else. */
  ghost predicate ActsOnce(sched: Schedule, start: nat, actions: seq<Action>) {
    forall t: nat :: start <= t ==> sched(t) == if t == start + 2 then actions else []
  }

  lemma OnceActs(actions: seq<Action>, start: nat)
    ensures ActsOnce(Once(actions, start + 2), start, actions)
  {
  }

  /** The state in which polling starts when nothing happens before: entry stored, doorbell rung. */
  function Begun(dev: Device, w: World, h: HostQueue, command: Sqe): (v: World)
    requires WorldOk(w) && HostFits(h)
    ensures WorldOk(v)
  {
    RingSubmission(dev, StoreEntry(w, h, Stamped(h, command)).(clock := w.clock + 2), Stored(h, Stamped(h, command)))
  }

  lemma QuietLaunch(dev: Device, sched: Schedule, w: World, h: HostQueue, command: Sqe)
    requires ValidDevice(dev) && WorldOk(w) && HostFits(h) && sched(w.clock) == sched(w.clock + 1) == []
    ensures Launched(dev, sched, w, h, command) == (Begun(dev, w, h, command), Called(h, command))
  {
    hide EncodeSqe, WriteAt, Write32, SqDoorbell, StrideOf, Stamped;
    var e := Stamped(h, command);
    var w1 := Tick(dev, sched, w);
    assert w1 == w.(clock := w.clock + 1);
    var w2 := StoreEntry(w1, h, e);
    assert Tick(dev, sched, w2) == w2.(clock := w.clock + 2);
  }

  lemma BegunFacts(dev: Device, w: World, h: HostQueue, command: Sqe)
    requires ValidDevice(dev) && WorldOk(w) && HostFits(h)
    ensures var v := Begun(dev, w, h, command);
      && v.clock == w.clock + 2 && v.base == w.base
      && v.ctl == w.ctl.(queues := w.ctl.queues[h.id := Rung(w.ctl.queues[h.id], (h.tail + 1) % 64)])
  {
    hide EncodeSqe, WriteAt, Write32, SqDoorbell, StrideOf, Stamped;
    var e := Stamped(h, command);
    RungQueues(dev, StoreEntry(w, h, e).(clock := w.clock + 2), Stored(h, e), h.id);
  }

  lemma BegunKeeps(dev: Device, before: seq<U8>, w: World, hosts: seq<HostQueue>, q: nat, command: Sqe)
    requires Callable(dev, before, w, hosts, q, command)
    ensures WorldOk(w) && HostFits(hosts[q])
    ensures var g := Called(hosts[q], command);
      SysInv(dev, before, Begun(dev, w, hosts[q], command), hosts[q := g]) && Waiting(g) && g.id == q
  {
    ShapeOf(dev, before, w, hosts);
    hide SysInv, Launched, Waiting, Called, MaySubmit, ValidDevice;
    var sched := Once([], 0);
    QuietLaunch(dev, sched, w, hosts[q], command);
    LaunchKeeps(dev, before, sched, w, hosts, q, command);
  }

  lemma SilentTick(dev: Device, sched: Schedule, w: World)
    requires ValidDevice(dev) && WorldOk(w) && sched(w.clock) == []
    ensures Tick(dev, sched, w) == w.(clock := w.clock + 1)
  {
  }

  lemma {:induction false} SilentPoll(dev: Device, sched: Schedule, w: World, h: HostQueue, cid: nat,
                                      spins: nat, limit: nat)
    requires ValidDevice(dev) && WorldOk(w) && HostFits(h) && spins <= limit
    requires forall t: nat :: w.clock <= t ==> sched(t) == []
    requires Phase(Polled(w, h)) != h.phase
    ensures Poll(dev, sched, w, h, cid, spins, limit)
         == Outcome(w.(clock := w.clock + limit - spins + 1), GivenUp(h), Err(TimedOut))
    decreases limit - spins
  {
    hide Phase, DecodeCqe, ReadAt, Tick;
    SilentTick(dev, sched, w);
    var v := Tick(dev, sched, w);
    assert Polled(v, h) == Polled(w, h);
    if spins < limit {
      SilentPoll(dev, sched, v, h, cid, spins + 1, limit);
    }
  }

  /** How a call ends whose controller has acted once: `w` is the state it left, `h` the waiting host. */
  function Ending(dev: Device, w: World, h: HostQueue, cid: nat, start: nat, limit: nat): Outcome
    requires WorldOk(w) && HostFits(h)
  {
    var posted := w.ctl.queues[h.id].posted;
    if h.consumed < |posted| then
      var c := posted[h.consumed].cqe;
      Outcome(RingCompletion(dev, w, Consumed(h)).(clock := start + 4), Consumed(h),
              if c.cid != cid then Err(WrongCommand(c.cid, cid)) else Ok(c))
    else
      Outcome(w.(clock := start + 3 + limit), GivenUp(h), Err(TimedOut))
  }

  lemma OncePoll(dev: Device, before: seq<U8>, sched: Schedule, w: World, hosts: seq<HostQueue>, q: nat,
                 cid: nat, start: nat, limit: nat, actions: seq<Action>)
    requires SysInv(dev, before, w, hosts) && q < 2 && hosts[q].id == q && HostFits(hosts[q])
    requires ActsOnce(sched, start, actions) && w.clock == start + 2
    ensures Poll(dev, sched, w, hosts[q], cid, 0, limit)
         == Ending(dev, Run(dev, w, actions), hosts[q], cid, start, limit)
  {
    hide SysInv, Phase, DecodeCqe, ReadAt, Write32, CqDoorbell, StrideOf, ValidDevice, QueueInv, Run, Lap;
    ShapeOf(dev, before, w, hosts);
    var h := hosts[q];
    assert sched(w.clock) == actions;
    TickKeeps(dev, before, sched, w, hosts);
    var v := Tick(dev, sched, w);
    QueueOf(dev, before, v, hosts, q);
    PollExact(v.mem, v.base, h, v.ctl.queues[q], q);
    if h.consumed < |v.ctl.queues[q].posted| {
      SilentTick(dev, sched, RingCompletion(dev, v, Consumed(h)));
    } else if limit > 0 {
      SilentPoll(dev, sched, v, h, cid, 1, limit);
    }
  }

  /** A call whose controller acts once. */
  lemma OnceCall(dev: Device, before: seq<U8>, sched: Schedule, w: World, hosts: seq<HostQueue>, q: nat, command: Sqe,
                 limit: nat, actions: seq<Action>)
    requires Callable(dev, before, w, hosts, q, command) && ActsOnce(sched, w.clock, actions)
    ensures WorldOk(w) && HostFits(hosts[q])
    ensures var h, v := hosts[q], Begun(dev, w, hosts[q], command);
      && HostFits(Called(h, command))
      && SubmitAndWait(dev, sched, w, h, command, limit)
         == Ending(dev, Run(dev, v, actions), Called(h, command), h.cid, w.clock, limit)
  {
    hide SysInv, Launched, Poll, Begun, Called, Ending, MaySubmit, ValidDevice, Run;
    ShapeOf(dev, before, w, hosts);
    assert sched(w.clock) == sched(w.clock + 1) == [];
    BegunKeeps(dev, before, w, hosts, q, command);
    QuietLaunch(dev, sched, w, hosts[q], command);
    BegunFacts(dev, w, hosts[q], command);
    CallIsPoll(dev, sched, w, hosts[q], command, limit);
    var g := Called(hosts[q], command);
    OncePoll(dev, before, sched, Begun(dev, w, hosts[q], command), hosts[q := g], q, hosts[q].cid,
             w.clock, limit, actions);
  }

  lemma CalledCounts(h: HostQueue, command: Sqe)
    requires HostFits(h)
    ensures var g := Called(h, command);
      && g.consumed == h.consumed && g.timeouts == h.timeouts && |g.submitted| == |h.submitted| + 1
      && g.tail == (h.tail + 1) % 64 && g.id == h.id
  {
  }

  lemma CallIsPoll(dev: Device, sched: Schedule, w: World, h: HostQueue, command: Sqe, limit: nat)
    requires ValidDevice(dev) && WorldOk(w) && HostFits(h)
    ensures var (v, g) := Launched(dev, sched, w, h, command);
      SubmitAndWait(dev, sched, w, h, command, limit) == Poll(dev, sched, v, g, h.cid, 0, limit)
  {
    hide Launched, Poll;
  }

  // --- several calls in a row -----------------------------------------------------------------------------

  /** One call after another on queue `h.id`, each under its own schedule. */
  function Calls(dev: Device, scheds: seq<Schedule>, w: World, h: HostQueue, commands: seq<Sqe>, limit: nat)
    : (r: (World, HostQueue, seq<Result<Cqe>>))
    requires ValidDevice(dev) && WorldOk(w) && HostFits(h) && |scheds| == |commands|
    ensures WorldOk(r.0) && HostFits(r.1) && |r.2| == |commands|
  {
    if commands == [] then (w, h, [])
    else
      var last := |commands| - 1;
      var (v, g, results) := Calls(dev, scheds[..last], w, h, commands[..last], limit);
      var o := SubmitAndWait(dev, scheds[last], v, g, commands[last], limit);
      (o.w, o.h, results + [o.result])
  }

  lemma CallsGrow(dev: Device, scheds: seq<Schedule>, w: World, h: HostQueue, commands: seq<Sqe>, limit: nat,
                  sched: Schedule, command: Sqe)
    requires ValidDevice(dev) && WorldOk(w) && HostFits(h) && |scheds| == |commands|
    ensures var (v, g, results) := Calls(dev, scheds, w, h, commands, limit);
      var o := SubmitAndWait(dev, sched, v, g, command, limit);
      Calls(dev, scheds + [sched], w, h, commands + [command], limit) == (o.w, o.h, results + [o.result])
  {
    hide SubmitAndWait, ValidDevice, WorldOk, HostFits;
    assert (scheds + [sched])[..|commands|] == scheds && (commands + [command])[..|commands|] == commands;
  }

  /** Whoever may submit a command may submit it again after the call. */
  lemma CallAgain(dev: Device, before: seq<U8>, sched: Schedule, w: World, hosts: seq<HostQueue>, q: nat,
                  command: Sqe, limit: nat)
    requires Callable(dev, before, w, hosts, q, command)
    ensures WorldOk(w) && HostFits(hosts[q])
    ensures var o := SubmitAndWait(dev, sched, w, hosts[q], command, limit);
      Callable(dev, before, o.w, hosts[q := o.h], q, command)
      && |o.h.submitted| == |hosts[q].submitted| + 1 && o.w.ctl.regs.cc == w.ctl.regs.cc
  {
    hide SysInv, SubmitAndWait, CommandOk, ListOk, IoReady, Idle, QueueInv, ValidDevice, IsCreate;
    ShapeOf(dev, before, w, hosts);
    CallKeeps(dev, before, sched, w, hosts, q, command, limit);
    var o := SubmitAndWait(dev, sched, w, hosts[q], command, limit);
    if q == 1 {
      NeverCreates(command);
      StillListed(dev, before, o.w, hosts[q := o.h], hosts[q], command);
    }
  }

  lemma NeverCreates(command: Sqe)
    ensures !IsCreate(1, command)
  {
  }

  lemma StillListed(dev: Device, before: seq<U8>, w: World, hosts: seq<HostQueue>, h: HostQueue, command: Sqe)
    requires SysInv(dev, before, w, hosts) && HostFits(h) && Stamped(h, command) in hosts[1].submitted
    ensures ListOk(dev, w.mem, w.base, command)
  {
    hide QueueInv, CommandsOk, QueuesInOrder, TouchedOk, Provenance, RingsLive, ListHolds, MediaLength, GoodBase,
         ValidDevice;
    CidIrrelevant(dev, command, h.cid);
    assert ListOk(dev, w.mem, w.base, Stamped(h, command));
  }
}
