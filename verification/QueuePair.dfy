/** `QueuePair` of src/queue_pair.rs. */
module QueuePairs {
  import opened Bytes
  import opened NvmeSpec
  import opened DmaLayout
  import opened Ring
  import opened Controller
  import opened Submit
  import opened Patience
  import opened Hardware
  import opened Wrappers

  /** The idle polls a call tolerates; one more and it gives up. */
  type SpinLimit = n: nat | n == 200_000 witness 200_000

  /** Giving up takes 200001 polls, no fewer and no more; an answer takes at most as many and the doorbell after it. */
  predicate WaitsLong(start: nat, end: nat, gaveUp: bool) {
    if gaveUp then end == start + 200_001 else start + 2 <= end <= start + 200_002
  }

  lemma PollLong(dev: Device, sched: Schedule, w: World, h: HostQueue, cid: nat, limit: SpinLimit)
    requires ValidDevice(dev) && WorldOk(w) && HostFits(h)
    ensures var o := Poll(dev, sched, w, h, cid, 0, limit); WaitsLong(w.clock, o.w.clock, o.result == Err(TimedOut))
  {
    hide Poll, ValidDevice;
    PollClock(dev, sched, w, h, cid, 0, limit);
  }

  lemma CallLong(dev: Device, sched: Schedule, w: World, h: HostQueue, command: Sqe, limit: SpinLimit)
    requires ValidDevice(dev) && WorldOk(w) && HostFits(h)
    ensures var o := Submit.SubmitAndWait(dev, sched, w, h, command, limit);
      WaitsLong(w.clock + 2, o.w.clock, o.result == Err(TimedOut))
  {
    hide Submit.SubmitAndWait, ValidDevice;
    CallClock(dev, sched, w, h, command, limit);
  }

  class QueuePair {
    const id: nat
    const submissionOffset: nat
    const completionOffset: nat
    const spinLimit: SpinLimit

    var submissionTail: nat
    var completionHead: nat
    var completionPhase: bool
    var nextCid: nat

    // The history of the calls, which only the proofs see.
    ghost var submitted: seq<Sqe>
    ghost var announced: nat
    ghost var consumed: nat
    ghost var timeouts: nat

    ghost function Host(): HostQueue
      reads this
    {
      HostQueue(id, submissionOffset, completionOffset, submissionTail, completionHead, completionPhase, nextCid,
                submitted, announced, consumed, timeouts)
    }

    constructor (id: nat, submissionOffset: nat, completionOffset: nat)
      ensures Host() == NewHostQueue(id, submissionOffset, completionOffset) && spinLimit == 200_000
    {
      this.id := id;
      this.submissionOffset := submissionOffset;
      this.completionOffset := completionOffset;
      spinLimit := 200_000;
      submissionTail, completionHead, completionPhase, nextCid := 0, 0, true, 0;
      submitted, announced, consumed, timeouts := [], 0, 0, 0;
    }

    /**
     The call is exactly the function `Submit.SubmitAndWait` of the state it starts in: same entry in
     the same slot, same doorbells, same polls, same verdict, same fields afterwards.
     */
    method SubmitAndWait(bar: NvmeBar, dma: DmaRegion, doorbellStride: nat, command: Sqe) returns (result: Result<Cqe>)
      requires bar.Valid() && dma.Valid() && HostFits(Host()) && doorbellStride == StrideOf(bar.dev.capabilities)
      modifies this, bar, dma.bytes
      ensures bar.Valid() && HostFits(Host())
      ensures Outcome(bar.TheWorld(dma), Host(), result)
           == old(Submit.SubmitAndWait(bar.dev, bar.sched, bar.TheWorld(dma), Host(), command, spinLimit))
      ensures WaitsLong(old(bar.clock) + 2, bar.clock, result == Err(TimedOut))
    {
      hide Tick, EncodeSqe, Write32, StrideOf, Poll, WriteAt, ValidDevice, SqDoorbell, GoodBase,
           WaitsLong;
      CallLong(bar.dev, bar.sched, bar.TheWorld(dma), Host(), command, spinLimit);
      ghost var w, h := bar.TheWorld(dma), Host();
      var cid := nextCid;
      nextCid := (nextCid + 1) % 0x1_0000;
      var entry := command.(cid := cid);
      bar.Preempt(dma);

      var sqeOffset := submissionOffset + 64 * submissionTail;
      assert dma.CheckTyped(sqeOffset, SQE_SIZE, 8);
      dma.WriteSqe(sqeOffset, entry);
      submitted := submitted + [entry];
      submissionTail := (submissionTail + 1) % 64;
      assert Host() == Stored(h, Stamped(h, command));
      bar.Preempt(dma);
      bar.RingSubmissionDoorbell(id, doorbellStride, submissionTail);
      announced := |submitted|;
      assert (bar.TheWorld(dma), Host()) == Launched(bar.dev, bar.sched, w, h, command);
      result := PollCompletion(bar, dma, doorbellStride, cid);
    }

    /** The polling loop of the call. */
    method PollCompletion(bar: NvmeBar, dma: DmaRegion, doorbellStride: nat, cid: nat) returns (result: Result<Cqe>)
      requires bar.Valid() && dma.Valid() && HostFits(Host()) && doorbellStride == StrideOf(bar.dev.capabilities)
      modifies this, bar, dma.bytes
      ensures bar.Valid() && HostFits(Host())
      ensures Outcome(bar.TheWorld(dma), Host(), result)
           == old(Poll(bar.dev, bar.sched, bar.TheWorld(dma), Host(), cid, 0, spinLimit))
      ensures WaitsLong(old(bar.clock), bar.clock, result == Err(TimedOut))
    {
      hide Tick, DecodeCqe, Write32, StrideOf, Poll, ReadAt, Phase, ValidDevice, CqDoorbell, GoodBase,
           WaitsLong;
      PollLong(bar.dev, bar.sched, bar.TheWorld(dma), Host(), cid, spinLimit);
      var dev, sched := bar.dev, bar.sched;
      ghost var expected := Poll(dev, sched, bar.TheWorld(dma), Host(), cid, 0, spinLimit);
      var spins := 0;
      while true
        invariant 0 <= spins <= spinLimit && bar.Valid() && HostFits(Host())
        invariant Poll(dev, sched, bar.TheWorld(dma), Host(), cid, spins, spinLimit) == expected
        decreases spinLimit - spins
      {
        ghost var h0 := Host();
        PollUnfolds(dev, sched, bar.TheWorld(dma), h0, cid, spins, spinLimit);
        bar.Preempt(dma);
        var cqeOffset := completionOffset + 16 * completionHead;
        assert dma.CheckTyped(cqeOffset, CQE_SIZE, 4);
        var completion := dma.ReadCqe(cqeOffset);
        if Phase(completion) == completionPhase {
          completionHead := (completionHead + 1) % 64;
          if completionHead == 0 {
            completionPhase := !completionPhase;
          }
          consumed := consumed + 1;
          assert Host() == Consumed(h0);
          bar.RingCompletionDoorbell(id, doorbellStride, completionHead);
          bar.Preempt(dma);
          if completion.cid != cid {
            return Err(WrongCommand(completion.cid, cid));
          }
          return Ok(completion);
        }
        spins := spins + 1;
        if spins > spinLimit {
          timeouts := timeouts + 1;
          return Err(TimedOut);
        }
      }
    }
  }

  /** One turn of the polling loop. */
  lemma PollUnfolds(dev: Device, sched: Schedule, w: World, h: HostQueue, cid: nat, spins: nat, limit: nat)
    requires ValidDevice(dev) && WorldOk(w) && HostFits(h) && spins <= limit
    ensures var v := Tick(dev, sched, w); var c := Polled(v, h);
      Poll(dev, sched, w, h, cid, spins, limit)
      == if Phase(c) == h.phase then
           Outcome(Tick(dev, sched, RingCompletion(dev, v, Consumed(h))), Consumed(h),
                   if c.cid != cid then Err(WrongCommand(c.cid, cid)) else Ok(c))
         else if spins + 1 > limit then Outcome(v, GivenUp(h), Err(TimedOut))
         else Poll(dev, sched, v, h, cid, spins + 1, limit)
  {
    hide Tick, Phase, DecodeCqe, RingCompletion;
  }
}
