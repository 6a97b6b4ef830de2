/**
 The host's two windows onto the hardware: the DMA region (src/dma_region.rs) and the register BAR
 (src/nvme_bar.rs). The assertions of `check_typed`, `check_bytes` and `check` are
 preconditions here, so verifying a caller proves that they never fire.
 */
module Hardware {
  import opened Bytes
  import opened NvmeSpec
  import opened DmaLayout
  import opened Controller

  class DmaRegion {
    const physicalAddress: nat
    const bytes: array<U8>

    predicate Valid() {
      bytes.Length == HUGE_PAGE_SIZE && GoodBase(physicalAddress)
    }

    /** A freshly mapped, zeroed and pinned hugepage. */
    constructor (physicalAddress: nat)
      requires GoodBase(physicalAddress)
      ensures Valid() && fresh(bytes) && this.physicalAddress == physicalAddress
      ensures forall i :: 0 <= i < HUGE_PAGE_SIZE ==> bytes[..][i] == 0
    {
      this.physicalAddress := physicalAddress;
      bytes := new U8[HUGE_PAGE_SIZE](_ => 0);
    }

    function PhysicalAddressAt(offset: nat): (a: U64)
      requires Valid() && offset < HUGE_PAGE_SIZE
    {
      physicalAddress + offset
    }

    predicate CheckBytes(offset: nat, size: nat) {
      offset + size <= bytes.Length
    }

    predicate CheckTyped(offset: nat, size: nat, alignment: nat)
      requires alignment > 0
    {
      CheckBytes(offset, size) && offset % alignment == 0
    }

    method WriteBytes(offset: nat, source: seq<U8>)
      requires CheckBytes(offset, |source|)
      modifies bytes
      ensures bytes[..] == WriteAt(old(bytes[..]), offset, source)
    {
      for i := 0 to |source|
        invariant forall k :: 0 <= k < bytes.Length ==>
          bytes[k] == if offset <= k < offset + i then source[k - offset] else old(bytes[k])
      {
        bytes[offset + i] := source[i];
      }
    }

    method ReadBytes(offset: nat, n: nat) returns (destination: seq<U8>)
      requires CheckBytes(offset, n)
      ensures destination == ReadAt(bytes[..], offset, n)
    {
      destination := bytes[offset..offset + n];
    }

    method WriteSqe(offset: nat, value: Sqe)
      requires CheckTyped(offset, SQE_SIZE, 8)
      modifies bytes
      ensures bytes[..] == WriteAt(old(bytes[..]), offset, EncodeSqe(value))
    {
      WriteBytes(offset, EncodeSqe(value));
    }

    method WriteU64(offset: nat, value: U64)
      requires CheckTyped(offset, 8, 8)
      modifies bytes
      ensures bytes[..] == WriteAt(old(bytes[..]), offset, U64Bytes(value))
    {
      WriteBytes(offset, U64Bytes(value));
    }

    method ReadCqe(offset: nat) returns (value: Cqe)
      requires CheckTyped(offset, CQE_SIZE, 4)
      ensures value == DecodeCqe(ReadAt(bytes[..], offset, CQE_SIZE))
    {
      var bs := ReadBytes(offset, CQE_SIZE);
      value := DecodeCqe(bs);
    }
  }

  /** Doorbell registers are word aligned for every stride the controller can announce. */
  lemma DoorbellAligned(capabilities: U64, id: nat)
    requires id < 2
    ensures var s := StrideOf(capabilities);
      && SqDoorbell(id, s) % 4 == 0 && CqDoorbell(id, s) % 4 == 0
      && SqDoorbell(id, s) + 4 <= DOORBELL_BASE + 4 * s && CqDoorbell(id, s) + 4 <= DOORBELL_BASE + 4 * s
  {
    var p := Pow2(capabilities / 0x1_0000_0000 % 16);
    var s := StrideOf(capabilities);
    assert s == 4 * p;
    hide StrideOf, Pow2;
    if id == 0 {
      assert SqDoorbell(0, s) == 4 * 1024 && CqDoorbell(0, s) == 4 * (1024 + p);
    } else {
      assert SqDoorbell(1, s) == 4 * (1024 + 2 * p) && CqDoorbell(1, s) == 4 * (1024 + 3 * p);
    }
    FourTimes(1024);
    FourTimes(1024 + p);
    FourTimes(1024 + 2 * p);
    FourTimes(1024 + 3 * p);
  }

  lemma FourTimes(m: nat)
    ensures 4 * m % 4 == 0
  {
  }

  class NvmeBar {
    const dev: Device
    const length: nat
    const sched: Schedule
    var ctl: Ctl
    var clock: nat

    /** The device is the supposed one and the BAR is large enough for both queues' doorbells. */
    predicate Valid()
      reads this
    {
      && ValidDevice(dev) && |ctl.queues| == 2
      && length >= DOORBELL_BASE + 4 * StrideOf(dev.capabilities)
    }

    /** The registers of a device in whatever state it was left, with a controller that will act on a schedule. */
    constructor (dev: Device, length: nat, sched: Schedule, ctl: Ctl)
      requires ValidDevice(dev) && |ctl.queues| == 2 && length >= DOORBELL_BASE + 4 * StrideOf(dev.capabilities)
      ensures Valid() && this.dev == dev && this.sched == sched && this.ctl == ctl
    {
      this.dev := dev;
      this.length := length;
      this.sched := sched;
      this.ctl := ctl;
      this.clock := 0;
    }

    /** Everything the controller can see, as one value. */
    function TheWorld(dma: DmaRegion): World
      reads this, dma.bytes
    {
      World(dma.bytes[..], dma.physicalAddress, ctl, clock)
    }

    /** The controller runs for a while: not the driver's doing, but what it lives with. */
    method Preempt(dma: DmaRegion)
      requires Valid() && dma.Valid()
      modifies this, dma.bytes
      ensures Valid() && TheWorld(dma) == old(Tick(dev, sched, TheWorld(dma)))
    {
      var w := Tick(dev, sched, TheWorld(dma));
      dma.WriteBytes(0, w.mem);
      assert WriteAt(old(dma.bytes[..]), 0, w.mem) == w.mem;
      ctl, clock := w.ctl, w.clock;
    }

    predicate Check(offset: nat, size: nat)
      requires size > 0
    {
      offset + size <= length && offset % size == 0
    }

    method WriteRegister32(offset: nat, value: U32)
      requires Valid() && Check(offset, 4)
      modifies this`ctl
      ensures Valid() && ctl == Write32(dev, old(ctl), offset, value)
    {
      ctl := Write32(dev, ctl, offset, value);
    }

    method WriteRegister64(offset: nat, value: U64)
      requires Valid() && Check(offset, 8)
      modifies this`ctl
      ensures Valid() && ctl == Write64(old(ctl), offset, value)
    {
      ctl := Write64(ctl, offset, value);
    }

    method RingSubmissionDoorbell(queueId: nat, stride: nat, value: U32)
      requires Valid() && queueId < 2 && stride == StrideOf(dev.capabilities)
      modifies this`ctl
      ensures Valid() && ctl == Write32(dev, old(ctl), SqDoorbell(queueId, stride), value)
    {
      DoorbellAligned(dev.capabilities, queueId);
      var offset := DOORBELL_BASE + 2 * queueId * stride;
      WriteRegister32(offset, value);
    }

    method RingCompletionDoorbell(queueId: nat, stride: nat, value: U32)
      requires Valid() && queueId < 2 && stride == StrideOf(dev.capabilities)
      modifies this`ctl
      ensures Valid() && ctl == Write32(dev, old(ctl), CqDoorbell(queueId, stride), value)
    {
      DoorbellAligned(dev.capabilities, queueId);
      var offset := DOORBELL_BASE + (2 * queueId + 1) * stride;
      WriteRegister32(offset, value);
    }
  }
}
