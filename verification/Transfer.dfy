/** What the invariant of a call says once the call is over, command by command, and the host's own stores. */
module Transfer {
  import opened Bytes
  import opened NvmeSpec
  import opened DmaLayout
  import opened Prp
  import opened Ring
  import opened Controller
  import opened System
  import opened Submit
  import opened Effect
  import opened BlockDevice

  /** A successful Read delivers exactly the bytes of its block range and leaves the medium alone. */
  lemma ReadEffect(dev: Device, s: Start, w: World, n: nat, e: Sqe)
    requires WorldOk(w) && Fits(dev, s, 1, e) && CallInv(dev, s, w, 1, n, e) && e.opc == OP_READ
    ensures w.ctl.media == s.media
    ensures Succeeded(w.ctl.queues[1], n) ==>
      && MediaStart(dev, e) + MediaLength(dev, e) <= |s.media|
      && ReadAt(w.mem, DATA_OFFSET, MediaLength(dev, e)) == ReadAt(s.media, MediaStart(dev, e), MediaLength(dev, e))
  {
    hide Stage, RingsAsAsked, AtRest, MediaStart, MediaLength, IsSuccess;
    if Succeeded(w.ctl.queues[1], n) {
      var length := MediaLength(dev, e);
      var moved := MovedBytes(w.ctl.queues[1], n);
      forall b | 0 <= b < length
        ensures ReadAt(w.mem, DATA_OFFSET, length)[b] == ReadAt(s.media, MediaStart(dev, e), length)[b]
      {
        assert b in moved;
        assert w.mem[DATA_OFFSET + b] == SourceByte(dev, s.media, 1, e, b);
      }
    }
  }

  /** A successful Write stores exactly the data area over its block range; one that fails may store a part. */
  lemma WriteEffect(dev: Device, s: Start, w: World, n: nat, e: Sqe)
    requires WorldOk(w) && Fits(dev, s, 1, e) && CallInv(dev, s, w, 1, n, e) && e.opc == OP_WRITE
    ensures MediaLength(dev, e) <= MAX_TRANSFER_BYTES
    ensures var data := ReadAt(s.mem, DATA_OFFSET, MediaLength(dev, e));
      && Torn(s.media, w.ctl.media, MediaStart(dev, e), data)
      && (Succeeded(w.ctl.queues[1], n) ==>
            && MediaStart(dev, e) + MediaLength(dev, e) <= |s.media|
            && w.ctl.media == WriteAt(s.media, MediaStart(dev, e), data))
  {
    hide Stage, RingsAsAsked, AtRest, MediaStart, MediaLength, IsSuccess;
    var length := MediaLength(dev, e);
    var data := ReadAt(s.mem, DATA_OFFSET, length);
    var moved := MovedBytes(w.ctl.queues[1], n);
    assert Copied(dev, s.media, s.mem, w.ctl.media, e, moved);
    if Succeeded(w.ctl.queues[1], n) {
      assert AllMoved(moved, length);
      assert w.ctl.media == WriteAt(s.media, MediaStart(dev, e), data);
    }
  }

  /** A successful Identify delivers the page asked for. */
  lemma IdentifyEffect(dev: Device, s: Start, w: World, n: nat, e: Sqe)
    requires WorldOk(w) && Fits(dev, s, 0, e) && CallInv(dev, s, w, 0, n, e)
    requires e.opc == OP_IDENTIFY
    ensures w.ctl.media == s.media
    ensures Succeeded(w.ctl.queues[0], n) ==>
      && (e.cdw10 == CNS_CONTROLLER ==> ReadAt(w.mem, DATA_OFFSET, 4096) == dev.controllerPage)
      && (e.cdw10 == CNS_NAMESPACE ==> e.nsid == dev.nsid && ReadAt(w.mem, DATA_OFFSET, 4096) == dev.namespacePage)
  {
    hide Stage, RingsAsAsked, AtRest, IsSuccess;
    if Succeeded(w.ctl.queues[0], n) {
      assert TransferLength(dev, s.media, 0, e) == 4096;
      var moved := MovedBytes(w.ctl.queues[0], n);
      var page := if e.cdw10 % 0x100 == CNS_CONTROLLER then dev.controllerPage else dev.namespacePage;
      forall b | 0 <= b < 4096
        ensures ReadAt(w.mem, DATA_OFFSET, 4096)[b] == page[b]
      {
        assert b in moved;
        assert w.mem[DATA_OFFSET + b] == SourceByte(dev, s.media, 0, e, b);
      }
      assert ReadAt(w.mem, DATA_OFFSET, 4096) == page;
    }
  }

  /** A successful create command gives the I/O queue the ring it asked for. */
  lemma CreateEffect(dev: Device, s: Start, w: World, n: nat, e: Sqe)
    requires WorldOk(w) && Fits(dev, s, 0, e) && CallInv(dev, s, w, 0, n, e) && IsCreate(0, e)
    ensures w.ctl.media == s.media
    ensures Succeeded(w.ctl.queues[0], n) && IsCreateCq(e) ==>
      w.ctl.queues[1].cqSize == QueueSizeOf(e) && w.ctl.queues[1].sqSize == s.io.sqSize
    ensures Succeeded(w.ctl.queues[0], n) && IsCreateSq(e) ==>
      w.ctl.queues[1].sqSize == QueueSizeOf(e) && w.ctl.queues[1].cqSize == s.io.cqSize
  {
    hide Stage, AtRest, IsSuccess, QueueSizeOf, TransferLength, AllMoved, Delivered;
  }

  // --- the host's own stores ----------------------------------------------------------------------------

  /** Stores above the rings that leave the lists right keep the invariant. */
  lemma HostStoreKeeps(dev: Device, before: seq<U8>, w: World, hosts: seq<HostQueue>, mem: seq<U8>)
    requires SysInv(dev, before, w, hosts) && |mem| == |w.mem| && SameIn(w.mem, mem, 0, PRP_LIST_OFFSET)
    requires ListsOk(dev, mem, w.base, hosts[1].submitted)
    ensures SysInv(dev, before, w.(mem := mem), hosts)
  {
    hide QueueInv, CommandsOk, ListsOk, Provenance, TouchedOk, NoCreates;
    QueueFrame(w.mem, mem, w.base, hosts[0], w.ctl.queues[0], 0);
    QueueFrame(w.mem, mem, w.base, hosts[1], w.ctl.queues[1], 1);
  }

  /** One store into the list for a new transfer leaves every list already published valid. */
  lemma EntryKeeps(dev: Device, before: seq<U8>, w: World, hosts: seq<HostQueue>, k: nat)
    requires SysInv(dev, before, w, hosts) && k + 1 < DATA_PAGES
    ensures SysInv(dev, before, w.(mem := EntryStored(w.mem, w.base, k)), hosts)
    ensures SameIn(w.mem, EntryStored(w.mem, w.base, k), DATA_OFFSET, HUGE_PAGE_SIZE)
    ensures ListHolds(w.mem, w.base, k) ==> ListHolds(EntryStored(w.mem, w.base, k), w.base, k + 1)
  {
    hide QueueInv, CommandsOk, Provenance, TouchedOk, NoCreates, EntryStored, QueuesInOrder, RingsLive, ListHolds;
    EntryStoredFrame(w.mem, w.base, k);
    if ListHolds(w.mem, w.base, k) {
      EntryStoredHolds(w.mem, w.base, k, k);
    }
    forall m | 0 <= m < |hosts[1].submitted|
      ensures ListOk(dev, EntryStored(w.mem, w.base, k), w.base, hosts[1].submitted[m])
    {
      var e := hosts[1].submitted[m];
      assert ListOk(dev, w.mem, w.base, e);
      EntryStoredHolds(w.mem, w.base, k, ListLength(MediaLength(dev, e)));
      ListShorter(EntryStored(w.mem, w.base, k), w.base, k, ListLength(MediaLength(dev, e)));
    }
    HostStoreKeeps(dev, before, w, hosts, EntryStored(w.mem, w.base, k));
  }

  lemma ListShorter(mem: seq<U8>, base: nat, k: nat, n: nat)
    requires |mem| == HUGE_PAGE_SIZE && n < DATA_PAGES && k + 1 < DATA_PAGES
    requires ListHolds(mem, base, if n == k then n + 1 else n)
    ensures ListHolds(mem, base, n)
  {
    hide EntryHolds;
  }

  // --- a controller with nothing to do ---------------------------------------------------------------------

  /** With nothing outstanding the controller changes only its own status bits. */
  lemma RestStep(dev: Device, w: World, a: Action)
    requires ValidDevice(dev) && WorldOk(w) && AtRest(w.ctl.queues[0]) && AtRest(w.ctl.queues[1])
    ensures var v := Step(dev, w, a); v == w.(ctl := w.ctl.(regs := v.ctl.regs))
  {
    hide DoFetch, DoMove, DoPost, DoAlter, Foreign;
  }

  lemma {:induction false} RestRun(dev: Device, w: World, actions: seq<Action>)
    requires ValidDevice(dev) && WorldOk(w) && AtRest(w.ctl.queues[0]) && AtRest(w.ctl.queues[1])
    ensures var v := Run(dev, w, actions); v == w.(ctl := w.ctl.(regs := v.ctl.regs))
    decreases |actions|
  {
    hide Step, ValidDevice, AtRest;
    if actions != [] {
      RestStep(dev, w, actions[0]);
      RestRun(dev, Step(dev, w, actions[0]), actions[1..]);
    }
  }

  lemma RestTick(dev: Device, before: seq<U8>, sched: Schedule, w: World, hosts: seq<HostQueue>)
    requires SysInv(dev, before, w, hosts) && Settling(hosts[0]) && Settling(hosts[1])
    ensures var v := Tick(dev, sched, w); v == w.(ctl := w.ctl.(regs := v.ctl.regs), clock := w.clock + 1)
  {
    hide SysInv, Settling, AtRest, ValidDevice, QueueInv;
    ShapeOf(dev, before, w, hosts);
    QueueOf(dev, before, w, hosts, 0);
    QueueOf(dev, before, w, hosts, 1);
    QuietQueue(w.mem, w.base, hosts[0], w.ctl.queues[0], 0);
    QuietQueue(w.mem, w.base, hosts[1], w.ctl.queues[1], 1);
    RestRun(dev, w, sched(w.clock));
  }

  // --- payloads ----------------------------------------------------------------------------------------------

  /** Storing a payload at the start of the data area keeps the invariant. */
  lemma PayloadKeeps(dev: Device, before: seq<U8>, w: World, hosts: seq<HostQueue>, data: seq<U8>)
    requires SysInv(dev, before, w, hosts) && |data| <= MAX_TRANSFER_BYTES
    ensures SysInv(dev, before, w.(mem := WriteAt(w.mem, DATA_OFFSET, data)), hosts)
  {
    hide QueueInv, CommandsOk, Provenance, TouchedOk, NoCreates, QueuesInOrder, ListsOk;
    var mem := WriteAt(w.mem, DATA_OFFSET, data);
    StoreFrame(w.mem, DATA_OFFSET, data);
    hide WriteAt;
    ListsFrame(dev, w.mem, mem, w.base, hosts[1].submitted);
    HostStoreKeeps(dev, before, w, hosts, mem);
  }
}
