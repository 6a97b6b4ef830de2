/**
 The NVMe controller as an adversarial but compliant machine on the other side of the BAR and
 the DMA region. It chooses when to fetch, in which order to execute, when and in
 which order to post, which bytes of a transfer to move and how often, and what status to
 report; it is bound only by the rules of the NVM Express Base Specification. A disabled action does
 nothing, so every sequence of actions is a run.
 */
module Controller {
  import opened Bytes
  import opened NvmeSpec
  import opened DmaLayout
  import opened Prp
  import opened Ring

  const CC: nat := 0x14
  const AQA: nat := 0x24
  const ASQ: nat := 0x28
  const ACQ: nat := 0x30
  const DOORBELL_BASE: nat := 0x1000

  /** What never changes about the device: its one namespace, its Identify data and its capabilities. */
  datatype Device = Device(
    capabilities: U64, nsid: U32, blockSize: nat, controllerPage: seq<U8>, namespacePage: seq<U8>)

  function Pow2(n: nat): (p: nat)
    ensures p >= 1
  {
    if n == 0 then 1 else 2 * Pow2(n - 1)
  }

  /** Doorbell stride in bytes, 4 << CAP.DSTRD (src/nvmetoy.rs:66). */
  function StrideOf(capabilities: U64): (s: nat)
    ensures s >= 4
  {
    4 * Pow2(capabilities / 0x1_0000_0000 % 16)
  }

  /** Block size the formatted LBA format describes: FLBAS bits 3:0 select LBADS. */
  function FormattedBlockSize(page: seq<U8>): nat
    requires |page| == 4096
  {
    Pow2(FormattedLbads(page))
  }

  function FormattedLbads(page: seq<U8>): U8
    requires |page| == 4096
  {
    page[128 + 4 * (page[26] % 16) + 2]
  }

  predicate ValidDevice(dev: Device) {
    && |dev.controllerPage| == |dev.namespacePage| == 4096
    && 9 <= FormattedLbads(dev.namespacePage) <= 47
    && dev.blockSize == FormattedBlockSize(dev.namespacePage)
    && 512 <= dev.blockSize <= 0x8000_0000_0000
  }

  datatype Registers = Registers(
    cc: U32, ready: bool, fatal: bool, aqa: nat, asq: nat, acq: nat, misprogrammed: bool)

  /** Register file, the two queue pairs by id, the medium, and every address a data transfer has touched. */
  datatype Ctl = Ctl(regs: Registers, queues: seq<CtlQueue>, media: seq<U8>, touched: set<nat>)

  datatype World = World(mem: seq<U8>, base: nat, ctl: Ctl, clock: nat)

  datatype Action =
    | BecomeReady
    | BecomeIdle
    | FailFatally
    | Fetch(q: nat)
    | Move(q: nat, k: nat, b: nat)
    | Post(q: nat, k: nat, statusBits: nat, result: U32)
    | Alter(q: nat, k: nat, x: nat, v: U8)

  /** What the controller does between the host's steps, one list of actions for each tick of the clock. */
  type Schedule = nat -> seq<Action>

  /** Neither queue shows the controller a command it has not fetched. */
  predicate NothingLeft(c: Ctl)
    requires |c.queues| == 2
  {
    !CanFetch(c.queues[0]) && !CanFetch(c.queues[1])
  }

  predicate WorldOk(w: World) {
    |w.mem| == HUGE_PAGE_SIZE && GoodBase(w.base) && |w.ctl.queues| == 2
  }

  // --- registers and doorbells -----------------------------------------------------------------

  const NO_QUEUE: CtlQueue := CtlQueue(0, 0, 0, 0, 0, 0, 0, true, 0, 0, 0, [], map[], [])

  predicate Enabled(r: Registers) {
    r.cc % 2 == 1
  }

  function ReadStatus(r: Registers): nat {
    (if r.ready then 1 else 0) + (if r.fatal then 2 else 0)
  }

  /** Clearing CC.EN deletes every queue; setting it takes the admin queue from AQA, ASQ and ACQ. */
  function WriteConfiguration(c: Ctl, value: U32): Ctl {
    var regs := c.regs.(cc := value);
    if value % 2 == 0 then
      c.(regs := regs, queues := [NO_QUEUE, NO_QUEUE])
    else if Enabled(c.regs) then
      c.(regs := regs)
    else
      c.(regs := regs,
         queues := [NO_QUEUE.(sqBase := c.regs.asq, sqSize := c.regs.aqa % 0x1000 + 1,
                              cqBase := c.regs.acq, cqSize := c.regs.aqa / 0x1_0000 % 0x1000 + 1),
                    NO_QUEUE])
  }

  /** CC.IOSQES and CC.IOCQES announce the entry sizes this driver uses, as powers of two. */
  predicate EntrySizesAgree(r: Registers) {
    Pow2(r.cc / 0x1_0000 % 16) == SQE_SIZE && Pow2(r.cc / 0x10_0000 % 16) == CQE_SIZE
  }

  /** The admin queue registers may be written only while EN and RDY are both 0. */
  predicate Misprograms(r: Registers) {
    r.misprogrammed || Enabled(r) || r.ready
  }

  function SqDoorbell(id: nat, stride: nat): nat {
    DOORBELL_BASE + 2 * id * stride
  }

  function CqDoorbell(id: nat, stride: nat): nat {
    DOORBELL_BASE + (2 * id + 1) * stride
  }

  /** The controller's decoding of a 32-bit register write. */
  function Write32(dev: Device, c: Ctl, offset: nat, value: U32): Ctl
    requires |c.queues| == 2
  {
    var stride := StrideOf(dev.capabilities);
    if offset == CC then WriteConfiguration(c, value)
    else if offset == AQA then c.(regs := c.regs.(aqa := value, misprogrammed := Misprograms(c.regs)))
    else if offset == DOORBELL_BASE then c.(queues := c.queues[0 := Rung(c.queues[0], value)])
    else if offset == DOORBELL_BASE + stride then c.(queues := c.queues[0 := c.queues[0].(cqHead := value)])
    else if offset == DOORBELL_BASE + 2 * stride then c.(queues := c.queues[1 := Rung(c.queues[1], value)])
    else if offset == DOORBELL_BASE + 3 * stride then c.(queues := c.queues[1 := c.queues[1].(cqHead := value)])
    else c
  }

  function Write64(c: Ctl, offset: nat, value: U64): Ctl {
    if offset == ASQ then c.(regs := c.regs.(asq := value, misprogrammed := Misprograms(c.regs)))
    else if offset == ACQ then c.(regs := c.regs.(acq := value, misprogrammed := Misprograms(c.regs)))
    else c
  }

  /** For every stride the four doorbells are distinct registers: each ring reaches its own queue only. */
  lemma DoorbellsReachTheirQueue(dev: Device, c: Ctl, id: nat, value: U32)
    requires |c.queues| == 2 && id < 2
    ensures var s := StrideOf(dev.capabilities);
      && Write32(dev, c, SqDoorbell(id, s), value) == c.(queues := c.queues[id := Rung(c.queues[id], value)])
      && Write32(dev, c, CqDoorbell(id, s), value) == c.(queues := c.queues[id := c.queues[id].(cqHead := value)])
  {
    var s := StrideOf(dev.capabilities);
    hide StrideOf;
    if id == 0 {
      assert SqDoorbell(0, s) == DOORBELL_BASE && CqDoorbell(0, s) == DOORBELL_BASE + s;
    } else {
      assert SqDoorbell(1, s) == DOORBELL_BASE + 2 * s && CqDoorbell(1, s) == DOORBELL_BASE + 3 * s;
    }
  }

  /** What the driver has programmed into the registers; the controller changes none of it. */
  predicate SameProgramming(r: Registers, s: Registers) {
    s.cc == r.cc && s.aqa == r.aqa && s.asq == r.asq && s.acq == r.acq && s.misprogrammed == r.misprogrammed
  }

  // --- commands ------------------------------------------------------------------------------------

  predicate IsWrite(q: nat, e: Sqe) {
    q == 1 && e.opc == OP_WRITE
  }

  /** Bytes in `n` blocks, and so the first byte of block `n`. */
  function BlockBytes(dev: Device, n: nat): nat {
    n * dev.blockSize
  }

  /** First byte on the medium and number of bytes of a Read or Write. */
  function MediaStart(dev: Device, e: Sqe): nat {
    BlockBytes(dev, Slba(e))
  }

  function MediaLength(dev: Device, e: Sqe): nat {
    BlockBytes(dev, BlockCount(e))
  }

  /** Bytes a command transfers; 0 for a command that transfers none or must be refused. */
  function TransferLength(dev: Device, media: seq<U8>, q: nat, e: Sqe): nat {
    if q == 0 then
      if e.opc == OP_IDENTIFY && (e.cdw10 % 0x100 == CNS_CONTROLLER
                                  || (e.cdw10 % 0x100 == CNS_NAMESPACE && e.nsid == dev.nsid))
      then 4096 else 0
    else
      if (e.opc == OP_READ || e.opc == OP_WRITE) && e.nsid == dev.nsid
         && MediaStart(dev, e) + MediaLength(dev, e) <= |media|
      then MediaLength(dev, e) else 0
  }

  /** Byte `b` of what a command sends to the host. */
  function SourceByte(dev: Device, media: seq<U8>, q: nat, e: Sqe, b: nat): U8
    requires |dev.controllerPage| == |dev.namespacePage| == 4096
    requires b < TransferLength(dev, media, q, e)
  {
    if q == 0 then
      if e.cdw10 % 0x100 == CNS_CONTROLLER then dev.controllerPage[b] else dev.namespacePage[b]
    else
      media[MediaStart(dev, e) + b]
  }

  predicate IsCreateCq(e: Sqe) {
    e.opc == OP_CREATE_CQ
  }

  predicate IsCreateSq(e: Sqe) {
    e.opc == OP_CREATE_SQ
  }

  predicate IsCreate(q: nat, e: Sqe) {
    q == 0 && (IsCreateCq(e) || IsCreateSq(e))
  }

  /**
   A command this driver never submits. What it does to the medium is its own affair: Format NVM, Sanitize or
   Write Zeroes change all of it or a part.
   */
  predicate Foreign(q: nat, e: Sqe) {
    if q == 0 then e.opc != OP_IDENTIFY && !IsCreateCq(e) && !IsCreateSq(e)
    else e.opc != OP_READ && e.opc != OP_WRITE
  }

  /** Whether a command may complete with success status at all. */
  predicate Acceptable(dev: Device, c: Ctl, q: nat, e: Sqe)
    requires |c.queues| == 2
  {
    || TransferLength(dev, c.media, q, e) > 0
    || (q == 0 && IsCreateCq(e) && QueueIdOf(e) == 1 && ContiguousOf(e) && c.queues[1].cqSize == 0)
    || (q == 0 && IsCreateSq(e) && QueueIdOf(e) == 1 && ContiguousOf(e) && TargetCqOf(e) == 1
        && c.queues[1].sqSize == 0 && c.queues[1].cqSize > 0)
  }

  /** A success status is allowed only once every byte has been moved. */
  predicate MaySucceed(dev: Device, c: Ctl, q: nat, job: Job)
    requires |c.queues| == 2
  {
    && Acceptable(dev, c, q, job.sqe)
    && forall b: nat :: b < TransferLength(dev, c.media, q, job.sqe) ==> b in job.moved
  }

  /** The I/O queue after a create command has succeeded. */
  function Configured(io: CtlQueue, e: Sqe): CtlQueue {
    if IsCreateCq(e) then
      io.(cqBase := e.prp1, cqSize := QueueSizeOf(e), cqTail := 0, cqTag := true, cqHead := 0)
    else
      io.(sqBase := e.prp1, sqSize := QueueSizeOf(e), sqHead := 0, sqTail := 0)
  }

  // --- actions -----------------------------------------------------------------------------------------

  predicate Live(w: World) {
    Enabled(w.ctl.regs) && w.ctl.regs.ready
  }

  predicate InRegion(w: World, address: nat, n: nat) {
    w.base <= address && address + n <= w.base + |w.mem|
  }

  function SetQueue(w: World, q: nat, c: CtlQueue): World
    requires WorldOk(w) && q < 2
  {
    w.(ctl := w.ctl.(queues := w.ctl.queues[q := c]))
  }

  function FetchAddress(w: World, q: nat): nat
    requires WorldOk(w) && q < 2
  {
    w.ctl.queues[q].sqBase + 64 * w.ctl.queues[q].sqHead
  }

  predicate FetchEnabled(w: World, q: nat)
    requires WorldOk(w)
  {
    Live(w) && q < 2 && CanFetch(w.ctl.queues[q]) && InRegion(w, FetchAddress(w, q), SQE_SIZE)
  }

  function DoFetch(w: World, q: nat): World
    requires WorldOk(w) && FetchEnabled(w, q)
  {
    var e := DecodeSqe(ReadAt(w.mem, FetchAddress(w, q) - w.base, SQE_SIZE));
    SetQueue(w, q, Fetched(w.ctl.queues[q], e))
  }

  predicate MoveEnabled(dev: Device, w: World, q: nat, k: nat, b: nat)
    requires WorldOk(w)
  {
    Live(w) && q < 2 && k in w.ctl.queues[q].jobs
    && b < TransferLength(dev, w.ctl.media, q, w.ctl.queues[q].jobs[k].sqe)
  }

  /** Where byte `b` of job `k` lives in host memory. */
  function MoveAddress(dev: Device, w: World, q: nat, k: nat, b: nat): nat
    requires WorldOk(w) && MoveEnabled(dev, w, q, k, b)
  {
    var e := w.ctl.queues[q].jobs[k].sqe;
    PrpAddress(w.mem, w.base, e.prp1, e.prp2, TransferLength(dev, w.ctl.media, q, e), b)
  }

  function DoMove(dev: Device, w: World, q: nat, k: nat, b: nat): World
    requires ValidDevice(dev) && WorldOk(w) && MoveEnabled(dev, w, q, k, b)
  {
    var c := w.ctl;
    var e := c.queues[q].jobs[k].sqe;
    var address := MoveAddress(dev, w, q, k, b);
    var there := InRegion(w, address, 1);
    var media := if IsWrite(q, e)
                 then c.media[MediaStart(dev, e) + b := if there then w.mem[address - w.base] else 0]
                 else c.media;
    var mem := if !IsWrite(q, e) && there
               then WriteAt(w.mem, address - w.base, [SourceByte(dev, c.media, q, e, b)])
               else w.mem;
    w.(mem := mem,
       ctl := c.(queues := c.queues[q := Moved(c.queues[q], k, b)], media := media, touched := c.touched + {address}))
  }

  function PostAddress(w: World, q: nat): nat
    requires WorldOk(w) && q < 2
  {
    w.ctl.queues[q].cqBase + 16 * w.ctl.queues[q].cqTail
  }

  function PostEntry(w: World, q: nat, k: nat, statusBits: nat, result: U32): Cqe
    requires WorldOk(w) && q < 2 && k in w.ctl.queues[q].jobs
  {
    CompletionOf(w.ctl.queues[q], k, q, statusBits, result)
  }

  predicate PostEnabled(dev: Device, w: World, q: nat, k: nat, statusBits: nat, result: U32)
    requires WorldOk(w)
  {
    && Live(w) && q < 2 && CanPost(w.ctl.queues[q], k) && InRegion(w, PostAddress(w, q), CQE_SIZE)
    && (IsSuccess(PostEntry(w, q, k, statusBits, result)) ==> MaySucceed(dev, w.ctl, q, w.ctl.queues[q].jobs[k]))
  }

  /** Posting up to, but not including, the effect of a create command. */
  function PostedWorld(w: World, q: nat, k: nat, entry: Cqe): (v: World)
    requires WorldOk(w) && q < 2 && CanPost(w.ctl.queues[q], k) && InRegion(w, PostAddress(w, q), CQE_SIZE)
    ensures WorldOk(v) && v.base == w.base && v.clock == w.clock && v.ctl.media == w.ctl.media
  {
    SetQueue(w, q, Posted(w.ctl.queues[q], k, entry)).(
      mem := WriteAt(w.mem, PostAddress(w, q) - w.base, EncodeCqe(entry)))
  }

  /** Posting writes the entry, retires the job and lets a successful create command take effect. */
  function DoPost(dev: Device, w: World, q: nat, k: nat, statusBits: nat, result: U32): World
    requires WorldOk(w) && PostEnabled(dev, w, q, k, statusBits, result)
  {
    var e := w.ctl.queues[q].jobs[k].sqe;
    var entry := PostEntry(w, q, k, statusBits, result);
    var v := PostedWorld(w, q, k, entry);
    if IsSuccess(entry) && IsCreate(q, e) then SetQueue(v, 1, Configured(v.ctl.queues[1], e)) else v
  }

  predicate AlterEnabled(w: World, q: nat, k: nat, x: nat)
    requires WorldOk(w)
  {
    Live(w) && q < 2 && k in w.ctl.queues[q].jobs && Foreign(q, w.ctl.queues[q].jobs[k].sqe) && x < |w.ctl.media|
  }

  /** A foreign command may give any byte of the medium any value. */
  function DoAlter(w: World, x: nat, v: U8): World
    requires WorldOk(w) && x < |w.ctl.media|
  {
    w.(ctl := w.ctl.(media := w.ctl.media[x := v]))
  }

  function SetRegs(w: World, r: Registers): World {
    w.(ctl := w.ctl.(regs := r))
  }

  function Step(dev: Device, w: World, a: Action): (v: World)
    requires ValidDevice(dev) && WorldOk(w)
    ensures WorldOk(v) && v.base == w.base && v.clock == w.clock && |v.ctl.media| == |w.ctl.media|
    ensures SameProgramming(w.ctl.regs, v.ctl.regs)
  {
    var r := w.ctl.regs;
    match a
    case BecomeReady => if Enabled(r) then SetRegs(w, r.(ready := true)) else w
    case BecomeIdle => if Enabled(r) then w else SetRegs(w, r.(ready := false))
    case FailFatally => SetRegs(w, r.(fatal := true))
    case Fetch(q) => if FetchEnabled(w, q) then DoFetch(w, q) else w
    case Move(q, k, b) => if MoveEnabled(dev, w, q, k, b) then DoMove(dev, w, q, k, b) else w
    case Post(q, k, bits, result) =>
      if PostEnabled(dev, w, q, k, bits, result) then DoPost(dev, w, q, k, bits, result) else w
    case Alter(q, k, x, v) => if AlterEnabled(w, q, k, x) then DoAlter(w, x, v) else w
  }

  function Run(dev: Device, w: World, actions: seq<Action>): (v: World)
    requires ValidDevice(dev) && WorldOk(w)
    ensures WorldOk(v) && v.base == w.base && v.clock == w.clock && |v.ctl.media| == |w.ctl.media|
    ensures SameProgramming(w.ctl.regs, v.ctl.regs)
    decreases |actions|
  {
    if actions == [] then w else Run(dev, Step(dev, w, actions[0]), actions[1..])
  }

  /** One chance for the controller to run. */
  function Tick(dev: Device, sched: Schedule, w: World): (v: World)
    requires ValidDevice(dev) && WorldOk(w)
    ensures WorldOk(v) && v.base == w.base && |v.ctl.media| == |w.ctl.media|
    ensures SameProgramming(w.ctl.regs, v.ctl.regs)
  {
    var v := Run(dev, w, sched(w.clock));
    v.(clock := w.clock + 1)
  }
}
