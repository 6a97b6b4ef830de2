/**
 One submission and completion queue pair as a protocol between host and controller.

 The host owns the fields of `QueuePair` (src/queue_pair.rs): a tail, a head and a phase
 modulo the ring, and a 16-bit command identifier. The controller owns its own pointers and the
 two doorbell values it has been told. `RingInv` ties all of them to unbounded counters:
 how many commands were submitted, announced, fetched, posted, consumed and timed out. It is
 kept by every step of either side, in any interleaving, with any number of timeouts.
 */
module Ring {
  import opened Bytes
  import opened NvmeSpec

  /** The fields of `QueuePair`, then the history its runs leave behind. */
  datatype HostQueue = HostQueue(
    id: nat, sqOffset: nat, cqOffset: nat,
    tail: nat, head: nat, phase: bool, cid: nat,
    submitted: seq<Sqe>, announced: nat, consumed: nat, timeouts: nat)

  /** A command the controller has fetched, with the transfer bytes it has moved so far. */
  datatype Job = Job(sqe: Sqe, moved: set<nat>)

  /** The `number`-th fetched command, as it stood when its completion was posted. */
  datatype Posting = Posting(number: nat, sqe: Sqe, moved: set<nat>, cqe: Cqe)

  /**
   The controller's side of a queue pair; a size of 0 means that ring does not exist. Its history: how
   often the submission doorbell has been rung, how many commands have been fetched, the submission number
   each fetch found in its slot, and the completions posted.
   */
  datatype CtlQueue = CtlQueue(
    sqBase: nat, sqSize: nat, cqBase: nat, cqSize: nat,
    sqHead: nat, sqTail: nat, cqTail: nat, cqTag: bool, cqHead: nat,
    rung: nat, fetched: nat, origins: seq<nat>, jobs: map<nat, Job>, posted: seq<Posting>)

  /** The phase tag of the `n`-th entry of a 64-slot ring: true on even laps. */
  predicate Lap(n: nat) {
    n / 64 % 2 == 0
  }

  // --- host steps ----------------------------------------------------------------------

  function NewHostQueue(id: nat, sqOffset: nat, cqOffset: nat): HostQueue {
    HostQueue(id, sqOffset, cqOffset, 0, 0, true, 0, [], 0, 0, 0)
  }

  function Stored(h: HostQueue, e: Sqe): HostQueue {
    h.(tail := (h.tail + 1) % 64, cid := (h.cid + 1) % 0x1_0000, submitted := h.submitted + [e])
  }

  function Announced(h: HostQueue): HostQueue {
    h.(announced := |h.submitted|)
  }

  function Consumed(h: HostQueue): HostQueue {
    var head := (h.head + 1) % 64;
    h.(head := head, phase := if head == 0 then !h.phase else h.phase, consumed := h.consumed + 1)
  }

  function GivenUp(h: HostQueue): HostQueue {
    h.(timeouts := h.timeouts + 1)
  }

  // --- controller steps on one queue ------------------------------------------------------

  /** Empty is head equal to tail (section 3.3.1 of the NVM Express Base Specification). */
  predicate CanFetch(c: CtlQueue) {
    c.sqSize > 0 && c.sqHead != c.sqTail
  }

  /** The doorbell tells the controller a new tail. */
  function Rung(c: CtlQueue, tail: nat): CtlQueue {
    c.(sqTail := tail, rung := c.rung + 1)
  }

  /** The submission the next fetch finds in its slot: the latest announced one that was stored there. */
  function NextOrigin(c: CtlQueue): nat {
    if c.fetched <= c.rung then c.fetched + (c.rung - c.fetched) / 64 * 64 else c.fetched
  }

  function Fetched(c: CtlQueue, e: Sqe): CtlQueue
    requires c.sqSize > 0
  {
    c.(sqHead := (c.sqHead + 1) % c.sqSize, fetched := c.fetched + 1, origins := c.origins + [NextOrigin(c)],
       jobs := c.jobs[c.fetched := Job(e, {})])
  }

  function Moved(c: CtlQueue, k: nat, b: nat): CtlQueue
    requires k in c.jobs
  {
    c.(jobs := c.jobs[k := c.jobs[k].(moved := c.jobs[k].moved + {b})])
  }

  /** Full is one slot short of the ring: the controller never overwrites an unfreed completion. */
  predicate CanPost(c: CtlQueue, k: nat) {
    k in c.jobs && c.cqSize > 0 && (c.cqTail + 1) % c.cqSize != c.cqHead
  }

  /** The completion for job `k`: its identifier, the current tag, and 15 status bits of the controller's choice. */
  function CompletionOf(c: CtlQueue, k: nat, queueId: U16, statusBits: nat, result: U32): (e: Cqe)
    requires k in c.jobs
    ensures Phase(e) == c.cqTag && e.cid == c.jobs[k].sqe.cid
  {
    Cqe(result, 0, c.sqHead % 0x1_0000, queueId, c.jobs[k].sqe.cid,
        statusBits % 0x8000 * 2 + (if c.cqTag then 1 else 0))
  }

  function Posted(c: CtlQueue, k: nat, cqe: Cqe): CtlQueue
    requires k in c.jobs && c.cqSize > 0
  {
    var tail := (c.cqTail + 1) % c.cqSize;
    c.(cqTail := tail, cqTag := if tail == 0 then !c.cqTag else c.cqTag,
       jobs := c.jobs - {k}, posted := c.posted + [Posting(k, c.jobs[k].sqe, c.jobs[k].moved, cqe)])
  }

  // --- the invariant ----------------------------------------------------------------------

  /** The host's small counters are images of the unbounded ones. */
  predicate HostOk(h: HostQueue) {
    && h.tail == |h.submitted| % 64
    && h.cid == |h.submitted| % 0x1_0000
    && h.head == h.consumed % 64
    && h.phase == Lap(h.consumed)
    && h.announced <= |h.submitted| <= h.announced + 1
    && h.consumed + h.timeouts <= |h.submitted| <= h.consumed + h.timeouts + 1
  }

  /** So are the controller's, and the completion ring never holds more than 63 unread entries. */
  predicate PointersOk(h: HostQueue, c: CtlQueue) {
    && c.sqSize in {0, 64} && c.cqSize in {0, 64}
    && c.sqTail == h.announced % 64 && c.rung == h.announced
    && c.sqHead == c.fetched % 64
    && c.cqHead == h.consumed % 64
    && c.cqTail == |c.posted| % 64
    && c.cqTag == Lap(|c.posted|)
    && h.consumed <= |c.posted| <= h.consumed + 63
    && |c.posted| + |c.jobs| == c.fetched <= h.announced
    && (c.fetched > 0 ==> c.sqSize == 64) && (|c.posted| > 0 ==> c.cqSize == 64)
  }

  /** Command identifiers are submission numbers modulo 2^16. */
  predicate CidsOk(submitted: seq<Sqe>) {
    forall n :: 0 <= n < |submitted| ==> submitted[n].cid == n % 0x1_0000
  }

  /** Each submission slot holds the latest command stored there. */
  predicate SqHolds(submitted: seq<Sqe>, sq: seq<Sqe>)
    requires |sq| == 64
  {
    forall n :: 0 <= n < |submitted| <= n + 64 ==> sq[n % 64] == submitted[n]
  }

  /** Each completion slot holds the latest entry posted there, or is still zeroed. */
  predicate CqHolds(posted: seq<Posting>, cq: seq<Cqe>)
    requires |cq| == 64
  {
    && (forall m :: 0 <= m < |posted| <= m + 64 ==> cq[m % 64] == posted[m].cqe)
    && (forall i :: |posted| <= i < 64 ==> !Phase(cq[i]))
  }

  /** Every fetch found a submission of its own slot, no earlier than its number, and later ones found later ones. */
  predicate OriginsOk(c: CtlQueue, count: nat) {
    && |c.origins| == c.fetched
    && (forall k :: 0 <= k < |c.origins| ==>
          k <= c.origins[k] < count && c.origins[k] % 64 == k % 64 && c.origins[k] < NextOrigin(c))
    && (forall j, k :: 0 <= j < k < |c.origins| ==> c.origins[j] < c.origins[k])
  }

  /** `e` is what the `k`-th fetch found. */
  predicate FetchedAs(submitted: seq<Sqe>, origins: seq<nat>, k: nat, e: Sqe) {
    k < |origins| && origins[k] < |submitted| && e == submitted[origins[k]]
  }

  /** The controller works only on commands the host submitted. */
  predicate JobsOk(submitted: seq<Sqe>, origins: seq<nat>, jobs: map<nat, Job>) {
    forall k :: k in jobs ==> FetchedAs(submitted, origins, k, jobs[k].sqe)
  }

  predicate PostingOk(submitted: seq<Sqe>, origins: seq<nat>, p: Posting, m: nat) {
    Phase(p.cqe) == Lap(m) && p.cqe.cid == p.sqe.cid && FetchedAs(submitted, origins, p.number, p.sqe)
  }

  predicate PostsOk(submitted: seq<Sqe>, origins: seq<nat>, posted: seq<Posting>) {
    forall m :: 0 <= m < |posted| ==> PostingOk(submitted, origins, posted[m], m)
  }

  /** Each fetched command is answered at most once. */
  predicate AnsweredOnce(fetched: nat, pending: set<nat>, posted: seq<Posting>) {
    && (forall m :: 0 <= m < |posted| ==> posted[m].number < fetched && posted[m].number !in pending)
    && (forall m, n :: 0 <= m < n < |posted| ==> posted[m].number != posted[n].number)
  }

  /** Fetch number and submission number agree: nothing has been lost. */
  predicate InStep(origins: seq<nat>) {
    forall k :: 0 <= k < |origins| ==> origins[k] == k
  }

  predicate RingInv(h: HostQueue, c: CtlQueue, sq: seq<Sqe>, cq: seq<Cqe>) {
    && |sq| == |cq| == 64
    && HostOk(h) && PointersOk(h, c) && CidsOk(h.submitted)
    && SqHolds(h.submitted, sq) && CqHolds(c.posted, cq)
    && OriginsOk(c, |h.submitted|)
    && JobsOk(h.submitted, c.origins, c.jobs) && PostsOk(h.submitted, c.origins, c.posted)
    && AnsweredOnce(c.fetched, c.jobs.Keys, c.posted)
    && (h.timeouts <= 62 ==> InStep(c.origins))
  }

  /** Between calls every submission is accounted for: consumed or timed out. */
  predicate Idle(h: HostQueue) {
    |h.submitted| == h.consumed + h.timeouts == h.announced
  }

  // --- arithmetic of laps and slots ----------------------------------------------------------

  lemma SlotsDiffer(a: nat, b: nat)
    requires a < b < a + 64
    ensures a % 64 != b % 64
  {
  }

  lemma SlotStep(n: nat)
    ensures (n % 64 + 1) % 64 == (n + 1) % 64
  {
  }

  lemma LapStep(n: nat)
    ensures Lap(n + 1) == if (n + 1) % 64 == 0 then !Lap(n) else Lap(n)
  {
  }

  lemma LapBack(n: nat)
    requires n >= 64
    ensures Lap(n - 64) == !Lap(n) && (n - 64) % 64 == n % 64
  {
  }

  lemma CidStep(n: nat)
    ensures (n % 0x1_0000 + 1) % 0x1_0000 == (n + 1) % 0x1_0000
  {
  }

  lemma RingNotFull(posted: nat, consumed: nat)
    requires consumed <= posted <= consumed + 63 && (posted % 64 + 1) % 64 != consumed % 64
    ensures posted < consumed + 63
  {
    SlotStep(posted);
    assert (consumed + 64) % 64 == consumed % 64;
  }

  // --- every step keeps the invariant -----------------------------------------------------------

  /** A ring just created: the controller's side holds nothing but its configuration. */
  predicate Pristine(c: CtlQueue) {
    && c.sqSize in {0, 64} && c.cqSize in {0, 64}
    && c.sqHead == c.sqTail == c.cqTail == c.cqHead == c.rung == c.fetched == 0 && c.cqTag
    && c.origins == [] && c.jobs == map[] && c.posted == []
  }

  lemma NewQueueInv(h: HostQueue, c: CtlQueue, sq: seq<Sqe>, cq: seq<Cqe>)
    requires h == NewHostQueue(h.id, h.sqOffset, h.cqOffset) && Pristine(c)
    requires |sq| == |cq| == 64 && forall i :: 0 <= i < 64 ==> !Phase(cq[i])
    ensures RingInv(h, c, sq, cq) && Idle(h)
  {
  }

  lemma StoreKeeps(h: HostQueue, c: CtlQueue, sq: seq<Sqe>, cq: seq<Cqe>, e: Sqe)
    requires RingInv(h, c, sq, cq) && Idle(h) && e.cid == h.cid
    ensures RingInv(Stored(h, e), c, sq[h.tail := e], cq)
  {
    hide SqHolds, CidsOk, JobsOk, PostsOk, CqHolds, AnsweredOnce, InStep, Lap;
    StoreSq(h.submitted, sq, e);
    StoreCids(h.submitted, e, h.cid);
    StoreWork(h.submitted, c, e);
    SlotStep(|h.submitted|);
    CidStep(|h.submitted|);
  }

  lemma StoreSq(submitted: seq<Sqe>, sq: seq<Sqe>, e: Sqe)
    requires |sq| == 64 && SqHolds(submitted, sq)
    ensures SqHolds(submitted + [e], sq[|submitted| % 64 := e])
  {
    forall n | 0 <= n < |submitted| < n + 64
      ensures sq[|submitted| % 64 := e][n % 64] == submitted[n]
    {
      SlotsDiffer(n, |submitted|);
    }
  }

  lemma StoreCids(submitted: seq<Sqe>, e: Sqe, cid: nat)
    requires CidsOk(submitted) && e.cid == cid == |submitted| % 0x1_0000
    ensures CidsOk(submitted + [e])
  {
  }

  lemma StoreWork(submitted: seq<Sqe>, c: CtlQueue, e: Sqe)
    requires JobsOk(submitted, c.origins, c.jobs) && PostsOk(submitted, c.origins, c.posted)
    ensures JobsOk(submitted + [e], c.origins, c.jobs) && PostsOk(submitted + [e], c.origins, c.posted)
  {
    hide Lap, Phase;
    forall m | 0 <= m < |c.posted|
      ensures PostingOk(submitted + [e], c.origins, c.posted[m], m)
    {
      assert PostingOk(submitted, c.origins, c.posted[m], m);
    }
  }

  lemma AnnounceKeeps(h: HostQueue, c: CtlQueue, sq: seq<Sqe>, cq: seq<Cqe>)
    requires RingInv(h, c, sq, cq) && h.announced < |h.submitted|
    ensures RingInv(Announced(h), Rung(c, h.tail), sq, cq)
  {
    hide SqHolds, CidsOk, JobsOk, PostsOk, CqHolds, AnsweredOnce, InStep, Lap, NextOrigin;
    OriginGrows(c, h.tail);
  }

  /** Announcing never moves the next fetch back to an older submission. */
  lemma OriginGrows(c: CtlQueue, tail: nat)
    ensures NextOrigin(c) <= NextOrigin(Rung(c, tail))
  {
  }

  /** A fetch moves it one submission on. */
  lemma OriginSteps(c: CtlQueue, e: Sqe)
    requires c.sqSize > 0 && c.fetched <= c.rung && c.fetched % 64 != c.rung % 64
    ensures NextOrigin(Fetched(c, e)) == NextOrigin(c) + 1
  {
    Lapsed(c.fetched, c.rung);
  }

  lemma Lapsed(k: nat, a: nat)
    requires k <= a && k % 64 != a % 64
    ensures k < a && (a - k) % 64 != 0 && (a - k - 1) / 64 == (a - k) / 64
  {
    if (a - k) % 64 == 0 {
      assert a == k + 64 * ((a - k) / 64);
      Laps(k, (a - k) / 64);
    }
  }

  lemma {:induction false} Laps(x: nat, q: nat)
    ensures (x + 64 * q) % 64 == x % 64
  {
    if q > 0 {
      Laps(x, q - 1);
      assert x + 64 * q == (x + 64 * (q - 1)) + 64;
    }
  }

  /** Which submission lies in the slot the controller is about to fetch. */
  lemma SlotOwner(h: HostQueue, c: CtlQueue, sq: seq<Sqe>)
    requires |sq| == 64 && HostOk(h) && PointersOk(h, c) && SqHolds(h.submitted, sq) && CanFetch(c)
    ensures var n := NextOrigin(c);
      && c.sqHead < 64 && c.fetched <= n < |h.submitted| && n % 64 == c.fetched % 64
      && sq[c.sqHead] == h.submitted[n]
      && (h.timeouts <= 62 ==> n == c.fetched)
  {
    hide Lap;
    Lapsed(c.fetched, c.rung);
    var n := LatestInSlot(c.fetched, |h.submitted|);
    SameLap(c.fetched, c.rung, |h.submitted|, n);
    assert sq[n % 64] == h.submitted[n];
  }

  lemma SameLap(k: nat, a: nat, count: nat, n: nat)
    requires k <= a && (a - k) % 64 != 0 && a <= count <= a + 1
    requires k <= n < count <= n + 64 && n % 64 == k % 64
    ensures n == k + (a - k) / 64 * 64
  {
    var j := (n - k) / 64;
    assert n - k == 64 * j by { WholeLaps(k, n); }
  }

  lemma WholeLaps(k: nat, n: nat)
    requires k <= n && n % 64 == k % 64
    ensures n - k == 64 * ((n - k) / 64)
  {
  }

  lemma LatestInSlot(k: nat, count: nat) returns (n: nat)
    requires k < count
    ensures k <= n < count <= n + 64 && n % 64 == k % 64
    ensures count <= k + 64 ==> n == k
  {
    n := k;
    while n + 64 < count
      invariant k <= n < count && n % 64 == k % 64
      invariant count <= k + 64 ==> n == k
    {
      n := n + 64;
    }
  }

  /**
   Whatever the controller fetches was submitted, lies in the slot of its fetch number and is later than
   everything fetched before; with at most 62 timeouts it is the very next submission.
   */
  lemma FetchKeeps(h: HostQueue, c: CtlQueue, sq: seq<Sqe>, cq: seq<Cqe>)
    requires RingInv(h, c, sq, cq) && CanFetch(c)
    ensures c.sqHead < 64 && RingInv(h, Fetched(c, sq[c.sqHead]), sq, cq)
  {
    hide PointersOk, SqHolds, CidsOk, CqHolds, AnsweredOnce, JobsOk, PostsOk, OriginsOk, Lap;
    SlotOwner(h, c, sq);
    var e := sq[c.sqHead];
    FetchOrigins(h, c, e);
    FetchWork(h.submitted, c, e);
    FetchPointers(h, c, e);
  }

  lemma FetchOrigins(h: HostQueue, c: CtlQueue, e: Sqe)
    requires PointersOk(h, c) && CanFetch(c) && OriginsOk(c, |h.submitted|)
    requires c.fetched <= NextOrigin(c) < |h.submitted| && NextOrigin(c) % 64 == c.fetched % 64
    ensures |c.origins| == c.fetched && OriginsOk(Fetched(c, e), |h.submitted|)
  {
    OriginSteps(c, e);
    hide NextOrigin, Lap;
  }

  lemma FetchPointers(h: HostQueue, c: CtlQueue, e: Sqe)
    requires PointersOk(h, c) && CanFetch(c) && |Fetched(c, e).jobs| == |c.jobs| + 1
    ensures PointersOk(h, Fetched(c, e))
  {
    SlotStep(c.fetched);
    Lapsed(c.fetched, c.rung);
    hide Lap, NextOrigin;
  }

  lemma FetchWork(submitted: seq<Sqe>, c: CtlQueue, e: Sqe)
    requires JobsOk(submitted, c.origins, c.jobs) && PostsOk(submitted, c.origins, c.posted)
    requires AnsweredOnce(c.fetched, c.jobs.Keys, c.posted) && c.sqSize > 0 && |c.origins| == c.fetched
    requires NextOrigin(c) < |submitted| && submitted[NextOrigin(c)] == e
    ensures var d := Fetched(c, e);
      && JobsOk(submitted, d.origins, d.jobs) && PostsOk(submitted, d.origins, d.posted)
      && AnsweredOnce(d.fetched, d.jobs.Keys, d.posted) && |d.jobs| == |c.jobs| + 1
  {
    hide NextOrigin, Lap, Phase;
    assert c.fetched !in c.jobs;
    forall m | 0 <= m < |c.posted|
      ensures PostingOk(submitted, Fetched(c, e).origins, c.posted[m], m)
    {
      assert PostingOk(submitted, c.origins, c.posted[m], m);
    }
  }

  lemma MoveKeeps(h: HostQueue, c: CtlQueue, sq: seq<Sqe>, cq: seq<Cqe>, k: nat, b: nat)
    requires RingInv(h, c, sq, cq) && k in c.jobs
    ensures RingInv(h, Moved(c, k, b), sq, cq)
  {
    hide SqHolds, CidsOk, PostsOk, CqHolds, AnsweredOnce, InStep, Lap, HostOk, OriginsOk, FetchedAs;
    var d := Moved(c, k, b);
    SameOrigins(c, d, |h.submitted|);
    assert d.jobs.Keys == c.jobs.Keys;
    assert |d.jobs| == |d.jobs.Keys| == |c.jobs.Keys| == |c.jobs|;
  }

  lemma SameOrigins(c: CtlQueue, d: CtlQueue, count: nat)
    requires OriginsOk(c, count) && d.rung == c.rung && d.fetched == c.fetched && d.origins == c.origins
    ensures OriginsOk(d, count)
  {
  }

  lemma PostKeeps(h: HostQueue, c: CtlQueue, sq: seq<Sqe>, cq: seq<Cqe>, k: nat, e: Cqe)
    requires RingInv(h, c, sq, cq) && CanPost(c, k)
    requires Phase(e) == c.cqTag && e.cid == c.jobs[k].sqe.cid
    ensures c.cqTail < 64 && RingInv(h, Posted(c, k, e), sq, cq[c.cqTail := e])
  {
    hide SqHolds, CidsOk, JobsOk, PostsOk, CqHolds, AnsweredOnce, Lap, HostOk, InStep, OriginsOk, PointersOk;
    var d := Posted(c, k, e);
    PostRoom(h, c, k);
    PostCq(c.posted, cq, d.posted[|c.posted|]);
    PostTags(h, c);
    OriginCount(c, |h.submitted|);
    PostWork(h.submitted, c, k, e);
    PostPointers(h, c, k, e);
    SameOrigins(c, d, |h.submitted|);
  }

  lemma PostTags(h: HostQueue, c: CtlQueue)
    requires PointersOk(h, c)
    ensures c.cqTag == Lap(|c.posted|)
  {
  }

  lemma OriginCount(c: CtlQueue, count: nat)
    requires OriginsOk(c, count)
    ensures |c.origins| == c.fetched
  {
  }

  lemma PostPointers(h: HostQueue, c: CtlQueue, k: nat, e: Cqe)
    requires PointersOk(h, c) && CanPost(c, k) && |c.posted| < h.consumed + 63
    requires |Posted(c, k, e).jobs| == |c.jobs| - 1
    ensures PointersOk(h, Posted(c, k, e)) && c.cqTail == |c.posted| % 64
  {
    LapStep(|c.posted|);
    SlotStep(|c.posted|);
    hide Lap;
  }

  /** A controller that leaves one slot free never has 64 unread entries. */
  lemma PostRoom(h: HostQueue, c: CtlQueue, k: nat)
    requires PointersOk(h, c) && CanPost(c, k)
    ensures |c.posted| < h.consumed + 63
  {
    hide Lap;
    RingNotFull(|c.posted|, h.consumed);
  }

  lemma PostCq(posted: seq<Posting>, cq: seq<Cqe>, p: Posting)
    requires |cq| == 64 && CqHolds(posted, cq)
    ensures CqHolds(posted + [p], cq[|posted| % 64 := p.cqe])
  {
    forall m | 0 <= m < |posted| < m + 64
      ensures cq[|posted| % 64 := p.cqe][m % 64] == posted[m].cqe
    {
      SlotsDiffer(m, |posted|);
    }
  }

  lemma PostWork(submitted: seq<Sqe>, c: CtlQueue, k: nat, e: Cqe)
    requires JobsOk(submitted, c.origins, c.jobs) && PostsOk(submitted, c.origins, c.posted)
    requires AnsweredOnce(c.fetched, c.jobs.Keys, c.posted) && CanPost(c, k) && |c.origins| == c.fetched
    requires Phase(e) == Lap(|c.posted|) && e.cid == c.jobs[k].sqe.cid
    ensures var d := Posted(c, k, e);
      && JobsOk(submitted, d.origins, d.jobs) && PostsOk(submitted, d.origins, d.posted)
      && AnsweredOnce(d.fetched, d.jobs.Keys, d.posted) && |d.jobs| == |c.jobs| - 1
  {
    hide Lap;
    assert Posted(c, k, e).jobs.Keys == c.jobs.Keys - {k};
  }

  /**
   Phase-tag exactness, in every reachable state and after any number of laps and timeouts: the
   polled slot carries the expected phase exactly when the controller has posted an
   entry the host has not consumed, and that entry is the oldest such one.
   */
  lemma PhaseExact(h: HostQueue, c: CtlQueue, sq: seq<Sqe>, cq: seq<Cqe>)
    requires RingInv(h, c, sq, cq)
    ensures h.head < 64
    ensures Phase(cq[h.head]) == h.phase <==> h.consumed < |c.posted|
    ensures h.consumed < |c.posted| ==> cq[h.head] == c.posted[h.consumed].cqe
  {
    var n := h.consumed;
    if n < |c.posted| {
      assert PostingOk(h.submitted, c.origins, c.posted[n], n);
    } else if n >= 64 {
      LapBack(n);
      assert PostingOk(h.submitted, c.origins, c.posted[n - 64], n - 64);
      assert cq[(n - 64) % 64] == c.posted[n - 64].cqe;
    }
  }

  lemma ConsumeKeeps(h: HostQueue, c: CtlQueue, sq: seq<Sqe>, cq: seq<Cqe>)
    requires RingInv(h, c, sq, cq) && !Idle(h) && h.announced == |h.submitted| && h.consumed < |c.posted|
    ensures RingInv(Consumed(h), c.(cqHead := Consumed(h).head), sq, cq) && Idle(Consumed(h))
  {
    LapStep(h.consumed);
    SlotStep(h.consumed);
    hide SqHolds, CidsOk, JobsOk, PostsOk, CqHolds, AnsweredOnce, InStep, Lap;
  }

  lemma TimeoutKeeps(h: HostQueue, c: CtlQueue, sq: seq<Sqe>, cq: seq<Cqe>)
    requires RingInv(h, c, sq, cq) && !Idle(h) && h.announced == |h.submitted|
    ensures RingInv(GivenUp(h), c, sq, cq) && Idle(GivenUp(h))
  {
    hide SqHolds, CidsOk, JobsOk, PostsOk, CqHolds, AnsweredOnce, InStep, Lap;
  }
}
