/**
 Queue entries, their byte layout, and the command builders
 (src/nvme_spec.rs and src/nvme_command_builders.rs).
 */
module NvmeSpec {
  import opened Bytes

  const OP_CREATE_SQ: U8 := 0x01
  const OP_CREATE_CQ: U8 := 0x05
  const OP_IDENTIFY: U8 := 0x06
  const OP_WRITE: U8 := 0x01
  const OP_READ: U8 := 0x02

  const CNS_NAMESPACE: U8 := 0x00
  const CNS_CONTROLLER: U8 := 0x01

  const SQE_SIZE: nat := 64
  const CQE_SIZE: nat := 16

  datatype Sqe = Sqe(
    opc: U8, flags: U8, cid: U16, nsid: U32, cdw2: U32, cdw3: U32,
    mptr: U64, prp1: U64, prp2: U64,
    cdw10: U32, cdw11: U32, cdw12: U32, cdw13: U32, cdw14: U32, cdw15: U32)

  datatype Cqe = Cqe(result: U32, reserved: U32, sqHead: U16, sqId: U16, cid: U16, status: U16)

  /** The phase tag is bit 0 of the status word. */
  predicate Phase(c: Cqe) {
    c.status % 2 == 1
  }

  function StatusCode(c: Cqe): U8 {
    c.status / 2 % 0x100
  }

  function StatusCodeType(c: Cqe): U8 {
    c.status / 0x200 % 8
  }

  predicate IsSuccess(c: Cqe) {
    StatusCode(c) == 0 && StatusCodeType(c) == 0
  }

  // --- byte layout -------------------------------------------------------------------

  function EncodeSqe(e: Sqe): (bs: seq<U8>)
    ensures |bs| == SQE_SIZE
  {
    ([e.opc, e.flags] + U16Bytes(e.cid) + U32Bytes(e.nsid) + U32Bytes(e.cdw2) + U32Bytes(e.cdw3))
    + (U64Bytes(e.mptr) + U64Bytes(e.prp1))
    + (U64Bytes(e.prp2) + U32Bytes(e.cdw10) + U32Bytes(e.cdw11))
    + (U32Bytes(e.cdw12) + U32Bytes(e.cdw13) + U32Bytes(e.cdw14) + U32Bytes(e.cdw15))
  }

  function DecodeSqe(bs: seq<U8>): Sqe
    requires |bs| == SQE_SIZE
  {
    Sqe(bs[0], bs[1], U16Of(bs[2..4]), U32Of(bs[4..8]), U32Of(bs[8..12]), U32Of(bs[12..16]),
        U64Of(bs[16..24]), U64Of(bs[24..32]), U64Of(bs[32..40]),
        U32Of(bs[40..44]), U32Of(bs[44..48]), U32Of(bs[48..52]),
        U32Of(bs[52..56]), U32Of(bs[56..60]), U32Of(bs[60..64]))
  }

  /** What the host stores is what the controller fetches. */
  lemma SqeRoundTrip(e: Sqe)
    ensures DecodeSqe(EncodeSqe(e)) == e
  {
    var bs := EncodeSqe(e);
    assert bs[2..4] == U16Bytes(e.cid);
    assert bs[4..8] == U32Bytes(e.nsid) && bs[8..12] == U32Bytes(e.cdw2) && bs[12..16] == U32Bytes(e.cdw3);
    assert bs[16..24] == U64Bytes(e.mptr) && bs[24..32] == U64Bytes(e.prp1) && bs[32..40] == U64Bytes(e.prp2);
    assert bs[40..44] == U32Bytes(e.cdw10) && bs[44..48] == U32Bytes(e.cdw11);
    assert bs[48..52] == U32Bytes(e.cdw12) && bs[52..56] == U32Bytes(e.cdw13);
    assert bs[56..60] == U32Bytes(e.cdw14) && bs[60..64] == U32Bytes(e.cdw15);
    U16RoundTrip(e.cid);
    U64RoundTrip(e.mptr); U64RoundTrip(e.prp1); U64RoundTrip(e.prp2);
    U32RoundTrip(e.nsid); U32RoundTrip(e.cdw2); U32RoundTrip(e.cdw3);
    U32RoundTrip(e.cdw10); U32RoundTrip(e.cdw11); U32RoundTrip(e.cdw12);
    U32RoundTrip(e.cdw13); U32RoundTrip(e.cdw14); U32RoundTrip(e.cdw15);
  }

  function EncodeCqe(c: Cqe): (bs: seq<U8>)
    ensures |bs| == CQE_SIZE
  {
    U32Bytes(c.result) + U32Bytes(c.reserved)
    + (U16Bytes(c.sqHead) + U16Bytes(c.sqId) + U16Bytes(c.cid) + U16Bytes(c.status))
  }

  function DecodeCqe(bs: seq<U8>): Cqe
    requires |bs| == CQE_SIZE
  {
    Cqe(U32Of(bs[0..4]), U32Of(bs[4..8]), U16Of(bs[8..10]), U16Of(bs[10..12]), U16Of(bs[12..14]), U16Of(bs[14..16]))
  }

  /** What the controller posts is what the host polls. */
  lemma CqeRoundTrip(c: Cqe)
    ensures DecodeCqe(EncodeCqe(c)) == c
  {
    var bs := EncodeCqe(c);
    assert bs[0..4] == U32Bytes(c.result) && bs[4..8] == U32Bytes(c.reserved);
    assert bs[8..10] == U16Bytes(c.sqHead) && bs[10..12] == U16Bytes(c.sqId);
    assert bs[12..14] == U16Bytes(c.cid) && bs[14..16] == U16Bytes(c.status);
    U32RoundTrip(c.result); U32RoundTrip(c.reserved);
    U16RoundTrip(c.sqHead); U16RoundTrip(c.sqId); U16RoundTrip(c.cid); U16RoundTrip(c.status);
  }

  // --- command builders --------------------------------------------------------------

  function NewSqe(opc: U8): Sqe {
    Sqe(opc, 0, 0, 0, 0, 0, 0, 0, 0, 0, 0, 0, 0, 0, 0)
  }

  /** Two 16-bit fields of one command dword. */
  function Word(lo: U16, hi: U16): U32 {
    lo + hi * 0x1_0000
  }

  function NvmeIdentify(structure: U8, nsid: U32, prp1: U64): Sqe {
    NewSqe(OP_IDENTIFY).(nsid := nsid, prp1 := prp1, cdw10 := structure)
  }

  function NvmeCreateIoCompletionQueue(queueId: U16, size: U16, prp1: U64): Sqe
    requires size >= 1
  {
    NewSqe(OP_CREATE_CQ).(prp1 := prp1, cdw10 := Word(queueId, size - 1), cdw11 := 1)
  }

  function NvmeCreateIoSubmissionQueue(queueId: U16, size: U16, completionQueueId: U16, prp1: U64): Sqe
    requires size >= 1
  {
    NewSqe(OP_CREATE_SQ).(prp1 := prp1, cdw10 := Word(queueId, size - 1),
                          cdw11 := Word(1, completionQueueId))
  }

  function NvmeTransfer(opc: U8, nsid: U32, slba: U64, nlb: U16, prp1: U64, prp2: U64): Sqe {
    NewSqe(opc).(nsid := nsid, prp1 := prp1, prp2 := prp2,
                 cdw10 := slba % 0x1_0000_0000, cdw11 := slba / 0x1_0000_0000, cdw12 := nlb)
  }

  // --- the controller's reading of the same fields --------------------------------------

  /** Starting LBA of a Read or Write: CDW11:CDW10. */
  function Slba(e: Sqe): U64 {
    e.cdw10 + 0x1_0000_0000 * e.cdw11
  }

  /** Number of logical blocks: CDW12 bits 15:0, zero-based. */
  function BlockCount(e: Sqe): (n: nat)
    ensures 1 <= n <= 0x1_0000
  {
    e.cdw12 % 0x1_0000 + 1
  }

  function QueueIdOf(e: Sqe): U16 {
    e.cdw10 % 0x1_0000
  }

  function QueueSizeOf(e: Sqe): nat {
    e.cdw10 / 0x1_0000 + 1
  }

  predicate ContiguousOf(e: Sqe) {
    e.cdw11 % 2 == 1
  }

  function TargetCqOf(e: Sqe): U16 {
    e.cdw11 / 0x1_0000
  }

  /** The split starting LBA and the zero-based count come back whole on the other side. */
  lemma TransferFields(opc: U8, nsid: U32, slba: U64, nlb: U16, prp1: U64, prp2: U64)
    ensures var e := NvmeTransfer(opc, nsid, slba, nlb, prp1, prp2);
      Slba(e) == slba && BlockCount(e) == nlb + 1 && e.opc == opc && e.nsid == nsid
  {
  }

  lemma SplitWord(lo: U16, hi: U16)
    ensures Word(lo, hi) % 0x1_0000 == lo && Word(lo, hi) / 0x1_0000 == hi
  {
  }

  lemma Odd(m: nat)
    ensures (1 + 2 * m) % 2 == 1
  {
  }

  lemma OddWord(hi: U16)
    ensures Word(1, hi) % 2 == 1
  {
    var m: nat := hi * 0x8000;
    Odd(m);
    assert Word(1, hi) == 1 + 2 * m;
  }

  /** The controller decodes from the Create commands the queue the host asked for. */
  lemma CreateFields(queueId: U16, size: U16, cqId: U16, prp1: U64)
    requires size >= 1
    ensures var e := NvmeCreateIoCompletionQueue(queueId, size, prp1);
      QueueIdOf(e) == queueId && QueueSizeOf(e) == size && ContiguousOf(e) && e.prp1 == prp1
    ensures var e := NvmeCreateIoSubmissionQueue(queueId, size, cqId, prp1);
      QueueIdOf(e) == queueId && QueueSizeOf(e) == size && ContiguousOf(e) && TargetCqOf(e) == cqId && e.prp1 == prp1
  {
    SplitWord(queueId, size - 1);
    SplitWord(1, cqId);
    OddWord(cqId);
    hide Word;
  }
}
