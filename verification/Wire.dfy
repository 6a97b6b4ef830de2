/**
 What crosses the wire, bit by bit: the layouts of the NVM Express Base Specification, Revision 2.3, that host and
 controller must agree on, stated in numbers and apart from the code that packs and unpacks them.
 */
module Wire {
  import opened Bytes
  import opened NvmeSpec
  import opened DmaLayout
  import opened Controller
  import opened Driver
  import opened Wrappers

  // --- words ----------------------------------------------------------------------------------------------------

  /** The number four bytes spell to base 256, the lowest digit first. */
  function Spelled(b: seq<int>, i: nat): int
    requires i + 4 <= |b|
  {
    b[i] + 0x100 * b[i + 1] + 0x1_0000 * b[i + 2] + 0x100_0000 * b[i + 3]
  }

  /** Words are little-endian. */
  lemma LittleEndian(n: U16, m: U32, k: U64)
    ensures Spelled(U16Bytes(n) + [0, 0], 0) == n && Spelled(U32Bytes(m), 0) == m
    ensures Spelled(U64Bytes(k), 0) + 0x1_0000_0000 * Spelled(U64Bytes(k), 4) == k
  {
    FourBytes(m);
    FourBytes(k % 0x1_0000_0000);
    FourBytes(k / 0x1_0000_0000);
    hide U32Bytes;
  }

  lemma FourBytes(m: U32)
    ensures Spelled(U32Bytes(m), 0) == m
  {
    var lo, hi := m % 0x1_0000, m / 0x1_0000;
    assert lo == lo % 0x100 + 0x100 * (lo / 0x100) && hi == hi % 0x100 + 0x100 * (hi / 0x100);
  }

  // --- entries --------------------------------------------------------------------------------------------------

  /** Where each field of a submission queue entry lies (Figures 91 and 92). */
  lemma SqeLayout(e: Sqe)
    ensures var bs := EncodeSqe(e);
      && bs[0] == e.opc && bs[1] == e.flags && bs[2..4] == U16Bytes(e.cid) && bs[4..8] == U32Bytes(e.nsid)
      && bs[8..12] == U32Bytes(e.cdw2) && bs[12..16] == U32Bytes(e.cdw3) && bs[16..24] == U64Bytes(e.mptr)
      && bs[24..32] == U64Bytes(e.prp1) && bs[32..40] == U64Bytes(e.prp2)
      && bs[40..44] == U32Bytes(e.cdw10) && bs[44..48] == U32Bytes(e.cdw11) && bs[48..52] == U32Bytes(e.cdw12)
      && bs[52..56] == U32Bytes(e.cdw13) && bs[56..60] == U32Bytes(e.cdw14) && bs[60..64] == U32Bytes(e.cdw15)
  {
    hide U16Bytes, U32Bytes, U64Bytes;
    var a := [e.opc, e.flags] + U16Bytes(e.cid) + U32Bytes(e.nsid) + U32Bytes(e.cdw2) + U32Bytes(e.cdw3);
    var b := U64Bytes(e.mptr) + U64Bytes(e.prp1);
    var c := U64Bytes(e.prp2) + U32Bytes(e.cdw10) + U32Bytes(e.cdw11);
    var d := U32Bytes(e.cdw12) + U32Bytes(e.cdw13) + U32Bytes(e.cdw14) + U32Bytes(e.cdw15);
    var bs := EncodeSqe(e);
    assert bs == a + b + c + d;
    hide EncodeSqe;
    FirstQuarter(e, a);
    Halves(U64Bytes(e.mptr), U64Bytes(e.prp1));
    Quarters(U64Bytes(e.prp2)[..4], U64Bytes(e.prp2)[4..], U32Bytes(e.cdw10), U32Bytes(e.cdw11));
    Quarters(U32Bytes(e.cdw12), U32Bytes(e.cdw13), U32Bytes(e.cdw14), U32Bytes(e.cdw15));
    assert c == U64Bytes(e.prp2)[..4] + U64Bytes(e.prp2)[4..] + U32Bytes(e.cdw10) + U32Bytes(e.cdw11);
    assert c[0..8] == U64Bytes(e.prp2);
    forall lo, hi | 0 <= lo <= hi <= 16
      ensures bs[lo..hi] == a[lo..hi] && bs[16 + lo..16 + hi] == b[lo..hi]
      ensures bs[32 + lo..32 + hi] == c[lo..hi] && bs[48 + lo..48 + hi] == d[lo..hi]
    {
    }
    assert bs[0] == a[0] && bs[1] == a[1];
    assert bs[2..4] == a[2..4] && bs[4..8] == a[4..8] && bs[8..12] == a[8..12] && bs[12..16] == a[12..16];
    assert bs[16..24] == b[0..8] && bs[24..32] == b[8..16];
    assert bs[32..40] == c[0..8] && bs[40..44] == c[8..12] && bs[44..48] == c[12..16];
    assert bs[48..52] == d[0..4] && bs[52..56] == d[4..8] && bs[56..60] == d[8..12] && bs[60..64] == d[12..16];
  }

  lemma FirstQuarter(e: Sqe, a: seq<U8>)
    requires a == [e.opc, e.flags] + U16Bytes(e.cid) + U32Bytes(e.nsid) + U32Bytes(e.cdw2) + U32Bytes(e.cdw3)
    ensures |a| == 16 && a[0] == e.opc && a[1] == e.flags && a[2..4] == U16Bytes(e.cid)
    ensures a[4..8] == U32Bytes(e.nsid) && a[8..12] == U32Bytes(e.cdw2) && a[12..16] == U32Bytes(e.cdw3)
  {
    hide U16Bytes, U32Bytes;
  }

  lemma Halves(a: seq<U8>, b: seq<U8>)
    requires |a| == |b| == 8
    ensures (a + b)[0..8] == a && (a + b)[8..16] == b
  {
  }

  lemma Quarters(a: seq<U8>, b: seq<U8>, c: seq<U8>, d: seq<U8>)
    requires |a| == |b| == |c| == |d| == 4
    ensures var s := a + b + c + d; s[0..4] == a && s[4..8] == b && s[8..12] == c && s[12..16] == d
  {
  }

  /** Where the host finds each field of a completion queue entry (Figure 96). */
  lemma CqeLayout(bs: seq<U8>)
    requires |bs| == CQE_SIZE
    ensures var c := DecodeCqe(bs);
      && c.result == U32Of(bs[0..4]) && c.reserved == U32Of(bs[4..8]) && c.sqHead == U16Of(bs[8..10])
      && c.sqId == U16Of(bs[10..12]) && c.cid == U16Of(bs[12..14]) && c.status == U16Of(bs[14..16])
  {
  }

  /** All bytes of a command outside opcode, namespace, data pointers and CDW10 to CDW12 are zero. */
  predicate RestZero(bs: seq<U8>)
    requires |bs| == SQE_SIZE
  {
    bs[1] == 0 && forall i :: 0 <= i < 64 && (2 <= i < 4 || 8 <= i < 24 || 52 <= i) ==> bs[i] == 0
  }

  lemma ZeroBytes()
    ensures U16Bytes(0) == [0, 0] && U32Bytes(0) == [0, 0, 0, 0] && U64Bytes(0) == [0, 0, 0, 0, 0, 0, 0, 0]
  {
  }

  /** What `new` leaves zero in a command nobody has stamped yet. */
  lemma Unset(e: Sqe)
    requires e.flags == 0 && e.cid == 0 && e.cdw2 == e.cdw3 == 0 && e.mptr == 0
    requires e.cdw13 == e.cdw14 == e.cdw15 == 0
    ensures RestZero(EncodeSqe(e))
  {
    var bs := EncodeSqe(e);
    SqeLayout(e);
    ZeroBytes();
    hide EncodeSqe, U16Bytes, U32Bytes, U64Bytes;
    forall i | 2 <= i < 4 || 8 <= i < 24 || 52 <= i < 64
      ensures bs[i] == 0
    {
      if i < 4 {
        assert bs[i] == bs[2..4][i - 2];
      } else if i < 12 {
        assert bs[i] == bs[8..12][i - 8];
      } else if i < 16 {
        assert bs[i] == bs[12..16][i - 12];
      } else if i < 24 {
        assert bs[i] == bs[16..24][i - 16];
      } else if i < 56 {
        assert bs[i] == bs[52..56][i - 52];
      } else if i < 60 {
        assert bs[i] == bs[56..60][i - 56];
      } else {
        assert bs[i] == bs[60..64][i - 60];
      }
    }
  }

  /** A Read or Write on the wire: opcode 2 or 1, the 64-bit starting LBA in bytes 40 to 47, the count in 48 and 49. */
  lemma TransferWire(nsid: U32, slba: U64, nlb: U16, prp1: U64, prp2: U64)
    ensures EncodeSqe(NvmeTransfer(OP_READ, nsid, slba, nlb, prp1, prp2))[0] == 2
    ensures EncodeSqe(NvmeTransfer(OP_WRITE, nsid, slba, nlb, prp1, prp2))[0] == 1
    ensures forall opc: U8 ::
      var bs := EncodeSqe(NvmeTransfer(opc, nsid, slba, nlb, prp1, prp2));
      && bs[4..8] == U32Bytes(nsid) && bs[24..32] == U64Bytes(prp1) && bs[32..40] == U64Bytes(prp2)
      && bs[40..48] == U64Bytes(slba) && bs[48..50] == U16Bytes(nlb) && bs[50..52] == [0, 0] && RestZero(bs)
  {
    forall opc: U8
      ensures var bs := EncodeSqe(NvmeTransfer(opc, nsid, slba, nlb, prp1, prp2));
        && bs[0] == opc
        && bs[4..8] == U32Bytes(nsid) && bs[24..32] == U64Bytes(prp1) && bs[32..40] == U64Bytes(prp2)
        && bs[40..48] == U64Bytes(slba) && bs[48..50] == U16Bytes(nlb) && bs[50..52] == [0, 0] && RestZero(bs)
    {
      TransferBytes(opc, nsid, slba, nlb, prp1, prp2);
    }
  }

  lemma TransferBytes(opc: U8, nsid: U32, slba: U64, nlb: U16, prp1: U64, prp2: U64)
    ensures var bs := EncodeSqe(NvmeTransfer(opc, nsid, slba, nlb, prp1, prp2));
      && bs[0] == opc
      && bs[4..8] == U32Bytes(nsid) && bs[24..32] == U64Bytes(prp1) && bs[32..40] == U64Bytes(prp2)
      && bs[40..48] == U64Bytes(slba) && bs[48..50] == U16Bytes(nlb) && bs[50..52] == [0, 0] && RestZero(bs)
  {
    var e := NvmeTransfer(opc, nsid, slba, nlb, prp1, prp2);
    var bs := EncodeSqe(e);
    SqeLayout(e);
    Unset(e);
    ShortWord(nlb);
    assert U64Bytes(slba) == U32Bytes(e.cdw10) + U32Bytes(e.cdw11);
    hide EncodeSqe, U16Bytes, U32Bytes, U64Bytes, RestZero;
    assert bs[40..48] == bs[40..44] + bs[44..48];
    assert bs[48..50] == bs[48..52][..2] && bs[50..52] == bs[48..52][2..];
  }

  lemma ShortWord(n: U16)
    ensures U32Bytes(n) == U16Bytes(n) + [0, 0]
  {
    assert n % 0x1_0000 == n && n / 0x1_0000 == 0;
  }

  /** Identify on the wire: opcode 6, the structure asked for in byte 40. */
  lemma IdentifyWire(nsid: U32, prp1: U64)
    ensures forall structure: U8 ::
      var bs := EncodeSqe(NvmeIdentify(structure, nsid, prp1));
      && bs[0] == 6 && bs[4..8] == U32Bytes(nsid) && bs[24..32] == U64Bytes(prp1)
      && bs[40..44] == [structure, 0, 0, 0] && RestZero(bs)
    ensures CNS_NAMESPACE == 0 && CNS_CONTROLLER == 1
  {
    forall structure: U8
      ensures var bs := EncodeSqe(NvmeIdentify(structure, nsid, prp1));
        && bs[0] == 6 && bs[4..8] == U32Bytes(nsid) && bs[24..32] == U64Bytes(prp1)
        && bs[40..44] == [structure, 0, 0, 0] && RestZero(bs)
    {
      var e := NvmeIdentify(structure, nsid, prp1);
      SqeLayout(e);
      Unset(e);
      ShortWord(structure);
      assert U16Bytes(structure) == [structure, 0];
      hide EncodeSqe, U32Bytes, U64Bytes, RestZero;
    }
  }

  /** The create commands on the wire: queue id and zero-based size in CDW10, contiguity and target queue in CDW11. */
  lemma CreateWire(queueId: U16, size: U16, cqId: U16, prp1: U64)
    requires size >= 1
    ensures var bs := EncodeSqe(NvmeCreateIoCompletionQueue(queueId, size, prp1));
      && bs[0] == 5 && bs[24..32] == U64Bytes(prp1) && bs[40..42] == U16Bytes(queueId)
      && bs[42..44] == U16Bytes(size - 1) && bs[44..48] == [1, 0, 0, 0] && RestZero(bs)
    ensures var bs := EncodeSqe(NvmeCreateIoSubmissionQueue(queueId, size, cqId, prp1));
      && bs[0] == 1 && bs[24..32] == U64Bytes(prp1) && bs[40..42] == U16Bytes(queueId)
      && bs[42..44] == U16Bytes(size - 1) && bs[44..46] == [1, 0] && bs[46..48] == U16Bytes(cqId) && RestZero(bs)
  {
    var c := NvmeCreateIoCompletionQueue(queueId, size, prp1);
    var s := NvmeCreateIoSubmissionQueue(queueId, size, cqId, prp1);
    CreateBytes(c, queueId, size - 1, 1, 0);
    CreateBytes(s, queueId, size - 1, 1, cqId);
    assert U16Bytes(1) == [1, 0] && U16Bytes(0) == [0, 0];
    var bs := EncodeSqe(c);
    hide EncodeSqe, U16Bytes, U32Bytes, U64Bytes, RestZero;
    assert bs[44..48] == bs[44..46] + bs[46..48];
  }

  lemma CreateBytes(e: Sqe, a: U16, b: U16, c: U16, d: U16)
    requires e == NewSqe(e.opc).(prp1 := e.prp1, cdw10 := Word(a, b), cdw11 := Word(c, d))
    ensures var bs := EncodeSqe(e);
      && bs[0] == e.opc && bs[24..32] == U64Bytes(e.prp1) && bs[40..42] == U16Bytes(a) && bs[42..44] == U16Bytes(b)
      && bs[44..46] == U16Bytes(c) && bs[46..48] == U16Bytes(d) && RestZero(bs)
  {
    var bs := EncodeSqe(e);
    SqeLayout(e);
    Unset(e);
    SplitWord(a, b);
    SplitWord(c, d);
    assert U32Bytes(Word(a, b)) == U16Bytes(a) + U16Bytes(b);
    assert U32Bytes(Word(c, d)) == U16Bytes(c) + U16Bytes(d);
    hide EncodeSqe, U16Bytes, U32Bytes, U64Bytes, RestZero, Word;
    assert bs[40..42] == bs[40..44][..2] && bs[42..44] == bs[40..44][2..];
    assert bs[44..46] == bs[44..48][..2] && bs[46..48] == bs[44..48][2..];
  }

  // --- status ---------------------------------------------------------------------------------------------------

  /** The status word (Figure 100): phase tag, status code, status code type, and four bits nobody looks at. */
  lemma StatusWord(c: Cqe, tag: nat, sc: nat, sct: nat, rest: nat)
    requires tag < 2 && sc < 0x100 && sct < 8 && rest < 0x10
    requires c.status == tag + 2 * sc + 0x200 * sct + 0x1000 * rest
    ensures (Phase(c) <==> tag == 1) && StatusCode(c) == sc && StatusCodeType(c) == sct
    ensures Check(c) == if sc == 0 && sct == 0 then Ok(()) else Err(CommandFailed(sct, sc))
  {
    assert c.status / 2 == sc + 0x100 * (sct + 8 * rest);
    assert c.status / 0x200 == sct + 8 * rest;
  }

  // --- registers ------------------------------------------------------------------------------------------------

  /** The register offsets (src/nvme_spec.rs:16-22), as the controller decodes writes to them. */
  lemma RegisterMap(dev: Device, c: Ctl, id: nat, value: U32, address: U64)
    requires |c.queues| == 2 && id < 2
    ensures Write32(dev, c, 0x14, value) == WriteConfiguration(c, value)
    ensures Write32(dev, c, 0x24, value).regs == c.regs.(aqa := value, misprogrammed := Misprograms(c.regs))
    ensures Write64(c, 0x28, address).regs == c.regs.(asq := address, misprogrammed := Misprograms(c.regs))
    ensures Write64(c, 0x30, address).regs == c.regs.(acq := address, misprogrammed := Misprograms(c.regs))
    ensures var s := StrideOf(dev.capabilities);
      && Write32(dev, c, 0x1000 + 2 * id * s, value) == c.(queues := c.queues[id := Ring.Rung(c.queues[id], value)])
      && Write32(dev, c, 0x1000 + (2 * id + 1) * s, value)
         == c.(queues := c.queues[id := c.queues[id].(cqHead := value)])
    ensures CC == 0x14 && AQA == 0x24 && ASQ == 0x28 && ACQ == 0x30 && DOORBELL_BASE == 0x1000
  {
    DoorbellsReachTheirQueue(dev, c, id, value);
    hide StrideOf;
  }

  /** CSTS: bit 0 is RDY, bit 1 is CFS. */
  lemma StatusBits(r: Registers)
    ensures (ReadStatus(r) % 2 == 1 <==> r.ready) && (ReadStatus(r) / 2 % 2 == 1 <==> r.fatal) && ReadStatus(r) < 4
  {
  }

  /** CAP: bits 35:32 are DSTRD, and doorbells lie 4 << DSTRD bytes apart. */
  lemma StrideBits(low: nat, dstrd: nat, high: nat)
    requires low < 0x1_0000_0000 && dstrd < 16 && high < 0x1000_0000
    ensures StrideOf(low + 0x1_0000_0000 * dstrd + 0x10_0000_0000 * high) == 4 * Pow2(dstrd)
  {
    hide Pow2;
    AboveLow(low, dstrd + 16 * high);
    LowNibble(dstrd, high);
  }

  lemma AboveLow(low: nat, k: nat)
    requires low < 0x1_0000_0000
    ensures (low + 0x1_0000_0000 * k) / 0x1_0000_0000 == k
  {
  }

  lemma LowNibble(n: nat, k: nat)
    requires n < 16
    ensures (n + 16 * k) % 16 == n
  {
  }

  lemma {:induction false} PowersOfTwo(m: nat, n: nat)
    ensures Pow2(m + n) == Pow2(m) * Pow2(n)
    ensures Pow2(0) == 1 && Pow2(1) == 2
  {
    if m > 0 {
      PowersOfTwo(m - 1, n);
    }
  }

  /** CC: bit 0 enables, bits 19:16 are IOSQES and bits 23:20 IOCQES, and 2^6 and 2^4 are this driver's sizes. */
  lemma ConfigurationBits(r: Registers, enable: nat, low: nat, iosqes: nat, iocqes: nat, high: nat)
    requires enable < 2 && low < 0x8000 && iosqes < 16 && iocqes < 16 && high < 0x100
    requires r.cc == enable + 2 * low + 0x1_0000 * iosqes + 0x10_0000 * iocqes + 0x100_0000 * high
    ensures (Enabled(r) <==> enable == 1) && (EntrySizesAgree(r) <==> iosqes == 6 && iocqes == 4)
  {
    var lower := enable + 2 * low;
    assert r.cc / 0x1_0000 == iosqes + 16 * (iocqes + 16 * high);
    assert r.cc / 0x10_0000 == iocqes + 16 * high;
    assert r.cc % 2 == enable;
    OnlyOnePower(iosqes, 6);
    OnlyOnePower(iocqes, 4);
    assert Pow2(4) == 16 && Pow2(6) == 64;
    hide Pow2;
  }

  lemma {:induction false} OnlyOnePower(m: nat, n: nat)
    ensures Pow2(m) == Pow2(n) <==> m == n
  {
    if m > 0 && n > 0 {
      OnlyOnePower(m - 1, n - 1);
    }
  }

  /** AQA: bits 11:0 and 27:16 are the zero-based sizes of the admin queues that enabling creates. */
  lemma AdminQueueBits(c: Ctl, value: U32, asqs: nat, acqs: nat)
    requires !Enabled(c.regs) && value % 2 == 1 && asqs < 0x1000 && acqs < 0x1000
    requires c.regs.aqa == asqs + 0x1_0000 * acqs
    ensures var d := WriteConfiguration(c, value);
      && |d.queues| == 2 && d.queues[0].sqSize == asqs + 1 && d.queues[0].cqSize == acqs + 1
      && d.queues[0].sqBase == c.regs.asq && d.queues[0].cqBase == c.regs.acq && d.regs.cc == value
      && d.queues[1].sqSize == d.queues[1].cqSize == 0
  {
    TwoSizes(asqs, acqs);
  }

  lemma TwoSizes(a: nat, b: nat)
    requires a < 0x1000 && b < 0x1000
    ensures (a + 0x1_0000 * b) / 0x1_0000 % 0x1000 == b && (a + 0x1_0000 * b) % 0x1000 == a
  {
    assert (a + 0x1_0000 * b) / 0x1_0000 == b;
    var m := 16 * b;
    assert (a + 0x1000 * m) % 0x1000 == a;
  }

  // --- Identify pages -------------------------------------------------------------------------------------------

  /**
   SQES and CQES follow 512 bytes into the controller page, the required size in the low and the maximum in the
   high four bits. The page is accepted if and only if both ranges hold the driver's size.
   */
  lemma EntrySizes(head: seq<U8>, least: nat, most: nat, cqLeast: nat, cqMost: nat, tail: seq<U8>)
    requires |head| == 512 && |tail| == 3582 && least < 16 && most < 16 && cqLeast < 16 && cqMost < 16
    ensures var page := head + [least + 0x10 * most, cqLeast + 0x10 * cqMost] + tail;
      |page| == 4096 && (EntrySizesTaken(page) <==> least <= 6 <= most && cqLeast <= 4 <= cqMost)
  {
    var page := head + [least + 0x10 * most, cqLeast + 0x10 * cqMost] + tail;
    assert page[512] == least + 0x10 * most && page[513] == cqLeast + 0x10 * cqMost;
  }

  /** One entry of the LBA format list: metadata size, LBADS, relative performance. */
  function FormatBytes(metadata: U16, lbads: U8, performance: U8): (bs: seq<U8>)
    ensures |bs| == 4
  {
    U16Bytes(metadata) + [lbads, performance]
  }

  /**
   FLBAS is byte 26 of the namespace page, and its low four bits select one of the four-byte formats from byte 128
   on. The block size is two to the power of that format's LBADS.
   */
  lemma FormattedPage(head: seq<U8>, index: nat, more: nat, middle: seq<U8>, before: seq<U8>,
                      metadata: U16, lbads: U8, performance: U8, after: seq<U8>)
    requires |head| == 26 && index < 16 && more < 16 && |middle| == 101 && |before| == 4 * index
    requires |after| == 4096 - 128 - 4 * index - 4
    ensures var page := head + [index + 0x10 * more] + middle + before
                        + FormatBytes(metadata, lbads, performance) + after;
      |page| == 4096 && FormattedLbads(page) == lbads && FormattedBlockSize(page) == Pow2(lbads)
  {
    var format := FormatBytes(metadata, lbads, performance);
    var page := head + [index + 0x10 * more] + middle + before + format + after;
    assert page[26] == index + 0x10 * more;
    assert page[128 + 4 * index + 2] == format[2] == lbads;
  }

  // --- the hugepage ---------------------------------------------------------------------------------------------

  /** Where everything lies in the hugepage: six parts, one after the other, the last one the largest transfer. */
  lemma HugepageLayout()
    ensures SqOffset(0) == 0x0000 && CqOffset(0) == 0x1000 && SqOffset(1) == 0x2000 && CqOffset(1) == 0x3000
    ensures PRP_LIST_OFFSET == 0x4000 && DATA_OFFSET == 0x5000 && HUGE_PAGE_SIZE == 0x20_0000
    ensures MAX_TRANSFER_BYTES == 0x1F_B000 && DATA_PAGES * 4096 == MAX_TRANSFER_BYTES && QUEUE_DEPTH == 64
  {
  }
}
