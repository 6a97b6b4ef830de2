/**
 Physical Region Pages. `PrpAddress` is the controller's walk as section 4.3.1 of the
 NVM Express Base Specification describes it, for any pair of pointers, any list offset
 and any number of chained list pages; `PointerShape` and `ListHolds` are what
 `data_pointers` in src/nvmetoy.rs builds.
 */
module Prp {
  import opened Bytes
  import opened DmaLayout

  /** The 64-bit word the controller reads at a physical address; nothing answers outside the region. */
  function LoadU64(mem: seq<U8>, base: nat, address: nat): U64 {
    if base <= address && address + 8 <= base + |mem|
    then U64Of(ReadAt(mem, address - base, 8))
    else 0
  }

  /** Slots from a list address to the end of its page; list addresses are eight-byte aligned. */
  function ListRoom(list: nat): (room: nat)
    ensures 1 <= room <= 512
    ensures room == 1 ==> list % 4096 > 0
  {
    (4096 - list % 4096 + 7) / 8
  }

  function ListSlot(list: nat, i: nat): nat {
    list - list % 8 + 8 * i
  }

  /** The page an address lies in; the address of a chained list page has no offset. */
  function PageOf(address: nat): (p: nat)
    ensures p % 4096 == 0
  {
    address / 4096 * 4096
  }

  /**
   Entry `j` of a PRP list describing `needed` pages. When the entries do not all fit
   before the end of the list page, the last slot of the page points at the next list page.
   */
  function ListEntry(mem: seq<U8>, base: nat, list: nat, needed: nat, j: nat): U64
    requires j < needed
    decreases needed, list % 4096
  {
    var room := ListRoom(list);
    if needed <= room || j + 1 < room then
      LoadU64(mem, base, ListSlot(list, j))
    else
      var next := LoadU64(mem, base, ListSlot(list, room - 1));
      ListEntry(mem, base, PageOf(next), needed - (room - 1), j - (room - 1))
  }

  /** Physical address of byte `b` of a transfer of `length` bytes. */
  function PrpAddress(mem: seq<U8>, base: nat, prp1: U64, prp2: U64, length: nat, b: nat): nat
    requires b < length
  {
    var first := 4096 - prp1 % 4096;
    if b < first then
      prp1 + b
    else if length <= first + 4096 then
      prp2 + (b - first)
    else
      var needed := (length - first + 4095) / 4096;
      ListEntry(mem, base, prp2, needed, (b - first) / 4096) + (b - first) % 4096
  }

  function PageCount(length: nat): nat {
    (length + 4095) / 4096
  }

  /** How many list entries a transfer needs: none for one or two pages. */
  function ListLength(length: nat): (n: nat)
    ensures length <= MAX_TRANSFER_BYTES ==> n < DATA_PAGES <= PRP_LIST_CAPACITY
  {
    if PageCount(length) <= 2 then 0 else PageCount(length) - 1
  }

  function DataPage(base: nat, page: nat): nat {
    base + DATA_OFFSET + page * 4096
  }

  /** The pointer pair for `length` bytes at the start of the data area. */
  predicate PointerShape(base: nat, prp1: nat, prp2: nat, length: nat) {
    && prp1 == DataPage(base, 0)
    && prp2 == (if PageCount(length) <= 1 then 0
                else if PageCount(length) == 2 then DataPage(base, 1)
                else base + PRP_LIST_OFFSET)
  }

  predicate EntryHolds(mem: seq<U8>, base: nat, i: nat)
    requires |mem| == HUGE_PAGE_SIZE && i < PRP_LIST_CAPACITY
  {
    U64Of(ReadAt(mem, PRP_LIST_OFFSET + 8 * i, 8)) == DataPage(base, i + 1)
  }

  /** The first `n` list entries name data pages 1 to `n`. */
  predicate ListHolds(mem: seq<U8>, base: nat, n: nat)
    requires |mem| == HUGE_PAGE_SIZE && n < DATA_PAGES
  {
    forall i: nat :: i < n ==> EntryHolds(mem, base, i)
  }

  /** One store of the loop in `data_pointers`: entry `k` names data page `k + 1`. */
  function EntryStored(mem: seq<U8>, base: nat, k: nat): (r: seq<U8>)
    requires |mem| == HUGE_PAGE_SIZE && k + 1 < DATA_PAGES && GoodBase(base)
    ensures |r| == |mem|
  {
    WriteAt(mem, PRP_LIST_OFFSET + 8 * k, U64Bytes(DataPage(base, k + 1)))
  }

  /** A store touches only the list page. */
  lemma EntryStoredFrame(mem: seq<U8>, base: nat, k: nat)
    requires |mem| == HUGE_PAGE_SIZE && k + 1 < DATA_PAGES && GoodBase(base)
    ensures SameIn(mem, EntryStored(mem, base, k), 0, PRP_LIST_OFFSET)
    ensures SameIn(mem, EntryStored(mem, base, k), DATA_OFFSET, HUGE_PAGE_SIZE)
  {
  }

  /** It makes entry `k` right and leaves every other entry as it was. */
  lemma EntryStoredExact(mem: seq<U8>, base: nat, k: nat, i: nat)
    requires |mem| == HUGE_PAGE_SIZE && k + 1 < DATA_PAGES && i < PRP_LIST_CAPACITY && GoodBase(base)
    ensures EntryHolds(EntryStored(mem, base, k), base, i) == (i == k || EntryHolds(mem, base, i))
  {
    var bs := U64Bytes(DataPage(base, k + 1));
    var r := WriteAt(mem, PRP_LIST_OFFSET + 8 * k, bs);
    if i == k {
      ReadBack(mem, PRP_LIST_OFFSET + 8 * k, bs);
      U64RoundTrip(DataPage(base, k + 1));
    } else {
      ReadSame(r, mem, PRP_LIST_OFFSET + 8 * i, 8);
    }
  }

  /** A list published for an earlier command survives every single store for a later one, and the new one grows. */
  lemma EntryStoredHolds(mem: seq<U8>, base: nat, k: nat, n: nat)
    requires |mem| == HUGE_PAGE_SIZE && k + 1 < DATA_PAGES && n < DATA_PAGES && GoodBase(base)
    requires ListHolds(mem, base, n)
    ensures ListHolds(EntryStored(mem, base, k), base, if n == k then n + 1 else n)
  {
    hide EntryHolds, EntryStored, GoodBase;
    forall i: nat | i < (if n == k then n + 1 else n)
      ensures EntryHolds(EntryStored(mem, base, k), base, i)
    {
      EntryStoredExact(mem, base, k, i);
    }
  }

  lemma ListHoldsFrame(a: seq<U8>, b: seq<U8>, base: nat, n: nat)
    requires |a| == |b| == HUGE_PAGE_SIZE && n < DATA_PAGES
    requires SameIn(a, b, PRP_LIST_OFFSET, DATA_OFFSET)
    requires ListHolds(a, base, n)
    ensures ListHolds(b, base, n)
  {
    forall i: nat | i < n
      ensures EntryHolds(b, base, i)
    {
      assert EntryHolds(a, base, i);
      ReadSame(a, b, PRP_LIST_OFFSET + 8 * i, 8);
    }
  }

  /** A page-aligned list of at most 512 entries is read in place, without chaining. */
  lemma OnePageList(mem: seq<U8>, base: nat, list: nat, needed: nat, j: nat)
    requires list % 4096 == 0 && j < needed <= PRP_LIST_CAPACITY
    ensures ListEntry(mem, base, list, needed, j) == LoadU64(mem, base, list + 8 * j)
  {
    AlignedList(list, j);
    hide ListRoom, ListSlot, LoadU64;
  }

  lemma AlignedList(list: nat, i: nat)
    requires list % 4096 == 0
    ensures ListRoom(list) == 512 && ListSlot(list, i) == list + 8 * i
  {
    assert list % 8 == 0;
  }

  lemma LoadEntry(mem: seq<U8>, base: nat, i: nat)
    requires |mem| == HUGE_PAGE_SIZE && i < PRP_LIST_CAPACITY
    ensures LoadU64(mem, base, base + PRP_LIST_OFFSET + 8 * i) == U64Of(ReadAt(mem, PRP_LIST_OFFSET + 8 * i, 8))
  {
    var address := base + PRP_LIST_OFFSET + 8 * i;
    assert address - base == PRP_LIST_OFFSET + 8 * i;
  }

  /** The list case: entry `j` of the driver's list is data page `j + 1`. */
  lemma DriverListEntry(mem: seq<U8>, base: nat, prp2: U64, needed: nat, j: nat)
    requires |mem| == HUGE_PAGE_SIZE && GoodBase(base)
    requires j < needed < DATA_PAGES && prp2 == base + PRP_LIST_OFFSET
    requires ListHolds(mem, base, needed)
    ensures ListEntry(mem, base, prp2, needed, j) == DataPage(base, j + 1)
  {
    OnePageList(mem, base, prp2, needed, j);
    LoadEntry(mem, base, j);
    assert EntryHolds(mem, base, j);
  }

  lemma PageSplit(length: nat, b: nat)
    requires 2 * 4096 < length <= MAX_TRANSFER_BYTES && 4096 <= b < length
    ensures (length - 1) / 4096 == ListLength(length)
    ensures (b - 4096) / 4096 < ListLength(length)
    ensures ((b - 4096) / 4096 + 1) * 4096 + (b - 4096) % 4096 == b
  {
  }

  /** The walk from a page-aligned first pointer, case by case. */
  lemma AlignedWalk(mem: seq<U8>, base: nat, prp1: U64, prp2: U64, length: nat, b: nat)
    requires prp1 % 4096 == 0 && b < length
    ensures b < 4096 ==> PrpAddress(mem, base, prp1, prp2, length, b) == prp1 + b
    ensures 4096 <= b && length <= 2 * 4096 ==> PrpAddress(mem, base, prp1, prp2, length, b) == prp2 + (b - 4096)
    ensures 4096 <= b && 2 * 4096 < length ==>
      && (b - 4096) / 4096 < (length - 1) / 4096
      && PrpAddress(mem, base, prp1, prp2, length, b)
         == ListEntry(mem, base, prp2, (length - 1) / 4096, (b - 4096) / 4096) + (b - 4096) % 4096
  {
    hide ListEntry;
  }

  /**
   PRP exactness: for every length the driver can ask for, the specification's walk over the
   pointers and the list in memory visits exactly the bytes of the data area, in order, in
   the one-page, the two-page and the list case, without ever chaining to a second list page.
   */
  lemma PrpExact(mem: seq<U8>, base: nat, prp1: U64, prp2: U64, length: nat, b: nat)
    requires |mem| == HUGE_PAGE_SIZE && GoodBase(base)
    requires 0 < length <= MAX_TRANSFER_BYTES && b < length
    requires PointerShape(base, prp1, prp2, length)
    requires ListHolds(mem, base, ListLength(length))
    ensures PrpAddress(mem, base, prp1, prp2, length, b) == base + DATA_OFFSET + b
  {
    hide PrpAddress, ListHolds, ListEntry;
    AlignedWalk(mem, base, prp1, prp2, length, b);
    if 4096 <= b && length <= 2 * 4096 {
      assert PageCount(length) == 2;
    } else if 4096 <= b {
      PageSplit(length, b);
      DriverListEntry(mem, base, prp2, ListLength(length), (b - 4096) / 4096);
    }
  }
}
