/**
 The one DMA hugepage: where the rings, the PRP list and the data area lie
 (src/nvmetoy.rs and src/dma_region.rs).
 */
module DmaLayout {
  const HUGE_PAGE_SIZE: nat := 0x20_0000
  const QUEUE_DEPTH: nat := 64

  const ADMIN_SUBMISSION_QUEUE_OFFSET: nat := 0x0000
  const ADMIN_COMPLETION_QUEUE_OFFSET: nat := 0x1000
  const IO_SUBMISSION_QUEUE_OFFSET: nat := 0x2000
  const IO_COMPLETION_QUEUE_OFFSET: nat := 0x3000
  const PRP_LIST_OFFSET: nat := 0x4000
  const DATA_OFFSET: nat := 0x5000

  const MAX_TRANSFER_BYTES: nat := HUGE_PAGE_SIZE - DATA_OFFSET
  const PRP_LIST_CAPACITY: nat := 512
  const DATA_PAGES: nat := 507

  /** Ring offsets by queue id: 0 is the admin queue, 1 the I/O queue. */
  function SqOffset(id: nat): nat
    requires id < 2
  {
    if id == 0 then ADMIN_SUBMISSION_QUEUE_OFFSET else IO_SUBMISSION_QUEUE_OFFSET
  }

  function CqOffset(id: nat): nat
    requires id < 2
  {
    if id == 0 then ADMIN_COMPLETION_QUEUE_OFFSET else IO_COMPLETION_QUEUE_OFFSET
  }

  /** A base the kernel can hand out: page aligned, the whole hugepage below 2^64. */
  predicate GoodBase(base: nat) {
    base % 4096 == 0 && base + 0x20_0000 <= 0x1_0000_0000_0000_0000
  }
}
