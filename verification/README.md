# nvmetoy: a verified model

nvmetoy drives an NVMe controller from userspace: one 2 MiB DMA hugepage holds an admin and an I/O
queue pair, a PRP list and a data area; registers and doorbells are written through the BAR; and a small
REPL reads and writes the device blocks of a single file. These Dafny modules model that program together
with the controller it talks to, and prove what the two of them keep and promise.

The host side follows the program: `DmaRegion`, `NvmeBar`, `QueuePair` and `NvmeUserspaceDriver` are classes
with the program's fields, its loops are loops, and each method is proved against a specification. The
controller is an adversary. It fetches, moves single bytes, posts and reports status when and in which order
it likes, chosen by an arbitrary schedule; it is bound only by the rules of the NVM Express Base Specification
(full and empty rings, section 3.3.1; phase tags, section 4.2.4; physical region pages, section 4.3.1;
initialization, section 3.5.1). It runs before an entry is stored, before the doorbell, before every poll and after
the completion doorbell. A command that is none of this driver's, such as Format NVM, may do anything to the medium.

How the parts build on each other:

- `Bytes`, `NvmeSpec`, `DmaLayout`, `Arithmetic`, `Wrappers`: words, queue entries, layout, results.
- `Prp`: the specification's walk over PRP entries and lists, with chained list pages, and the driver's pointers.
- `Ring`: one queue pair as a protocol. The modulo-64 pointers, the phase bit and the 16-bit identifier are tied to
  unbounded counters of commands submitted, announced, fetched, posted, consumed and timed out.
- `Controller`, `System`: the machine, and the invariant of host and controller together (`SysInv`).
- `Submit`: one call of `submit_and_wait` as a function of state and schedule, and its meaning over the whole history.
- `Patience`: how long a call waits, by the clock that advances once for each chance the controller gets.
- `Overflow`, `Delivery`: where the protocol's small counters stop being enough, exactly, from every state.
- `Scripted`, `Reached`: calls under known schedules, and the runs from bring-up on in which those limits are reached.
- `History`: any pattern of answered and unanswered calls happens, and what the host can conclude from its own counts.
- `Progress`: the adversary can also cooperate, so that the theorems about successful calls speak of something.
- `Effect`, `Transfer`, `BlockDevice`: without timeouts, calls are atomic operations on a medium of bytes.
- `Calm`, `Spoiled`: calls among late commands, when they still do what they say and how they come not to.
- `BringUp`, `Hardware`, `QueuePairs`, `Driver`: the classes.
- `Wire`: every layout host and controller share, bit by bit and in numbers, apart from the code that packs it.
- `FileBlocks`, `Text`, `BlockMap`, `Confinement`: the file, its map, and which commands stay inside it.
- `Commands`, `Repl`, `Afterlife`: what the commands mean and how they end, the session and the whole program, and
  what the controller can still do once the program is gone.
- `Grammar`, `InBytes`: the command language and the block map language described apart from the code that reads
  them, and what each command stores, shows, asks of the device or is refused for, in bytes and blocks.

Main results:

1. `SysInv` holds in every reachable state, with any number of timeouts, and gives DMA containment: every byte
   a command moves lands at its own place in the data area, however late it is moved (`System.MoveLandsInData`).
2. A poll sees a fresh phase tag if and only if an unconsumed completion is there (`Ring.PhaseExact`), in all runs.
3. Timeouts, from every state in which a call may begin. The tail doorbell is unambiguous if and only if at most 63
   commands are unfetched, and at every multiple of 64 the ring looks empty (`Overflow.OverflowExact`). Under every
   schedule an accepted completion is the call's own if and only if the oldest unread completion or, with none unread,
   every command in flight is no multiple of 65536 submissions older (`Delivery.DeliveryExact`). With in-order
   completion every call fails after `t` timeouts if and only if `t` is no multiple of 64 (`Reached.InOrderExact`).
   After bring-up all three limits are reached (`Reached.OverflowReached`, `History.MisdeliveryReached`). From its own
   counts the host can trust an accepted completion if and only if nothing has timed out or fewer than 65536 commands
   were submitted (`History.TrustExact`).
4. Without timeouts the run is a chain of atomic reads and writes. Each call adds its own event to the log, so in
   the driver's log a read returns what was last written (`Driver.NvmeUserspaceDriver.LoggedReadsLastWrite`). So does the
   session: every command typed gets one reply, submits exactly what it must, fails only for a stated reason or with
   its own completion's status, and what the transcript shows was last stored (`Repl.RunSession`). After timeouts a call
   still does exactly what it says if every outstanding command is a bystander of its blocks (`Calm.CalmCall`); a Read
   that is still in flight can make a later Write succeed with other bytes than its payload (`Spoiled.SpoiledReached`).
5. With a block map that counts in the namespace's blocks, the whole program changes no byte outside the file, whatever
   is typed and whatever fails (`Repl.Run`), and late commands do not either while the hugepage is left alone
   (`Repl.SessionConfined`). The program unmaps it without disabling the controller; from then on, whatever memory
   holds, the rest of the device is safe if and only if neither queue shows the controller a command left to fetch, or
   there is no rest (`Afterlife.SafeAfterExact`). With no timeout on either queue there is nothing left to fetch.
6. What the parts agree on is fixed from outside. A call takes the first completion that one of its 200001 polls finds
   and gives up only if none does (`Patience.CallWaits`). `Wire` gives every word on the bus in numbers, the status word
   and both Identify pages included. A line is taken for a command, and a block map for a map, if and only if its words
   spell it (`Grammar.CommandExact`, `Grammar.MeaningExact`), down to the decimal numerals (`Text.ParseExact`) and UTF-8
   (`Text.Utf8RoundTrip`). A command reaches the device if and only if nothing stands against it
   (`InBytes.ReachesExact`).

Two things the code does not do. It never checks that the submission queue has room, which result 3 makes precise. It
never compares `device_lba_size` of the block map, in whose blocks the extents are counted, with the namespace's block
size, in whose blocks commands count. `Confinement.ProtectionExact` says when the check of a write still keeps it inside the
file: if and only if the two are the same, or no payload passes both length checks. `Confinement.ReadProtectionExact` says it
for reads: if and only if they are the same, or no read fits.

## Model

| member | source | states |
|---|---|---|
| NvmeSpec.SqeRoundTrip | src/nvme_spec.rs:121-147 | the 64 bytes the host stores decode to the entry it built |
| NvmeSpec.CqeRoundTrip | src/nvme_spec.rs:149-158 | the 16 bytes the controller posts decode to the entry it meant |
| NvmeSpec.TransferFields | src/nvme_command_builders.rs:36-56 | the split 64-bit starting LBA and the zero-based count come back whole on the controller's side |
| NvmeSpec.CreateFields | src/nvme_command_builders.rs:11-34 | the controller decodes the queue id, size, contiguity and target queue that were asked for |
| Wire.LittleEndian | src/nvme_spec.rs:121-147 | words of 16, 32 and 64 bits are stored to base 256, lowest digit first |
| Wire.SqeLayout | src/nvme_spec.rs:121-139 | the place of every field in the 64 bytes of an entry |
| Wire.CqeLayout | src/nvme_spec.rs:149-158 | the place of every field in the 16 bytes of a completion |
| Wire.TransferWire | src/nvme_command_builders.rs:36-56 | Read and Write byte by byte: opcode 2 or 1, starting LBA in bytes 40 to 47, zero-based count in 48 and 49, all others zero |
| Wire.IdentifyWire | src/nvme_command_builders.rs:3-9 | Identify byte by byte: opcode 6 and the structure asked for in byte 40 |
| Wire.CreateWire | src/nvme_command_builders.rs:11-34 | the create commands byte by byte: opcodes 5 and 1, queue id, zero-based size, contiguity and target queue |
| Wire.StatusWord | src/nvme_spec.rs:160-177 | for every phase, status code, type and upper bits the word decodes to just these; it is a success if and only if code and type are 0, and otherwise a failure that reports them (src/nvmetoy.rs:365-374) |
| Wire.RegisterMap | src/nvme_spec.rs:16-22 | the register and doorbell offsets in numbers, as the controller decodes writes to them |
| Wire.StatusBits | src/nvmetoy.rs:127-131 | CSTS bit 0 is RDY and bit 1 is CFS |
| Wire.StrideBits | src/nvme_bar.rs:65-68 | bits 35:32 of CAP are the stride, doorbells lie 4 << DSTRD bytes apart, for all other bits |
| Wire.ConfigurationBits | src/nvmetoy.rs:117-121 | CC bit 0 enables, and bits 19:16 and 23:20 agree with the entries if and only if they are 6 and 4 |
| Wire.AdminQueueBits | src/nvmetoy.rs:107-115 | enabling creates admin rings of the two zero-based sizes in AQA at ASQ and ACQ |
| Wire.EntrySizes | src/nvme_spec.rs:267-269 | a controller page with SQES nibbles a, b and CQES nibbles c, d in bytes 512 and 513 is accepted if and only if a <= 6 <= b and c <= 4 <= d (src/nvmetoy.rs:143-169) |
| Wire.FormattedPage | src/nvmetoy.rs:219-233 | byte 26 of a namespace page selects one of the formats from byte 128 on, and the block size is two to the power of its LBADS |
| Wire.HugepageLayout | src/nvmetoy.rs:27-36 | the six parts of the hugepage and the transfer limit in numbers |
| Controller.DoorbellsReachTheirQueue | src/nvme_bar.rs:120-136 | for every stride the four doorbells are distinct registers and each reaches its own queue only |
| Hardware.DoorbellAligned | src/nvme_bar.rs:50-63 | doorbell offsets are aligned and in bounds for every stride, so the assertions never fire |
| Hardware.DmaRegion.constructor | src/dma_region.rs:23-65 | the region starts zeroed at its physical address |
| Hardware.DmaRegion.WriteBytes | src/dma_region.rs:100-111 | exactly the bytes at the offset become the source |
| Hardware.DmaRegion.ReadBytes | src/dma_region.rs:87-98 | the copy is what memory holds at the offset |
| Hardware.DmaRegion.WriteSqe | src/dma_region.rs:71-76 | storing an entry replaces exactly its 64 bytes; bounds and alignment are demanded of callers |
| Hardware.DmaRegion.WriteU64 | src/dma_region.rs:71-76 | storing a PRP entry replaces exactly its 8 bytes |
| Hardware.DmaRegion.ReadCqe | src/dma_region.rs:78-85 | reading a completion slot decodes the bytes that are there |
| Hardware.NvmeBar.RingSubmissionDoorbell | src/nvme_bar.rs:120-127 | the register write the controller sees carries the tail of that queue |
| Hardware.NvmeBar.RingCompletionDoorbell | src/nvme_bar.rs:129-136 | the register write the controller sees carries the head of that queue |
| Prp.EntryStoredExact | src/nvmetoy.rs:320-328 | after each store exactly the entry it wrote has become right, and none that was right is spoiled |
| Prp.EntryStoredHolds | src/nvmetoy.rs:320-328 | a list published for an earlier command survives every single store for a later one, while the new list grows |
| Prp.EntryStoredFrame | src/nvmetoy.rs:320-328 | a store into the list touches neither rings nor data area |
| Prp.PrpExact | src/nvmetoy.rs:295-333 | for every length up to MAX_TRANSFER_BYTES the specification's walk visits the data area's bytes in order, in the one-page, two-page and list cases, without chaining |
| Ring.NewQueueInv | src/queue_pair.rs:22-32 | a fresh queue pair over zeroed completions satisfies the protocol |
| Ring.StoreKeeps | src/queue_pair.rs:41-59 | storing an entry and advancing tail and identifier keeps the protocol |
| Ring.AnnounceKeeps | src/queue_pair.rs:59-60 | ringing the submission doorbell keeps the protocol |
| Ring.FetchKeeps | src/queue_pair.rs:41-60 | whatever the controller fetches was submitted, lies in the slot of its fetch number, and is later than everything fetched before, also past an overflow; with at most 62 timeouts it is the next submission |
| Ring.PostKeeps | src/queue_pair.rs:67-99 | a controller that leaves one slot free never overwrites an unread completion |
| Ring.PhaseExact | src/queue_pair.rs:67-99 | in every state the polled slot has the expected phase if and only if an unconsumed completion is there, and it is the oldest one |
| Ring.ConsumeKeeps | src/queue_pair.rs:91-99 | consuming advances head and phase as images of an unbounded count |
| Ring.TimeoutKeeps | src/queue_pair.rs:109-112 | giving up keeps the protocol, with one more command outstanding |
| System.MoveLandsInData | src/nvmetoy.rs:27-40 | every byte of every job, however late, is moved at its own place in the data area |
| System.MoveMedia | src/nvmetoy.rs:264-293 | the medium changes only inside a range some submitted Write named |
| System.CreateTakesEffect | src/nvmetoy.rs:171-194 | a create command finds the I/O queue unused and gives it the rings the driver reserved |
| System.NoneForeign | src/nvme_command_builders.rs:3-56 | in every reachable state all commands at work are ones this driver builds, so none that may change the medium at will |
| System.StepKeeps | src/queue_pair.rs:34-114 | every controller action keeps the invariant of both queues, the PRP list and the medium |
| System.RunKeeps | src/queue_pair.rs:34-114 | so does every sequence of actions |
| Submit.PollExact | src/queue_pair.rs:70-73 | over memory: the poll matches exactly when a completion is unconsumed, and reads that completion |
| Submit.PollKeeps | src/queue_pair.rs:67-113 | the polling loop keeps the invariant and ends by giving up with nothing unread or by consuming the oldest completion |
| Patience.CallWaits | src/queue_pair.rs:67-113 | a call takes the first completion that one of its polls finds, after as many polls as the clock says, and gives up if and only if none of limit + 1 finds one |
| Patience.CallClock | src/queue_pair.rs:67-113 | giving up takes exactly limit + 1 polls by the clock, and answering at most as many |
| Submit.CallKeeps | src/queue_pair.rs:34-114 | every call keeps the invariant, with any schedule and any number of earlier timeouts, also when the command fails |
| Submit.Conservation | src/queue_pair.rs:41-60 | after every call submitted minus consumed is the number of calls that gave up, and the identifier modulo 64 is the tail |
| Submit.AcceptedFacts | src/queue_pair.rs:101-107 | after any number of timeouts: the consumed completion answers one submission nothing else answered and carries its number modulo 65536; it is accepted if that is the call's own identifier, and otherwise both identifiers are reported |
| Submit.AcceptedIsOurs | src/queue_pair.rs:101-107 | after any number of timeouts and with out-of-order completion an Ok is the call's own if no other outstanding command is 65536 or more submissions old |
| Submit.InOrderDelivery | src/queue_pair.rs:101-112 | with in-order completion a call fails unless the number of earlier timeouts is a multiple of 64; below 65536 timeouts an Ok is the call's own; without any, an answered call is Ok |
| Delivery.DeliveryExact | src/queue_pair.rs:41-43 | from every state in which a call may begin: under every schedule an accepted completion is the call's own if and only if the oldest unread completion, or with none unread every command in flight, is no multiple of 65536 older |
| Delivery.CallDescends | src/queue_pair.rs:34-114 | what a call leaves on a queue comes from before it: fetches, completions and jobs are only added to or answered, never exchanged |
| Delivery.OursUnlessConfused | src/queue_pair.rs:101-107 | an accepted completion that is not the call's own comes from the confusable unread completion or a confusable command in flight; one not yet fetched is too young |
| Delivery.Misdelivered | src/queue_pair.rs:101-107 | otherwise there is a schedule that makes the call accept the older command's completion |
| History.EveryPattern | src/queue_pair.rs:34-114 | on a queue in its first use every pattern of answered and unanswered calls happens, with every unanswered command still in flight |
| History.MisdeliveryReached | src/queue_pair.rs:41-43 | for every device, after bring-up and any such pattern with an unanswered call a multiple of 65536 older than the next, the next accepted completion can be the older command's |
| History.TrustExact | src/queue_pair.rs:101-107 | over all states with n commands and t timeouts an accepted completion is always the call's own if and only if t is 0, n is below 65536, or t exceeds n |
| Reached.InOrderExact | src/queue_pair.rs:101-112 | with in-order completion every call begun after t timeouts fails if and only if t is no multiple of 64; at 64 the newest command is fetched from the first slot and accepted |
| Overflow.BacklogExact | src/queue_pair.rs:59-60 | the controller's reading of the doorbell is right if and only if at most 63 commands are unfetched |
| Overflow.NoOverflow | src/queue_pair.rs:45-60 | begun after at most 62 timeouts, a call overwrites no unfetched entry and the next fetch is the next submission |
| Overflow.OverflowExact | src/queue_pair.rs:59-60 | from every state in which a call may begin, with b commands unfetched, n calls the controller does not hear leave the doorbell right if and only if b + n is at most 63; at every multiple of 64 the ring looks empty |
| Reached.OverflowReached | src/queue_pair.rs:59-60 | after bring-up, for every device: n unheard calls are unambiguous if and only if n is at most 63, and the 64th makes the ring look empty |
| Effect.QuietCall | src/queue_pair.rs:34-114 | begun with nothing outstanding, a call that does not give up gets its own completion and has had exactly its command's effect |
| Progress.CallCanSucceed | src/queue_pair.rs:67-113 | begun with nothing outstanding, every command the device can accept, the two create commands included, succeeds under some schedule, for every number of polls tolerated |
| Progress.BringUpCanSucceed | src/nvmetoy.rs:87-96 | for every device there are schedules under which, after the register writes, all four commands of open succeed and the I/O queue takes every well-formed transfer |
| Transfer.ReadEffect | src/nvmetoy.rs:250-261 | a successful Read has delivered exactly its block range and changed nothing |
| Transfer.WriteEffect | src/nvmetoy.rs:281-292 | a successful Write has stored exactly the payload; a failed one at most a part of it |
| Transfer.IdentifyEffect | src/nvmetoy.rs:196-213 | a successful Identify has delivered the page asked for |
| Transfer.CreateEffect | src/nvmetoy.rs:171-194 | a successful create command has configured its ring with the size asked for |
| Transfer.EntryKeeps | src/nvmetoy.rs:320-328 | each store into a PRP list disturbs no command in flight and no list already published |
| Transfer.RestTick | src/queue_pair.rs:34-114 | with nothing outstanding the controller changes neither memory nor medium, so nothing disturbs a list or payload under construction |
| Transfer.PayloadKeeps | src/nvmetoy.rs:282-283 | copying a payload into the data area disturbs no ring and no list |
| Calm.CalmCall | src/nvmetoy.rs:247-292 | in any run, with everything outstanding a bystander of its blocks, a transfer that succeeds with its own completion has read what the medium held or stored exactly its payload |
| Spoiled.WriteSpoiled | src/nvmetoy.rs:281-292 | begun while a Read is in flight, a Write can succeed with its own completion and have stored the Read's first byte |
| Spoiled.SpoiledReached | src/nvmetoy.rs:281-292 | for every device whose blocks fit a page such a run leads there from bring-up, for any two blocks and any payload beginning differently |
| BlockDevice.ReadsLastWrite | src/nvmetoy.rs:235-293 | in a chain of atomic operations a read returns the byte last written |
| BringUp.DeadTick | src/nvmetoy.rs:99-105 | with CC.EN clear the controller touches neither memory nor medium and RDY stays down |
| BringUp.EnableKeeps | src/nvmetoy.rs:107-121 | the programmed AQA, ASQ and ACQ give the controller exactly the host's admin rings |
| BringUp.EnableValue | src/nvmetoy.rs:117-121 | the configuration written enables the controller with the sizes of the entries this driver encodes |
| BringUp.AgreementFromUse | src/nvmetoy.rs:171-194 | after bring-up the controller's ring addresses and depths are the host's, for both queues |
| QueuePairs.QueuePair.constructor | src/queue_pair.rs:22-32 | the initial fields |
| QueuePairs.QueuePair.SubmitAndWait | src/queue_pair.rs:34-114 | the method computes exactly the call that the theorems of Submit are about; a timeout means that 200001 polls have run and nothing is unread |
| QueuePairs.QueuePair.PollCompletion | src/queue_pair.rs:67-113 | the loop computes exactly the polls of that call and gives up after exactly 200001 of them |
| Driver.NvmeUserspaceDriver.constructor | src/nvmetoy.rs:65-86 | two fresh queue pairs at their offsets, the stride from the capabilities, an empty cache |
| Driver.NvmeUserspaceDriver.WaitReady | src/nvmetoy.rs:125-141 | the first of at most 1000 status reads that settles it decides: a fatal status before RDY, RDY as wanted; a timeout means that all 1000 were read and none did; while disabled nothing else changes |
| Driver.NvmeUserspaceDriver.ResetAndEnable | src/nvmetoy.rs:99-123 | the admin registers are written only while EN and RDY are 0; success establishes the invariant and leaves CC, AQA, ASQ and ACQ with the values stated in numbers; a failure has a stated reason |
| Driver.NvmeUserspaceDriver.EnableAdminQueue | src/nvmetoy.rs:107-121 | begun with EN and RDY 0, it leaves the admin queue pair set up at the reserved rings, the registers with the stated values, and the invariant |
| Driver.NvmeUserspaceDriver.CheckQueueEntrySizes | src/nvmetoy.rs:143-169 | accepted only if, and refused only if not, the announced ranges contain 64 and 16 bytes |
| Driver.NvmeUserspaceDriver.SubmitAdmin | src/nvmetoy.rs:201-206 | every call keeps the invariant and adds one submission; it times out only after 200001 polls, with nothing unread |
| Driver.NvmeUserspaceDriver.SubmitIo | src/nvmetoy.rs:250-255 | the same for the I/O queue; after timeouts, with only bystanders outstanding, a success is the command's own effect |
| Driver.NvmeUserspaceDriver.CreateIoQueues | src/nvmetoy.rs:171-194 | completion queue first, then submission queue; success makes the I/O queue usable; a failure is an unanswered command or a completion's status |
| Driver.NvmeUserspaceDriver.Identify | src/nvmetoy.rs:196-213 | without timeouts the page returned is the one asked for and the medium is unchanged |
| Driver.NvmeUserspaceDriver.IdentifyController | src/nvmetoy.rs:215-217 | the same for the controller page, keeping a working driver; without timeouts it fails only as its completion says |
| Driver.NvmeUserspaceDriver.NamespaceBlockSize | src/nvmetoy.rs:219-233 | a cache hit changes nothing at all; a lookup adds at most the size asked for; a true cache stays true if nothing has timed out or the size is cached; Ok if and only if the size is cached afterwards |
| Driver.NvmeUserspaceDriver.DataPointers | src/nvmetoy.rs:295-333 | with the controller running between any two stores, the pointer pair and the list in memory have the shape PrpExact speaks of |
| Driver.NvmeUserspaceDriver.StoreEntry | src/nvmetoy.rs:320-328 | one store and whatever the controller does next keep the invariant and every list, and lengthen the new one |
| Driver.NvmeUserspaceDriver.StorePayload | src/nvmetoy.rs:282-283 | with the controller running before and after, the payload is in the data area; nothing in flight is disturbed |
| Driver.NvmeUserspaceDriver.Transfer | src/nvmetoy.rs:247-256 | exactly one command naming this range is submitted; without timeouts medium and data area are as it says and the outcome is its completion's |
| Driver.NvmeUserspaceDriver.Read | src/nvmetoy.rs:235-262 | exactly the reads that fit are submitted, each as one command naming its range, cached or not; zero and oversized counts are refused without touching the device; without timeouts the verdict is the completion's, the data is the range's, and the log grows by exactly this read; after timeouts the data is still the range's if everything outstanding is a bystander |
| Driver.NvmeUserspaceDriver.Write | src/nvmetoy.rs:264-293 | exactly the payloads of whole blocks that fit are submitted, each as one command naming its range; others are refused with the stated error; without timeouts the verdict is the completion's, the range holds the payload or a part of it, and the log grows by exactly this write; after timeouts success still means that the range holds the payload if everything outstanding is a bystander |
| Driver.NvmeUserspaceDriver.LoggedReadsLastWrite | src/nvmetoy.rs:235-293 | in every run of the driver without timeouts a successful read returns, byte for byte, what the last successful write stored |
| Driver.NvmeUserspaceDriver.Open | src/nvmetoy.rs:53-97 | success means agreeing rings, entry sizes, queue id and target completion queue, completion queue created before submission queue, registers programmed in order, no timeout and a cached block size; a failure means a fatal status, RDY not following EN, an unanswered or failed admin command, or excluded entry sizes, and leaves only the driver's own commands; the medium is untouched either way |
| FileBlocks.Find | src/bin/nvmetoy_repl.rs:41-46 | the first extent holding the block, or none exactly when the block is outside the file |
| FileBlocks.Check | src/bin/nvmetoy_repl.rs:32-51 | accepted if and only if every block lies in some extent; a refusal names the first one outside; at most one turn per extent |
| FileBlocks.TotalIsCount | src/bin/nvmetoy_repl.rs:28-30 | for disjoint extents the total is the number of accessible blocks and fits 64 bits |
| Text.FieldsJoin | src/bin/nvmetoy_repl.rs:58 | splitting at white space undoes joining with single blanks, for every list of words |
| Text.WhitespaceExact | src/bin/nvmetoy_repl.rs:58 | white space is exactly the characters with the Unicode property, by code point |
| Text.FieldsSpread | src/bin/nvmetoy_repl.rs:58 | whatever white space stands before, between and after words, they are what splitting finds |
| Text.EveryText | src/bin/nvmetoy_repl.rs:58 | every text is its words with such gaps around them |
| Text.JoinParts | src/bin/nvmetoy_repl.rs:212 | joining puts one blank between two words |
| Text.EveryLine | src/bin/nvmetoy_repl.rs:56 | the lines of a text hold no newline and give the text back, but for a last newline that may be missing |
| Text.Utf8RoundTrip | src/bin/nvmetoy_repl.rs:213 | a reader of UTF-8 (RFC 3629, section 3) gets every text back from its bytes |
| Text.AsciiBytes | src/bin/nvmetoy_repl.rs:358 | the bytes of an ASCII text are its code points |
| Text.ParseShow | src/bin/nvmetoy_repl.rs:484-487 | every number within the limit survives decimal printing and parsing |
| Text.ParseExact | src/bin/nvmetoy_repl.rs:484-487 | a text is parsed to n if and only if n is within the limit and the text is n as printed, with any leading zeros and at most one plus sign before them; everything else is refused |
| Text.DigitsPlace | src/bin/nvmetoy_repl.rs:484-487 | digits count by their place, in tens, and a single one by its code point |
| BlockMap.Parse | src/bin/nvmetoy_repl.rs:53-75 | the loop computes the meaning of the lines, one by one, with the same refusals, an unreadable line included |
| Grammar.MeaningExact | src/bin/nvmetoy_repl.rs:53-75 | a map is accepted if and only if every line can be read and is the header, a size with a number, three numbers in range, or blank; it then has the last size given, or 0, and the extents given, in order |
| Grammar.MapRefused | src/bin/nvmetoy_repl.rs:61-69 | a refusal is for the first line that is none of these: it cannot be read, has a number that is none, or is malformed |
| BlockMap.RoundTrip | nvmetoy.sh:65-73 | every block map written by the script is read back: same size, same extents, same order |
| Confinement.ConfinedContents | src/bin/nvmetoy_repl.rs:268-284 | if every submitted command names only bytes of the file, as the map counts them, only bytes of the file have changed |
| Confinement.ConfinedForever | src/bin/nvmetoy_repl.rs:254-284 | and whatever the controller still executes later changes only those |
| Confinement.SameUnits | src/bin/nvmetoy_repl.rs:254-284 | when map and namespace count in the same blocks, blocks that pass the check are bytes of the file |
| Confinement.ProtectionExact | src/bin/nvmetoy_repl.rs:268-284 | every command a checked write submits stays in the file if and only if the map's block size is the namespace's, or no payload passes both length checks |
| Confinement.ReadProtectionExact | src/bin/nvmetoy_repl.rs:254-266 | every command a checked read submits stays in the file if and only if the map's block size is the namespace's, or no read fits |
| Confinement.Escapes | src/bin/nvmetoy_repl.rs:274-284 | otherwise, for every payload that passes, there is a file for which the check passes and the command submitted names a byte outside it |
| Repl.WriteLeavesFile | src/bin/nvmetoy_repl.rs:268-284 | whatever such a write is answered, it has submitted a command that names a byte outside the file |
| Repl.ConfinedRead | src/bin/nvmetoy_repl.rs:254-266 | a read inside the file that fits is submitted as one command and answered as its completion says; every other is refused for the stated reason, naming the first block outside, without touching the device |
| Repl.ConfinedWrite | src/bin/nvmetoy_repl.rs:268-284 | a payload inside the file that fits is submitted as one command naming its blocks and answered as its completion says; every other is refused for the stated reason without touching the device; for every block size in the map |
| Repl.CopyFromSlice | src/bin/nvmetoy_repl.rs:347-370 | the patch replaces exactly its bytes of the buffer |
| Repl.FillBlocks | src/bin/nvmetoy_repl.rs:286-313 | submitted or refused as stated; success stores the repeated byte over exactly the counted blocks |
| Repl.PeekBytes | src/bin/nvmetoy_repl.rs:315-334 | submitted or refused as stated; success shows exactly the bytes of the medium at the offset |
| Repl.WriteBlocks | src/bin/nvmetoy_repl.rs:336-349 | submitted or refused as stated; success stores the text followed by zeros over exactly the rounded-up blocks |
| Repl.PokeBytes | src/bin/nvmetoy_repl.rs:351-377 | one read and, if and only if it succeeds, one write of the block; success changes exactly the patched bytes, a failure at most some of them |
| Repl.IdentifyCommand | src/bin/nvmetoy_repl.rs:204 | success gives the controller's page; session and medium are kept; without timeouts it fails only as its completion says |
| Repl.RunReplLine | src/bin/nvmetoy_repl.rs:194-237 | words that are no command change nothing; a command submits what it must, fails only for a stated reason or with its completion's status, keeps the session and does what it means |
| Grammar.CommandExact | src/bin/nvmetoy_repl.rs:199-234 | words are taken for a command if and only if they spell it |
| Grammar.CommandRefused | src/bin/nvmetoy_repl.rs:199-234 | words that spell no command are unknown, or have a fill character that is not one ASCII character, or a number that is none |
| Grammar.CommandRoundTrip | src/bin/nvmetoy_repl.rs:239-252 | every command, written as the help text shows with its numbers in decimal, is read back as that command |
| Grammar.ShortForms | src/bin/nvmetoy_repl.rs:202-220 | fill without a count means one block, and exit means quit |
| InBytes.StoredBytes | src/bin/nvmetoy_repl.rs:286-377 | what a successful write, fill or poke leaves on the medium, byte by byte: the text and zeros up to the block end, the character over all blocks, the patch at its offset, and nothing else |
| InBytes.ShownBytes | src/bin/nvmetoy_repl.rs:204-234 | what a successful read or peek shows, byte by byte |
| InBytes.ReachesExact | src/bin/nvmetoy_repl.rs:254-377 | when both count in the same blocks, a command reaches the device if and only if its blocks are in the file and at most 0x1FB000 bytes, and its text and offsets are in order; otherwise the user is told what stands against it |
| InBytes.AsksExact | src/bin/nvmetoy_repl.rs:254-377 | the entries it submits: one Read or one Write of its blocks, and for poke the Read of its block and at most the Write after it |
| Repl.RunSession | src/bin/nvmetoy_repl.rs:170-188 | any input keeps the session confined; it ends as the input says; the replies answer the commands typed, in order, up to quit; without timeouts the medium is explained by them and the replies are faithful to what was stored |
| Grammar.SessionGoesOn | src/bin/nvmetoy_repl.rs:170-188 | an interrupt, a blank line, a mistyped one and any command but quit are followed by whatever comes next |
| Grammar.OneInput | src/bin/nvmetoy_repl.rs:170-188 | end of input, a read failure and quit end the session, with an error for the failure only; each line contributes the command it spells, or none |
| Commands.ShowsLastStored | src/bin/nvmetoy_repl.rs:194-237 | in an explained transcript a byte shown by read or peek is the byte last stored by write, fill or poke |
| Repl.SessionConfined | src/bin/nvmetoy_repl.rs:254-284 | at any point of a session with a map in the namespace's blocks only bytes of the file have changed; so it stays while the hugepage is left alone; and for any later memory contents if neither queue shows anything to fetch, as when no call timed out |
| Afterlife.SafeForever | src/dma_region.rs:133-141 | with nothing to fetch on either queue, nothing foreign at work and only writes inside the file in flight, no later action and no later memory contents change a byte outside the file |
| Afterlife.SafeAfterExact | src/dma_region.rs:133-141 | after the hugepage is gone the bytes outside the file are safe from everything memory may come to hold if and only if neither queue shows anything left to fetch, or no byte is outside |
| Afterlife.WriteReaches | src/dma_region.rs:133-141 | with a command left to fetch on the I/O queue an ordinary Write is enough to reach any block |
| Repl.Run | src/bin/nvmetoy_repl.rs:140-192 | with a map in the namespace's blocks the whole program changes no byte outside the file, whatever is typed and whatever fails, nor does anything afterwards if neither queue shows anything to fetch; the session is missing only if the map is refused or bring-up fails for a stated reason; every command typed is answered, and without timeouts the medium is explained from its first state on |

## Left out

Assumptions, which the code does not check either:

- The DMA base is 4096-aligned and the hugepage ends below 2^64; the BAR covers the four doorbells; the controller supports 64-entry queues and 4 KiB pages.
- The device has one namespace, without metadata, LBADS from 9 to 47, and a format index in FLBAS bits 3:0.
- Another namespace id is an Identify that fails. A controller may instead answer an inactive id with a page of zeros and success; the code would then cache a block size of 1 for it.
- Extents end below 2^64 (`FileBlocks.ExtentsFit`; the addition in `check` is unchecked).
- In a session the block map's `device_lba_size` is between 1 and the namespace block size (`Repl.Usable`), and for confinement equal to it (`Repl.Confined`). With a larger one the slice in `peek` and the copy in `poke` may run past the block that was read, and panic; with 0 the length check of a write divides by zero.
- Entry and byte-copy accesses are atomic towards the controller, and fences and volatile accesses give sequential consistency; the controller may act between any two entries of a PRP list and before and after a payload copy, not inside one.
- Of a command the driver does not build only the effect on the medium is modelled, not what else it may do, such as deleting queues; it arises only once other hands may write the queues' memory (`Afterlife`).

Weaker than it might be:

- BringUp.DeadTick: the controller's queues vanish at the write that clears `CC.EN`, not when RDY drops; what it did with an earlier driver's queues before that write, and transfers of theirs between the write and RDY going down, are not modelled.
- Driver.NvmeUserspaceDriver.Read: after a timeout promises its data only with everything outstanding a bystander, fewer than 65536 I/O commands and a cached block size; a late command may move bytes through the same data area.
- Driver.NvmeUserspaceDriver.Write: the same; `Spoiled.SpoiledReached` is a run without these premises. Confinement of the medium holds in all runs.
- Driver.NvmeUserspaceDriver.NamespaceBlockSize: an uncached lookup after a timeout may read a page a late command has changed, so its value is then not specified; a format byte of 64 or more, which the code shifts by, is not modelled there. `open` leaves the size cached, so `read` and `write` never depend on it.
- Repl.RunReplLine: returns what the printing functions are given; `print_read`, `ascii_line` and the help text are not modelled.

Not modelled:

- mmap, mlock, pagemap, sysfs and PCI configuration access: foreign calls; their results are parameters.
- `chat!`, `pause`, sleeping and wall-clock time: only the numbers of polls are kept.
- Printing of Identify Controller data, `flags` and the full Identify structures: only the fields the driver acts on.
- The line editor: completion, history and hints; readline is a sequence of inputs.
- Bytes of the block map that are no UTF-8: such a line is one that cannot be read.
- The xNVMe variant, build files and scripts, except the block map format of `nvmetoy.sh`.
