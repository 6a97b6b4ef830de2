/** The commands of src/bin/nvmetoy_repl.rs: what their words are, what they mean and how they end. */
module Commands {
  import opened Bytes
  import opened NvmeSpec
  import opened DmaLayout
  import opened Ring
  import opened Controller
  import opened BlockDevice
  import opened Driver
  import opened FileBlocks
  import opened Confinement
  import opened Text
  import BlockMap
  import opened Wrappers

  // --- commands ------------------------------------------------------------------------------------------

  datatype Command =
    | Help
    | Quit
    | List
    | Identify
    | Read(lba: U64, count: U64)
    | Write(lba: U64, text: seq<U8>)
    | Fill(lba: U64, byte: U8, count: U64)
    | Peek(lba: U64, offset: U64, len: U64)
    | Poke(lba: U64, offset: U64, text: seq<U8>)

  function ParseAsciiChar(text: string): Result<U8> {
    var bs := TextBytes(text);
    if |bs| == 1 then Ok(bs[0]) else Err(NotOneCharacter)
  }

  /** What the words of a line ask for. */
  function CommandOf(tokens: seq<string>): Result<Command> {
    if tokens == ["help"] then Ok(Help)
    else if tokens == ["quit"] || tokens == ["exit"] then Ok(Quit)
    else if tokens == ["list"] then Ok(List)
    else if tokens == ["identify"] then Ok(Identify)
    else if |tokens| == 3 && tokens[0] == "read" then
      var lba :- BlockMap.ParseU64(tokens[1]);
      var count :- BlockMap.ParseU64(tokens[2]);
      Ok(Read(lba, count))
    else if |tokens| >= 3 && tokens[0] == "write" then
      var lba :- BlockMap.ParseU64(tokens[1]);
      Ok(Write(lba, TextBytes(Join(tokens[2..]))))
    else if 3 <= |tokens| <= 4 && tokens[0] == "fill" then
      var lba :- BlockMap.ParseU64(tokens[1]);
      var byte :- ParseAsciiChar(tokens[2]);
      var count :- if |tokens| == 3 then Ok(1) else BlockMap.ParseU64(tokens[3]);
      Ok(Fill(lba, byte, count))
    else if |tokens| == 4 && tokens[0] == "peek" then
      var lba :- BlockMap.ParseU64(tokens[1]);
      var offset :- BlockMap.ParseU64(tokens[2]);
      var len :- BlockMap.ParseU64(tokens[3]);
      Ok(Peek(lba, offset, len))
    else if |tokens| >= 4 && tokens[0] == "poke" then
      var lba :- BlockMap.ParseU64(tokens[1]);
      var offset :- BlockMap.ParseU64(tokens[2]);
      Ok(Poke(lba, offset, TextBytes(Join(tokens[3..]))))
    else Err(UnknownCommand)
  }

  function Repeated(byte: U8, n: nat): (bs: seq<U8>)
    ensures |bs| == n && forall i :: 0 <= i < n ==> bs[i] == byte
  {
    seq(n, _ => byte)
  }

  /** How many blocks hold `n` bytes. */
  function CeilBlocks(n: nat, size: nat): nat {
    if size > 0 then (n + size - 1) / size else 0
  }

  /** `count` blocks of the size the block map gives. */
  function MapBytes(size: nat, count: nat): nat {
    count * size
  }

  /** `text` followed by zeros up to the end of its last block. */
  function Padded(text: seq<U8>, size: nat): seq<U8>
    requires |text| <= MapBytes(size, CeilBlocks(|text|, size))
  {
    text + Repeated(0, MapBytes(size, CeilBlocks(|text|, size)) - |text|)
  }

  lemma PaddedFits(n: nat, size: nat)
    requires size > 0
    ensures n <= MapBytes(size, CeilBlocks(n, size)) < n + size
    ensures n > 0 ==> CeilBlocks(n, size) > 0
  {
    var c := (n + size - 1) / size;
    assert n + size - 1 == c * size + (n + size - 1) % size;
  }

  /** Bytes a command stores, and how far behind the start of its block. */
  datatype Store = Store(offset: nat, data: seq<U8>)

  function StoreOf(size: nat, c: Command): Store
    requires size > 0
  {
    match c
    case Write(_, text) => PaddedFits(|text|, size); Store(0, Padded(text, size))
    case Fill(_, byte, count) => Store(0, Repeated(byte, MapBytes(size, count)))
    case Poke(_, offset, text) => Store(offset, text)
    case _ => Store(0, [])
  }

  /**
   The meaning of a command on the medium, for a run without timeouts: a success stores all of
   its bytes and nothing else, or shows exactly the bytes asked for; a failure may store a part of
   its bytes but nothing else.
   */
  predicate Did(dev: Device, size: nat, before: seq<U8>, c: Command, after: seq<U8>, ok: bool, shown: seq<U8>)
    requires size > 0
  {
    if c.Write? || c.Fill? || c.Poke? then
      var start, data := BlockBytes(dev, c.lba) + StoreOf(size, c).offset, StoreOf(size, c).data;
      if ok then FitsIn(before, start, data) && after == WriteAt(before, start, data)
      else Torn(before, after, start, data)
    else
      && after == before
      && (ok && c.Read? && c.count > 0 ==>
            Atomic(before, ReadOk(BlockBytes(dev, c.lba), shown), before) && |shown| == BlockBytes(dev, c.count))
      && (ok && c.Peek? ==>
            Atomic(before, ReadOk(BlockBytes(dev, c.lba) + c.offset, shown), before) && |shown| == c.len)
      && (ok && c.Identify? ==> shown == dev.controllerPage)
  }

  /** What the user gets to see of one command: its failure, if any, and the bytes it shows. */
  datatype Reply = Reply(failure: Option<Error>, shown: seq<U8>) {
    predicate Succeeded() {
      failure.None?
    }
  }

  /** The medium before, between and after the commands of a session, each command doing what it means. */
  predicate Explained(dev: Device, size: nat, commands: seq<Command>, replies: seq<Reply>, states: seq<seq<U8>>)
    requires size > 0
  {
    && |commands| == |replies| && |states| == |commands| + 1
    && forall k :: 0 <= k < |commands| ==>
         Did(dev, size, states[k], commands[k], states[k + 1], replies[k].Succeeded(), replies[k].shown)
  }

  /** A command as an operation of the block device. */
  function EventOf(dev: Device, size: nat, c: Command, r: Reply): Event
    requires size > 0
  {
    if c.Write? || c.Fill? || c.Poke? then
      var start := BlockBytes(dev, c.lba) + StoreOf(size, c).offset;
      if r.Succeeded() then WriteOk(start, StoreOf(size, c).data) else WriteFailed(start, StoreOf(size, c).data)
    else if r.Succeeded() && c.Read? && c.count > 0 then ReadOk(BlockBytes(dev, c.lba), r.shown)
    else if r.Succeeded() && c.Peek? then ReadOk(BlockBytes(dev, c.lba) + c.offset, r.shown)
    else ReadOk(0, [])
  }

  lemma DidIsAtomic(dev: Device, size: nat, before: seq<U8>, c: Command, after: seq<U8>, r: Reply)
    requires size > 0 && Did(dev, size, before, c, after, r.Succeeded(), r.shown)
    ensures Atomic(before, EventOf(dev, size, c, r), after)
  {
    hide BlockBytes, StoreOf, Torn;
  }

  predicate Stores(c: Command) {
    c.Write? || c.Fill? || c.Poke?
  }

  predicate Shows(c: Command) {
    c.Read? || c.Peek?
  }

  /** No storing command strictly between `i` and `j` covers byte `x`. */
  predicate LeftAlone(dev: Device, size: nat, commands: seq<Command>, replies: seq<Reply>, i: nat, j: nat, x: nat)
    requires size > 0 && |commands| == |replies| && j <= |commands|
  {
    forall k :: i < k < j ==> var ev := EventOf(dev, size, commands[k], replies[k]); ev.ReadOk? || !Covers(ev, x)
  }

  /**
   If command `i` stored byte `x`, command `j` shows it and no storing command in between covers it, then it is
   shown as it was stored.
   */
  predicate ShownAsStored(dev: Device, size: nat, commands: seq<Command>, replies: seq<Reply>, i: nat, j: nat, x: nat)
    requires size > 0 && |commands| == |replies| && i < j < |commands|
  {
    var stored, seen := EventOf(dev, size, commands[i], replies[i]), EventOf(dev, size, commands[j], replies[j]);
    Stores(commands[i]) && replies[i].Succeeded() && Shows(commands[j]) && replies[j].Succeeded()
    && Covers(stored, x) && Covers(seen, x) && LeftAlone(dev, size, commands, replies, i, j, x)
    ==> seen.data == replies[j].shown && seen.data[x - seen.start] == stored.data[x - stored.start]
  }

  /** What a transcript shows was last stored, byte for byte. */
  ghost predicate Faithful(dev: Device, size: nat, commands: seq<Command>, replies: seq<Reply>)
    requires size > 0 && |commands| == |replies|
  {
    forall i: nat, j: nat, x: nat | i < j < |commands| :: ShownAsStored(dev, size, commands, replies, i, j, x)
  }

  lemma ShowsLastStored(dev: Device, size: nat, commands: seq<Command>, replies: seq<Reply>, states: seq<seq<U8>>)
    requires size > 0 && Explained(dev, size, commands, replies, states)
    ensures Faithful(dev, size, commands, replies)
  {
    hide BlockBytes, StoreOf, Did, Atomic;
    var log := seq(|commands|, k requires 0 <= k < |commands| => EventOf(dev, size, commands[k], replies[k]));
    forall k | 0 <= k < |log|
      ensures Atomic(states[k], log[k], states[k + 1])
    {
      DidIsAtomic(dev, size, states[k], commands[k], states[k + 1], replies[k]);
    }
    forall i: nat, j: nat, x: nat | i < j < |commands|
      ensures ShownAsStored(dev, size, commands, replies, i, j, x)
    {
      if Stores(commands[i]) && replies[i].Succeeded() && Shows(commands[j]) && replies[j].Succeeded()
         && Covers(log[i], x) && Covers(log[j], x) && LeftAlone(dev, size, commands, replies, i, j, x) {
        ReadsLastWrite(states, log, i, j, x);
      }
    }
  }

  // --- refusals ---------------------------------------------------------------------------------------------------

  /** The check of `count` blocks from `lba` on refuses with this error, which names the first block outside. */
  predicate CheckRefuses(extents: seq<Extent>, lba: nat, count: nat, e: Error) {
    && !AllInFile(extents, lba, count)
    && if lba + count >= U64_LIMIT then e == RangeOverflow
       else
         && e.NotInFile? && lba <= e.lba < lba + count
         && !InFile(extents, e.lba) && AllInFile(extents, lba, e.lba - lba)
  }

  /** A read that is submitted. */
  predicate ReadGoes(dev: Device, blocks: Blocks, lba: nat, count: nat) {
    AllInFile(blocks.extents, lba, count) && count < 0x1_0000 && ReadFits(dev, count)
  }

  predicate ReadRefuses(dev: Device, blocks: Blocks, lba: nat, count: nat, e: Error) {
    CheckRefuses(blocks.extents, lba, count, e) || (AllInFile(blocks.extents, lba, count) && count > 0 && e == TooLarge)
  }

  /** A payload that is submitted. */
  predicate WriteGoes(dev: Device, blocks: Blocks, lba: nat, length: nat)
    requires blocks.deviceLbaSize > 0
  {
    && Divides(blocks.deviceLbaSize, length) && AllInFile(blocks.extents, lba, Quotient(length, blocks.deviceLbaSize))
    && WholePayload(dev, length)
  }

  predicate WriteRefuses(dev: Device, blocks: Blocks, lba: nat, length: nat, e: Error)
    requires blocks.deviceLbaSize > 0
  {
    if length == 0 || !Divides(blocks.deviceLbaSize, length) then e == BadLength
    else if !AllInFile(blocks.extents, lba, Quotient(length, blocks.deviceLbaSize)) then
      CheckRefuses(blocks.extents, lba, Quotient(length, blocks.deviceLbaSize), e)
    else e == if NotWhole(dev, length) then BadLength else TooLarge
  }

  // --- what each command submits and how it ends --------------------------------------------------------------------

  /** The I/O queue before and after, its completions, how the command ended, and whether nothing has timed out. */
  datatype Trace = Trace(was: seq<Sqe>, now: seq<Sqe>, posted: seq<Posting>, failure: Option<Error>, quiet: bool)

  predicate Refused(t: Trace) {
    t.now == t.was && t.failure.Some?
  }

  /**
   A read of the file: submitted as one command, and then its completion decides; or refused for a
   stated reason without touching the device; or empty.
   */
  predicate ReadAnswer(dev: Device, blocks: Blocks, lba: nat, count: nat, t: Trace) {
    if ReadGoes(dev, blocks, lba, count) then
      Submits(t.was, t.now, OP_READ, lba, count) && (t.quiet ==> AnsweredBy(t.posted, |t.was|, t.failure))
    else if count == 0 then t.now == t.was && t.failure.None?
    else Refused(t) && ReadRefuses(dev, blocks, lba, count, t.failure.value)
  }

  /** A write to the file, likewise. */
  predicate WriteAnswer(dev: Device, blocks: Blocks, lba: nat, length: nat, t: Trace)
    requires blocks.deviceLbaSize > 0
  {
    if WriteGoes(dev, blocks, lba, length) then
      && Submits(t.was, t.now, OP_WRITE, lba, BlocksIn(dev, length))
      && (t.quiet ==> AnsweredBy(t.posted, |t.was|, t.failure))
    else Refused(t) && WriteRefuses(dev, blocks, lba, length, t.failure.value)
  }

  predicate FitsBlock(blocks: Blocks, offset: nat, len: nat) {
    offset < blocks.deviceLbaSize && len <= blocks.deviceLbaSize - offset
  }

  /** The read of a block, and, if it succeeds, the write of the whole block. */
  predicate PatchAnswer(dev: Device, blocks: Blocks, lba: nat, t: Trace)
    requires blocks.deviceLbaSize > 0
  {
    if !ReadGoes(dev, blocks, lba, 1) then ReadAnswer(dev, blocks, lba, 1, t)
    else
      && |t.was| < |t.now| && Submits(t.was, t.now[..|t.was| + 1], OP_READ, lba, 1)
      && var second := t.(was := t.now[..|t.was| + 1]);
         && (second.now == second.was ==> t.failure.Some?)
         && (second.now != second.was ==> WriteAnswer(dev, blocks, lba, BlockBytes(dev, 1), second))
         && (t.quiet ==>
               && |t.was| < |t.posted|
               && if IsSuccess(t.posted[|t.was|].cqe) then WriteAnswer(dev, blocks, lba, BlockBytes(dev, 1), second)
                  else second.now == second.was && AnsweredBy(t.posted, |t.was|, t.failure))
  }

  predicate CommandAnswer(dev: Device, blocks: Blocks, c: Command, t: Trace)
    requires blocks.deviceLbaSize > 0
  {
    var size := blocks.deviceLbaSize;
    match c
    case Read(lba, count) => ReadAnswer(dev, blocks, lba, count, t)
    case Fill(lba, _, count) =>
      if count == 0 then Refused(t) && t.failure.value == ZeroBlocks
      else if MapBytes(size, count) > MAX_TRANSFER_BYTES then Refused(t) && t.failure.value == TooLarge
      else WriteAnswer(dev, blocks, lba, MapBytes(size, count), t)
    case Write(lba, text) =>
      if text == [] then Refused(t) && t.failure.value == NothingToWrite
      else WriteAnswer(dev, blocks, lba, MapBytes(size, CeilBlocks(|text|, size)), t)
    case Peek(lba, offset, len) =>
      if !FitsBlock(blocks, offset, len) then Refused(t) && t.failure.value == DoesNotFit
      else ReadAnswer(dev, blocks, lba, 1, t)
    case Poke(lba, offset, text) =>
      if text == [] then Refused(t) && t.failure.value == NothingToWrite
      else if !FitsBlock(blocks, offset, |text|) then Refused(t) && t.failure.value == DoesNotFit
      else PatchAnswer(dev, blocks, lba, t)
    case Identify => t.now == t.was && (t.quiet && t.failure.Some? ==> t.failure.value.CommandFailed?)
    case _ => t.now == t.was && t.failure.None?
  }

  /** Later completions change no answer, and an answer without timeouts is an answer in any run. */
  lemma AnswerStays(dev: Device, blocks: Blocks, c: Command, t: Trace, posted: seq<Posting>, quiet: bool)
    requires blocks.deviceLbaSize > 0 && CommandAnswer(dev, blocks, c, t) && t.posted <= posted && (quiet ==> t.quiet)
    ensures CommandAnswer(dev, blocks, c, t.(posted := posted, quiet := quiet))
  {
    hide Submits, ReadGoes, ReadRefuses, WriteGoes, WriteRefuses, BlockBytes, BlocksIn, MapBytes, CeilBlocks,
         IsSuccess;
  }

  // --- a whole transcript ------------------------------------------------------------------------------------------

  /** What readline hands to the loop. */
  datatype Input = Line(text: string) | Interrupted | EndOfFile | Broken

  /** The commands a session runs: blank lines, interrupts and words that are no command are passed over. */
  function CommandsOf(inputs: seq<Input>): seq<Command> {
    if inputs == [] || inputs[0].EndOfFile? || inputs[0].Broken? then []
    else if inputs[0].Interrupted? || CommandOf(Fields(inputs[0].text)).Err? then CommandsOf(inputs[1..])
    else
      var c := CommandOf(Fields(inputs[0].text)).value;
      [c] + if c.Quit? then [] else CommandsOf(inputs[1..])
  }

  /** How the loop ends: the input breaks before a quit or the end, or it does not. */
  function Ending(inputs: seq<Input>): Result<()> {
    if inputs == [] || inputs[0].EndOfFile? then Ok(())
    else if inputs[0].Broken? then Err(ReadlineFailed)
    else if inputs[0].Line? && CommandOf(Fields(inputs[0].text)) == Ok(Quit) then Ok(())
    else Ending(inputs[1..])
  }

  /** A command found the I/O queue with `from` commands submitted, left it with `to`, and ended as its reply says. */
  predicate EntryAnswers(dev: Device, blocks: Blocks, c: Command, r: Reply, from: nat, to: nat,
                         submitted: seq<Sqe>, posted: seq<Posting>, quiet: bool)
    requires blocks.deviceLbaSize > 0
  {
    && from <= to <= |submitted|
    && CommandAnswer(dev, blocks, c, Trace(submitted[..from], submitted[..to], posted, r.failure, quiet))
  }

  /** A transcript of a session: command `k` took the I/O queue from `starts[k]` to `starts[k + 1]`. */
  predicate Transcript(dev: Device, blocks: Blocks, commands: seq<Command>, replies: seq<Reply>, starts: seq<nat>,
                       submitted: seq<Sqe>, posted: seq<Posting>, quiet: bool)
    requires blocks.deviceLbaSize > 0
  {
    && |replies| == |commands| && |starts| == |commands| + 1 && starts[|commands|] == |submitted|
    && forall k :: 0 <= k < |commands| ==>
         EntryAnswers(dev, blocks, commands[k], replies[k], starts[k], starts[k + 1], submitted, posted, quiet)
  }

  lemma EntryStays(dev: Device, blocks: Blocks, c: Command, r: Reply, from: nat, to: nat,
                   was: seq<Sqe>, posted0: seq<Posting>, quiet0: bool, now: seq<Sqe>, posted: seq<Posting>, quiet: bool)
    requires blocks.deviceLbaSize > 0 && EntryAnswers(dev, blocks, c, r, from, to, was, posted0, quiet0)
    requires was <= now && posted0 <= posted && (quiet ==> quiet0)
    ensures EntryAnswers(dev, blocks, c, r, from, to, now, posted, quiet)
  {
    hide CommandAnswer;
    AnswerStays(dev, blocks, c, Trace(was[..from], was[..to], posted0, r.failure, quiet0), posted, quiet);
    assert now[..from] == was[..from] && now[..to] == was[..to];
  }

  /** The same commands, later: more submitted, more completions, or something timed out since. */
  lemma TranscriptStays(dev: Device, blocks: Blocks, commands: seq<Command>, replies: seq<Reply>, starts: seq<nat>,
                        was: seq<Sqe>, posted0: seq<Posting>, quiet0: bool, now: seq<Sqe>, posted: seq<Posting>,
                        quiet: bool)
    requires blocks.deviceLbaSize > 0 && Transcript(dev, blocks, commands, replies, starts, was, posted0, quiet0)
    requires was <= now && posted0 <= posted && (quiet ==> quiet0)
    ensures forall k :: 0 <= k < |commands| ==>
      EntryAnswers(dev, blocks, commands[k], replies[k], starts[k], starts[k + 1], now, posted, quiet)
  {
    hide EntryAnswers;
    forall k | 0 <= k < |commands|
      ensures EntryAnswers(dev, blocks, commands[k], replies[k], starts[k], starts[k + 1], now, posted, quiet)
    {
      EntryStays(dev, blocks, commands[k], replies[k], starts[k], starts[k + 1], was, posted0, quiet0,
                 now, posted, quiet);
    }
  }

  lemma TranscriptGrows(dev: Device, blocks: Blocks, commands: seq<Command>, replies: seq<Reply>, starts: seq<nat>,
                        was: seq<Sqe>, posted0: seq<Posting>, quiet0: bool, c: Command, r: Reply,
                        now: seq<Sqe>, posted: seq<Posting>, quiet: bool)
    requires blocks.deviceLbaSize > 0 && Transcript(dev, blocks, commands, replies, starts, was, posted0, quiet0)
    requires was <= now && posted0 <= posted && (quiet ==> quiet0)
    requires CommandAnswer(dev, blocks, c, Trace(was, now, posted, r.failure, quiet))
    ensures Transcript(dev, blocks, commands + [c], replies + [r], starts + [|now|], now, posted, quiet)
  {
    TranscriptStays(dev, blocks, commands, replies, starts, was, posted0, quiet0, now, posted, quiet);
    assert now[..|was|] == was && now[..|now|] == now;
    assert EntryAnswers(dev, blocks, c, r, |was|, |now|, now, posted, quiet);
    hide EntryAnswers, CommandAnswer;
  }
}
