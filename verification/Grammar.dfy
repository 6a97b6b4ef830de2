/**
 The two languages of src/bin/nvmetoy_repl.rs, the commands a user types and the lines of a block map, described apart
 from the code that reads them: which words say what, and that everything else is refused.
 */
module Grammar {
  import opened Bytes
  import opened Text
  import opened FileBlocks
  import opened Commands
  import opened BlockMap
  import opened Wrappers

  // --- commands -------------------------------------------------------------------------------------------------

  /** A single ASCII character. */
  predicate AsciiWord(word: string, byte: U8) {
    |word| == 1 && word[0] as int == byte && byte < 0x80
  }

  /** The words that ask for a command, as the help text gives them. */
  ghost predicate Spells(words: seq<string>, c: Command) {
    match c
    case Help => words == ["help"]
    case Quit => words == ["quit"] || words == ["exit"]
    case List => words == ["list"]
    case Identify => words == ["identify"]
    case Read(lba, count) =>
      |words| == 3 && words[0] == "read" && Numeral(words[1], lba) && Numeral(words[2], count)
    case Write(lba, text) =>
      |words| >= 3 && words[0] == "write" && Numeral(words[1], lba) && text == TextBytes(Join(words[2..]))
    case Fill(lba, byte, count) =>
      && 3 <= |words| <= 4 && words[0] == "fill" && Numeral(words[1], lba) && AsciiWord(words[2], byte)
      && if |words| == 3 then count == 1 else Numeral(words[3], count)
    case Peek(lba, offset, len) =>
      && |words| == 4 && words[0] == "peek" && Numeral(words[1], lba)
      && Numeral(words[2], offset) && Numeral(words[3], len)
    case Poke(lba, offset, text) =>
      && |words| >= 4 && words[0] == "poke" && Numeral(words[1], lba) && Numeral(words[2], offset)
      && text == TextBytes(Join(words[3..]))
  }

  /** 64-bit numbers are parsed exactly. */
  lemma NumberExact(word: string)
    ensures forall n: U64 :: ParseU64(word) == Ok(n) <==> Numeral(word, n)
    ensures ParseU64(word).Err? ==> ParseU64(word) == Err(CannotParse)
  {
    forall n: U64
      ensures ParseU64(word) == Ok(n) <==> Numeral(word, n)
    {
      ParseExact(word, U64_MAX, n);
    }
    ParseExact(word, U64_MAX, 0);
  }

  lemma CharacterExact(word: string)
    ensures forall byte: U8 :: ParseAsciiChar(word) == Ok(byte) <==> AsciiWord(word, byte)
    ensures ParseAsciiChar(word).Err? ==> ParseAsciiChar(word) == Err(NotOneCharacter)
  {
    if word != "" {
      assert TextBytes(word) == CharBytes(word[0]) + TextBytes(word[1..]);
      if |word| == 1 {
        assert TextBytes(word[1..]) == [];
      } else {
        assert |TextBytes(word[1..])| >= 1;
      }
    }
  }

  lemma WordsExact(words: seq<string>)
    ensures forall k, n: U64 :: 0 <= k < |words| ==> (ParseU64(words[k]) == Ok(n) <==> Numeral(words[k], n))
    ensures forall k, b: U8 :: 0 <= k < |words| ==> (ParseAsciiChar(words[k]) == Ok(b) <==> AsciiWord(words[k], b))
  {
    hide ParseU64, Numeral, ParseAsciiChar, AsciiWord;
    forall k | 0 <= k < |words|
      ensures forall n: U64 :: ParseU64(words[k]) == Ok(n) <==> Numeral(words[k], n)
      ensures forall b: U8 :: ParseAsciiChar(words[k]) == Ok(b) <==> AsciiWord(words[k], b)
    {
      NumberExact(words[k]);
      CharacterExact(words[k]);
    }
  }

  /** Exactly the words that spell a command are taken for it. */
  lemma CommandExact(words: seq<string>, c: Command)
    ensures CommandOf(words) == Ok(c) <==> Spells(words, c)
  {
    hide ParseU64, Numeral, ParseAsciiChar, AsciiWord, TextBytes, Join;
    WordsExact(words);
    if CommandOf(words).Ok? {
      ReadAsSpelt(words);
    }
    if Spells(words, c) {
      SpeltIsRead(words, c);
    }
  }

  lemma ReadAsSpelt(words: seq<string>)
    requires CommandOf(words).Ok?
    ensures Spells(words, CommandOf(words).value)
  {
    hide ParseU64, Numeral, ParseAsciiChar, AsciiWord, TextBytes, Join;
    WordsExact(words);
  }

  lemma SpeltNumber(word: string, n: U64)
    requires Numeral(word, n)
    ensures ParseU64(word) == Ok(n)
  {
    hide ParseU64, Numeral;
    NumberExact(word);
  }

  lemma SpeltIsRead(words: seq<string>, c: Command)
    requires Spells(words, c)
    ensures CommandOf(words) == Ok(c)
  {
    hide ParseU64, Numeral, ParseAsciiChar, AsciiWord, TextBytes, Join;
    match c
    case Read(lba, count) =>
      SpeltNumber(words[1], lba);
      SpeltNumber(words[2], count);
    case Write(lba, _) =>
      SpeltNumber(words[1], lba);
    case Fill(lba, byte, count) =>
      SpeltNumber(words[1], lba);
      CharacterExact(words[2]);
      if |words| == 4 {
        SpeltNumber(words[3], count);
      }
    case Peek(lba, offset, len) =>
      SpeltNumber(words[1], lba);
      SpeltNumber(words[2], offset);
      SpeltNumber(words[3], len);
    case Poke(lba, offset, _) =>
      SpeltNumber(words[1], lba);
      SpeltNumber(words[2], offset);
    case _ =>
  }

  /** The shape of some command, whatever its numbers and characters are. */
  predicate Shaped(words: seq<string>) {
    || words == ["help"] || words == ["quit"] || words == ["exit"] || words == ["list"] || words == ["identify"]
    || (|words| == 3 && words[0] == "read") || (|words| >= 3 && words[0] == "write")
    || (3 <= |words| <= 4 && words[0] == "fill")
    || (|words| == 4 && words[0] == "peek") || (|words| >= 4 && words[0] == "poke")
  }

  /** The refusals: not of any shape, a character that is none, or a number that is none. */
  lemma CommandRefused(words: seq<string>)
    requires CommandOf(words).Err?
    ensures CommandOf(words).error ==
      if !Shaped(words) then UnknownCommand
      else if words[0] == "fill" && ParseU64(words[1]).Ok? && ParseAsciiChar(words[2]).Err? then NotOneCharacter
      else CannotParse
  {
    hide ParseU64, ParseAsciiChar, TextBytes, Join;
    forall k | 0 <= k < |words|
      ensures ParseU64(words[k]).Err? ==> ParseU64(words[k]) == Err(CannotParse)
      ensures ParseAsciiChar(words[k]).Err? ==> ParseAsciiChar(words[k]) == Err(NotOneCharacter)
    {
      NumberExact(words[k]);
      CharacterExact(words[k]);
    }
  }

  /** A command written out: numbers as they are printed, the character of a fill, and the words of a text. */
  function Written(c: Command, text: seq<string>): seq<string> {
    match c
    case Help => ["help"]
    case Quit => ["quit"]
    case List => ["list"]
    case Identify => ["identify"]
    case Read(lba, count) => ["read", Show(lba), Show(count)]
    case Write(lba, _) => ["write", Show(lba)] + text
    case Fill(lba, byte, count) => ["fill", Show(lba), [byte as char], Show(count)]
    case Peek(lba, offset, len) => ["peek", Show(lba), Show(offset), Show(len)]
    case Poke(lba, offset, _) => ["poke", Show(lba), Show(offset)] + text
  }

  predicate AreWords(text: seq<string>) {
    text != [] && forall k :: 0 <= k < |text| ==> IsWord(text[k])
  }

  /** Whether it can be typed: a text of words, and a fill with a visible ASCII character. */
  predicate Typable(c: Command, text: seq<string>) {
    match c
    case Write(_, bytes) => AreWords(text) && bytes == TextBytes(Join(text))
    case Poke(_, _, bytes) => AreWords(text) && bytes == TextBytes(Join(text))
    case Fill(_, byte, _) => byte < 0x80 && !IsWhitespace(byte as char)
    case _ => true
  }

  lemma ShowIsNumeral(n: nat)
    ensures Numeral(Show(n), n) && IsWord(Show(n))
  {
    ShowIsWord(n);
    assert Zeros(0) + Show(n) == Show(n);
  }

  /** What is typed is what is meant: every command survives being written as one line and read back. */
  lemma CommandRoundTrip(c: Command, text: seq<string>)
    requires Typable(c, text)
    ensures CommandOf(Fields(Join(Written(c, text)))) == Ok(c)
  {
    var words := Written(c, text);
    WrittenSpells(c, text);
    hide Written, Spells, Typable, Fields, Join;
    FieldsJoin(words);
    CommandExact(words, c);
  }

  lemma WrittenSpells(c: Command, text: seq<string>)
    requires Typable(c, text)
    ensures Spells(Written(c, text), c)
    ensures forall k :: 0 <= k < |Written(c, text)| ==> IsWord(Written(c, text)[k])
  {
    hide Numeral, Show, TextBytes, Join;
    forall n: nat
      ensures Numeral(Show(n), n) && IsWord(Show(n))
    {
      ShowIsNumeral(n);
    }
    var words := Written(c, text);
    match c
    case Write(lba, _) => assert words[2..] == text;
    case Poke(lba, offset, _) => assert words[3..] == text;
    case _ =>
  }

  /** The short forms: `fill` without a count means one block, and `exit` means `quit`. */
  lemma ShortForms(lba: U64, byte: U8)
    requires byte < 0x80 && !IsWhitespace(byte as char)
    ensures CommandOf(Fields(Join(["fill", Show(lba), [byte as char]]))) == Ok(Fill(lba, byte, 1))
    ensures CommandOf(Fields("exit")) == CommandOf(Fields("quit")) == Ok(Quit)
  {
    hide Fields, Show, CommandOf;
    var words := ["fill", Show(lba), [byte as char]];
    ShowIsNumeral(lba);
    assert IsWord([byte as char]);
    FieldsJoin(words);
    CommandExact(words, Fill(lba, byte, 1));
    hide Numeral, IsWhitespace;
    OneWord("exit", Quit);
    OneWord("quit", Quit);
  }

  lemma OneWord(word: string, c: Command)
    requires IsWord(word) && Spells([word], c)
    ensures CommandOf(Fields(word)) == Ok(c)
  {
    hide Fields, CommandOf, Spells;
    FieldsJoin([word]);
    CommandExact([word], c);
  }

  // --- sessions -------------------------------------------------------------------------------------------------

  /** What ends a session: the end of the input, a failure to read, or quit. */
  ghost predicate Ends(input: Input) {
    input.EndOfFile? || input.Broken? || (input.Line? && Spells(Fields(input.text), Quit))
  }

  /**
   Nothing else ends one: an interrupt, a blank line, a mistyped one and any other command are followed by whatever
   comes next.
   */
  lemma {:induction false} SessionGoesOn(first: seq<Input>, next: seq<Input>)
    requires forall k :: 0 <= k < |first| ==> !Ends(first[k])
    ensures CommandsOf(first + next) == CommandsOf(first) + CommandsOf(next)
    ensures Ending(first + next) == Ending(next)
    decreases |first|
  {
    hide CommandOf, Fields, Spells;
    if first == [] {
      assert first + next == next;
    } else {
      assert (first + next)[1..] == first[1..] + next;
      SessionGoesOn(first[1..], next);
      if first[0].Line? {
        CommandExact(Fields(first[0].text), Quit);
      }
    }
  }

  /** What a single input contributes, and what comes after the end of a session is never run. */
  lemma OneInput(input: Input, next: seq<Input>)
    ensures Ends(input) ==>
      && CommandsOf([input] + next) == CommandsOf([input])
      && Ending([input] + next) == if input.Broken? then Err(ReadlineFailed) else Ok(())
    ensures input.Interrupted? || input.EndOfFile? || input.Broken? ==> CommandsOf([input]) == []
    ensures forall c: Command :: input.Line? && Spells(Fields(input.text), c) ==> CommandsOf([input]) == [c]
    ensures input.Line? && (forall c: Command :: !Spells(Fields(input.text), c)) ==> CommandsOf([input]) == []
  {
    hide CommandOf, Fields, Spells;
    assert ([input] + next)[0] == input && ([input] + next)[1..] == next && [input][1..] == [];
    if input.Line? {
      var words := Fields(input.text);
      forall c: Command
        ensures CommandOf(words) == Ok(c) <==> Spells(words, c)
      {
        CommandExact(words, c);
      }
    }
  }

  // --- block maps -----------------------------------------------------------------------------------------------

  /** What a line of a block map says: nothing, the block size, or one more extent. */
  datatype Saying = Nothing | Size(bytes: U64) | More(extent: Extent)

  ghost predicate Says(words: seq<string>, saying: Saying) {
    match saying
    case Nothing => words == [] || words == ["nvmetoy-block-map", "1"]
    case Size(bytes) => |words| == 2 && words[0] == "device_lba_size" && Numeral(words[1], bytes)
    case More(e) =>
      && |words| == 3 && Numeral(words[0], e.deviceLba) && Numeral(words[1], e.lbaCount)
      && exists flag: U8 :: Numeral(words[2], flag) && e.unwritten == (flag != 0)
  }

  /** The last size said, or 0. */
  function SizeOf(sayings: seq<Saying>): U64 {
    if sayings == [] then 0
    else
      var last := sayings[|sayings| - 1];
      if last.Size? then last.bytes else SizeOf(sayings[..|sayings| - 1])
  }

  /** The extents, in the order in which they are said. */
  function ExtentsOf(sayings: seq<Saying>): seq<Extent> {
    if sayings == [] then []
    else
      var last := sayings[|sayings| - 1];
      ExtentsOf(sayings[..|sayings| - 1]) + if last.More? then [last.extent] else []
  }

  /** Every line can be read and says what it should. */
  ghost predicate AllSaid(lines: Source, sayings: seq<Saying>) {
    && |lines| == |sayings|
    && forall k :: 0 <= k < |lines| ==> lines[k].Some? && Says(Fields(lines[k].value), sayings[k])
  }

  /** What one line does to the map so far. */
  function Added(blocks: Blocks, saying: Saying): Blocks {
    match saying
    case Nothing => blocks
    case Size(bytes) => blocks.(deviceLbaSize := bytes)
    case More(e) => blocks.(extents := blocks.extents + [e])
  }

  lemma FlagExact(word: string)
    ensures forall n: U8 :: ParseU8(word) == Ok(n) <==> Numeral(word, n)
    ensures ParseU8(word).Err? ==> ParseU8(word) == Err(CannotParse)
  {
    forall n: U8
      ensures ParseU8(word) == Ok(n) <==> Numeral(word, n)
    {
      ParseExact(word, 0xFF, n);
    }
    ParseExact(word, 0xFF, 0);
  }

  /** A line that says something adds just that. */
  lemma SaidIsAdded(blocks: Blocks, line: string, saying: Saying)
    requires Says(Fields(line), saying)
    ensures WithLine(blocks, line) == Ok(Added(blocks, saying))
  {
    hide ParseU64, ParseU8, Numeral, Fields;
    var words := Fields(line);
    forall k | 0 <= k < |words|
      ensures forall n: U64 :: ParseU64(words[k]) == Ok(n) <==> Numeral(words[k], n)
      ensures forall n: U8 :: ParseU8(words[k]) == Ok(n) <==> Numeral(words[k], n)
    {
      NumberExact(words[k]);
      FlagExact(words[k]);
    }
  }

  /** A line that is taken says something. */
  lemma AddedIsSaid(blocks: Blocks, line: string) returns (saying: Saying)
    requires WithLine(blocks, line).Ok?
    ensures Says(Fields(line), saying)
  {
    hide ParseU64, ParseU8, Numeral, Fields;
    var words := Fields(line);
    forall k | 0 <= k < |words|
      ensures forall n: U64 :: ParseU64(words[k]) == Ok(n) <==> Numeral(words[k], n)
      ensures forall n: U8 :: ParseU8(words[k]) == Ok(n) <==> Numeral(words[k], n)
    {
      NumberExact(words[k]);
      FlagExact(words[k]);
    }
    if words == [] || words == ["nvmetoy-block-map", "1"] {
      saying := Nothing;
    } else if |words| == 2 {
      saying := Size(ParseU64(words[1]).value);
    } else {
      var flag := ParseU8(words[2]).value;
      assert Numeral(words[2], flag);
      saying := More(Extent(ParseU64(words[0]).value, ParseU64(words[1]).value, flag != 0));
    }
  }

  /** Line by line, from any map. */
  function AddedAll(blocks: Blocks, sayings: seq<Saying>): Blocks
    decreases |sayings|
  {
    if sayings == [] then blocks else AddedAll(Added(blocks, sayings[0]), sayings[1..])
  }

  lemma {:induction false} SaidAllAdded(blocks: Blocks, lines: Source, sayings: seq<Saying>)
    requires AllSaid(lines, sayings)
    ensures WithLines(blocks, lines) == Ok(AddedAll(blocks, sayings))
    decreases |lines|
  {
    hide Says, WithLine, Fields, Added;
    if lines != [] {
      SaidIsAdded(blocks, lines[0].value, sayings[0]);
      SaidAllAdded(Added(blocks, sayings[0]), lines[1..], sayings[1..]);
    }
  }

  lemma {:induction false} AddedAllSaid(blocks: Blocks, lines: Source) returns (sayings: seq<Saying>)
    requires WithLines(blocks, lines).Ok?
    ensures AllSaid(lines, sayings)
    decreases |lines|
  {
    hide Says, WithLine, Fields, Added;
    if lines == [] {
      sayings := [];
    } else {
      var first := AddedIsSaid(blocks, lines[0].value);
      var rest := AddedAllSaid(WithLine(blocks, lines[0].value).value, lines[1..]);
      sayings := [first] + rest;
    }
  }

  /** From the front or from the back, the same map. */
  lemma {:induction false} AddedSums(blocks: Blocks, sayings: seq<Saying>)
    ensures AddedAll(blocks, sayings).extents == blocks.extents + ExtentsOf(sayings)
    ensures AddedAll(blocks, sayings).deviceLbaSize
         == if exists k :: 0 <= k < |sayings| && sayings[k].Size? then SizeOf(sayings) else blocks.deviceLbaSize
    decreases |sayings|
  {
    if sayings == [] {
      assert blocks.extents + [] == blocks.extents;
    } else {
      var rest, last := sayings[..|sayings| - 1], sayings[|sayings| - 1];
      AddedSums(blocks, rest);
      AddedLast(blocks, rest, last);
      assert rest + [last] == sayings;
      if last.Size? {
        assert sayings[|sayings| - 1].Size?;
      } else if exists k :: 0 <= k < |rest| && rest[k].Size? {
        var k :| 0 <= k < |rest| && rest[k].Size?;
        assert sayings[k].Size?;
      } else {
        assert forall k :: 0 <= k < |sayings| ==> !sayings[k].Size?;
      }
      assert blocks.extents + ExtentsOf(rest) + (if last.More? then [last.extent] else [])
          == blocks.extents + ExtentsOf(sayings);
    }
  }

  lemma {:induction false} AddedLast(blocks: Blocks, sayings: seq<Saying>, last: Saying)
    ensures AddedAll(blocks, sayings + [last]) == Added(AddedAll(blocks, sayings), last)
    decreases |sayings|
  {
    hide Added;
    if sayings == [] {
      assert sayings + [last] == [last] && [last][1..] == [];
    } else {
      assert (sayings + [last])[1..] == sayings[1..] + [last];
      AddedLast(Added(blocks, sayings[0]), sayings[1..], last);
    }
  }

  lemma {:induction false} NoSize(sayings: seq<Saying>)
    requires forall k :: 0 <= k < |sayings| ==> !sayings[k].Size?
    ensures SizeOf(sayings) == 0
  {
    if sayings != [] {
      NoSize(sayings[..|sayings| - 1]);
    }
  }

  /**
   A block map, exactly: it is accepted if and only if every line can be read and says something, and then it has
   the last size said and the extents said, in order.
   */
  lemma MeaningExact(lines: Source, blocks: Blocks)
    ensures Meaning(lines) == Ok(blocks)
      <==> exists sayings: seq<Saying> ::
             AllSaid(lines, sayings) && blocks == Blocks(SizeOf(sayings), ExtentsOf(sayings))
  {
    hide Says, WithLine, Fields, Added;
    if Meaning(lines).Ok? {
      var sayings := AddedAllSaid(EMPTY, lines);
      SaidMap(lines, sayings);
      assert AllSaid(lines, sayings);
    }
    forall sayings: seq<Saying> | AllSaid(lines, sayings)
      ensures Meaning(lines) == Ok(Blocks(SizeOf(sayings), ExtentsOf(sayings)))
    {
      SaidMap(lines, sayings);
    }
  }

  lemma SaidMap(lines: Source, sayings: seq<Saying>)
    requires AllSaid(lines, sayings)
    ensures Meaning(lines) == Ok(Blocks(SizeOf(sayings), ExtentsOf(sayings)))
  {
    SaidAllAdded(EMPTY, lines, sayings);
    AddedSums(EMPTY, sayings);
    hide Says, WithLine, Fields, Added;
    if forall k :: 0 <= k < |sayings| ==> !sayings[k].Size? {
      NoSize(sayings);
    }
    assert [] + ExtentsOf(sayings) == ExtentsOf(sayings);
  }

  /** A line that can be read and says something. */
  ghost predicate Sayable(line: Option<string>) {
    line.Some? && exists saying: Saying :: Says(Fields(line.value), saying)
  }

  /** Why a map is refused: its first line that says nothing cannot be read, has a bad number, or is of no kind. */
  lemma {:induction false} MapRefused(blocks: Blocks, lines: Source) returns (k: nat)
    requires WithLines(blocks, lines).Err?
    ensures k < |lines| && !Sayable(lines[k]) && forall i :: 0 <= i < k ==> Sayable(lines[i])
    ensures WithLines(blocks, lines).error == if lines[k].None? then CannotRead else LineError(Fields(lines[k].value))
    decreases |lines|
  {
    hide Says, WithLine, Fields, LineError;
    k := 0;
    if lines[0].Some? {
      if WithLine(blocks, lines[0].value).Err? {
        LineRefused(blocks, lines[0].value);
        if Sayable(lines[0]) {
          var s: Saying :| Says(Fields(lines[0].value), s);
          SaidIsAdded(blocks, lines[0].value, s);
        }
      } else {
        var first := AddedIsSaid(blocks, lines[0].value);
        assert Sayable(lines[0]);
        hide Sayable;
        var j := MapRefused(WithLine(blocks, lines[0].value).value, lines[1..]);
        k := j + 1;
        forall i | 0 <= i < k
          ensures Sayable(lines[i])
        {
          if i > 0 {
            assert lines[i] == lines[1..][i - 1];
          }
        }
      }
    }
  }

  /** Two words after `device_lba_size`, or three words, should have been numbers; anything else is malformed. */
  function LineError(words: seq<string>): Error {
    if (|words| == 2 && words[0] == "device_lba_size") || |words| == 3 then CannotParse else MalformedLine
  }

  lemma LineRefused(blocks: Blocks, line: string)
    requires WithLine(blocks, line).Err?
    ensures WithLine(blocks, line).error == LineError(Fields(line))
  {
    hide ParseU64, ParseU8, Fields;
    var words := Fields(line);
    forall k | 0 <= k < |words|
      ensures ParseU64(words[k]).Err? ==> ParseU64(words[k]) == Err(CannotParse)
      ensures ParseU8(words[k]).Err? ==> ParseU8(words[k]) == Err(CannotParse)
    {
      NumberExact(words[k]);
      FlagExact(words[k]);
    }
  }
}
