/** The file that tells the REPL which blocks it may touch: `FileBlocks::parse` and the script that writes it. */
module BlockMap {
  import opened Bytes
  import opened Text
  import opened FileBlocks
  import opened Wrappers

  const U64_MAX: nat := 0xFFFF_FFFF_FFFF_FFFF

  function ParseU64(text: string): (r: Result<U64>) {
    ParseUnsigned(text, U64_MAX)
  }

  function ParseU8(text: string): (r: Result<U8>) {
    ParseUnsigned(text, 0xFF)
  }

  /** What one line adds to the map. */
  function WithLine(blocks: Blocks, line: string): Result<Blocks> {
    var fields := Fields(line);
    if fields == ["nvmetoy-block-map", "1"] then Ok(blocks)
    else if |fields| == 2 && fields[0] == "device_lba_size" then
      var size :- ParseU64(fields[1]);
      Ok(blocks.(deviceLbaSize := size))
    else if |fields| == 3 then
      var lba :- ParseU64(fields[0]);
      var count :- ParseU64(fields[1]);
      var unwritten :- ParseU8(fields[2]);
      Ok(blocks.(extents := blocks.extents + [Extent(lba, count, unwritten != 0)]))
    else if fields == [] then Ok(blocks)
    else Err(MalformedLine)
  }

  /** What the reader hands over: a line, or nothing where reading failed or the bytes were not UTF-8. */
  type Source = seq<Option<string>>

  function WithLines(blocks: Blocks, lines: Source): Result<Blocks>
    decreases |lines|
  {
    if lines == [] then Ok(blocks)
    else if lines[0].None? then Err(CannotRead)
    else
      var more :- WithLine(blocks, lines[0].value);
      WithLines(more, lines[1..])
  }

  const EMPTY: Blocks := Blocks(0, [])

  /** The map a file describes. */
  function Meaning(lines: Source): Result<Blocks> {
    WithLines(EMPTY, lines)
  }

  method Parse(lines: Source) returns (result: Result<Blocks>)
    ensures result == Meaning(lines)
  {
    var deviceLbaSize: U64 := 0;
    var extents: seq<Extent> := [];
    for i := 0 to |lines|
      invariant WithLines(Blocks(deviceLbaSize, extents), lines[i..]) == Meaning(lines)
    {
      assert lines[i..][1..] == lines[i + 1..];
      if lines[i].None? {
        return Err(CannotRead);
      }
      var fields := Fields(lines[i].value);
      if fields == ["nvmetoy-block-map", "1"] {
      } else if |fields| == 2 && fields[0] == "device_lba_size" {
        deviceLbaSize :- ParseU64(fields[1]);
      } else if |fields| == 3 {
        var lba :- ParseU64(fields[0]);
        var count :- ParseU64(fields[1]);
        var unwritten :- ParseU8(fields[2]);
        extents := extents + [Extent(lba, count, unwritten != 0)];
      } else if fields == [] {
      } else {
        return Err(MalformedLine);
      }
    }
    return Ok(Blocks(deviceLbaSize, extents));
  }

  /** A readable file. */
  function Readable(text: string): (lines: Source)
    ensures |lines| == |Lines(text)|
  {
    All(Lines(text))
  }

  function All(lines: seq<string>): (r: Source)
    ensures |r| == |lines|
  {
    seq(|lines|, i requires 0 <= i < |lines| => Some(lines[i]))
  }

  // --- rendering --------------------------------------------------------------------------------------------

  /** The three numbers of an extent. */
  function ExtentFields(e: Extent): (words: seq<string>) {
    [Show(e.deviceLba), Show(e.lbaCount), if e.unwritten then "1" else "0"]
  }

  function ExtentLines(extents: seq<Extent>): (lines: seq<string>)
    ensures |lines| == |extents|
    ensures forall k :: 0 <= k < |lines| ==> lines[k] == Join(ExtentFields(extents[k]))
  {
    seq(|extents|, k requires 0 <= k < |extents| => Join(ExtentFields(extents[k])))
  }

  /** The map in the form nvmetoy.sh writes it. */
  function Render(blocks: Blocks): string {
    Unlines(["nvmetoy-block-map 1", Join(["device_lba_size", Show(blocks.deviceLbaSize)])]
            + ExtentLines(blocks.extents))
  }

  /** Joined words hold no newline. */
  lemma {:induction false} OneLine(words: seq<string>)
    requires forall k :: 0 <= k < |words| ==> IsWord(words[k])
    ensures '\n' !in Join(words)
  {
    if |words| == 1 {
      assert IsWord(words[0]);
    } else if |words| > 1 {
      assert IsWord(words[0]);
      OneLine(words[1..]);
    }
  }

  lemma ExtentLine(blocks: Blocks, e: Extent)
    ensures '\n' !in Join(ExtentFields(e))
    ensures WithLine(blocks, Join(ExtentFields(e))) == Ok(blocks.(extents := blocks.extents + [e]))
  {
    var words := ExtentFields(e);
    ShowIsWord(e.deviceLba);
    ShowIsWord(e.lbaCount);
    OneLine(words);
    FieldsJoin(words);
    ParseShow(e.deviceLba, U64_MAX);
    ParseShow(e.lbaCount, U64_MAX);
    ParseShow(0, 0xFF);
    ParseShow(1, 0xFF);
    assert Show(0) == "0" && Show(1) == "1";
  }

  lemma {:induction false} ManyExtents(blocks: Blocks, extents: seq<Extent>)
    ensures WithLines(blocks, All(ExtentLines(extents))) == Ok(blocks.(extents := blocks.extents + extents))
    decreases |extents|
  {
    hide Join, WithLine, ExtentFields;
    if extents == [] {
      assert blocks.extents + extents == blocks.extents;
    } else {
      var more := blocks.(extents := blocks.extents + [extents[0]]);
      ExtentLine(blocks, extents[0]);
      ManyExtents(more, extents[1..]);
      assert All(ExtentLines(extents))[1..] == All(ExtentLines(extents[1..]));
      assert blocks.extents + [extents[0]] + extents[1..] == blocks.extents + extents;
    }
  }

  /** Every block map, written as the script writes it, is read back: same size, same extents, same order. */
  lemma RoundTrip(blocks: Blocks)
    ensures Meaning(Readable(Render(blocks))) == Ok(blocks)
  {
    hide Join, WithLine, ExtentFields, Show, Lines, Unlines;
    var header, size := "nvmetoy-block-map 1", Join(["device_lba_size", Show(blocks.deviceLbaSize)]);
    var rest := ExtentLines(blocks.extents);
    var lines := [header, size] + rest;
    HeaderLine();
    SizeLine(blocks.deviceLbaSize);
    forall e: Extent
      ensures '\n' !in Join(ExtentFields(e))
    {
      ExtentLine(EMPTY, e);
    }
    LinesUnlines(lines);
    assert All(lines) == [Some(header), Some(size)] + All(rest);
    assert All(lines)[1..] == [Some(size)] + All(rest) && ([Some(size)] + All(rest))[1..] == All(rest);
    var sized := EMPTY.(deviceLbaSize := blocks.deviceLbaSize);
    assert WithLines(EMPTY, All(lines)) == WithLines(EMPTY, [Some(size)] + All(rest)) == WithLines(sized, All(rest));
    ManyExtents(sized, blocks.extents);
    assert sized.extents + blocks.extents == blocks.extents;
  }

  lemma HeaderLine()
    ensures '\n' !in "nvmetoy-block-map 1"
    ensures WithLine(EMPTY, "nvmetoy-block-map 1") == Ok(EMPTY)
  {
    var words := ["nvmetoy-block-map", "1"];
    hide Fields;
    FieldsJoin(words);
    assert words[1..] == ["1"];
    assert Join(words) == "nvmetoy-block-map 1";
  }

  lemma SizeLine(n: U64)
    ensures var line := Join(["device_lba_size", Show(n)]);
      '\n' !in line && WithLine(EMPTY, line) == Ok(EMPTY.(deviceLbaSize := n))
  {
    var words := ["device_lba_size", Show(n)];
    hide Fields;
    ShowIsWord(n);
    OneLine(words);
    FieldsJoin(words);
    ParseShow(n, U64_MAX);
  }
}
