/** The device blocks of one file: `FileBlocks` of src/bin/nvmetoy_repl.rs. */
module FileBlocks {
  import opened Arithmetic
  import opened Bytes
  import opened Wrappers

  const U64_LIMIT: nat := 0x1_0000_0000_0000_0000

  datatype Extent = Extent(deviceLba: U64, lbaCount: U64, unwritten: bool)

  datatype Blocks = Blocks(deviceLbaSize: U64, extents: seq<Extent>)

  predicate InExtent(e: Extent, lba: nat) {
    e.deviceLba <= lba < e.deviceLba + e.lbaCount
  }

  predicate InFile(extents: seq<Extent>, lba: nat) {
    exists i :: 0 <= i < |extents| && InExtent(extents[i], lba)
  }

  predicate AllInFile(extents: seq<Extent>, lba: nat, count: nat) {
    forall n: nat :: lba <= n < lba + count ==> InFile(extents, n)
  }

  /** The end of every extent is a 64-bit number, as the unchecked addition in `check` needs. */
  predicate ExtentsFit(extents: seq<Extent>) {
    forall i :: 0 <= i < |extents| ==> extents[i].deviceLba + extents[i].lbaCount < U64_LIMIT
  }

  /** The first extent that holds `lba`. */
  method Find(extents: seq<Extent>, lba: U64) returns (index: Option<nat>)
    ensures index.Some? ==> index.value < |extents| && InExtent(extents[index.value], lba)
    ensures index.Some? ==> forall k :: 0 <= k < index.value ==> !InExtent(extents[k], lba)
    ensures index.None? <==> !InFile(extents, lba)
  {
    for i := 0 to |extents|
      invariant forall k :: 0 <= k < i ==> !InExtent(extents[k], lba)
    {
      if InExtent(extents[i], lba) {
        return Some(i);
      }
    }
    return None;
  }

  /**
   Interval cover. The range is accepted if and only if every block of it lies in some extent, for
   extents in any order, overlapping, adjacent or empty; a refusal names the first block outside; and
   the loop turns at most once for each extent.
   */
  method Check(blocks: Blocks, deviceLba: U64, count: nat) returns (result: Result<()>, ghost turns: nat)
    requires ExtentsFit(blocks.extents)
    ensures result.Ok? <==> AllInFile(blocks.extents, deviceLba, count)
    ensures result == Err(RangeOverflow) <==> count > 0 && deviceLba + count >= 0x1_0000_0000_0000_0000
    ensures result.Err? && result.error.NotInFile? ==>
      var lba := result.error.lba;
      && deviceLba <= lba < deviceLba + count && !InFile(blocks.extents, lba)
      && AllInFile(blocks.extents, deviceLba, lba - deviceLba)
    ensures result.Err? ==> result.error.NotInFile? || result.error == RangeOverflow
    ensures turns <= |blocks.extents|
  {
    turns := 0;
    if count == 0 {
      return Ok(()), 0;
    }
    if deviceLba + count >= U64_LIMIT {
      LastBlockOutside(blocks.extents);
      assert deviceLba <= U64_LIMIT - 1 < deviceLba + count && !InFile(blocks.extents, U64_LIMIT - 1);
      return Err(RangeOverflow), 0;
    }
    var end := deviceLba + count;
    var covered: U64 := deviceLba;
    ghost var used: set<nat> := {};
    while covered < end
      invariant deviceLba <= covered
      invariant AllInFile(blocks.extents, deviceLba, covered - deviceLba)
      invariant forall i :: i in used ==>
                  i < |blocks.extents| && blocks.extents[i].deviceLba + blocks.extents[i].lbaCount <= covered
      invariant |used| == turns
      decreases if covered < end then end - covered else 0
    {
      var index := Find(blocks.extents, covered);
      if index.None? {
        BoundedSet(used, |blocks.extents|);
        return Err(NotInFile(covered)), turns;
      }
      var extent := blocks.extents[index.value];
      assert index.value !in used;
      used := used + {index.value};
      turns := turns + 1;
      Extended(blocks.extents, deviceLba, covered, index.value);
      covered := extent.deviceLba + extent.lbaCount;
    }
    BoundedSet(used, |blocks.extents|);
    return Ok(()), turns;
  }

  lemma LastBlockOutside(extents: seq<Extent>)
    requires ExtentsFit(extents)
    ensures !InFile(extents, U64_LIMIT - 1)
  {
  }

  lemma Extended(extents: seq<Extent>, lba: nat, covered: nat, i: nat)
    requires lba <= covered && i < |extents| && InExtent(extents[i], covered)
    requires AllInFile(extents, lba, covered - lba)
    ensures AllInFile(extents, lba, extents[i].deviceLba + extents[i].lbaCount - lba)
  {
    forall n: nat | lba <= n < extents[i].deviceLba + extents[i].lbaCount
      ensures InFile(extents, n)
    {
      if n >= covered {
        assert InExtent(extents[i], n);
      }
    }
  }

  // --- how many blocks ---------------------------------------------------------------------------------

  function TotalLbas(extents: seq<Extent>): nat {
    if extents == [] then 0 else extents[0].lbaCount + TotalLbas(extents[1..])
  }

  ghost predicate Disjoint(extents: seq<Extent>) {
    forall i, j, n: nat :: 0 <= i < j < |extents| && InExtent(extents[i], n) ==> !InExtent(extents[j], n)
  }

  function ExtentSet(e: Extent): set<nat> {
    set n: nat | n < 2 * U64_LIMIT && InExtent(e, n)
  }

  lemma {:induction false} ExtentSize(e: Extent)
    ensures |ExtentSet(e)| == e.lbaCount
    decreases e.lbaCount
  {
    if e.lbaCount > 0 {
      var shorter := e.(lbaCount := e.lbaCount - 1);
      ExtentSize(shorter);
      assert ExtentSet(e) == ExtentSet(shorter) + {e.deviceLba + shorter.lbaCount};
    } else {
      assert ExtentSet(e) == {};
    }
  }

  /** The blocks `check` accepts one at a time. */
  function FileSet(extents: seq<Extent>): set<nat> {
    set n: nat | n < 2 * U64_LIMIT && InFile(extents, n)
  }

  /**
   For pairwise disjoint extents the number reported is the number of blocks that can be accessed,
   and the sum does not overflow.
   */
  lemma TotalIsCount(extents: seq<Extent>)
    requires Disjoint(extents) && ExtentsFit(extents)
    ensures TotalLbas(extents) == |FileSet(extents)| < U64_LIMIT
  {
    CountExtents(extents);
    BoundedSet(FileSet(extents), U64_LIMIT - 1);
  }

  lemma {:induction false} CountExtents(extents: seq<Extent>)
    requires Disjoint(extents)
    ensures TotalLbas(extents) == |FileSet(extents)|
  {
    if extents == [] {
      assert FileSet(extents) == {};
    } else {
      var first, rest := extents[0], extents[1..];
      CountExtents(rest);
      ExtentSize(first);
      var a, b := ExtentSet(first), FileSet(rest);
      forall n: nat
        ensures InFile(extents, n) <==> InExtent(first, n) || InFile(rest, n)
        ensures InExtent(first, n) ==> !InFile(rest, n)
      {
        SplitFile(extents, n);
      }
      assert FileSet(extents) == a + b;
      assert a !! b;
    }
  }

  lemma SplitFile(extents: seq<Extent>, n: nat)
    requires extents != []
    ensures InFile(extents, n) <==> InExtent(extents[0], n) || InFile(extents[1..], n)
    ensures Disjoint(extents) && InExtent(extents[0], n) ==> !InFile(extents[1..], n)
  {
    var rest := extents[1..];
    if InFile(rest, n) {
      var i :| 0 <= i < |rest| && InExtent(rest[i], n);
      assert InExtent(extents[i + 1], n);
    }
    if InFile(extents, n) && !InExtent(extents[0], n) {
      var i :| 0 <= i < |extents| && InExtent(extents[i], n);
      assert InExtent(rest[i - 1], n);
    }
  }
}
