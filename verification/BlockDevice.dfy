/**
 The device the driver pretends to be: bytes at addresses, read and written a range at a time. A
 run of the driver is explained by a chain of media, one step for each event in its log.
 */
module BlockDevice {
  import opened Bytes

  datatype Event =
    | ReadOk(start: nat, data: seq<U8>)
    | WriteOk(start: nat, data: seq<U8>)
    | WriteFailed(start: nat, data: seq<U8>)

  predicate FitsIn(media: seq<U8>, start: nat, data: seq<U8>) {
    start + |data| <= |media|
  }

  predicate Covers(ev: Event, x: nat) {
    ev.start <= x < ev.start + |ev.data|
  }

  /** Every byte is the old one or the one the failed write carried for it; outside the range, the old one. */
  predicate Torn(before: seq<U8>, after: seq<U8>, start: nat, data: seq<U8>) {
    && |before| == |after|
    && forall x :: 0 <= x < |after| ==>
         after[x] == before[x] || (start <= x < start + |data| && after[x] == data[x - start])
  }

  /** One event as one atomic operation. */
  predicate Atomic(before: seq<U8>, ev: Event, after: seq<U8>) {
    match ev
    case ReadOk(start, data) => FitsIn(before, start, data) && data == ReadAt(before, start, |data|) && after == before
    case WriteOk(start, data) => FitsIn(before, start, data) && after == WriteAt(before, start, data)
    case WriteFailed(start, data) => Torn(before, after, start, data)
  }

  predicate Chain(states: seq<seq<U8>>, log: seq<Event>) {
    && |states| == |log| + 1
    && forall k :: 0 <= k < |log| ==> Atomic(states[k], log[k], states[k + 1])
  }

  lemma ChainGrows(states: seq<seq<U8>>, log: seq<Event>, ev: Event, after: seq<U8>)
    requires Chain(states, log) && Atomic(states[|log|], ev, after)
    ensures Chain(states + [after], log + [ev]) && |states| == |log| + 1
  {
    hide Atomic;
  }

  /** A byte no write between two points of a run covers is the same at both. */
  lemma {:induction false} ByteStable(states: seq<seq<U8>>, log: seq<Event>, i: nat, j: nat, x: nat)
    requires Chain(states, log) && i <= j <= |log| && x < |states[i]|
    requires forall k :: i <= k < j ==> log[k].ReadOk? || !Covers(log[k], x)
    ensures x < |states[j]| && states[j][x] == states[i][x]
    decreases j - i
  {
    if i < j {
      ByteStable(states, log, i, j - 1, x);
      assert Atomic(states[j - 1], log[j - 1], states[j]);
    }
  }

  /**
   A read returns what was last written: for any run with a successful write at `i` and a
   successful read at `j > i`, every byte both cover and no write in between covers is read as written.
   */
  lemma ReadsLastWrite(states: seq<seq<U8>>, log: seq<Event>, i: nat, j: nat, x: nat)
    requires Chain(states, log) && i < j < |log| && log[i].WriteOk? && log[j].ReadOk?
    requires Covers(log[i], x) && Covers(log[j], x)
    requires forall k :: i < k < j ==> log[k].ReadOk? || !Covers(log[k], x)
    ensures log[j].data[x - log[j].start] == log[i].data[x - log[i].start]
  {
    assert Atomic(states[i], log[i], states[i + 1]);
    ByteStable(states, log, i + 1, j, x);
    assert Atomic(states[j], log[j], states[j + 1]);
  }
}
