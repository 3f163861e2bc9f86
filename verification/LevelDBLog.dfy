/**
 The reader of LevelDB's block-framed log: 32768-byte blocks, each a run of 7-byte headers
 (checksum, little-endian length, type) with their payloads.  Types 1 to 4 are FULL, FIRST,
 MIDDLE and LAST.  The checksum is not looked at.
 */
module LevelDBLog {
  import opened Basics

  const BLOCK: nat := 32_768
  const HEADER: nat := 7

  function BlockEnd(data: Bytes, start: nat): nat {
    Min(start + BLOCK, |data|)
  }

  function LengthAt(data: Bytes, at: nat): nat
    requires at + HEADER <= |data|
  {
    data[at + 4] as int + 256 * data[at + 5] as int
  }

  // The fragment being assembled, and what one physical record does to it.  A nil fragment is
  // None.  Appending an empty payload to a nil fragment leaves it nil.
  function NextFragment(fragment: Option<Bytes>, kind: Byte, payload: Bytes): Option<Bytes> {
    if kind == 1 || kind == 4 then None
    else if kind == 2 then if fragment.None? && payload == [] then None else Some(payload)
    else if kind == 3 && fragment.Some? then Some(fragment.value + payload)
    else fragment
  }

  function Emitted(fragment: Option<Bytes>, kind: Byte, payload: Bytes): seq<Bytes> {
    if kind == 1 then [payload]
    else if kind == 4 && fragment.Some? then [fragment.value + payload]
    else []
  }

  // No further record is read from the block starting at `start` once the cursor is at `at`.
  predicate BlockDone(data: Bytes, start: nat, at: nat) {
    var end := BlockEnd(data, start);
    || at + HEADER > end
    || (LengthAt(data, at) == 0 && data[at + 6] == 0)
    || at + HEADER + LengthAt(data, at) > end
  }

  function PayloadAt(data: Bytes, start: nat, at: nat): Bytes
    requires !BlockDone(data, start, at)
  {
    data[at + HEADER..at + HEADER + LengthAt(data, at)]
  }

  // The logical records from position `at` of the block starting at `start` to the end of the file.
  function ReadFrom(data: Bytes, start: nat, at: nat, fragment: Option<Bytes>): seq<Bytes>
    requires start <= at
    decreases |data| - start, |data| - at
  {
    if start >= |data| then []
    else if BlockDone(data, start, at) then ReadFrom(data, start + BLOCK, start + BLOCK, fragment)
    else
      var payload := PayloadAt(data, start, at);
      Emitted(fragment, data[at + 6], payload)
      + ReadFrom(data, start, at + HEADER + |payload|, NextFragment(fragment, data[at + 6], payload))
  }

  function Records(data: Bytes): seq<Bytes> {
    ReadFrom(data, 0, 0, None)
  }

  method LogicalRecords(data: Bytes) returns (records: seq<Bytes>)
    ensures records == Records(data)
  {
    hide ReadFrom;
    records := [];
    var fragment: Option<Bytes> := None;
    var blockStart := 0;
    while blockStart < |data|
      invariant records + ReadFrom(data, blockStart, blockStart, fragment) == Records(data)
    {
      var more;
      more, fragment := ReadBlock(data, blockStart, fragment);
      records := records + more;
      blockStart := blockStart + BLOCK;
    }
    EmptyIsPrefix(data, data, blockStart, blockStart, fragment);
  }

  // The inner loop: the records completed in one block, and the fragment left open by it.
  method ReadBlock(data: Bytes, blockStart: nat, incoming: Option<Bytes>)
    returns (records: seq<Bytes>, fragment: Option<Bytes>)
    requires blockStart < |data|
    ensures ReadFrom(data, blockStart, blockStart, incoming)
         == records + ReadFrom(data, blockStart + BLOCK, blockStart + BLOCK, fragment)
  {
    hide ReadFrom, Emitted, NextFragment;
    records, fragment := [], incoming;
    var blockEnd := Min(blockStart + BLOCK, |data|);
    var at := blockStart;
    while at + 7 <= blockEnd
      invariant blockStart <= at <= blockEnd
      invariant ReadFrom(data, blockStart, blockStart, incoming) == records + ReadFrom(data, blockStart, at, fragment)
      decreases blockEnd - at
    {
      var length := LengthAt(data, at);
      var recordType := data[at + 6];
      if length == 0 && recordType == 0 {
        break;
      }
      if at + 7 + length > blockEnd {
        break;
      }
      var payload := data[at + 7..at + 7 + length];
      ReadStep(data, blockStart, at, fragment, records, payload);
      records := records + Emitted(fragment, recordType, payload);
      fragment := NextFragment(fragment, recordType, payload);
      at := at + (7 + length);
    }
    ReadNextBlock(data, blockStart, at, fragment);
  }

  lemma ReadNextBlock(data: Bytes, start: nat, at: nat, fragment: Option<Bytes>)
    requires start <= at && start < |data| && BlockDone(data, start, at)
    ensures ReadFrom(data, start, at, fragment) == ReadFrom(data, start + BLOCK, start + BLOCK, fragment)
  {
  }

  lemma ReadStep(data: Bytes, start: nat, at: nat, fragment: Option<Bytes>, sofar: seq<Bytes>, payload: Bytes)
    requires start <= at && start < |data| && !BlockDone(data, start, at) && payload == PayloadAt(data, start, at)
    ensures sofar + ReadFrom(data, start, at, fragment)
         == (sofar + Emitted(fragment, data[at + 6], payload))
            + ReadFrom(data, start, at + (7 + |payload|), NextFragment(fragment, data[at + 6], payload))
  {
  }

  // A log that is still being appended to, or was torn, yields a prefix of what the whole yields.
  lemma {:induction false} StableFrom(shorter: Bytes, longer: Bytes, start: nat, at: nat, fragment: Option<Bytes>)
    requires IsPrefix(shorter, longer) && start <= at
    ensures IsPrefix(ReadFrom(shorter, start, at, fragment), ReadFrom(longer, start, at, fragment))
    decreases |shorter| - start, |shorter| - at
  {
    hide Emitted, NextFragment, PayloadAt, ReadFrom, BlockDone, IsPrefix;
    if start >= |shorter| {
      EmptyIsPrefix(shorter, longer, start, at, fragment);
    } else if BlockDone(shorter, start, at) {
      if start + BLOCK < |shorter| {
        StableFrom(shorter, longer, start + BLOCK, start + BLOCK, fragment);
      }
      StableBlock(shorter, longer, start, at, fragment);
    } else {
      SameStep(shorter, longer, start, at);
      var kind, payload := shorter[at + 6], PayloadAt(shorter, start, at);
      StableFrom(shorter, longer, start, at + (HEADER + |payload|), NextFragment(fragment, kind, payload));
      StableRecord(shorter, longer, start, at, fragment, kind, payload);
    }
  }

  lemma StableBlock(shorter: Bytes, longer: Bytes, start: nat, at: nat, fragment: Option<Bytes>)
    requires IsPrefix(shorter, longer) && start <= at && start < |shorter| && BlockDone(shorter, start, at)
    requires start + BLOCK < |shorter| ==>
      IsPrefix(
        ReadFrom(shorter, start + BLOCK, start + BLOCK, fragment),
        ReadFrom(longer, start + BLOCK, start + BLOCK, fragment))
    ensures IsPrefix(ReadFrom(shorter, start, at, fragment), ReadFrom(longer, start, at, fragment))
  {
    hide ReadFrom, BlockDone;
    ReadNextBlock(shorter, start, at, fragment);
    if start + BLOCK < |shorter| {
      DoneBlockIsDone(shorter, longer, start, at);
      ReadNextBlock(longer, start, at, fragment);
    } else {
      EmptyIsPrefix(shorter, longer, start + BLOCK, start + BLOCK, fragment);
    }
  }

  lemma StableRecord(
      shorter: Bytes, longer: Bytes, start: nat, at: nat, fragment: Option<Bytes>, kind: Byte, payload: Bytes)
    requires IsPrefix(shorter, longer) && start <= at && start < |shorter| && !BlockDone(shorter, start, at)
    requires kind == shorter[at + 6] && payload == PayloadAt(shorter, start, at)
    requires var after, next := at + (HEADER + |payload|), NextFragment(fragment, kind, payload);
      IsPrefix(ReadFrom(shorter, start, after, next), ReadFrom(longer, start, after, next))
    ensures IsPrefix(ReadFrom(shorter, start, at, fragment), ReadFrom(longer, start, at, fragment))
  {
    assert start < |longer|;
    hide ReadFrom, BlockDone, Emitted, NextFragment, PayloadAt, IsPrefix;
    SameStep(shorter, longer, start, at);
    ReadOne(shorter, start, at, fragment, kind, payload);
    ReadOne(longer, start, at, fragment, kind, payload);
    var after, next := at + (HEADER + |payload|), NextFragment(fragment, kind, payload);
    PrependKeepsPrefix(
      Emitted(fragment, kind, payload), ReadFrom(shorter, start, after, next), ReadFrom(longer, start, after, next));
  }

  lemma EmptyIsPrefix(shorter: Bytes, longer: Bytes, start: nat, at: nat, fragment: Option<Bytes>)
    requires start <= at && start >= |shorter|
    ensures ReadFrom(shorter, start, at, fragment) == []
    ensures IsPrefix(ReadFrom(shorter, start, at, fragment), ReadFrom(longer, start, at, fragment))
  {
  }

  lemma ReadOne(data: Bytes, start: nat, at: nat, fragment: Option<Bytes>, kind: Byte, payload: Bytes)
    requires start <= at && start < |data| && !BlockDone(data, start, at)
    requires kind == data[at + 6] && payload == PayloadAt(data, start, at)
    ensures ReadFrom(data, start, at, fragment)
         == Emitted(fragment, kind, payload)
            + ReadFrom(data, start, at + (HEADER + |payload|), NextFragment(fragment, kind, payload))
  {
  }

  // A block that has begun beyond is complete.
  lemma DoneBlockIsDone(shorter: Bytes, longer: Bytes, start: nat, at: nat)
    requires IsPrefix(shorter, longer) && start <= at && BlockDone(shorter, start, at) && start + BLOCK < |shorter|
    ensures BlockDone(longer, start, at)
  {
  }

  lemma PrependKeepsPrefix(more: seq<Bytes>, a: seq<Bytes>, b: seq<Bytes>)
    requires IsPrefix(a, b)
    ensures IsPrefix(more + a, more + b)
  {
    assert more + b == (more + a) + b[|a|..];
  }

  lemma SameStep(shorter: Bytes, longer: Bytes, start: nat, at: nat)
    requires IsPrefix(shorter, longer) && start <= at && !BlockDone(shorter, start, at)
    ensures !BlockDone(longer, start, at) && at + 6 < |shorter|
    ensures shorter[at + 6] == longer[at + 6]
    ensures PayloadAt(shorter, start, at) == PayloadAt(longer, start, at)
  {
  }

  lemma ReaderIsStable(shorter: Bytes, longer: Bytes)
    requires IsPrefix(shorter, longer)
    ensures IsPrefix(Records(shorter), Records(longer))
  {
    StableFrom(shorter, longer, 0, 0, None);
  }
}
