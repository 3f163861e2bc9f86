/**
 The writer's side of the log format: how LevelDB lays records out in blocks, and what the
 reader makes of a log laid out that way.
 */
module LevelDBLogWriter {
  import opened Basics
  import opened LevelDBLog

  // The four checksum bytes in front of the header at a given file position; any bytes will do.
  type Checksums = nat -> (Byte, Byte, Byte, Byte)

  function Zeros(n: nat): Bytes {
    seq(n, _ => 0)
  }

  function Kind(begin: bool, end: bool): Byte {
    if begin then if end then 1 else 2
    else if end then 4 else 3
  }

  function Header(kind: Byte, length: nat, at: nat, sums: Checksums): (r: Bytes)
    requires length < 65_536
    ensures |r| == HEADER
  {
    var c := sums(at);
    [c.0, c.1, c.2, c.3, length % 256, length / 256, kind]
  }

  // The fragments of one record, the first of them `off` bytes into its block and at file
  // position `at`, with the offset within the last block at which writing stops.  A fragment
  // that is not the last fills its block, so the next one starts the next block.
  function Fragments(record: Bytes, off: nat, begin: bool, at: nat, sums: Checksums): (r: (Bytes, nat))
    requires off + HEADER <= BLOCK
    ensures HEADER <= r.1 <= BLOCK && r.1 <= off + |r.0|
    decreases |record|, off + HEADER == BLOCK
  {
    var n := Min(|record|, BLOCK - off - HEADER);
    var last := n == |record|;
    var physical := Header(Kind(begin, last), n, at, sums) + record[..n];
    if last then (physical, off + HEADER + n)
    else
      var (bytes, end) := Fragments(record[n..], 0, false, at + HEADER + n, sums);
      (physical + bytes, end)
  }

  // A record never starts in the last six bytes of a block: they become a zero trailer.
  function Trailer(off: nat): Bytes
    requires off <= BLOCK
  {
    if BLOCK - off < HEADER then Zeros(BLOCK - off) else []
  }

  function Begin(off: nat): (r: nat)
    requires off <= BLOCK
    ensures r + HEADER <= BLOCK
  {
    if BLOCK - off < HEADER then 0 else off
  }

  function Emit(record: Bytes, off: nat, at: nat, sums: Checksums): (r: (Bytes, nat))
    requires off <= BLOCK
    ensures HEADER <= r.1 <= BLOCK && r.1 <= off + |r.0|
  {
    var (bytes, end) := Fragments(record, Begin(off), true, at + |Trailer(off)|, sums);
    (Trailer(off) + bytes, end)
  }

  function Log(records: seq<Bytes>, off: nat, at: nat, sums: Checksums): Bytes
    requires off <= BLOCK
  {
    if records == [] then []
    else
      var (bytes, end) := Emit(records[0], off, at, sums);
      bytes + Log(records[1..], end, at + |bytes|, sums)
  }

  function LogFile(records: seq<Bytes>, sums: Checksums): Bytes {
    Log(records, 0, 0, sums)
  }

  // A non-empty record begun with room for a header only gets an empty FIRST fragment.
  predicate BeginsEmpty(record: Bytes, off: nat) {
    record != [] && off + HEADER == BLOCK
  }

  function Surviving(records: seq<Bytes>, off: nat, at: nat, sums: Checksums): seq<Bytes>
    requires off <= BLOCK
  {
    if records == [] then []
    else
      var (bytes, end) := Emit(records[0], off, at, sums);
      (if BeginsEmpty(records[0], off) then [] else [records[0]])
      + Surviving(records[1..], end, at + |bytes|, sums)
  }

  predicate NoneBeginsEmpty(records: seq<Bytes>, off: nat, at: nat, sums: Checksums)
    requires off <= BLOCK
  {
    records != [] ==>
      var (bytes, end) := Emit(records[0], off, at, sums);
      !BeginsEmpty(records[0], off) && NoneBeginsEmpty(records[1..], end, at + |bytes|, sums)
  }

  // What reading one physical record amounts to when the log holds it at `at`.
  lemma ReadPhysical(
      data: Bytes, start: nat, off: nat, kind: Byte, payload: Bytes, sums: Checksums, fragment: Option<Bytes>)
    requires off + HEADER + |payload| <= BLOCK && (kind != 0 || payload != [])
    requires Holds(data, start + off, Header(kind, |payload|, start + off, sums) + payload)
    ensures ReadFrom(data, start, start + off, fragment)
         == Emitted(fragment, kind, payload)
            + ReadFrom(data, start, start + off + HEADER + |payload|, NextFragment(fragment, kind, payload))
  {
    hide Emitted, NextFragment;
    var at := start + off;
    var header := Header(kind, |payload|, at, sums);
    HoldsSplit(data, at, header, payload);
    assert data[at + 4] == header[4] && data[at + 5] == header[5] && data[at + 6] == header[6];
    assert LengthAt(data, at) == |payload|;
    assert !BlockDone(data, start, at);
    assert PayloadAt(data, start, at) == payload;
  }

  // What the reader yields for a record, given where it begins and the fragment already open.
  function Yield(record: Bytes, off: nat, begin: bool, fragment: Option<Bytes>): seq<Bytes> {
    if begin then if BeginsEmpty(record, off) then [] else [record]
    else if fragment.Some? then [fragment.value + record]
    else []
  }

  // Reading on from `start + off` yields `out` and then whatever follows position `next`,
  // which is `end` bytes into its block.
  ghost predicate Reads(
      data: Bytes, start: nat, off: nat, fragment: Option<Bytes>, out: seq<Bytes>, next: nat, end: nat)
    requires end <= next
  {
    ReadFrom(data, start, start + off, fragment) == out + ReadFrom(data, next - end, next, None)
  }

  lemma {:induction false} ReadFragments(
      data: Bytes, record: Bytes, start: nat, off: nat, begin: bool, sums: Checksums, fragment: Option<Bytes>,
      e: (Bytes, nat))
    requires off + HEADER <= BLOCK && (begin ==> fragment.None?)
    requires e == Fragments(record, off, begin, start + off, sums) && Holds(data, start + off, e.0)
    ensures Reads(data, start, off, fragment, Yield(record, off, begin, fragment), start + off + |e.0|, e.1)
    decreases |record|, off + HEADER == BLOCK
  {
    hide ReadFrom, Header;
    var n := Min(|record|, BLOCK - off - HEADER);
    var kind := Kind(begin, n == |record|);
    var at := start + off;
    if n == |record| {
      assert record[..n] == record;
      ReadPhysical(data, start, off, kind, record, sums, fragment);
    } else {
      var rest := Fragments(record[n..], 0, false, at + HEADER + n, sums);
      HoldsSplit(data, at, Header(kind, n, at, sums) + record[..n], rest.0);
      ReadPhysical(data, start, off, kind, record[..n], sums, fragment);
      var next := NextFragment(fragment, kind, record[..n]);
      ReadNextBlock(data, start, start + BLOCK, next);
      ReadFragments(data, record[n..], start + BLOCK, 0, false, sums, next, rest);
      YieldSplits(record, off, begin, fragment, n);
    }
  }

  lemma YieldSplits(record: Bytes, off: nat, begin: bool, fragment: Option<Bytes>, n: nat)
    requires off + HEADER <= BLOCK && n == BLOCK - off - HEADER < |record| && (begin ==> fragment.None?)
    ensures var next := NextFragment(fragment, Kind(begin, false), record[..n]);
      Yield(record[n..], 0, false, next) == Yield(record, off, begin, fragment)
  {
    assert record[..n] + record[n..] == record;
    if !begin && fragment.Some? {
      assert (fragment.value + record[..n]) + record[n..] == fragment.value + record;
    }
  }

  lemma ReadEmit(data: Bytes, record: Bytes, start: nat, off: nat, sums: Checksums)
    requires off <= BLOCK && Holds(data, start + off, Emit(record, off, start + off, sums).0)
    ensures var e := Emit(record, off, start + off, sums);
      Reads(data, start, off, None, Yield(record, off, true, None), start + off + |e.0|, e.1)
  {
    hide ReadFrom, Fragments;
    if BLOCK - off < HEADER {
      var e := Fragments(record, 0, true, start + BLOCK, sums);
      HoldsSplit(data, start + off, Zeros(BLOCK - off), e.0);
      ReadNextBlock(data, start, start + off, None);
      ReadFragments(data, record, start + BLOCK, 0, true, sums, None, e);
    } else {
      var e := Fragments(record, off, true, start + off, sums);
      assert [] + e.0 == e.0;
      ReadFragments(data, record, start, off, true, sums, None, e);
    }
  }

  lemma {:induction false} ReadLog(data: Bytes, records: seq<Bytes>, start: nat, off: nat, sums: Checksums)
    requires off <= BLOCK && Holds(data, start + off, Log(records, off, start + off, sums))
    requires |data| == start + off + |Log(records, off, start + off, sums)|
    ensures ReadFrom(data, start, start + off, None) == Surviving(records, off, start + off, sums)
    decreases |records|
  {
    hide ReadFrom, Emit;
    if records == [] {
      ReadEnd(data, start, None);
    } else {
      var e := Emit(records[0], off, start + off, sums);
      var next := start + off + |e.0|;
      HoldsSplit(data, start + off, e.0, Log(records[1..], e.1, next, sums));
      ReadEmit(data, records[0], start, off, sums);
      ReadLog(data, records[1..], next - e.1, e.1, sums);
    }
  }

  lemma ReadEnd(data: Bytes, start: nat, fragment: Option<Bytes>)
    requires start <= |data| <= start + BLOCK
    ensures ReadFrom(data, start, |data|, fragment) == []
  {
    if start < |data| {
      ReadNextBlock(data, start, |data|, fragment);
    }
  }

  // The round trip: whatever the checksums, the reader returns the written records except
  // those begun with exactly seven bytes left in a block.
  lemma LogRoundTrip(records: seq<Bytes>, sums: Checksums)
    ensures Records(LogFile(records, sums)) == Surviving(records, 0, 0, sums)
  {
    ReadLog(LogFile(records, sums), records, 0, 0, sums);
  }

  lemma {:induction false} SurvivingSize(records: seq<Bytes>, off: nat, at: nat, sums: Checksums)
    requires off <= BLOCK
    ensures |Surviving(records, off, at, sums)| <= |records|
    ensures |Surviving(records, off, at, sums)| == |records| <==> NoneBeginsEmpty(records, off, at, sums)
    ensures NoneBeginsEmpty(records, off, at, sums) ==> Surviving(records, off, at, sums) == records
    decreases |records|
  {
    hide Emit;
    if records != [] {
      var e := Emit(records[0], off, at, sums);
      SurvivingSize(records[1..], e.1, at + |e.0|, sums);
    }
  }

  lemma LogRoundTripExactly(records: seq<Bytes>, sums: Checksums)
    ensures Records(LogFile(records, sums)) == records <==> NoneBeginsEmpty(records, 0, 0, sums)
  {
    LogRoundTrip(records, sums);
    SurvivingSize(records, 0, 0, sums);
  }

  // Any log cut anywhere yields, in order, a prefix of the records that survive.
  lemma TornLog(records: seq<Bytes>, sums: Checksums, cut: nat)
    requires cut <= |LogFile(records, sums)|
    ensures IsPrefix(Records(LogFile(records, sums)[..cut]), Surviving(records, 0, 0, sums))
    ensures NoneBeginsEmpty(records, 0, 0, sums) ==> IsPrefix(Records(LogFile(records, sums)[..cut]), records)
  {
    LogRoundTrip(records, sums);
    SurvivingSize(records, 0, 0, sums);
    ReaderIsStable(LogFile(records, sums)[..cut], LogFile(records, sums));
  }

  lemma {:induction false} LogConcat(a: seq<Bytes>, b: seq<Bytes>, off: nat, at: nat, sums: Checksums)
    requires off <= BLOCK
    ensures IsPrefix(Log(a, off, at, sums), Log(a + b, off, at, sums))
    decreases |a|
  {
    hide Emit;
    if a != [] {
      var e := Emit(a[0], off, at, sums);
      assert (a + b)[1..] == a[1..] + b;
      LogConcat(a[1..], b, e.1, at + |e.0|, sums);
    }
  }

  // And nothing written completely before the cut is missing from it.
  lemma TornLogKeepsComplete(complete: seq<Bytes>, rest: seq<Bytes>, sums: Checksums, cut: nat)
    requires |LogFile(complete, sums)| <= cut <= |LogFile(complete + rest, sums)|
    ensures IsPrefix(Surviving(complete, 0, 0, sums), Records(LogFile(complete + rest, sums)[..cut]))
  {
    hide Log, Surviving, Records;
    LogConcat(complete, rest, 0, 0, sums);
    LogRoundTrip(complete, sums);
    ReaderIsStable(LogFile(complete, sums), LogFile(complete + rest, sums)[..cut]);
  }

  // A first record of 32754 bytes leaves exactly seven: a non-empty second record is lost.
  lemma SecondRecordLost(first: Bytes, second: Bytes, sums: Checksums)
    requires |first| == BLOCK - 2 * HEADER && second != []
    ensures Records(LogFile([first, second], sums)) == [first]
  {
    LogRoundTrip([first, second], sums);
    var e := Emit(first, 0, 0, sums);
    assert e.1 == BLOCK - HEADER;
    assert [first, second][1..] == [second];
    assert Surviving([second], e.1, |e.0|, sums) == [];
  }
}
