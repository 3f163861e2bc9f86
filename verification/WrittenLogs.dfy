/** Log files as LevelDB writes them, whole or torn, and what the scan of them all amounts to. */
module WrittenLogs {
  import opened Basics
  import opened LevelDBLog
  import opened LevelDBLogWriter
  import opened WalScan
  import opened WriteBatch

  // Batches, whatever checksums, and how many bytes of the file are there.
  datatype Written = Written(batches: seq<Batch>, sums: Checksums, cut: nat)

  function WholeFile(log: Written): Bytes {
    LogFile(Encoded(log.batches), log.sums)
  }

  function FileBytes(log: Written): Bytes {
    WholeFile(log)[..Min(log.cut, |WholeFile(log)|)]
  }

  function Files(logs: seq<Written>): seq<Option<Bytes>> {
    if logs == [] then [] else [Some(FileBytes(logs[0]))] + Files(logs[1..])
  }

  // The batches whose records survive being written.
  function SurvivingBatches(batches: seq<Batch>, off: nat, at: nat, sums: Checksums): seq<Batch>
    requires off <= BLOCK
  {
    if batches == [] then []
    else
      var record := EncodeBatch(batches[0]);
      var (bytes, end) := Emit(record, off, at, sums);
      (if BeginsEmpty(record, off) then [] else [batches[0]]) + SurvivingBatches(batches[1..], end, at + |bytes|, sums)
  }

  lemma {:induction false} SurvivingEncoded(batches: seq<Batch>, off: nat, at: nat, sums: Checksums)
    requires off <= BLOCK
    ensures Encoded(SurvivingBatches(batches, off, at, sums)) == Surviving(Encoded(batches), off, at, sums)
    ensures forall b :: b in SurvivingBatches(batches, off, at, sums) ==> b in batches
    decreases |batches|
  {
    hide EncodeBatch, Emit, BeginsEmpty;
    if batches != [] {
      var record := EncodeBatch(batches[0]);
      var e := Emit(record, off, at, sums);
      assert Encoded(batches)[1..] == Encoded(batches[1..]);
      SurvivingEncoded(batches[1..], e.1, at + |e.0|, sums);
      var kept := if BeginsEmpty(record, off) then [] else [batches[0]];
      EncodedConcat(kept, SurvivingBatches(batches[1..], e.1, at + |e.0|, sums));
    }
  }

  lemma EncodedConcat(a: seq<Batch>, b: seq<Batch>)
    ensures Encoded(a + b) == Encoded(a) + Encoded(b)
  {
    hide EncodeBatch;
  }

  // As many of them as there are records to be read.
  function ReadableBatches(log: Written): seq<Batch> {
    var all := SurvivingBatches(log.batches, 0, 0, log.sums);
    all[..Min(|Records(FileBytes(log))|, |all|)]
  }

  lemma ReadableIsRead(log: Written)
    ensures Records(FileBytes(log)) == Encoded(ReadableBatches(log))
    ensures forall b :: b in ReadableBatches(log) ==> b in log.batches
  {
    hide LogFile, Records, Surviving, SurvivingBatches, EncodeBatch;
    TornLog(Encoded(log.batches), log.sums, Min(log.cut, |WholeFile(log)|));
    SurvivingEncoded(log.batches, 0, 0, log.sums);
  }

  // A whole file lacks only the batches begun with seven bytes left in a block.
  lemma WholeIsReadable(log: Written)
    requires log.cut >= |WholeFile(log)|
    ensures ReadableBatches(log) == SurvivingBatches(log.batches, 0, 0, log.sums)
    ensures NoneBeginsEmpty(Encoded(log.batches), 0, 0, log.sums) ==> ReadableBatches(log) == log.batches
  {
    hide LogFile, Records, Surviving, SurvivingBatches, EncodeBatch, NoneBeginsEmpty;
    var records := Encoded(log.batches);
    assert FileBytes(log) == WholeFile(log);
    LogRoundTrip(records, log.sums);
    SurvivingEncoded(log.batches, 0, 0, log.sums);
    AllSurvive(log.batches, 0, 0, log.sums);
  }

  lemma {:induction false} AllSurvive(batches: seq<Batch>, off: nat, at: nat, sums: Checksums)
    requires off <= BLOCK
    ensures NoneBeginsEmpty(Encoded(batches), off, at, sums) ==> SurvivingBatches(batches, off, at, sums) == batches
    decreases |batches|
  {
    hide EncodeBatch, Emit, BeginsEmpty;
    if batches != [] {
      var e := Emit(EncodeBatch(batches[0]), off, at, sums);
      assert Encoded(batches)[1..] == Encoded(batches[1..]);
      AllSurvive(batches[1..], e.1, at + |e.0|, sums);
    }
  }

  function AllBatches(logs: seq<Written>): seq<Batch> {
    if logs == [] then [] else ReadableBatches(logs[0]) + AllBatches(logs[1..])
  }

  predicate AllFit(log: Written) {
    forall b :: b in log.batches ==> Fits(b)
  }

  lemma {:induction false} FilesRead(logs: seq<Written>)
    requires forall log :: log in logs ==> AllFit(log)
    ensures LogRecords(Files(logs)) == Encoded(AllBatches(logs))
    ensures forall b :: b in AllBatches(logs) ==> Fits(b)
    decreases |logs|
  {
    hide Fits, LogRecords, ReadableBatches, FileBytes, EncodeBatch;
    FilesReadStep(logs);
    if logs != [] {
      assert AllFit(logs[0]);
      ReadableIsRead(logs[0]);
      FilesRead(logs[1..]);
      EncodedConcat(ReadableBatches(logs[0]), AllBatches(logs[1..]));
    }
  }

  lemma FilesReadStep(logs: seq<Written>)
    ensures logs == [] ==> LogRecords(Files(logs)) == []
    ensures logs != [] ==> LogRecords(Files(logs)) == Records(FileBytes(logs[0])) + LogRecords(Files(logs[1..]))
  {
    hide Records, FileBytes;
    if logs != [] {
      assert Files(logs)[1..] == Files(logs[1..]);
    }
  }

  // From the bytes of the files to the store: over logs LevelDB wrote, each cut anywhere, the
  // scan never fails and refines the replay of the batches that can be read.
  lemma WrittenLogsReplay(logs: seq<Written>, sorted: seq<Entry>, wanted: set<Bytes>, key: Bytes)
    requires forall log :: log in logs ==> AllFit(log)
    requires Increasing(sorted) && forall e :: e in AllEntries(AllBatches(logs)) <==> e in sorted
    requires key in wanted
    ensures !ReadRecords(LogRecords(Files(logs))).panics
    ensures Agrees(KeepAll(map[], ReadRecords(LogRecords(Files(logs))).mutations, wanted), Replay(sorted), key)
  {
    hide ReadRecords, LogRecords, Files, AllEntries, AllBatches, Replay, KeepAll, Agrees;
    FilesRead(logs);
    BatchesRead(AllBatches(logs));
    var mutations, entries := ReadRecords(LogRecords(Files(logs))).mutations, AllEntries(AllBatches(logs));
    MirrorsSame(mutations, entries);
    ScanRefinesReplay(entries, sorted, mutations, wanted, key);
  }

  lemma MirrorsSame(mutations: seq<Mutation>, entries: seq<Entry>)
    requires Mirrors(mutations, entries)
    ensures forall m :: m in mutations <==> exists e :: e in entries && m == Seen(e)
  {
    hide Seen;
    forall m
      ensures m in mutations <==> exists e :: e in entries && m == Seen(e)
    {
      if m in mutations {
        var i :| 0 <= i < |mutations| && mutations[i] == m;
        assert entries[i] in entries;
      }
      if e :| e in entries && m == Seen(e) {
        var i :| 0 <= i < |entries| && entries[i] == e;
        assert mutations[i] == m;
      }
    }
  }
}
