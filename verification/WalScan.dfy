/**
 The scan of all write-ahead logs for the newest mutation of some wanted keys, and its meaning:
 a replay of every operation in sequence order.
 */
module WalScan {
  import opened Basics
  import opened Int64
  import opened WriteBatch
  import LevelDBLog
  import Varint

  type Latest = map<Bytes, Mutation>

  // Keeps a mutation of a wanted key when none is kept yet or the kept one is older.
  function Keep(result: Latest, m: Mutation, wanted: set<Bytes>): Latest {
    if m.key in wanted && (m.key !in result || m.sequence > result[m.key].sequence)
    then result[m.key := m] else result
  }

  function KeepAll(result: Latest, mutations: seq<Mutation>, wanted: set<Bytes>): Latest
    decreases |mutations|
  {
    if mutations == [] then result else KeepAll(Keep(result, mutations[0], wanted), mutations[1..], wanted)
  }

  function ReadRecords(records: seq<Bytes>): Parsed {
    if records == [] then Parsed([], false)
    else
      var first := ReadRecord(records[0]);
      if first.panics then first
      else
        var rest := ReadRecords(records[1..]);
        Parsed(first.mutations + rest.mutations, rest.panics)
  }

  // All logical records of the readable logs, in the order of the files.
  function LogRecords(logs: seq<Option<Bytes>>): seq<Bytes> {
    if logs == [] then []
    else (if logs[0].Some? then LevelDBLog.Records(logs[0].value) else []) + LogRecords(logs[1..])
  }

  // Readable files count in order, unreadable ones are passed over wherever they stand.
  lemma {:induction false} LogRecordsConcat(a: seq<Option<Bytes>>, b: seq<Option<Bytes>>)
    ensures LogRecords(a + b) == LogRecords(a) + LogRecords(b)
    ensures LogRecords([None]) == [] && forall data :: LogRecords([Some(data)]) == LevelDBLog.Records(data)
    decreases |a|
  {
    hide LevelDBLog.Records;
    if a == [] {
      assert a + b == b;
    } else {
      assert (a + b)[1..] == a[1..] + b;
      LogRecordsConcat(a[1..], b);
    }
  }

  lemma {:induction false} KeepAllConcat(result: Latest, a: seq<Mutation>, b: seq<Mutation>, wanted: set<Bytes>)
    ensures KeepAll(result, a + b, wanted) == KeepAll(KeepAll(result, a, wanted), b, wanted)
    decreases |a|
  {
    if a == [] {
      assert a + b == b;
    } else {
      assert (a + b)[1..] == a[1..] + b;
      KeepAllConcat(Keep(result, a[0], wanted), a[1..], b, wanted);
    }
  }

  method ReadLatestWalMutations(logs: seq<Option<Bytes>>, keys: seq<Bytes>) returns (result: Latest, panicked: bool)
    ensures panicked == ReadRecords(LogRecords(logs)).panics
    ensures !panicked ==> result == KeepAll(map[], ReadRecords(LogRecords(logs)).mutations, set k | k in keys)
  {
    hide KeepAll, ReadRecords, LogRecords;
    var wanted := set k | k in keys;
    result, panicked := map[], false;
    var i := 0;
    ghost var done: seq<Bytes> := [];
    NothingScanned(wanted);
    assert logs[0..] == logs;
    while i < |logs|
      invariant 0 <= i <= |logs| && !panicked
      invariant done + LogRecords(logs[i..]) == LogRecords(logs)
      invariant !ReadRecords(done).panics && result == KeepAll(map[], ReadRecords(done).mutations, wanted)
    {
      LogRecordsStep(logs, i, done);
      if logs[i].Some? {
        var records := LevelDBLog.LogicalRecords(logs[i].value);
        ghost var before := result;
        result, panicked := ScanRecords(records, wanted, result);
        ScanMore(before, done, records, LogRecords(logs[i + 1..]), wanted);
        if panicked {
          return;
        }
        done := done + records;
      }
      i := i + 1;
    }
    LogRecordsEnd(logs, done);
  }

  lemma NothingScanned(wanted: set<Bytes>)
    ensures !ReadRecords([]).panics && KeepAll(map[], ReadRecords([]).mutations, wanted) == map[]
    ensures forall rest: seq<Bytes> :: [] + rest == rest
  {
  }

  lemma LogRecordsStep(logs: seq<Option<Bytes>>, i: nat, done: seq<Bytes>)
    requires i < |logs|
    ensures done + LogRecords(logs[i..])
         == (if logs[i].Some? then done + LevelDBLog.Records(logs[i].value) else done) + LogRecords(logs[i + 1..])
  {
    assert logs[i..][1..] == logs[i + 1..];
  }

  lemma LogRecordsEnd(logs: seq<Option<Bytes>>, done: seq<Bytes>)
    ensures done + LogRecords(logs[|logs|..]) == done
  {
  }

  // Scanning one more file's records on top of what was scanned before.
  lemma ScanMore(before: Latest, done: seq<Bytes>, records: seq<Bytes>, rest: seq<Bytes>, wanted: set<Bytes>)
    requires !ReadRecords(done).panics && before == KeepAll(map[], ReadRecords(done).mutations, wanted)
    ensures ReadRecords(records).panics ==> ReadRecords((done + records) + rest).panics
    ensures !ReadRecords(records).panics ==>
      && !ReadRecords(done + records).panics
      && KeepAll(before, ReadRecords(records).mutations, wanted)
         == KeepAll(map[], ReadRecords(done + records).mutations, wanted)
  {
    hide ReadRecords, KeepAll;
    ReadRecordsConcat(done, records);
    ReadRecordsConcat(done + records, rest);
    KeepAllConcat(map[], ReadRecords(done).mutations, ReadRecords(records).mutations, wanted);
  }

  lemma {:induction false} ReadRecordsConcat(a: seq<Bytes>, b: seq<Bytes>)
    ensures ReadRecords(a).panics ==> ReadRecords(a + b) == ReadRecords(a)
    ensures !ReadRecords(a).panics ==>
      ReadRecords(a + b) == Parsed(ReadRecords(a).mutations + ReadRecords(b).mutations, ReadRecords(b).panics)
    decreases |a|
  {
    hide ReadRecord;
    if a == [] {
      assert a + b == b;
    } else {
      assert (a + b)[1..] == a[1..] + b;
      ReadRecordsConcat(a[1..], b);
    }
  }

  method ScanRecords(records: seq<Bytes>, wanted: set<Bytes>, initial: Latest) returns (result: Latest, panicked: bool)
    ensures panicked == ReadRecords(records).panics
    ensures !panicked ==> result == KeepAll(initial, ReadRecords(records).mutations, wanted)
  {
    hide ReadRecord;
    result, panicked := initial, false;
    var i := 0;
    while i < |records|
      invariant 0 <= i <= |records| && !panicked
      invariant ReadRecords(records).panics == ReadRecords(records[i..]).panics
      invariant KeepAll(initial, ReadRecords(records).mutations, wanted)
             == KeepAll(result, ReadRecords(records[i..]).mutations, wanted)
    {
      ghost var first, rest := ReadRecord(records[i]), ReadRecords(records[i + 1..]);
      KeepAllConcat(result, first.mutations, rest.mutations, wanted);
      result, panicked := ScanRecord(records[i], wanted, result);
      if panicked {
        return;
      }
      i := i + 1;
    }
  }

  method ScanRecord(record: Bytes, wanted: set<Bytes>, initial: Latest) returns (result: Latest, panicked: bool)
    ensures panicked == ReadRecord(record).panics
    ensures !panicked ==> result == KeepAll(initial, ReadRecord(record).mutations, wanted)
  {
    hide ReadOp, LittleEndian;
    result, panicked := initial, false;
    if |record| < 12 {
      return;
    }
    var sequence := LittleEndian(record[..8]);
    var count := LittleEndian(record[8..12]);
    var pos, index := 12, 0;
    while index < count && pos < |record|
      invariant 12 <= pos <= |record|
      invariant ReadRecord(record).panics == ReadOps(record, pos, index, count, sequence).panics
      invariant KeepAll(initial, ReadRecord(record).mutations, wanted)
             == KeepAll(result, ReadOps(record, pos, index, count, sequence).mutations, wanted)
      decreases count - index
    {
      var op := ParseOp(record, pos, (sequence + index) % TWO64);
      match op {
        case Stop =>
          return;
        case Panic =>
          panicked := true;
          return;
        case OpRead(mutation, next) =>
          result := Keep(result, mutation, wanted);
          pos, index := next, index + 1;
      }
    }
  }

  // One pass of the innermost loop, with its two varint reads and two guarded slices.
  method ParseOp(record: Bytes, start: nat, sequence: nat) returns (r: OpRead)
    requires start < |record|
    ensures r == ReadOp(record, start, sequence)
  {
    hide CutAt, Varint.Read;
    var op := record[start];
    var pos := start + 1;
    var keyLen, next, ok := Varint.ReadVarint(record, pos);
    if !ok {
      return Stop;
    }
    var cut := CutAt(record, next, keyLen);
    if cut.TooShort? {
      return Stop;
    }
    if cut.OutOfRange? {
      return Panic;
    }
    var key := record[next..cut.end];
    pos := cut.end;
    var value := None;
    if op == 1 {
      var valueLen, valueStart, valueOk := Varint.ReadVarint(record, pos);
      if !valueOk {
        return Stop;
      }
      var valueCut := CutAt(record, valueStart, valueLen);
      if valueCut.TooShort? {
        return Stop;
      }
      if valueCut.OutOfRange? {
        return Panic;
      }
      value := Copied(record[valueStart..valueCut.end]);
      pos := valueCut.end;
    } else if op != 0 {
      return Stop;
    }
    return OpRead(Mutation(key, sequence, value), pos);
  }

  // An operation with the sequence number it was written under.
  datatype Entry = Entry(sequence: nat, op: Op)

  function Seen(e: Entry): Mutation {
    MutationOf(e.op, e.sequence)
  }

  // It is among the mutations, and those of its key before it are older.
  ghost predicate IsFirst(m: Mutation, mutations: seq<Mutation>) {
    exists i :: 0 <= i < |mutations| && mutations[i] == m
      && forall j :: 0 <= j < i && mutations[j].key == m.key ==> mutations[j].sequence < m.sequence
  }

  // What is kept for each wanted key is the first of its mutations with the highest sequence number.
  ghost predicate IsLatest(result: Latest, mutations: seq<Mutation>, wanted: set<Bytes>) {
    && (forall k :: k in result ==>
          k in wanted && result[k].key == k && IsFirst(result[k], mutations))
    && (forall m :: m in mutations && m.key in wanted ==>
          m.key in result && m.sequence <= result[m.key].sequence)
  }

  lemma {:induction false} KeepAllIsLatest(
      result: Latest, before: seq<Mutation>, mutations: seq<Mutation>, wanted: set<Bytes>)
    requires IsLatest(result, before, wanted)
    ensures IsLatest(KeepAll(result, mutations, wanted), before + mutations, wanted)
    decreases |mutations|
  {
    if mutations == [] {
      assert before + mutations == before;
    } else {
      KeepIsLatest(result, before, mutations[0], wanted);
      KeepAllIsLatest(Keep(result, mutations[0], wanted), before + [mutations[0]], mutations[1..], wanted);
      assert before + mutations == (before + [mutations[0]]) + mutations[1..];
    }
  }

  lemma KeepIsLatest(result: Latest, before: seq<Mutation>, m: Mutation, wanted: set<Bytes>)
    requires IsLatest(result, before, wanted)
    ensures IsLatest(Keep(result, m, wanted), before + [m], wanted)
  {
    hide IsFirst;
    assert forall x :: x in before + [m] <==> x in before || x == m;
    forall k | k in Keep(result, m, wanted)
      ensures IsFirst(Keep(result, m, wanted)[k], before + [m])
    {
      if k in result && Keep(result, m, wanted)[k] == result[k] {
        StaysFirst(result[k], before, m);
      } else {
        NewestIsFirst(before, m);
      }
    }
  }

  lemma FirstIsThere(m: Mutation, mutations: seq<Mutation>)
    requires IsFirst(m, mutations)
    ensures m in mutations
  {
  }

  lemma StaysFirst(k: Mutation, before: seq<Mutation>, m: Mutation)
    requires IsFirst(k, before)
    ensures IsFirst(k, before + [m])
  {
    var i :| 0 <= i < |before| && before[i] == k
      && forall j :: 0 <= j < i && before[j].key == k.key ==> before[j].sequence < k.sequence;
    assert (before + [m])[i] == k;
  }

  lemma NewestIsFirst(before: seq<Mutation>, m: Mutation)
    requires forall x :: x in before && x.key == m.key ==> x.sequence < m.sequence
    ensures IsFirst(m, before + [m])
  {
    assert (before + [m])[|before|] == m;
    assert forall j :: 0 <= j < |before| ==> before[j] in before;
  }

  // Replaying operations, oldest first, into an empty store.
  function Replay(entries: seq<Entry>): map<Bytes, Bytes> {
    if entries == [] then map[]
    else
      var store, last := Replay(entries[..|entries| - 1]), entries[|entries| - 1].op;
      match last
      case Put(key, value) => store[key := value]
      case Delete(key) => store - {key}
  }

  predicate Increasing(entries: seq<Entry>) {
    forall i, j :: 0 <= i < j < |entries| ==> entries[i].sequence < entries[j].sequence
  }

  // The replayed store holds what the newest operation on the key left.
  lemma {:induction false} ReplayNewest(entries: seq<Entry>, newest: Entry)
    requires Increasing(entries) && newest in entries
    requires forall e :: e in entries && e.op.key == newest.op.key ==> e.sequence <= newest.sequence
    ensures newest.op.key in Replay(entries) <==> newest.op.Put?
    ensures newest.op.Put? ==> Replay(entries)[newest.op.key] == newest.op.value
    decreases |entries|
  {
    var n := |entries| - 1;
    if entries[n] != newest {
      var older := entries[..n];
      assert newest in older;
      assert forall e :: e in older ==> e in entries;
      assert entries[n].op.key != newest.op.key;
      ReplayNewest(older, newest);
    }
  }

  lemma {:induction false} ReplayUntouched(entries: seq<Entry>, key: Bytes)
    requires forall e :: e in entries ==> e.op.key != key
    ensures key !in Replay(entries)
    decreases |entries|
  {
    if entries != [] {
      var older := entries[..|entries| - 1];
      assert forall e :: e in older ==> e in entries;
      assert entries[|entries| - 1] in entries;
      ReplayUntouched(older, key);
    }
  }

  function Presented(result: Latest, key: Bytes): Option<Bytes> {
    if key in result then result[key].value else None
  }

  function Held(store: map<Bytes, Bytes>, key: Bytes): Option<Bytes> {
    if key in store then Some(store[key]) else None
  }

  // The mutation seen for a key says what the replayed store says, except that a put of an
  // empty value looks like a deletion.
  ghost predicate Agrees(result: Latest, store: map<Bytes, Bytes>, key: Bytes) {
    Presented(result, key) == if Held(store, key) == Some([]) then None else Held(store, key)
  }

  // The scan refines the replay, in whatever order the operations are scanned.
  lemma ScanRefinesReplay(
      scanned: seq<Entry>, sorted: seq<Entry>, mutations: seq<Mutation>, wanted: set<Bytes>, key: Bytes)
    requires Increasing(sorted) && forall e :: e in scanned <==> e in sorted
    requires forall m :: m in mutations <==> exists e :: e in scanned && m == Seen(e)
    requires key in wanted
    ensures Agrees(KeepAll(map[], mutations, wanted), Replay(sorted), key)
    ensures key in KeepAll(map[], mutations, wanted) <==> exists e :: e in scanned && e.op.key == key
  {
    hide Replay, IsFirst, KeepAll;
    var result := KeepAll(map[], mutations, wanted);
    KeepAllIsLatest(map[], [], mutations, wanted);
    assert [] + mutations == mutations;
    if key in result {
      FirstIsThere(result[key], mutations);
      var newest :| newest in scanned && result[key] == Seen(newest);
      forall e | e in sorted && e.op.key == key
        ensures e.sequence <= newest.sequence
      {
        assert Seen(e) in mutations;
      }
      ReplayNewest(sorted, newest);
    } else {
      forall e | e in sorted
        ensures e.op.key != key
      {
        assert Seen(e) in mutations;
      }
      ReplayUntouched(sorted, key);
    }
  }

  // The agreement is complete, same presence and same bytes, exactly when the replayed store
  // does not hold an empty value for the key; so it is whenever no put was empty.
  lemma ScanEqualsReplay(
      scanned: seq<Entry>, sorted: seq<Entry>, mutations: seq<Mutation>, wanted: set<Bytes>, key: Bytes)
    requires Increasing(sorted) && forall e :: e in scanned <==> e in sorted
    requires forall m :: m in mutations <==> exists e :: e in scanned && m == Seen(e)
    requires key in wanted
    ensures Presented(KeepAll(map[], mutations, wanted), key) == Held(Replay(sorted), key) <==>
      Held(Replay(sorted), key) != Some([])
    ensures (forall e :: e in scanned && e.op.Put? ==> e.op.value != []) ==> Held(Replay(sorted), key) != Some([])
  {
    ScanRefinesReplay(scanned, sorted, mutations, wanted, key);
    if key in Replay(sorted) {
      ReplayOrigin(sorted, key);
    }
  }

  lemma {:induction false} ReplayOrigin(entries: seq<Entry>, key: Bytes)
    requires key in Replay(entries)
    ensures exists e :: e in entries && e.op == Put(key, Replay(entries)[key])
    decreases |entries|
  {
    var n := |entries| - 1;
    var older := entries[..n];
    assert entries[n] in entries;
    if entries[n].op != Put(key, Replay(entries)[key]) {
      assert key in Replay(older) && Replay(older)[key] == Replay(entries)[key];
      ReplayOrigin(older, key);
      var e :| e in older && e.op == Put(key, Replay(older)[key]);
      assert e in entries;
    }
  }

  function Encoded(batches: seq<Batch>): (r: seq<Bytes>)
    ensures |r| == |batches| && forall i :: 0 <= i < |r| ==> r[i] == EncodeBatch(batches[i])
  {
    seq(|batches|, i requires 0 <= i < |batches| => EncodeBatch(batches[i]))
  }

  function EntriesOf(ops: seq<Op>, sequence: nat): seq<Entry> {
    if ops == [] then [] else [Entry(sequence, ops[0])] + EntriesOf(ops[1..], sequence + 1)
  }

  function AllEntries(batches: seq<Batch>): seq<Entry> {
    if batches == [] then [] else EntriesOf(batches[0].ops, batches[0].sequence) + AllEntries(batches[1..])
  }

  // `mutations` is what `entries` look like to the reader, in the same order.
  ghost predicate Mirrors(mutations: seq<Mutation>, entries: seq<Entry>) {
    |mutations| == |entries| && forall i :: 0 <= i < |entries| ==> mutations[i] == Seen(entries[i])
  }

  lemma {:induction false} OpsMirror(ops: seq<Op>, sequence: nat)
    ensures Mirrors(MutationsOf(ops, sequence), EntriesOf(ops, sequence))
    decreases |ops|
  {
    if ops != [] {
      OpsMirror(ops[1..], sequence + 1);
    }
  }

  lemma {:induction false} BatchesRead(batches: seq<Batch>)
    requires forall b :: b in batches ==> Fits(b)
    ensures !ReadRecords(Encoded(batches)).panics
    ensures Mirrors(ReadRecords(Encoded(batches)).mutations, AllEntries(batches))
    decreases |batches|
  {
    hide ReadRecord, EncodeBatch, MutationsOf, EntriesOf, Fits;
    if batches != [] {
      assert batches[0] in batches;
      assert Encoded(batches)[1..] == Encoded(batches[1..]);
      BatchRoundTrip(batches[0]);
      OpsMirror(batches[0].ops, batches[0].sequence);
      BatchesRead(batches[1..]);
    }
  }
}
