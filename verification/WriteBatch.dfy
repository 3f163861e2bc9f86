/** One log record read as a LevelDB write batch, with Go's integer conversions kept. */
module WriteBatch {
  import opened Basics
  import opened Int64
  import Varint

  datatype Op = Put(key: Bytes, value: Bytes) | Delete(key: Bytes)

  // A value of None is a nil slice: a deletion, or a put whose value is empty.
  datatype Mutation = Mutation(key: Bytes, sequence: nat, value: Option<Bytes>)

  // The mutations of a record; `panics` when reading it ends in a slice bounds failure.
  datatype Parsed = Parsed(mutations: seq<Mutation>, panics: bool)

  function LittleEndian(b: Bytes): nat {
    if b == [] then 0 else b[0] + 256 * LittleEndian(b[1..])
  }

  function ToLittleEndian(v: nat, width: nat): (b: Bytes)
    ensures |b| == width
  {
    if width == 0 then [] else [v % 256] + ToLittleEndian(v / 256, width - 1)
  }

  datatype Cut = Upto(end: nat) | TooShort | OutOfRange

  // Taking `length` bytes from `next`: the guard next+int(length) > len(record), then the slice.
  function CutAt(record: Bytes, next: nat, length: nat): (c: Cut)
    ensures c.Upto? ==> next <= c.end <= |record|
  {
    var end := Wrap(next + AsInt(length));
    if end > |record| then TooShort
    else if end < next then OutOfRange
    else Upto(end)
  }

  // The guard lets a length through to a failing slice exactly when the sum reaches 2^63.
  lemma CutOutOfRangeExactly(record: Bytes, next: nat, length: nat)
    requires next <= |record| < TWO63 && length < TWO64
    ensures CutAt(record, next, length).OutOfRange? <==> next + length >= TWO63
    ensures CutAt(record, next, length).Upto? <==> next + length <= |record|
    ensures CutAt(record, next, length).Upto? ==> CutAt(record, next, length).end == next + length
  {
    if length >= TWO63 {
      assert AsInt(length) < 0;
    }
  }

  // append([]byte(nil), bytes...)
  function Copied(bytes: Bytes): Option<Bytes> {
    if bytes == [] then None else Some(bytes)
  }

  datatype OpRead = OpRead(mutation: Mutation, next: nat) | Stop | Panic

  // One operation at `pos`, or the reason there is none.
  function ReadOp(record: Bytes, pos: nat, sequence: nat): (r: OpRead)
    requires pos < |record|
    ensures r.OpRead? ==> pos < r.next <= |record|
  {
    var (keyLen, keyStart, ok) := Varint.Read(record, pos + 1);
    if !ok then Stop
    else match CutAt(record, keyStart, keyLen)
      case TooShort => Stop
      case OutOfRange => Panic
      case Upto(keyEnd) =>
        var key := record[keyStart..keyEnd];
        if record[pos] == 0 then OpRead(Mutation(key, sequence, None), keyEnd)
        else if record[pos] == 1 then
          var (valueLen, valueStart, ok) := Varint.Read(record, keyEnd);
          if !ok then Stop
          else match CutAt(record, valueStart, valueLen)
            case TooShort => Stop
            case OutOfRange => Panic
            case Upto(valueEnd) =>
              OpRead(Mutation(key, sequence, Copied(record[valueStart..valueEnd])), valueEnd)
        else Stop
  }

  // The operations from `pos` on; a malformed one ends the record, what came before it stays.
  function ReadOps(record: Bytes, pos: nat, index: nat, count: nat, sequence: nat): Parsed
    decreases count - index
  {
    if index >= count || pos >= |record| then Parsed([], false)
    else match ReadOp(record, pos, (sequence + index) % TWO64)
      case Stop => Parsed([], false)
      case Panic => Parsed([], true)
      case OpRead(mutation, next) =>
        var rest := ReadOps(record, next, index + 1, count, sequence);
        Parsed([mutation] + rest.mutations, rest.panics)
  }

  function ReadRecord(record: Bytes): Parsed {
    if |record| < 12 then Parsed([], false)
    else ReadOps(record, 12, 0, LittleEndian(record[8..12]), LittleEndian(record[..8]))
  }

  datatype Batch = Batch(sequence: nat, ops: seq<Op>)

  function EncodeOp(op: Op): (r: Bytes)
    ensures r != []
  {
    match op
    case Put(key, value) => [1] + Varint.Encode(|key|) + key + Varint.Encode(|value|) + value
    case Delete(key) => [0] + Varint.Encode(|key|) + key
  }

  function EncodeOps(ops: seq<Op>): Bytes {
    if ops == [] then [] else EncodeOp(ops[0]) + EncodeOps(ops[1..])
  }

  function EncodeBatch(batch: Batch): Bytes {
    ToLittleEndian(batch.sequence, 8) + ToLittleEndian(|batch.ops|, 4) + EncodeOps(batch.ops)
  }

  // No 64-bit sequence, 32-bit count or slice length overflows.
  predicate Fits(batch: Batch) {
    && batch.sequence < TWO64 && batch.sequence + |batch.ops| <= TWO64
    && |batch.ops| < 0x1_0000_0000
    && |EncodeBatch(batch)| < TWO63
  }

  function MutationOf(op: Op, sequence: nat): Mutation {
    match op
    case Put(key, value) => Mutation(key, sequence, Copied(value))
    case Delete(key) => Mutation(key, sequence, None)
  }

  function MutationsOf(ops: seq<Op>, sequence: nat): seq<Mutation> {
    if ops == [] then [] else [MutationOf(ops[0], sequence)] + MutationsOf(ops[1..], sequence + 1)
  }

  lemma {:induction false} LittleEndianRoundTrip(v: nat, width: nat, bound: nat)
    requires bound == LittleEndianBound(width) && v < bound
    ensures LittleEndian(ToLittleEndian(v, width)) == v
    decreases width
  {
    if width > 0 {
      LittleEndianRoundTrip(v / 256, width - 1, LittleEndianBound(width - 1));
      assert ToLittleEndian(v, width)[1..] == ToLittleEndian(v / 256, width - 1);
    }
  }

  function LittleEndianBound(width: nat): nat {
    if width == 0 then 1 else 256 * LittleEndianBound(width - 1)
  }

  // The encoded length and its bytes are read back wherever they stand.
  lemma HoldsFits(data: Bytes, at: nat, part: Bytes)
    requires Holds(data, at, part)
    ensures at + |part| <= |data|
  {
  }

  lemma ReadLengthPrefixed(record: Bytes, pos: nat, body: Bytes, start: nat)
    requires |record| < TWO63 && Holds(record, pos, Varint.Encode(|body|) + body)
    requires start == pos + |Varint.Encode(|body|)|
    ensures Varint.Read(record, pos) == (|body|, start, true)
    ensures CutAt(record, start, |body|) == Upto(start + |body|)
    ensures record[start..start + |body|] == body
  {
    hide CutAt, Varint.Scan, Varint.Encode, Holds;
    HoldsSplit(record, pos, Varint.Encode(|body|), body);
    HoldsFits(record, start, body);
    Varint.ScanEncoded(record, pos, 0, 0, |body|);
    CutOutOfRangeExactly(record, start, |body|);
    HoldsSlice(record, start, body);
  }

  function LengthPrefixed(body: Bytes): Bytes {
    Varint.Encode(|body|) + body
  }

  function Tail(op: Op): Bytes {
    if op.Put? then LengthPrefixed(op.key) + LengthPrefixed(op.value) else LengthPrefixed(op.key)
  }

  lemma EncodeOpParts(op: Op)
    ensures EncodeOp(op) == [if op.Put? then 1 else 0] + Tail(op)
  {
    hide Varint.Encode;
    match op
    case Put(key, value) =>
      var a, b, c, d := Varint.Encode(|key|), key, Varint.Encode(|value|), value;
      assert [1] + a + b + c + d == [1] + ((a + b) + (c + d));
    case Delete(key) =>
      var a, b := Varint.Encode(|key|), key;
      assert [0] + a + b == [0] + (a + b);
  }

  lemma EncodedParts(record: Bytes, pos: nat, op: Op)
    requires Holds(record, pos, EncodeOp(op))
    ensures pos < |record| && record[pos] == (if op.Put? then 1 else 0)
    ensures Holds(record, pos + 1, LengthPrefixed(op.key))
    ensures op.Put? ==> Holds(record, pos + 1 + |LengthPrefixed(op.key)|, LengthPrefixed(op.value))
    ensures |EncodeOp(op)| == 1 + |LengthPrefixed(op.key)| + if op.Put? then |LengthPrefixed(op.value)| else 0
  {
    EncodeOpParts(op);
    hide EncodeOp, LengthPrefixed, Holds;
    var kind: Byte := if op.Put? then 1 else 0;
    HoldsSplit(record, pos, [kind], Tail(op));
    HoldsFirst(record, pos, kind);
    if op.Put? {
      HoldsSplit(record, pos + 1, LengthPrefixed(op.key), LengthPrefixed(op.value));
    }
  }

  lemma HoldsFirst(data: Bytes, at: nat, b: Byte)
    requires Holds(data, at, [b])
    ensures at < |data| && data[at] == b
  {
    assert data[at + 0] == [b][0];
  }

  lemma ReadEncodedOp(record: Bytes, pos: nat, op: Op, sequence: nat)
    requires |record| < TWO63 && Holds(record, pos, EncodeOp(op))
    ensures ReadOp(record, pos, sequence) == OpRead(MutationOf(op, sequence), pos + |EncodeOp(op)|)
  {
    hide CutAt, Varint.Read, EncodeOp, Varint.Encode, Holds;
    EncodedParts(record, pos, op);
    var keyStart := pos + 1 + |Varint.Encode(|op.key|)|;
    ReadLengthPrefixed(record, pos + 1, op.key, keyStart);
    if op.Put? {
      var keyEnd := keyStart + |op.key|;
      ReadLengthPrefixed(record, keyEnd, op.value, keyEnd + |Varint.Encode(|op.value|)|);
    }
  }

  lemma MutationsAppend(ops: seq<Op>, sequence: nat, rest: seq<Mutation>)
    requires ops != []
    ensures MutationsOf(ops, sequence) + rest
         == [MutationOf(ops[0], sequence)] + (MutationsOf(ops[1..], sequence + 1) + rest)
  {
  }

  // Operations that are there are read back, whatever follows them.
  lemma {:induction false} ReadEncodedOps(
      record: Bytes, pos: nat, ops: seq<Op>, index: nat, count: nat, sequence: nat)
    requires |record| < TWO63 && Holds(record, pos, EncodeOps(ops))
    requires index + |ops| <= count && sequence + index + |ops| <= TWO64
    ensures pos + |EncodeOps(ops)| <= |record|
    ensures var rest := ReadOps(record, pos + |EncodeOps(ops)|, index + |ops|, count, sequence);
      ReadOps(record, pos, index, count, sequence)
      == Parsed(MutationsOf(ops, sequence + index) + rest.mutations, rest.panics)
    decreases |ops|
  {
    hide ReadOp, ReadOps, EncodeOp, MutationOf, MutationsOf, Holds;
    NothingToRead(sequence + index);
    if ops != [] {
      var first := EncodeOp(ops[0]);
      HoldsSplit(record, pos, first, EncodeOps(ops[1..]));
      ReadEncodedOp(record, pos, ops[0], sequence + index);
      HoldsFits(record, pos, first);
      ReadEncodedOps(record, pos + |first|, ops[1..], index + 1, count, sequence);
      var end := pos + |EncodeOps(ops)|;
      var rest := ReadOps(record, end, index + |ops|, count, sequence);
      ReadOpsStep(record, pos, index, count, sequence, MutationOf(ops[0], sequence + index), pos + |first|);
      MutationsAppend(ops, sequence + index, rest.mutations);
    } else {
      HoldsFits(record, pos, EncodeOps(ops));
      var rest := ReadOps(record, pos, index, count, sequence);
      assert [] + rest.mutations == rest.mutations;
    }
  }

  lemma NothingToRead(sequence: nat)
    ensures MutationsOf([], sequence) == []
  {
  }

  lemma ReadOpsStep(
      record: Bytes, pos: nat, index: nat, count: nat, sequence: nat, mutation: Mutation, next: nat)
    requires index < count && pos < |record| && sequence + index < TWO64
    requires ReadOp(record, pos, sequence + index) == OpRead(mutation, next)
    ensures var rest := ReadOps(record, next, index + 1, count, sequence);
      ReadOps(record, pos, index, count, sequence) == Parsed([mutation] + rest.mutations, rest.panics)
  {
    hide ReadOp;
  }

  // Reading a batch LevelDB wrote gives back its operations with consecutive sequence numbers.
  lemma BatchRoundTrip(batch: Batch)
    requires Fits(batch)
    ensures ReadRecord(EncodeBatch(batch)) == Parsed(MutationsOf(batch.ops, batch.sequence), false)
  {
    hide ReadOps, EncodeOps, ToLittleEndian, LittleEndian;
    var record := EncodeBatch(batch);
    assert record[..8] == ToLittleEndian(batch.sequence, 8);
    assert record[8..12] == ToLittleEndian(|batch.ops|, 4);
    assert Holds(record, 12, EncodeOps(batch.ops));
    HeaderWidths();
    LittleEndianRoundTrip(batch.sequence, 8, LittleEndianBound(8));
    LittleEndianRoundTrip(|batch.ops|, 4, LittleEndianBound(4));
    ReadEncodedOps(record, 12, batch.ops, 0, |batch.ops|, batch.sequence);
    NoMoreOps(record, |record|, |batch.ops|, |batch.ops|, batch.sequence);
    assert MutationsOf(batch.ops, batch.sequence) + [] == MutationsOf(batch.ops, batch.sequence);
  }

  lemma NoMoreOps(record: Bytes, pos: nat, index: nat, count: nat, sequence: nat)
    requires index >= count || pos >= |record| || ReadOp(record, pos, (sequence + index) % TWO64).Stop?
    ensures ReadOps(record, pos, index, count, sequence) == Parsed([], false)
  {
  }

  // The outcome of one operation in unbounded arithmetic: a length that cannot be read, or more
  // than is left, or an unknown kind ends the record; one that reaches 2^63 fails.
  lemma ReadOpExactly(record: Bytes, pos: nat, sequence: nat)
    requires pos < |record| < TWO63
    ensures var (keyLen, keyStart, keyOk) := Varint.Read(record, pos + 1);
      var op := ReadOp(record, pos, sequence);
      && (!keyOk ==> op == Stop)
      && (keyOk && keyStart + keyLen >= TWO63 ==> op == Panic)
      && (keyOk && |record| < keyStart + keyLen < TWO63 ==> op == Stop)
      && (keyOk && keyStart + keyLen <= |record| && record[pos] > 1 ==> op == Stop)
      && (keyOk && keyStart + keyLen <= |record| && record[pos] == 0 ==>
            op == OpRead(Mutation(record[keyStart..keyStart + keyLen], sequence, None), keyStart + keyLen))
    ensures var (keyLen, keyStart, keyOk) := Varint.Read(record, pos + 1);
      keyOk && keyStart + keyLen <= |record| && record[pos] == 1 ==>
        var (valueLen, valueStart, valueOk) := Varint.Read(record, keyStart + keyLen);
        var op := ReadOp(record, pos, sequence);
        && (!valueOk ==> op == Stop)
        && (valueOk && valueStart + valueLen >= TWO63 ==> op == Panic)
        && (valueOk && |record| < valueStart + valueLen < TWO63 ==> op == Stop)
        && (valueOk && valueStart + valueLen <= |record| ==>
              var value := record[valueStart..valueStart + valueLen];
              op == OpRead(
                Mutation(record[keyStart..keyStart + keyLen], sequence, if value == [] then None else Some(value)),
                valueStart + valueLen))
  {
    hide CutAt, Varint.Read;
    var key := Varint.Read(record, pos + 1);
    Varint.ReadBounds(record, pos + 1, key);
    if key.2 {
      CutOutOfRangeExactly(record, key.1, key.0);
      if key.1 + key.0 <= |record| {
        var value := Varint.Read(record, key.1 + key.0);
        Varint.ReadBounds(record, key.1 + key.0, value);
        if value.2 {
          CutOutOfRangeExactly(record, value.1, value.0);
        }
      }
    }
  }

  // A body that stops short: a length without its last byte, or of more bytes than are left.
  predicate ShortOf(rest: Bytes, n: nat) {
    || (forall i :: 0 <= i < Min(10, |rest|) ==> rest[i] >= 128)
    || (n < TWO63 && Varint.Encode(n) <= rest && |rest| < |Varint.Encode(n)| + n)
  }

  // What is no operation: of an unknown kind, or short of its key or its value.
  predicate NoOperation(rest: Bytes, key: Bytes, n: nat) {
    rest != []
    && (ShortOf(rest[1..], n)
        || (rest[0] > 1 && LengthPrefixed(key) <= rest[1..])
        || (rest[0] == 1 && LengthPrefixed(key) <= rest[1..] && ShortOf(rest[1 + |LengthPrefixed(key)|..], n)))
  }

  lemma ShortIsNotRead(record: Bytes, pos: nat, n: nat)
    requires pos <= |record| < TWO63 && ShortOf(record[pos..], n) && |record| + n < TWO63
    ensures var (length, start, ok) := Varint.Read(record, pos); ok ==> |record| < start + length < TWO63
  {
    var rest := record[pos..];
    var r := Varint.Read(record, pos);
    Varint.ReadBounds(record, pos, r);
    if forall i :: 0 <= i < Min(10, |rest|) ==> rest[i] >= 128 {
      assert forall i :: pos <= i < Min(|record|, pos + 10) ==> record[i] == rest[i - pos];
    } else {
      hide Varint.Read, Varint.Encode;
      HoldsHere(record, pos, Varint.Encode(n));
      ReadsEncoded(record, pos, n);
    }
  }

  lemma HoldsHere(data: Bytes, at: nat, part: Bytes)
    requires at <= |data| && part <= data[at..]
    ensures Holds(data, at, part)
  {
    assert forall i :: 0 <= i < |part| ==> data[at + i] == data[at..][i] == part[i];
  }

  lemma ReadsEncoded(data: Bytes, at: nat, n: nat)
    requires Holds(data, at, Varint.Encode(n)) && n < TWO64
    ensures Varint.Read(data, at) == (n, at + |Varint.Encode(n)|, true)
  {
    hide Varint.Scan, Varint.Encode;
    Varint.ScanEncoded(data, at, 0, 0, n);
  }

  lemma NoOperationStops(record: Bytes, pos: nat, key: Bytes, n: nat, sequence: nat)
    requires pos < |record| && |record| + n < TWO63 && NoOperation(record[pos..], key, n)
    ensures ReadOp(record, pos, sequence) == Stop
  {
    hide ReadOp, ShortOf, Varint.Read, Varint.Encode;
    ReadOpExactly(record, pos, sequence);
    var rest := record[pos..];
    assert rest[1..] == record[pos + 1..];
    if ShortOf(rest[1..], n) {
      ShortIsNotRead(record, pos + 1, n);
    } else {
      HoldsHere(record, pos + 1, LengthPrefixed(key));
      ReadLengthPrefixed(record, pos + 1, key, pos + 1 + |Varint.Encode(|key|)|);
      HoldsFits(record, pos + 1, LengthPrefixed(key));
      var end := pos + 1 + |LengthPrefixed(key)|;
      assert rest[1 + |LengthPrefixed(key)|..] == record[end..];
      if rest[0] == 1 && ShortOf(record[end..], n) {
        ShortIsNotRead(record, end, n);
      }
    }
  }

  function Header(sequence: nat, count: nat): Bytes {
    ToLittleEndian(sequence, 8) + ToLittleEndian(count, 4)
  }

  // A batch that claims at least the operations it has, and then ends or goes on with what is no
  // operation, gives those operations; one that claims fewer gives as many as it claims.
  lemma MalformedBatch(sequence: nat, count: nat, ops: seq<Op>, rest: Bytes, key: Bytes, n: nat)
    requires sequence + |ops| <= TWO64 && sequence < TWO64 && count < 0x1_0000_0000
    requires |Header(sequence, count) + EncodeOps(ops) + rest| + n < TWO63
    requires count > |ops| ==> rest == [] || NoOperation(rest, key, n)
    ensures ReadRecord(Header(sequence, count) + EncodeOps(ops) + rest)
         == Parsed(MutationsOf(ops[..Min(count, |ops|)], sequence), false)
  {
    hide ReadRecord, EncodeOps, Header, NoOperation, MutationsOf, LittleEndian, Holds;
    var k := Min(count, |ops|);
    var done, left := ops[..k], ops[k..];
    SplitOps(ops, k);
    var header, body, more := Header(sequence, count), EncodeOps(done), EncodeOps(left) + rest;
    HeaderReads(sequence, count, EncodeOps(ops) + rest);
    Regroup(header, body, EncodeOps(left), rest);
    OpsHeld(header, body, more);
    var record := header + EncodeOps(ops) + rest;
    if k < count {
      NoOps();
      assert left == [];
      assert [] + rest == rest;
    }
    ClaimedOps(record, sequence, count, done, key, n);
  }

  lemma SplitOps(ops: seq<Op>, k: nat)
    requires k <= |ops|
    ensures EncodeOps(ops) == EncodeOps(ops[..k]) + EncodeOps(ops[k..])
  {
    hide EncodeOps;
    assert ops[..k] + ops[k..] == ops;
    OpsConcat(ops[..k], ops[k..]);
  }

  lemma NoOps()
    ensures EncodeOps([]) == []
  {
  }

  lemma Regroup(header: Bytes, a: Bytes, b: Bytes, rest: Bytes)
    ensures header + (a + b) + rest == header + ((a + b) + rest)
    ensures header + (a + b) + rest == header + a + (b + rest)
  {
  }

  // The same for a record with that header and those operations in it.
  lemma ClaimedOps(record: Bytes, sequence: nat, count: nat, done: seq<Op>, key: Bytes, n: nat)
    requires |record| >= 12 && LittleEndian(record[..8]) == sequence && LittleEndian(record[8..12]) == count
    requires sequence + |done| <= TWO64 && |done| <= count && |record| + n < TWO63
    requires Holds(record, 12, EncodeOps(done)) && 12 + |EncodeOps(done)| <= |record|
    requires count > |done| ==>
      var rest := record[12 + |EncodeOps(done)|..]; rest == [] || NoOperation(rest, key, n)
    ensures ReadRecord(record) == Parsed(MutationsOf(done, sequence), false)
  {
    hide ReadOps, EncodeOps, NoOperation, MutationsOf, LittleEndian, Holds;
    ReadEncodedOps(record, 12, done, 0, count, sequence);
    var end := 12 + |EncodeOps(done)|;
    if count > |done| && end < |record| {
      NoOperationStops(record, end, key, n, (sequence + |done|) % TWO64);
    }
    NoMoreOps(record, end, |done|, count, sequence);
    assert MutationsOf(done, sequence) + [] == MutationsOf(done, sequence);
  }

  lemma OpsHeld(header: Bytes, body: Bytes, more: Bytes)
    requires |header| == 12
    ensures Holds(header + body + more, 12, body)
    ensures |header + body + more| == 12 + |body| + |more|
    ensures (header + body + more)[12 + |body|..] == more
  {
  }

  lemma {:induction false} OpsConcat(a: seq<Op>, b: seq<Op>)
    ensures EncodeOps(a + b) == EncodeOps(a) + EncodeOps(b)
    decreases |a|
  {
    hide EncodeOp;
    if a == [] {
      assert a + b == b;
    } else {
      assert (a + b)[1..] == a[1..] + b;
      OpsConcat(a[1..], b);
    }
  }

  lemma HeaderReads(sequence: nat, count: nat, body: Bytes)
    requires sequence < TWO64 && count < 0x1_0000_0000
    ensures var record := Header(sequence, count) + body;
      && |Header(sequence, count)| == 12
      && LittleEndian(record[..8]) == sequence && LittleEndian(record[8..12]) == count
  {
    hide ToLittleEndian, LittleEndian;
    var record := Header(sequence, count) + body;
    assert record[..8] == ToLittleEndian(sequence, 8);
    assert record[8..12] == ToLittleEndian(count, 4);
    HeaderWidths();
    LittleEndianRoundTrip(sequence, 8, LittleEndianBound(8));
    LittleEndianRoundTrip(count, 4, LittleEndianBound(4));
  }

  // Shorter records are no batches.
  lemma ShortRecordIsEmpty(record: Bytes)
    requires |record| < 12
    ensures ReadRecord(record) == Parsed([], false)
  {
  }

  lemma HeaderWidths()
    ensures LittleEndianBound(8) == TWO64 && LittleEndianBound(4) == 0x1_0000_0000
  {
    assert LittleEndianBound(2) == 0x1_0000;
    assert LittleEndianBound(3) == 0x100_0000;
    assert LittleEndianBound(4) == 0x1_0000_0000;
    assert LittleEndianBound(5) == 0x100_0000_0000;
    assert LittleEndianBound(6) == 0x1_0000_0000_0000;
    assert LittleEndianBound(7) == 0x100_0000_0000_0000;
  }

  // A one-operation record whose key length claims 2^63 bytes or more passes the guard and
  // fails in the slice.
  lemma HugeKeyLengthPanics(sequence: nat, length: nat)
    requires sequence < TWO64 && TWO63 <= length < TWO64
    ensures ReadRecord(ToLittleEndian(sequence, 8) + ToLittleEndian(1, 4) + [0] + Varint.Encode(length)).panics
  {
    hide ToLittleEndian, LittleEndian, Varint.Read, Varint.Encode;
    var record := ToLittleEndian(sequence, 8) + ToLittleEndian(1, 4) + [0] + Varint.Encode(length);
    HeaderWidths();
    LittleEndianRoundTrip(1, 4, LittleEndianBound(4));
    assert record[8..12] == ToLittleEndian(1, 4);
    assert Holds(record, 13, Varint.Encode(length));
    Varint.ScanEncoded(record, 13, 0, 0, length);
    ReadsLength(record, length);
    var end := 13 + |Varint.Encode(length)|;
    assert CutAt(record, end, length).OutOfRange? by {
      Varint.EncodedSize(length, 0);
      CutOutOfRangeExactly(record, end, length);
    }
  }

  lemma ReadsLength(record: Bytes, length: nat)
    requires 13 <= |record|
    requires Varint.Scan(record, 13, 0, 0) == (0 + length * Varint.Pow2(0), 13 + |Varint.Encode(length)|, true)
    ensures Varint.Read(record, 13) == (length, 13 + |Varint.Encode(length)|, true)
  {
  }
}
