/** Base-128 varints as the reader decodes them and as LevelDB encodes them. */
module Varint {
  import opened Basics
  import opened Int64

  function Pow2(n: nat): (p: nat)
    ensures p >= 1
  {
    if n == 0 then 1 else 2 * Pow2(n - 1)
  }

  // uint64(group) << shift.  The bits of the value read so far lie below the shifted group, so
  // or-ing it in is the same as adding it.
  function Shifted(group: nat, shift: nat): nat {
    group * Pow2(shift) % TWO64
  }

  // The value, the position after it and whether a last byte (below 0x80) was found.
  function Scan(data: Bytes, pos: nat, shift: nat, value: nat): (r: (nat, nat, bool))
    requires pos <= |data|
    ensures pos <= r.1 <= |data|
    decreases |data| - pos
  {
    if pos < |data| && shift <= 63 then
      var sum := value + Shifted(data[pos] % 128, shift);
      if data[pos] < 128 then (sum, pos + 1, true) else Scan(data, pos + 1, shift + 7, sum)
    else (0, pos, false)
  }

  function Read(data: Bytes, pos: nat): (nat, nat, bool)
    requires pos <= |data|
  {
    Scan(data, pos, 0, 0)
  }

  method ReadVarint(data: Bytes, start: nat) returns (value: nat, pos: nat, ok: bool)
    requires start <= |data|
    ensures (value, pos, ok) == Read(data, start)
  {
    value, pos := 0, start;
    var shift := 0;
    while pos < |data| && shift <= 63
      invariant start <= pos <= |data|
      invariant Scan(data, pos, shift, value) == Read(data, start)
      decreases |data| - pos
    {
      var b := data[pos];
      pos := pos + 1;
      value := value + Shifted(b % 128, shift);
      if b < 128 {
        return value, pos, true;
      }
      shift := shift + 7;
    }
    return 0, pos, false;
  }

  function Encode(v: nat): (r: Bytes)
    ensures r != []
  {
    if v < 128 then [v] else [v % 128 + 128] + Encode(v / 128)
  }

  lemma {:induction false} PowMonotone(a: nat, b: nat)
    requires a <= b
    ensures Pow2(a) <= Pow2(b)
    decreases b
  {
    if a < b {
      PowMonotone(a, b - 1);
    }
  }

  lemma PowByteGroup(shift: nat)
    ensures Pow2(shift + 7) == 128 * Pow2(shift)
  {
    var p := Pow2(shift);
    assert Pow2(shift + 1) == 2 * p;
    assert Pow2(shift + 2) == 4 * p;
    assert Pow2(shift + 3) == 8 * p;
    assert Pow2(shift + 4) == 16 * p;
    assert Pow2(shift + 5) == 32 * p;
    assert Pow2(shift + 6) == 64 * p;
  }

  lemma PowZero()
    ensures Pow2(0) == 1
  {
  }

  lemma PowTop()
    ensures Pow2(56) == 0x100_0000_0000_0000 && Pow2(63) == 0x8000_0000_0000_0000
  {
    hide Pow2;
    PowZero();
    PowByteGroup(0);
    PowByteGroup(7);
    PowByteGroup(14);
    PowByteGroup(21);
    PowByteGroup(28);
    PowByteGroup(35);
    PowByteGroup(42);
    PowByteGroup(49);
    PowByteGroup(56);
  }

  // v * p, split along the low seven bits of v.
  lemma SplitProduct(v: nat, p: nat)
    ensures v * p == v % 128 * p + v / 128 * (128 * p)
    ensures v % 128 * p <= v * p && v / 128 * (128 * p) <= v * p
    ensures v >= 128 ==> 128 * p <= v * p
    ensures v < 128 ==> v * p <= 127 * p
  {
    var low, high := v % 128, v / 128;
    assert v == low + 128 * high;
    assert v * p == low * p + 128 * high * p;
    assert 128 * high * p == high * (128 * p);
    assert low * p >= 0 && high * (128 * p) >= 0;
    if v >= 128 {
      assert (v - 128) * p >= 0;
    } else {
      assert (127 - v) * p >= 0;
    }
  }

  lemma ShiftStaysInRange(v: nat, shift: nat)
    requires v >= 128 && shift <= 63 && v * Pow2(shift) < TWO64
    ensures shift <= 56
  {
    if shift > 56 {
      PowTop();
      PowMonotone(57, shift);
      SplitProduct(v, Pow2(shift));
    }
  }

  lemma ScanStep(data: Bytes, pos: nat, shift: nat, value: nat, group: nat)
    requires pos < |data| && shift <= 63 && group == data[pos] % 128 && group * Pow2(shift) < TWO64
    ensures Scan(data, pos, shift, value)
         == if data[pos] < 128 then (value + group * Pow2(shift), pos + 1, true)
            else Scan(data, pos + 1, shift + 7, value + group * Pow2(shift))
  {
    hide Pow2, Shifted;
    ShiftedExact(group, shift);
  }

  lemma ShiftedExact(group: nat, shift: nat)
    requires group * Pow2(shift) < TWO64
    ensures Shifted(group, shift) == group * Pow2(shift)
  {
    hide Pow2;
    SmallRemainder(group * Pow2(shift), TWO64);
  }

  lemma SmallRemainder(a: nat, b: nat)
    requires a < b
    ensures a % b == a
  {
  }

  lemma {:induction false} ScanEncoded(data: Bytes, pos: nat, shift: nat, value: nat, v: nat)
    requires Holds(data, pos, Encode(v))
    requires shift <= 63 && value + v * Pow2(shift) < TWO64
    ensures Scan(data, pos, shift, value) == (value + v * Pow2(shift), pos + |Encode(v)|, true)
    decreases v
  {
    hide Pow2, Scan, Shifted;
    var p := Pow2(shift);
    assert data[pos] == Encode(v)[0];
    SplitProduct(v, p);
    ScanStep(data, pos, shift, value, v % 128);
    if v >= 128 {
      var low, high := v % 128, v / 128;
      ShiftStaysInRange(v, shift);
      PowByteGroup(shift);
      HoldsSplit(data, pos, [Encode(v)[0]], Encode(high));
      ScanEncoded(data, pos + 1, shift + 7, value + low * p, high);
    }
  }

  // Whatever surrounds it, an encoded 64-bit value is read back, with the position after it.
  lemma VarintRoundTrip(before: Bytes, v: nat, after: Bytes)
    requires v < TWO64
    ensures Read(before + Encode(v) + after, |before|) == (v, |before| + |Encode(v)|, true)
  {
    var data := before + Encode(v) + after;
    assert Holds(data, |before|, Encode(v));
    ScanEncoded(data, |before|, 0, 0, v);
  }

  lemma {:induction false} EncodedSize(v: nat, shift: nat)
    requires shift <= 63 && shift % 7 == 0 && v * Pow2(shift) < TWO64
    ensures 1 <= |Encode(v)| <= (63 - shift) / 7 + 1
    decreases v
  {
    hide Pow2;
    if v >= 128 {
      SplitProduct(v, Pow2(shift));
      ShiftStaysInRange(v, shift);
      PowByteGroup(shift);
      EncodedSize(v / 128, shift + 7);
    }
  }

  // A successful read stays in bounds, consumes one to ten bytes and yields a 64-bit value; a
  // read succeeds exactly when one of the next ten bytes is a last byte.
  lemma {:induction false} ScanBounds(data: Bytes, pos: nat, shift: nat, value: nat, r: (nat, nat, bool))
    requires pos <= |data| && shift % 7 == 0 && shift <= 70 && value < Pow2(shift)
    requires r == Scan(data, pos, shift, value)
    ensures r.2 ==> pos < r.1 <= Min(|data|, pos + (70 - shift) / 7) && r.0 < TWO64
    ensures r.2 <==> exists i :: pos <= i < Min(|data|, pos + (70 - shift) / 7) && data[i] < 128
    decreases |data| - pos
  {
    hide Pow2, Shifted;
    if pos < |data| && shift <= 63 {
      var group: nat := data[pos] % 128;
      ShiftedBound(group, shift);
      PowByteGroup(shift);
      var sum := value + Shifted(group, shift);
      assert sum < TWO64;
      if data[pos] >= 128 {
        ScanBounds(data, pos + 1, shift + 7, sum, r);
      }
    }
  }

  lemma ShiftedBound(group: nat, shift: nat)
    requires group < 128 && shift <= 63 && shift % 7 == 0
    ensures Shifted(group, shift) <= 127 * Pow2(shift)
    ensures Shifted(group, shift) + Pow2(shift) <= TWO64
  {
    PowTop();
    var p := Pow2(shift);
    SplitProduct(group, p);
    if shift == 63 {
      TopGroup(group);
    } else {
      PowMonotone(shift, 56);
    }
  }

  lemma TopGroup(group: nat)
    ensures group * 0x8000_0000_0000_0000 % TWO64 <= 0x8000_0000_0000_0000
  {
    var half, odd := group / 2, group % 2;
    assert group * 0x8000_0000_0000_0000 == half * 0x1_0000_0000_0000_0000 + odd * 0x8000_0000_0000_0000;
  }

  lemma ReadBounds(data: Bytes, pos: nat, r: (nat, nat, bool))
    requires pos <= |data| && r == Read(data, pos)
    ensures r.2 ==> pos < r.1 <= Min(|data|, pos + 10) && r.0 < TWO64
    ensures r.2 <==> exists i :: pos <= i < Min(|data|, pos + 10) && data[i] < 128
  {
    ScanBounds(data, pos, 0, 0, r);
  }
}
