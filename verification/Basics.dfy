/** Shared vocabulary: options, results, bytes and a few facts about finite sets and sequences. */
module Basics {
  datatype Option<+T> = None | Some(value: T)

  datatype Result<+T, +E> = Ok(value: T) | Err(error: E)

  type Byte = b: int | 0 <= b < 256

  type Bytes = seq<Byte>

  function Min(a: int, b: int): int {
    if a <= b then a else b
  }

  function Max(a: int, b: int): int {
    if a <= b then b else a
  }

  // The numbers lo, lo + 1, ..., hi.
  function Span(lo: int, hi: int): (s: set<int>)
    ensures forall n :: n in s <==> lo <= n <= hi
    ensures |s| == if hi < lo then 0 else hi - lo + 1
    decreases hi - lo
  {
    if hi < lo then {}
    else
      var rest := Span(lo, hi - 1);
      assert hi !in rest;
      rest + {hi}
  }

  lemma SubsetSize<T>(a: set<T>, b: set<T>)
    requires a <= b
    ensures |a| <= |b|
    ensures |a| == |b| ==> a == b
  {
    var rest := b - a;
    assert b == a + rest;
    assert |b| == |a| + |rest|;
  }

  ghost predicate IsPrefix<T(!new)>(a: seq<T>, b: seq<T>) {
    |a| <= |b| && a == b[..|a|]
  }

  // `part` stands at position `at` of `data`.
  ghost predicate Holds(data: Bytes, at: nat, part: Bytes) {
    at + |part| <= |data| && forall i :: 0 <= i < |part| ==> data[at + i] == part[i]
  }

  lemma HoldsSplit(data: Bytes, at: nat, a: Bytes, b: Bytes)
    requires Holds(data, at, a + b)
    ensures Holds(data, at, a) && Holds(data, at + |a|, b)
  {
    assert forall i :: 0 <= i < |a| ==> (a + b)[i] == a[i];
    forall i | 0 <= i < |b|
      ensures data[at + |a| + i] == b[i]
    {
      assert (a + b)[|a| + i] == b[i];
      assert data[at + (|a| + i)] == (a + b)[|a| + i];
    }
  }

  lemma HoldsSlice(data: Bytes, at: nat, part: Bytes)
    requires Holds(data, at, part)
    ensures data[at..at + |part|] == part
  {
  }
}
