/**
 What the reader makes of any physical records, in any order and of any kind, however the blocks
 they stand in end: which logical records a run of pieces amounts to is said by looking back from
 each piece to those before it.
 */
module LevelDBPieces {
  import opened Basics
  import opened LevelDBLog
  import opened LevelDBLogWriter

  datatype Piece = Piece(kind: Byte, payload: Bytes)

  const FULL: Byte := 1
  const FIRST: Byte := 2
  const MIDDLE: Byte := 3
  const LAST: Byte := 4

  // It fits a block and is not taken for the block's end.
  predicate Placeable(p: Piece) {
    HEADER + |p.payload| <= BLOCK && (p.kind != 0 || p.payload != [])
  }

  // A record is being assembled before piece j.  FULL and LAST end it, and so does nothing else;
  // an empty FIRST begins none, unless one was under way already.
  predicate Open(ps: seq<Piece>, j: nat)
    requires j <= |ps|
  {
    && j > 0
    && (ps[j - 1].kind != FULL && ps[j - 1].kind != LAST)
    && (Open(ps, j - 1) || (ps[j - 1].kind == FIRST && ps[j - 1].payload != []))
  }

  // What has been gathered of it: everything since the latest FIRST, pieces of other kinds left out.
  function Gathered(ps: seq<Piece>, j: nat): Bytes
    requires j <= |ps| && Open(ps, j)
  {
    if ps[j - 1].kind == FIRST then ps[j - 1].payload
    else if ps[j - 1].kind == MIDDLE then Gathered(ps, j - 1) + ps[j - 1].payload
    else Gathered(ps, j - 1)
  }

  // The records completed by the first j pieces: each FULL, and each LAST of a record under way.
  function Completed(ps: seq<Piece>, j: nat): seq<Bytes>
    requires j <= |ps|
  {
    if j == 0 then []
    else if ps[j - 1].kind == FULL then Completed(ps, j - 1) + [ps[j - 1].payload]
    else if ps[j - 1].kind == LAST && Open(ps, j - 1)
    then Completed(ps, j - 1) + [Gathered(ps, j - 1) + ps[j - 1].payload]
    else Completed(ps, j - 1)
  }

  // The rest of a block is not looked at when it has no room for a header, begins with a zero
  // length and type, or with a header that claims more than there is.
  predicate EndsBlock(rest: Bytes) {
    || |rest| < 7
    || (rest[4] == 0 && rest[5] == 0 && rest[6] == 0)
    || 7 + rest[4] as int + 256 * rest[5] as int > |rest|
  }

  // What stands in a block after its last piece, by position and size.
  type Filler = (nat, nat) -> Bytes

  ghost predicate Fills(fill: Filler) {
    forall at, n :: |fill(at, n)| == n && EndsBlock(fill(at, n))
  }

  // Pieces laid out from `off` on, each in the first block with room for it.
  ghost function Lay(ps: seq<Piece>, off: nat, at: nat, sums: Checksums, fill: Filler): Bytes
    requires off <= BLOCK && Fills(fill) && forall p :: p in ps ==> Placeable(p)
    decreases |ps|, off
  {
    if ps == [] then []
    else if off + HEADER + |ps[0].payload| <= BLOCK then
      var size := HEADER + |ps[0].payload|;
      (Header(ps[0].kind, |ps[0].payload|, at, sums) + ps[0].payload)
      + Lay(ps[1..], off + size, at + size, sums, fill)
    else
      assert ps[0] in ps;
      fill(at, BLOCK - off) + Lay(ps, 0, at + (BLOCK - off), sums, fill)
  }

  function FragmentAt(ps: seq<Piece>, j: nat): Option<Bytes>
    requires j <= |ps|
  {
    if Open(ps, j) then Some(Gathered(ps, j)) else None
  }

  lemma OnePiece(ps: seq<Piece>, j: nat)
    requires j < |ps|
    ensures NextFragment(FragmentAt(ps, j), ps[j].kind, ps[j].payload) == FragmentAt(ps, j + 1)
    ensures Completed(ps, j) + Emitted(FragmentAt(ps, j), ps[j].kind, ps[j].payload) == Completed(ps, j + 1)
  {
  }

  lemma FillEndsBlock(data: Bytes, start: nat, off: nat, rest: Bytes)
    requires off + |rest| == BLOCK && Holds(data, start + off, rest) && EndsBlock(rest)
    ensures BlockDone(data, start, start + off)
  {
    if |rest| >= 7 {
      var at := start + off;
      assert data[at + 4] == rest[4] && data[at + 5] == rest[5] && data[at + 6] == rest[6];
    }
  }

  lemma {:induction false} ReadPieces(
      data: Bytes, ps: seq<Piece>, j: nat, start: nat, off: nat, sums: Checksums, fill: Filler)
    requires Fills(fill) && (forall p :: p in ps ==> Placeable(p)) && j <= |ps| && off <= BLOCK
    requires Holds(data, start + off, Lay(ps[j..], off, start + off, sums, fill))
    requires |data| == start + off + |Lay(ps[j..], off, start + off, sums, fill)|
    ensures Completed(ps, j) + ReadFrom(data, start, start + off, FragmentAt(ps, j)) == Completed(ps, |ps|)
    decreases |ps| - j, off
  {
    hide ReadFrom, Header, Emitted, NextFragment, FragmentAt, Completed, EndsBlock;
    if j == |ps| {
      ReadEnd(data, start, FragmentAt(ps, j));
    } else if off + HEADER + |ps[j].payload| <= BLOCK {
      var p := ps[j];
      assert p in ps && ps[j..][1..] == ps[j + 1..];
      var size := HEADER + |p.payload|;
      HoldsSplit(data, start + off, Header(p.kind, |p.payload|, start + off, sums) + p.payload,
                 Lay(ps[j + 1..], off + size, start + off + size, sums, fill));
      ReadPhysical(data, start, off, p.kind, p.payload, sums, FragmentAt(ps, j));
      OnePiece(ps, j);
      ReadPieces(data, ps, j + 1, start, off + size, sums, fill);
      Regroup(Completed(ps, j), Emitted(FragmentAt(ps, j), p.kind, p.payload),
              ReadFrom(data, start, start + off + HEADER + |p.payload|, FragmentAt(ps, j + 1)));
    } else {
      assert ps[j] in ps;
      var rest := fill(start + off, BLOCK - off);
      HoldsSplit(data, start + off, rest, Lay(ps[j..], 0, start + BLOCK, sums, fill));
      FillEndsBlock(data, start, off, rest);
      HoldsInside(data, start + off, rest);
      ReadNextBlock(data, start, start + off, FragmentAt(ps, j));
      ReadPieces(data, ps, j, start + BLOCK, 0, sums, fill);
    }
  }

  lemma Regroup<T>(a: seq<T>, b: seq<T>, c: seq<T>)
    ensures a + (b + c) == (a + b) + c
  {
  }

  lemma HoldsInside(data: Bytes, at: nat, part: Bytes)
    requires Holds(data, at, part)
    ensures at + |part| <= |data|
  {
  }

  // Whatever the pieces, the checksums and what stands between them, the reader returns the
  // records they complete.
  lemma PiecesRead(ps: seq<Piece>, sums: Checksums, fill: Filler)
    requires Fills(fill) && forall p :: p in ps ==> Placeable(p)
    ensures Records(Lay(ps, 0, 0, sums, fill)) == Completed(ps, |ps|)
  {
    NothingBefore(ps);
    hide ReadFrom, Lay, Fills, Completed, FragmentAt, Open, Placeable;
    var data := Lay(ps, 0, 0, sums, fill);
    assert ps[0..] == ps;
    ReadPieces(data, ps, 0, 0, 0, sums, fill);
    assert [] + ReadFrom(data, 0, 0, None) == ReadFrom(data, 0, 0, None);
  }

  lemma NothingBefore(ps: seq<Piece>)
    ensures Completed(ps, 0) == [] && FragmentAt(ps, 0) == None
  {
  }
}
