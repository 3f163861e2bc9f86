/** The ranges of parts still to be signed. */
module MissingRanges {
  import opened Basics
  import opened Decimal
  import opened UploadTypes

  datatype Range = Range(lo: nat, hi: nat)

  predicate Missing(n: nat, count: int, done: set<string>) {
    1 <= n <= count && Key(n) !in done
  }

  // The last part of the run of missing parts that `part` belongs to.
  function RunEnd(part: nat, count: int, done: set<string>): (end: nat)
    requires Missing(part, count, done)
    ensures part <= end <= count && !Missing(end + 1, count, done)
    ensures forall n :: part <= n <= end ==> Missing(n, count, done)
    decreases count - part
  {
    if Missing(part + 1, count, done) then RunEnd(part + 1, count, done) else part
  }

  function RangesFrom(part: nat, count: int, done: set<string>): seq<Range>
    requires part >= 1
    decreases count - part
  {
    if part > count then []
    else if Key(part) in done then RangesFrom(part + 1, count, done)
    else
      var end := RunEnd(part, count, done);
      [Range(part, end)] + RangesFrom(end + 1, count, done)
  }

  lemma RangesStep(part: nat, count: int, done: set<string>, sofar: seq<Range>)
    requires part >= 1 && Missing(part, count, done)
    ensures sofar + RangesFrom(part, count, done)
         == (sofar + [Range(part, RunEnd(part, count, done))]) + RangesFrom(RunEnd(part, count, done) + 1, count, done)
  {
  }

  function Render(r: Range): string {
    if r.lo == r.hi then Format(r.lo) else Format(r.lo) + "-" + Format(r.hi)
  }

  function RenderAll(rs: seq<Range>): (s: seq<string>)
    ensures |s| == |rs| && forall i :: 0 <= i < |s| ==> s[i] == Render(rs[i])
  {
    seq(|rs|, i requires 0 <= i < |rs| => Render(rs[i]))
  }

  lemma RenderAppend(rs: seq<Range>, r: Range)
    ensures RenderAll(rs + [r]) == RenderAll(rs) + [Render(r)]
  {
    hide Render;
  }

  method MissingMultipartRanges(partCount: int, partInfo: map<string, PartInfo>) returns (ranges: seq<string>)
    ensures ranges == RenderAll(RangesFrom(1, partCount, partInfo.Keys))
    ensures var rs := RangesFrom(1, partCount, partInfo.Keys);
      |ranges| == |rs| && forall i :: 0 <= i < |rs| ==>
        ranges[i] == if rs[i].lo == rs[i].hi then Format(rs[i].lo) else Format(rs[i].lo) + "-" + Format(rs[i].hi)
  {
    hide RunEnd, Format, RenderAll;
    assert RenderAll([]) == [];
    var done := partInfo.Keys;
    ranges := [];
    ghost var found: seq<Range> := [];
    var part := 1;
    while part <= partCount
      invariant part >= 1
      invariant ranges == RenderAll(found)
      invariant found + RangesFrom(part, partCount, done) == RangesFrom(1, partCount, done)
      decreases partCount - part
    {
      if Format(part) in partInfo {
        part := part + 1;
        continue;
      }
      var start := part;
      ghost var runEnd := RunEnd(start, partCount, done);
      while part <= partCount
        invariant start <= part <= runEnd + 1
        decreases partCount - part
      {
        if Format(part) in partInfo {
          break;
        }
        part := part + 1;
      }
      var end := part - 1;
      assert part <= runEnd ==> Missing(part, partCount, done);
      assert part == runEnd + 1;
      if start == end {
        ranges := ranges + [Format(start)];
      } else {
        ranges := ranges + [Format(start) + "-" + Format(end)];
      }
      RangesStep(start, partCount, done, found);
      RenderAppend(found, Range(start, end));
      found := found + [Range(start, end)];
    }
    assert found + [] == found;
  }

  predicate In(n: nat, r: Range) {
    r.lo <= n <= r.hi
  }

  // What a list of ranges covers.
  ghost predicate Covers(rs: seq<Range>, n: nat) {
    exists i :: 0 <= i < |rs| && In(n, rs[i])
  }

  // The ranges are non-empty, increasing with a gap between neighbours, and cover exactly the
  // missing parts: so each is a maximal run.
  ghost predicate Runs(rs: seq<Range>, from: nat, count: int, done: set<string>) {
    && (forall i :: 0 <= i < |rs| ==> from <= rs[i].lo <= rs[i].hi)
    && (forall i, j :: 0 <= i < j < |rs| ==> rs[i].hi + 1 < rs[j].lo)
    && (forall n :: n >= from ==> (Covers(rs, n) <==> Missing(n, count, done)))
  }

  lemma {:induction false} RangesAreRuns(part: nat, count: int, done: set<string>)
    requires part >= 1
    ensures Runs(RangesFrom(part, count, done), part, count, done)
    decreases count - part
  {
    hide Runs, RunEnd;
    if part > count {
      NoRuns(part, count, done);
    } else if Key(part) in done {
      RangesAreRuns(part + 1, count, done);
      SkipDone(RangesFrom(part + 1, count, done), part, count, done);
    } else {
      var end := RunEnd(part, count, done);
      RangesAreRuns(end + 1, count, done);
      PrependRun(RangesFrom(end + 1, count, done), part, end, count, done);
    }
  }

  lemma NoRuns(part: nat, count: int, done: set<string>)
    requires part > count
    ensures Runs([], part, count, done)
  {
  }

  lemma SkipDone(rs: seq<Range>, part: nat, count: int, done: set<string>)
    requires Runs(rs, part + 1, count, done) && Key(part) in done
    ensures Runs(rs, part, count, done)
  {
    assert !Covers(rs, part);
  }

  lemma PrependRun(rest: seq<Range>, part: nat, end: nat, count: int, done: set<string>)
    requires Runs(rest, end + 1, count, done) && part <= end
    requires !Missing(end + 1, count, done)
    requires forall n :: part <= n <= end ==> Missing(n, count, done)
    ensures Runs([Range(part, end)] + rest, part, count, done)
  {
    var rs := [Range(part, end)] + rest;
    forall i | 0 <= i < |rest|
      ensures end + 1 < rest[i].lo
    {
      assert In(rest[i].lo, rest[i]) && Covers(rest, rest[i].lo);
    }
    forall n | n >= part
      ensures Covers(rs, n) <==> Missing(n, count, done)
    {
      CoversPrepended(rest, Range(part, end), n);
      if n <= end {
        assert !Covers(rest, n);
      }
    }
  }

  lemma CoversPrepended(rest: seq<Range>, first: Range, n: nat)
    ensures Covers([first] + rest, n) <==> In(n, first) || Covers(rest, n)
  {
    var rs := [first] + rest;
    if In(n, first) {
      assert In(n, rs[0]);
    }
    if Covers(rest, n) {
      var i :| 0 <= i < |rest| && In(n, rest[i]);
      assert In(n, rs[i + 1]);
    }
    if Covers(rs, n) && !In(n, first) {
      var i :| 0 <= i < |rs| && In(n, rs[i]);
      assert In(n, rest[i - 1]);
    }
  }

  // No list of ranges that covers exactly the missing parts is shorter.
  lemma RangesAreFewest(count: int, done: set<string>, other: seq<Range>)
    requires forall n :: n >= 1 ==> (Covers(other, n) <==> Missing(n, count, done))
    ensures |RangesFrom(1, count, done)| <= |other|
  {
    var rs := RangesFrom(1, count, done);
    RangesAreRuns(1, count, done);
    var used := Injection(rs, count, done, other, |rs|);
    SubsetSize(used, Span(0, |other| - 1));
  }

  lemma GapAfter(rs: seq<Range>, count: int, done: set<string>, i: nat)
    requires Runs(rs, 1, count, done) && i < |rs|
    ensures rs[i].lo <= rs[i].hi && !Missing(rs[i].hi + 1, count, done)
  {
    forall m | 0 <= m < |rs|
      ensures !In(rs[i].hi + 1, rs[m])
    {
    }
  }

  // Two runs do not start inside one range of missing parts.
  lemma RunsApart(rs: seq<Range>, count: int, done: set<string>, i: nat, k: nat, r: Range)
    requires Runs(rs, 1, count, done) && i < k < |rs|
    requires forall n :: n >= 1 && In(n, r) ==> Missing(n, count, done)
    requires In(rs[k].lo, r)
    ensures !In(rs[i].lo, r)
  {
    GapAfter(rs, count, done, i);
    var gap := rs[i].hi + 1;
    assert In(gap, r) <==> r.lo <= gap <= r.hi;
  }

  // Each of the first k runs starts inside its own range of the other list.
  lemma {:induction false} Injection(
      rs: seq<Range>, count: int, done: set<string>, other: seq<Range>, k: nat) returns (used: set<int>)
    requires Runs(rs, 1, count, done) && k <= |rs|
    requires forall n :: n >= 1 ==> (Covers(other, n) <==> Missing(n, count, done))
    ensures |used| == k && used <= Span(0, |other| - 1)
    ensures forall j :: j in used ==> 0 <= j < |other| && exists i :: 0 <= i < k && In(rs[i].lo, other[j])
    decreases k
  {
    used := {};
    if k > 0 {
      used := Injection(rs, count, done, other, k - 1);
      var j := OwnRange(rs, count, done, other, k - 1);
      hide Runs, In;
      used := used + {j};
    }
  }

  // The run of number k starts inside a range where no earlier one does.
  lemma OwnRange(rs: seq<Range>, count: int, done: set<string>, other: seq<Range>, k: nat) returns (j: nat)
    requires Runs(rs, 1, count, done) && k < |rs|
    requires forall n :: n >= 1 ==> (Covers(other, n) <==> Missing(n, count, done))
    ensures j < |other| && In(rs[k].lo, other[j]) && forall i :: 0 <= i < k ==> !In(rs[i].lo, other[j])
  {
    hide Missing;
    var r := rs[k];
    assert In(r.lo, r) && Covers(rs, r.lo);
    j :| 0 <= j < |other| && In(r.lo, other[j]);
    assert forall n :: n >= 1 && In(n, other[j]) ==> Covers(other, n);
    hide Runs, In, Covers;
    forall i | 0 <= i < k
      ensures !In(rs[i].lo, other[j])
    {
      RunsApart(rs, count, done, i, k, other[j]);
    }
  }

  function ParseRange(s: string): Option<Range> {
    var at := DashAt(s, 0);
    var first := ParseInt(s[..at]);
    var second := if at < |s| then ParseInt(s[at + 1..]) else first;
    if first.Some? && second.Some? && first.value >= 0 && second.value >= 0
    then Some(Range(first.value, second.value)) else None
  }

  function DashAt(s: string, from: nat): (at: nat)
    requires from <= |s|
    ensures from <= at <= |s|
    decreases |s| - from
  {
    if from == |s| || s[from] == '-' then from else DashAt(s, from + 1)
  }

  lemma {:induction false} DashAfter(digits: string, rest: string, from: nat)
    requires from <= |digits| && '-' !in digits && (rest == [] || rest[0] == '-')
    ensures DashAt(digits + rest, from) == |digits|
    decreases |digits| - from
  {
    if from < |digits| {
      assert (digits + rest)[from] == digits[from];
      assert digits[from] in digits;
      DashAfter(digits, rest, from + 1);
    }
  }

  lemma RenderedRangeParses(r: Range)
    requires r.lo <= r.hi <= MAX_INT64
    ensures ParseRange(Render(r)) == Some(r)
  {
    ParseFormat(r.lo);
    ParseFormat(r.hi);
    FormatHasNoDash(r.lo);
    hide Format, ParseInt, DashAt;
    var lo, hi := Format(r.lo), Format(r.hi);
    if r.lo == r.hi {
      DashAfter(lo, [], 0);
      assert lo + [] == lo && lo[..|lo|] == lo;
    } else {
      DashAfter(lo, "-" + hi, 0);
      assert Render(r) == lo + ("-" + hi);
      assert Render(r)[..|lo|] == lo && Render(r)[|lo| + 1..] == hi;
    }
  }
}
