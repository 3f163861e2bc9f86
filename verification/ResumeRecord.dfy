/** When a saved resume state is taken up again, and what its part count then tells. */
module ResumeRecord {
  import opened Basics
  import opened Decimal
  import opened UploadTypes
  import opened PartSizing

  predicate IsHexDigit(c: char) {
    '0' <= c <= '9' || 'a' <= c <= 'f' || 'A' <= c <= 'F'
  }

  // hex.DecodeString succeeds with 32 bytes.
  predicate IsDigest(s: string) {
    |s| == 64 && forall c <- s :: IsHexDigit(c)
  }

  predicate EntryValid(key: string, part: ResumePart, b: Binding) {
    var n := ParseInt(key);
    && n.Some? && 1 <= n.value <= b.partCount
    && part.etag != ""
    && IsDigest(part.sha256)
    && part.size == ExpectedSize(b.size, b.partSize, n.value - 1)
  }

  predicate HeaderValid(s: ResumeState, b: Binding) {
    && s.version == RESUME_VERSION
    && s.binding == b && b.sourceIdentity != "" && b.parentID != ""
    && s.session.docID != "" && s.session.rev != "" && s.session.uploadID != ""
  }

  ghost predicate IsValidFor(s: ResumeState, b: Binding) {
    HeaderValid(s, b) && forall key :: key in s.completed ==> EntryValid(key, s.completed[key], b)
  }

  // What is wrong with an entry: no number, one out of range, no ETag, a digest that is not 32
  // bytes in hexadecimal, or another size than the part has.
  predicate Misfit(key: string, part: ResumePart, b: Binding) {
    || ParseInt(key).None? || ParseInt(key).value < 1 || ParseInt(key).value > b.partCount
    || part.etag == "" || |part.sha256| != 64
    || (exists c | c in part.sha256 :: !('0' <= c <= '9' || 'a' <= c <= 'f' || 'A' <= c <= 'F'))
    || part.size != if b.partSize <= b.size - (ParseInt(key).value - 1) * b.partSize then b.partSize
                    else b.size - (ParseInt(key).value - 1) * b.partSize
  }

  method ValidFor(s: ResumeState, b: Binding) returns (valid: bool)
    ensures valid <==> IsValidFor(s, b)
    // Every field of the header counts, the session's must be there, and each entry must fit.
    ensures s.version != 3 ==> !valid
    ensures s.binding.sourceIdentity == "" || s.binding.sourceIdentity != b.sourceIdentity ==> !valid
    ensures s.binding.size != b.size || s.binding.modTimeNsec != b.modTimeNsec ==> !valid
    ensures s.binding.parentID == "" || s.binding.parentID != b.parentID ==> !valid
    ensures s.binding.encodedLeaf != b.encodedLeaf ==> !valid
    ensures s.binding.existingID != b.existingID || s.binding.existingRev != b.existingRev ==> !valid
    ensures s.binding.partSize != b.partSize || s.binding.partCount != b.partCount ==> !valid
    ensures s.session.docID == "" || s.session.rev == "" || s.session.uploadID == "" ==> !valid
    ensures forall key :: key in s.completed && Misfit(key, s.completed[key], b) ==> !valid
    // And nothing else does.
    ensures
      && s.version == 3 && s.binding == b && b.sourceIdentity != "" && b.parentID != ""
      && s.session.docID != "" && s.session.rev != "" && s.session.uploadID != ""
      && (forall key :: key in s.completed ==> !Misfit(key, s.completed[key], b))
      ==> valid
  {
    if !HeaderValid(s, b) {
      return false;
    }
    var keys := s.completed.Keys;
    while keys != {}
      invariant keys <= s.completed.Keys
      invariant forall key :: key in s.completed && key !in keys ==> EntryValid(key, s.completed[key], b)
    {
      var key :| key in keys;
      if !EntryValid(key, s.completed[key], b) {
        return false;
      }
      keys := keys - {key};
    }
    return true;
  }

  ghost predicate Canonical<T>(parts: map<string, T>, count: int) {
    parts.Keys <= Keys(Span(1, count))
  }

  ghost predicate AllPresent<T>(parts: map<string, T>, count: int) {
    forall n :: 1 <= n <= count ==> Key(n) in parts
  }

  // The bare count test of Close tells that every part is present exactly when all keys are
  // canonical part numbers.
  lemma CountMeansAllPresent<T>(parts: map<string, T>, count: int)
    requires count >= 0 && |parts| == count
    ensures AllPresent(parts, count) <==> Canonical(parts, count)
  {
    var keys := Keys(Span(1, count));
    KeysSize(1, count);
    assert |parts.Keys| == |parts|;
    if Canonical(parts, count) {
      SubsetSize(parts.Keys, keys);
      forall n | 1 <= n <= count
        ensures Key(n) in parts
      {
        assert Key(n) in keys;
      }
    }
    if AllPresent(parts, count) {
      SubsetSize(keys, parts.Keys);
    }
  }

  // validFor alone does not give that: it accepts two spellings of part 1 and no part 2.
  lemma AcceptedStateMissesAPart(s: ResumeState, b: Binding, etag: string, digest: string)
    requires HeaderValid(s, b) && b.partCount == 2 && b.partSize > 0 && b.size >= b.partSize
    requires etag != "" && IsDigest(digest)
    requires var part := ResumePart(etag, b.partSize, digest); s.completed == map["1" := part, "01" := part]
    ensures IsValidFor(s, b)
    ensures |PartInfoOf(s.completed)| == b.partCount && Key(2) !in PartInfoOf(s.completed)
  {
    OtherSpellingsParse();
    ParseFormat(1);
    assert PartInfoOf(s.completed).Keys == {"1", "01"};
    assert |PartInfoOf(s.completed)| == |PartInfoOf(s.completed).Keys|;
    assert Key(2) == "2";
  }

  function TotalSize(info: map<string, PartInfo>, count: nat): int
    requires forall n :: 1 <= n <= count ==> Key(n) in info
  {
    if count == 0 then 0 else TotalSize(info, count - 1) + info[Key(count)].size
  }

  ghost predicate SizesExpected(info: map<string, PartInfo>, b: Binding) {
    forall n :: 1 <= n <= b.partCount && Key(n) in info ==>
      info[Key(n)].size == ExpectedSize(b.size, b.partSize, n - 1)
  }

  lemma {:induction false} TotalIsSum(info: map<string, PartInfo>, b: Binding, count: nat)
    requires AllPresent(info, b.partCount) && SizesExpected(info, b) && count <= b.partCount
    ensures TotalSize(info, count) == SumOfParts(b.size, b.partSize, count)
    decreases count
  {
    if count > 0 {
      TotalIsSum(info, b, count - 1);
    }
  }
}
