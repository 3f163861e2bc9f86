/** What the invariant gives over whole histories of uploads. */
module UploadTheorems {
  import opened Basics
  import opened Decimal
  import opened UploadTypes
  import opened PartSizing
  import opened ResumeRecord
  import opened ResumeStorage
  import opened WriterSteps
  import opened UploadWorld
  import opened UploadInvariant
  import opened UploadSteps

  ghost predicate Reachable(w: World, sha: Hash) {
    exists actions :: w == After(EMPTY_WORLD, actions, sha)
  }

  lemma ReachableInv(w: World, sha: Hash)
    requires Reachable(w, sha)
    ensures Inv(w, sha)
  {
    var actions :| w == After(EMPTY_WORLD, actions, sha);
    HistoryKeeps(actions, sha);
  }

  // ---- The persisted state ----

  // Whatever happened, each completed entry of the saved state names a part PUT under the saved
  // upload ID with that ETag, exactly that size and that digest, and is keyed by its number.
  lemma SavedStateIsBacked(w: World, sha: Hash, key: string)
    requires Reachable(w, sha) && w.file.Saved? && key in w.file.state.completed
    ensures (exists n: nat, p ::
               && 1 <= n <= w.file.state.binding.partCount && key == Key(n) && p in w.server.puts
               && PutMatches(p, w.file.state.session.uploadID, n, w.file.state.completed[key], sha)
               && w.file.state.completed[key].size == ChunkSize(w.file.state.binding, n - 1))
  {
    ReachableInv(w, sha);
    assert PartBacked(w.server, w.file.state, key, w.file.state.completed[key], sha);
  }

  // An upload ID taken up by a refresh has received no part, and the refreshed state claims none.
  lemma RefreshInheritsNothing(w: World, r: RunId, uploadID: string, sha: Hash)
    requires Reachable(w, sha)
    requires r in w.runs && w.runs[r].phase == Signing(true) && uploadID !in w.server.issued && uploadID != ""
    ensures var v := Step(w, Refresh(r, uploadID), sha);
      && v.runs[r].writer.state.session.uploadID == uploadID
      && v.runs[r].writer.state.completed == map[] && v.runs[r].writer.partInfo == map[]
      && forall p :: p in v.server.puts ==> p.uploadID != uploadID
  {
    ReachableInv(w, sha);
  }

  lemma EntryIsValid(s: Server, state: ResumeState, key: string, sha: Hash)
    requires StateInv(s, state, sha) && key in state.completed && state.binding.partCount <= MAX_INT64
    requires forall bytes :: IsDigest(sha(bytes))
    ensures EntryValid(key, state.completed[key], state.binding)
  {
    assert PartBacked(s, state, key, state.completed[key], sha);
    var n: nat, p :| 1 <= n <= state.binding.partCount && key == Key(n) && p in s.puts
      && PutMatches(p, state.session.uploadID, n, state.completed[key], sha)
      && state.completed[key].etag != "" && state.completed[key].size == ChunkSize(state.binding, n - 1);
    ParseFormat(n);
  }

  // A state the code saved is taken up again exactly by a run bound to the same source,
  // destination and part layout.
  lemma SavedStateResumesExactly(w: World, b: Binding, sha: Hash)
    requires Reachable(w, sha) && w.file.Saved? && w.file.state.binding.partCount <= MAX_INT64
    requires forall bytes :: IsDigest(sha(bytes))
    ensures IsValidFor(w.file.state, b) <==> w.file.state.binding == b && b.sourceIdentity != "" && b.parentID != ""
  {
    ReachableInv(w, sha);
    forall key | key in w.file.state.completed
      ensures EntryValid(key, w.file.state.completed[key], w.file.state.binding)
    {
      EntryIsValid(w.server, w.file.state, key, sha);
    }
  }

  // ---- The close gate ----

  lemma KeysAreCanonical(s: Server, run: Run, sha: Hash)
    requires RunningInv(s, run, sha)
    ensures Canonical(run.writer.partInfo, run.binding.partCount) && SizesExpected(run.writer.partInfo, run.binding)
  {
    hide ServerInv, FinishInv, TaskInv, ReadInv;
    var state := run.writer.state;
    forall key | key in run.writer.partInfo
      ensures key in Keys(Span(1, run.binding.partCount))
    {
      assert PartBacked(s, state, key, state.completed[key], sha);
    }
    forall n | 1 <= n <= run.binding.partCount && Key(n) in run.writer.partInfo
      ensures run.writer.partInfo[Key(n)].size == ExpectedSize(run.binding.size, run.binding.partSize, n - 1)
    {
      assert PartBacked(s, state, Key(n), state.completed[Key(n)], sha);
      var m: nat, p :| 1 <= m <= run.binding.partCount && Key(n) == Key(m) && p in s.puts
        && PutMatches(p, state.session.uploadID, m, state.completed[Key(n)], sha)
        && state.completed[Key(n)].etag != "" && state.completed[Key(n)].size == ChunkSize(state.binding, m - 1);
      FormatInjective(n, m);
    }
  }

  // In every reachable writer partinfo agrees with the resume state, its keys are part numbers
  // and its sizes the expected ones.
  lemma WriterMapsAgree(w: World, r: RunId, sha: Hash)
    requires Reachable(w, sha) && Live(w, r)
    ensures w.runs[r].writer.partInfo == PartInfoOf(w.runs[r].writer.state.completed)
    ensures Canonical(w.runs[r].writer.partInfo, w.runs[r].binding.partCount)
    ensures SizesExpected(w.runs[r].writer.partInfo, w.runs[r].binding)
  {
    ReachableInv(w, sha);
    assert RunInv(w.server, w.runs[r], sha);
    KeysAreCanonical(w.server, w.runs[r], sha);
  }

  // So once finalisation has started, every part is present and the sizes add up to the file.
  lemma CloseGate(w: World, r: RunId, count: nat, sha: Hash)
    requires Reachable(w, sha) && Live(w, r) && w.runs[r].writer.closed && count == w.runs[r].binding.partCount
    ensures AllPresent(w.runs[r].writer.partInfo, count)
    ensures TotalSize(w.runs[r].writer.partInfo, count) == w.runs[r].binding.size
  {
    ReachableInv(w, sha);
    var run := w.runs[r];
    assert RunInv(w.server, run, sha);
    WriterMapsAgree(w, r, sha);
    var b := run.binding;
    CountWithin(b.size, b.partSize, b.partCount);
    CountMeansAllPresent(run.writer.partInfo, count);
    TotalIsSum(run.writer.partInfo, b, count);
    PartsTile(b.size, b.partSize, count);
  }

  // ---- Content ----

  // When a completion is accepted, each part the server has carries the digest of every read of
  // that part that this run reported as written.
  lemma AcceptedPartsMatchReads(w: World, r: RunId, n: nat, bytes: Bytes, sha: Hash)
    requires Reachable(w, sha) && Step(w, Complete(r), sha) != w
    requires (n, bytes) in w.runs[r].accepted
    ensures var final := Step(w, Complete(r), sha).finals[|w.finals|];
      && n in final.parts && sha(final.parts[n]) == sha(bytes) && |final.parts[n]| == |bytes|
      && exists p :: p in w.server.puts && p.bytes == final.parts[n]
  {
    ReachableInv(w, sha);
    var run := w.runs[r];
    var state := run.writer.state;
    assert RunInv(w.server, run, sha);
    assert ReadInv(run.writer, n, bytes, sha);
    StoredPartMatches(w.server, run, n, sha);
  }

  lemma StoredPartMatches(s: Server, run: Run, n: nat, sha: Hash)
    requires ServerInv(s) && RunningInv(s, run, sha) && run.finish.Finalising?
    requires 1 <= n <= run.binding.partCount && Key(n) in run.writer.state.completed
    requires StoredEtagsMatch(s, run.writer.state.session.uploadID, run.finish.info, run.binding.partCount)
    ensures Key(n) in run.finish.info && (run.writer.state.session.uploadID, n) in s.stored
    ensures s.stored[(run.writer.state.session.uploadID, n)] in s.puts
    ensures sha(s.stored[(run.writer.state.session.uploadID, n)].bytes) == run.writer.state.completed[Key(n)].sha256
    ensures |s.stored[(run.writer.state.session.uploadID, n)].bytes| == ChunkSize(run.binding, n - 1)
  {
    hide TaskInv, ReadInv;
    var state := run.writer.state;
    var id := state.session.uploadID;
    var part := state.completed[Key(n)];
    assert PartBacked(s, state, Key(n), part, sha);
    var m: nat, p :| 1 <= m <= state.binding.partCount && Key(n) == Key(m) && p in s.puts
      && PutMatches(p, id, m, part, sha) && part.etag != "" && part.size == ChunkSize(state.binding, m - 1);
    FormatInjective(n, m);
    assert run.finish.info[Key(n)] == PartInfo(part.etag, part.size);
    var q := s.stored[(id, n)];
    assert q in s.puts && EtagTells(s.puts, p);
  }

  // No part the server ever received has the digest of a part of the source without being it.
  ghost predicate NoCollision(s: Server, source: map<nat, Bytes>, sha: Hash) {
    forall p, n :: p in s.puts && n in source && sha(p.bytes) == sha(source[n]) ==> p.bytes == source[n]
  }

  function Joined(parts: map<nat, Bytes>, count: nat): Bytes
    requires forall n :: 1 <= n <= count ==> n in parts
  {
    if count == 0 then [] else Joined(parts, count - 1) + parts[count]
  }

  // `source` is what a run read: some accepted read for each part.
  ghost predicate ReadInFull(run: Run, source: map<nat, Bytes>) {
    forall n :: 1 <= n <= run.binding.partCount ==> n in source && (n, source[n]) in run.accepted
  }

  lemma {:induction false} JoinedSame(a: map<nat, Bytes>, b: map<nat, Bytes>, count: nat)
    requires forall n :: 1 <= n <= count ==> n in a && n in b && a[n] == b[n]
    ensures Joined(a, count) == Joined(b, count)
    decreases count
  {
    if count > 0 {
      JoinedSame(a, b, count - 1);
    }
  }

  lemma {:induction false} JoinedSize(parts: map<nat, Bytes>, b: Binding, count: nat)
    requires forall n :: 1 <= n <= count ==> n in parts && |parts[n]| == ChunkSize(b, n - 1)
    ensures |Joined(parts, count)| == SumOfParts(b.size, b.partSize, count)
    decreases count
  {
    if count > 0 {
      JoinedSize(parts, b, count - 1);
    }
  }

  // The main theorem: over any history, if in the last run every chunk's WriteChunk succeeded
  // and the server accepts the completion, then unless a digest collides the object it puts
  // together is, byte for byte, the source as that run read it, of the announced size.
  lemma CompletedObjectIsTheSource(w: World, r: RunId, source: map<nat, Bytes>, count: nat, sha: Hash)
    requires Reachable(w, sha) && Step(w, Complete(r), sha) != w && count == w.runs[r].binding.partCount
    requires ReadInFull(w.runs[r], source) && NoCollision(w.server, source, sha)
    ensures var final := Step(w, Complete(r), sha).finals[|w.finals|];
      && (forall n :: 1 <= n <= count ==> n in final.parts)
      && Joined(final.parts, count) == Joined(source, count)
      && |Joined(final.parts, count)| == w.runs[r].binding.size
  {
    ReachableInv(w, sha);
    var run := w.runs[r];
    var b := run.binding;
    var final := Step(w, Complete(r), sha).finals[|w.finals|];
    hide Step;
    assert RunInv(w.server, run, sha);
    forall n | 1 <= n <= count
      ensures n in final.parts && final.parts[n] == source[n] && |source[n]| == ChunkSize(b, n - 1)
    {
      AcceptedPartsMatchReads(w, r, n, source[n], sha);
      assert ReadInv(run.writer, n, source[n], sha);
    }
    CountWithin(b.size, b.partSize, b.partCount);
    JoinedSame(final.parts, source, count);
    JoinedSize(source, b, count);
    PartsTile(b.size, b.partSize, count);
  }

  // A session, resumed or refreshed however often, is completed for the existing ID and
  // revision it was started for, and that revision is the one sent with the completion.
  lemma CompletedForItsOrigin(w: World, r: RunId, sha: Hash)
    requires Reachable(w, sha) && Step(w, Complete(r), sha) != w
    ensures var final := Step(w, Complete(r), sha).finals[|w.finals|];
      var id := w.runs[r].writer.state.session.uploadID;
      && id in w.server.issued && final.origin == w.server.issued[id]
      && final.origin.existingID == w.runs[r].binding.existingID
      && final.origin.existingRev == w.runs[r].binding.existingRev == final.editedRev
  {
    ReachableInv(w, sha);
    assert RunInv(w.server, w.runs[r], sha);
  }
}
