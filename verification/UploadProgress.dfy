/** Uploads do get done: for every file and every place to crash there is a history that completes it. */
module UploadProgress {
  import opened Basics
  import opened Decimal
  import opened UploadTypes
  import opened PartSizing
  import opened ResumeRecord
  import opened ResumeStorage
  import opened WriterSteps
  import opened UploadWorld
  import opened UploadInvariant
  import opened UploadTheorems
  import opened UploadLifecycle

  // The parts of a file, each of the size its place asks for.
  ghost predicate SourceOf(source: map<nat, Bytes>, b: Binding) {
    forall n :: 1 <= n <= b.partCount ==> n in source && |source[n]| == ChunkSize(b, n - 1)
  }

  // Run r holds the lock, its first `done` parts are completed and saved, it has accepted reads
  // of its first `read` parts, and nothing else is going on.
  ghost predicate Halfway(w: World, r: RunId, b: Binding, source: map<nat, Bytes>, done: nat, read: nat, sha: Hash) {
    && Live(w, r) && read <= done
    && var run := w.runs[r];
      && run.binding == b && run.storeEnabled && !run.released && run.tasks == map[] && run.finish.NotClosing?
      && run.writer.state.binding == b && !run.writer.closed && !run.writer.aborted
      && run.writer.state.completed.Keys == Keys(Span(1, done)) == run.writer.partInfo.Keys
      && w.file == Saved(run.writer.state)
      && (forall n :: 1 <= n <= read ==> n in source && (n, source[n]) in run.accepted)
      && Kept(w.server, run.writer, source, done, sha)
  }

  ghost predicate Kept(s: Server, writer: Writer, source: map<nat, Bytes>, done: nat, sha: Hash) {
    && (forall p :: p in s.puts ==> p.part <= done && p.part in source && p.bytes == source[p.part])
    && forall n :: 1 <= n <= done ==>
         && n in source && Key(n) in writer.partInfo && Key(n) in writer.state.completed
         && writer.state.completed[Key(n)].sha256 == sha(source[n])
         && (writer.state.session.uploadID, n) in s.stored
         && s.stored[(writer.state.session.uploadID, n)].etag == writer.partInfo[Key(n)].etag
  }

  lemma ReachableStep(w: World, a: Action, sha: Hash)
    requires Reachable(w, sha)
    ensures Reachable(Step(w, a, sha), sha)
  {
    hide Step, Reachable;
    ReachableOn(w, [a], sha);
    assert [a][..0] == [];
    assert After(w, [], sha) == w;
  }

  lemma NextKeyIsNew(k: nat)
    ensures Key(k + 1) !in Keys(Span(1, k))
    ensures Keys(Span(1, k)) + {Key(k + 1)} == Keys(Span(1, k + 1))
    ensures forall n: nat :: Key(n) == Key(k + 1) ==> n == k + 1
  {
    hide Key;
    forall n: nat | Key(n) == Key(k + 1)
      ensures n == k + 1
    {
      SameNumber(n, k + 1);
    }
  }

  // A first run that nothing has happened to.
  function At(b: Binding, phase: Phase, writer: Writer, issued: map<string, Origin>, file: File): World {
    World(Server(issued, {}, map[]), file, Some(0),
          map[0 := Run(b, true, false, phase, writer, map[], NotClosing, 0, {}, {}, {})], [])
  }

  lemma OpensFresh(b: Binding, session: Session, sha: Hash)
    requires WellFormed(b) && session.docID != "" && session.rev != "" && session.uploadID != ""
    ensures var blank, writer := Fresh(b, Session("", "", "")), Fresh(b, session);
      var issued := map[session.uploadID := OriginOf(writer.state)];
      && Step(EMPTY_WORLD, Open(0, b, true), sha) == At(b, Loading, blank, map[], NoFile)
      && Step(At(b, Loading, blank, map[], NoFile), Load(0, true), sha) == At(b, Starting, blank, map[], NoFile)
      && Step(At(b, Starting, blank, map[], NoFile), Start(0, session), sha) == At(b, Saving, writer, issued, NoFile)
      && Step(At(b, Saving, writer, issued, NoFile), Save(0, SaveDone), sha)
         == At(b, Signing(false), writer, issued, Saved(writer.state))
  {
  }

  lemma HandsOut(b: Binding, writer: Writer, issued: map<string, Origin>, file: File, sha: Hash)
    requires b.partCount >= 0 && writer.state.completed == map[]
    ensures Step(At(b, Signing(false), writer, issued, file), Sign(0, Keys(Span(1, b.partCount))), sha)
         == At(b, Running, writer, issued, file)
  {
    var run := At(b, Signing(false), writer, issued, file).runs[0];
    assert EachPartReady(run, Keys(Span(1, b.partCount)));
    assert writer.state.completed.Keys == {};
    assert map[0 := run][0 := run.(phase := Running)] == map[0 := run.(phase := Running)];
  }

  lemma BlankIsHalfway(b: Binding, session: Session, issued: map<string, Origin>, source: map<nat, Bytes>, sha: Hash)
    ensures Halfway(At(b, Running, Fresh(b, session), issued, Saved(Fresh(b, session).state)), 0, b, source, 0, 0, sha)
  {
    assert Keys(Span(1, 0)) == {};
  }

  // A fresh run on an empty world.
  lemma Begin(b: Binding, session: Session, source: map<nat, Bytes>, sha: Hash) returns (w: World)
    requires WellFormed(b) && session.docID != "" && session.rev != "" && session.uploadID != ""
    ensures Reachable(w, sha) && Halfway(w, 0, b, source, 0, 0, sha) && w.runs.Keys == {0}
  {
    assert After(EMPTY_WORLD, [], sha) == EMPTY_WORLD;
    assert Reachable(EMPTY_WORLD, sha);
    OpensFresh(b, session, sha);
    hide Reachable, Step, PartCount, At, Halfway;
    var writer := Fresh(b, session);
    var issued := map[session.uploadID := OriginOf(writer.state)];
    HandsOut(b, writer, issued, Saved(writer.state), sha);
    ReachableStep(EMPTY_WORLD, Open(0, b, true), sha);
    w := Step(EMPTY_WORLD, Open(0, b, true), sha);
    ReachableStep(w, Load(0, true), sha);
    w := Step(w, Load(0, true), sha);
    ReachableStep(w, Start(0, session), sha);
    w := Step(w, Start(0, session), sha);
    ReachableStep(w, Save(0, SaveDone), sha);
    w := Step(w, Save(0, SaveDone), sha);
    ReachableStep(w, Sign(0, Keys(Span(1, b.partCount))), sha);
    w := At(b, Running, writer, issued, Saved(writer.state));
    BlankIsHalfway(b, session, issued, source, sha);
    OneRun(b, Running, writer, issued, Saved(writer.state));
  }

  lemma OneRun(b: Binding, phase: Phase, writer: Writer, issued: map<string, Origin>, file: File)
    ensures At(b, phase, writer, issued, file).runs.Keys == {0}
  {
  }

  // ---- Writing one part ----

  lemma EnterForUpload(w: World, r: RunId, b: Binding, source: map<nat, Bytes>, done: nat, sha: Hash)
    requires Halfway(w, r, b, source, done, done, sha) && done < b.partCount
    ensures Step(w, Enter(r, done), sha) == With(w, r, w.runs[r].(tasks := map[done := Uploading]))
  {
    hide Kept, Key, Span;
    NextKeyIsNew(done);
    assert w.runs[r].tasks[done := Uploading] == map[done := Uploading];
  }

  function Upload(w: World, r: RunId, chunk: nat, bytes: Bytes): Put
    requires r in w.runs
  {
    Put(w.runs[r].writer.state.session.uploadID, chunk + 1, "etag", bytes)
  }

  lemma PutsIt(w: World, r: RunId, chunk: nat, bytes: Bytes, sha: Hash)
    requires Live(w, r) && w.runs[r].tasks == map[chunk := Uploading]
    requires |bytes| == ChunkSize(w.runs[r].binding, chunk) && forall p :: p in w.server.puts ==> p.part <= chunk
    ensures Step(w, PutPart(r, chunk, bytes, "etag"), sha)
         == With(w.(server := Accept(w.server, Upload(w, r, chunk, bytes))), r,
                 w.runs[r].(tasks := map[chunk := Uploaded("etag", bytes)]))
  {
    hide ChunkSize, Accept;
    assert w.runs[r].tasks[chunk := Uploaded("etag", bytes)] == map[chunk := Uploaded("etag", bytes)];
  }

  lemma CommitsIt(w: World, r: RunId, chunk: nat, bytes: Bytes, sha: Hash)
    requires Live(w, r) && w.runs[r].tasks == map[chunk := Uploaded("etag", bytes)] && w.runs[r].storeEnabled
    requires !w.runs[r].writer.closed && !w.runs[r].writer.aborted
    ensures var run, writer := w.runs[r], CommitPart(w.runs[r].writer, chunk, "etag", sha(bytes));
      Step(w, Commit(r, chunk, SaveDone), sha)
      == With(w.(file := Saved(writer.state)), r,
              run.(tasks := map[], writer := writer, accepted := run.accepted + {(chunk + 1, bytes)},
                   uploaded := run.uploaded + {ChunkKey(chunk)}))
  {
    hide CommitPart, Key;
    assert w.runs[r].tasks - {chunk} == map[];
  }

  lemma KeptGrows(s: Server, writer: Writer, source: map<nat, Bytes>, done: nat, sha: Hash)
    requires Kept(s, writer, source, done, sha) && done + 1 in source && !writer.closed && !writer.aborted
    ensures Kept(
      Accept(s, Put(writer.state.session.uploadID, done + 1, "etag", source[done + 1])),
      CommitPart(writer, done, "etag", sha(source[done + 1])), source, done + 1, sha)
  {
    hide Key, ChunkSize;
    forall n: nat | n <= done
      ensures Key(n) != Key(done + 1)
    {
      if Key(n) == Key(done + 1) {
        SameNumber(n, done + 1);
      }
    }
  }

  lemma WritePart(w: World, r: RunId, b: Binding, source: map<nat, Bytes>, done: nat, sha: Hash) returns (v: World)
    requires Reachable(w, sha) && Halfway(w, r, b, source, done, done, sha) && done < b.partCount && SourceOf(source, b)
    ensures Reachable(v, sha) && Halfway(v, r, b, source, done + 1, done + 1, sha)
    ensures v.runs.Keys == w.runs.Keys && v.runs[r].resumed == w.runs[r].resumed
  {
    assert forall p :: p in w.server.puts ==> p.part <= done;
    hide Reachable, Step, Key, Span, ChunkSize, Accept, CommitPart, Kept;
    var bytes := source[done + 1];
    EnterForUpload(w, r, b, source, done, sha);
    ReachableStep(w, Enter(r, done), sha);
    v := Step(w, Enter(r, done), sha);
    PutsIt(v, r, done, bytes, sha);
    ReachableStep(v, PutPart(r, done, bytes, "etag"), sha);
    v := Step(v, PutPart(r, done, bytes, "etag"), sha);
    CommitsIt(v, r, done, bytes, sha);
    ReachableStep(v, Commit(r, done, SaveDone), sha);
    v := Step(v, Commit(r, done, SaveDone), sha);
    CommittedIsHalfway(w, v, r, b, source, done, sha);
  }

  lemma CommittedIsHalfway(w: World, v: World, r: RunId, b: Binding, source: map<nat, Bytes>, done: nat, sha: Hash)
    requires Halfway(w, r, b, source, done, done, sha) && r in v.runs && done + 1 in source
    requires var run, writer := w.runs[r], CommitPart(w.runs[r].writer, done, "etag", sha(source[done + 1]));
      && v.server == Accept(w.server, Upload(w, r, done, source[done + 1])) && v.file == Saved(writer.state)
      && v.runs[r] == run.(tasks := map[], writer := writer, accepted := run.accepted + {(done + 1, source[done + 1])},
                           uploaded := run.uploaded + {ChunkKey(done)})
    ensures Halfway(v, r, b, source, done + 1, done + 1, sha)
  {
    hide Key, Span, ChunkSize, Accept, CommitPart, Kept;
    KeptGrows(w.server, w.runs[r].writer, source, done, sha);
    NextKeyIsNew(done);
    CommitAdds(w.runs[r].writer, done, "etag", sha(source[done + 1]));
  }

  lemma CommitAdds(writer: Writer, chunk: nat, etag: string, digest: string)
    requires !writer.closed && !writer.aborted
    ensures var next := CommitPart(writer, chunk, etag, digest);
      && next.state.binding == writer.state.binding && !next.closed && !next.aborted
      && next.state.completed.Keys == writer.state.completed.Keys + {Key(chunk + 1)}
      && next.partInfo.Keys == writer.partInfo.Keys + {Key(chunk + 1)}
  {
  }

  // ---- Verifying one part ----

  lemma VerifyPart(
      w: World, r: RunId, b: Binding, source: map<nat, Bytes>, done: nat, read: nat, sha: Hash) returns (v: World)
    requires Reachable(w, sha) && Halfway(w, r, b, source, done, read, sha)
    requires read < done <= b.partCount && SourceOf(source, b)
    ensures Reachable(v, sha) && Halfway(v, r, b, source, done, read + 1, sha)
    ensures v.runs.Keys == w.runs.Keys && v.runs[r].resumed == w.runs[r].resumed
  {
    hide Reachable, Step, Key, Span, ChunkSize;
    var bytes, part := source[read + 1], w.runs[r].writer.state.completed[ChunkKey(read)];
    EnterForVerify(w, r, read, sha);
    ReachableStep(w, Enter(r, read), sha);
    v := Step(w, Enter(r, read), sha);
    VerifiesIt(v, r, read, bytes, part, sha);
    ReachableStep(v, Verify(r, read, bytes), sha);
    v := Step(v, Verify(r, read, bytes), sha);
  }

  lemma EnterForVerify(w: World, r: RunId, chunk: nat, sha: Hash)
    requires Live(w, r) && w.runs[r].tasks == map[] && chunk < w.runs[r].writer.state.binding.partCount
    requires !w.runs[r].writer.closed && !w.runs[r].writer.aborted
    requires ChunkKey(chunk) in w.runs[r].writer.state.completed
    ensures Step(w, Enter(r, chunk), sha)
         == With(w, r, w.runs[r].(tasks := map[chunk := Verifying(w.runs[r].writer.state.completed[ChunkKey(chunk)])]))
  {
    hide Key;
    var part := w.runs[r].writer.state.completed[ChunkKey(chunk)];
    assert w.runs[r].tasks[chunk := Verifying(part)] == map[chunk := Verifying(part)];
  }

  lemma VerifiesIt(w: World, r: RunId, chunk: nat, bytes: Bytes, part: ResumePart, sha: Hash)
    requires Live(w, r) && w.runs[r].tasks == map[chunk := Verifying(part)] && part.sha256 == sha(bytes)
    requires |bytes| == ChunkSize(w.runs[r].binding, chunk)
    ensures Step(w, Verify(r, chunk, bytes), sha)
         == With(w, r, w.runs[r].(tasks := map[], accepted := w.runs[r].accepted + {(chunk + 1, bytes)}))
  {
    hide ChunkSize;
    assert w.runs[r].tasks - {chunk} == map[];
  }

  // ---- All of them, and the end ----

  lemma {:induction false} WriteUpTo(
      w: World, r: RunId, b: Binding, source: map<nat, Bytes>, done: nat, read: nat, to: nat, sha: Hash)
    returns (v: World)
    requires Reachable(w, sha) && Halfway(w, r, b, source, done, read, sha) && read <= to && done <= to <= b.partCount
    requires SourceOf(source, b)
    ensures Reachable(v, sha) && Halfway(v, r, b, source, to, to, sha)
    ensures v.runs.Keys == w.runs.Keys && v.runs[r].resumed == w.runs[r].resumed
    decreases (to as int) - (read as int)
  {
    hide Reachable, SourceOf;
    assert read <= done;
    v := w;
    if read < to {
      hide Halfway;
      var next;
      if read < done {
        next := VerifyPart(w, r, b, source, done, read, sha);
        v := WriteUpTo(next, r, b, source, done, read + 1, to, sha);
      } else {
        next := WritePart(w, r, b, source, done, sha);
        v := WriteUpTo(next, r, b, source, done + 1, read + 1, to, sha);
      }
    }
  }

  lemma Finishes(w: World, r: RunId, b: Binding, source: map<nat, Bytes>, count: nat, sha: Hash) returns (v: World)
    requires Reachable(w, sha) && Halfway(w, r, b, source, count, count, sha) && count == b.partCount
    ensures Reachable(v, sha) && Step(v, Complete(r), sha) != v
    ensures ReadInFull(v.runs[r], source) && v.runs[r].resumed == w.runs[r].resumed
    ensures v.runs[r].binding == b && Kept(v.server, v.runs[r].writer, source, count, sha)
  {
    hide Reachable, Key, Span;
    ReachableStep(w, CloseBegins(r), sha);
    AllKeys(w.runs[r].writer, count);
    v := Step(w, CloseBegins(r), sha);
    CompletesWhenKept(v, r, source, count, sha);
  }

  lemma AllKeys(writer: Writer, count: nat)
    requires writer.partInfo.Keys == Keys(Span(1, count))
    ensures |writer.partInfo| == count
  {
    KeysSize(1, count);
    assert |writer.partInfo| == |writer.partInfo.Keys|;
  }

  lemma CompletesWhenKept(w: World, r: RunId, source: map<nat, Bytes>, count: nat, sha: Hash)
    requires Live(w, r) && w.runs[r].finish == Finalising(w.runs[r].writer.partInfo)
    requires w.runs[r].binding.partCount == count
    requires Kept(w.server, w.runs[r].writer, source, count, sha)
    ensures Step(w, Complete(r), sha) != w
  {
    hide Key;
    var v := Step(w, Complete(r), sha);
    assert |v.finals| == |w.finals| + 1;
  }

  // ---- A crash in between ----

  // What a crash leaves: the file and the server, and a free lock.
  ghost predicate Left(w: World, state: ResumeState, s: Server) {
    w.holder == None && w.file == Saved(state) && w.server == s && w.runs.Keys == {0}
  }

  lemma CrashLeaves(w: World, sha: Hash)
    requires Inv(w, sha) && Live(w, 0) && w.runs[0].storeEnabled && !w.runs[0].released
    requires w.file == Saved(w.runs[0].writer.state) && w.runs.Keys == {0}
    ensures Left(Step(w, Crash(0), sha), w.runs[0].writer.state, w.server)
  {
    hide ServerInv, FileInv, RunInv;
  }

  function Reopened(b: Binding, phase: Phase, writer: Writer, resumed: set<string>): Run {
    Run(b, true, false, phase, writer, map[], NotClosing, 0, {}, resumed, {})
  }

  lemma OpensAgain(w: World, b: Binding, state: ResumeState, s: Server, sha: Hash)
    requires Left(w, state, s) && WellFormed(b)
    ensures var v := Step(w, Open(1, b, true), sha);
      && v.file == Saved(state) && v.server == s && v.runs.Keys == {0, 1}
      && v.runs[1] == Reopened(b, Loading, Fresh(b, Session("", "", "")), {})
  {
  }

  lemma LoadsSaved(w: World, b: Binding, state: ResumeState, s: Server, blank: Writer, sha: Hash)
    requires w.file == Saved(state) && w.server == s && IsValidFor(state, b)
    requires 1 in w.runs && w.runs[1] == Reopened(b, Loading, blank, {})
    ensures Step(w, Load(1, true), sha) == With(w, 1, Reopened(b, Signing(true), Resumed(state), {}))
  {
    hide IsValidFor;
  }

  lemma HandsOutAgain(w: World, b: Binding, state: ResumeState, sha: Hash)
    requires b.partCount >= 0 && 1 in w.runs && w.runs[1] == Reopened(b, Signing(true), Resumed(state), {})
    ensures Step(w, Sign(1, Keys(Span(1, b.partCount))), sha)
         == With(w, 1, Reopened(b, Running, Resumed(state), state.completed.Keys))
  {
    hide Key;
    assert EachPartReady(w.runs[1], Keys(Span(1, b.partCount)));
  }

  lemma ResumedIsHalfway(
      w: World, b: Binding, state: ResumeState, was: Writer, source: map<nat, Bytes>, done: nat, sha: Hash)
    requires 1 in w.runs && w.runs[1] == Reopened(b, Running, Resumed(state), state.completed.Keys)
    requires w.file == Saved(state) && state.binding == b
    requires state == was.state && was.partInfo == PartInfoOf(state.completed)
    requires state.completed.Keys == Keys(Span(1, done)) && Kept(w.server, was, source, done, sha)
    ensures Halfway(w, 1, b, source, done, 0, sha)
  {
    hide Key;
  }

  lemma CrashAndOpen(w: World, b: Binding, source: map<nat, Bytes>, done: nat, sha: Hash) returns (v: World)
    requires Reachable(w, sha) && Halfway(w, 0, b, source, done, done, sha) && w.runs.Keys == {0} && WellFormed(b)
    requires IsValidFor(w.runs[0].writer.state, b)
    ensures Reachable(v, sha) && Halfway(v, 1, b, source, done, 0, sha) && v.runs[1].resumed == Keys(Span(1, done))
  {
    ReachableInv(w, sha);
    WriterMapsAgree(w, 0, sha);
    hide Reachable, Key, Span, Kept, IsValidFor, PartInfoOf, Inv, Step;
    var writer := w.runs[0].writer;
    CrashLeaves(w, sha);
    ReachableStep(w, Crash(0), sha);
    v := Step(w, Crash(0), sha);
    OpensAgain(v, b, writer.state, w.server, sha);
    ReachableStep(v, Open(1, b, true), sha);
    v := Step(v, Open(1, b, true), sha);
    LoadsSaved(v, b, writer.state, w.server, Fresh(b, Session("", "", "")), sha);
    ReachableStep(v, Load(1, true), sha);
    v := Step(v, Load(1, true), sha);
    LayoutFits(b);
    HandsOutAgain(v, b, writer.state, sha);
    ReachableStep(v, Sign(1, Keys(Span(1, b.partCount))), sha);
    v := Step(v, Sign(1, Keys(Span(1, b.partCount))), sha);
    ResumedIsHalfway(v, b, writer.state, writer, source, done, sha);
  }

  lemma LayoutFits(b: Binding)
    requires WellFormed(b)
    ensures b.partCount >= 0
  {
    hide PartCount;
    CountWithin(b.size, b.partSize, b.partCount);
  }

  // A first run dies after `done` parts and a second one takes its session up.
  lemma CrashedRunResumes(b: Binding, session: Session, source: map<nat, Bytes>, done: nat, sha: Hash)
    returns (w: World)
    requires WellFormed(b) && b.sourceIdentity != "" && b.parentID != "" && done <= b.partCount <= MAX_INT64
    requires session.docID != "" && session.rev != "" && session.uploadID != ""
    requires (forall bytes :: IsDigest(sha(bytes))) && SourceOf(source, b)
    ensures Reachable(w, sha) && Halfway(w, 1, b, source, done, 0, sha) && w.runs[1].resumed == Keys(Span(1, done))
  {
    hide Reachable, Step, Kept, IsValidFor, SourceOf, PartCount, Keys;
    w := Begin(b, session, source, sha);
    w := WriteUpTo(w, 0, b, source, 0, 0, done, sha);
    SavedStateResumesExactly(w, b, sha);
    w := CrashAndOpen(w, b, source, done, sha);
  }

  // Whatever the source, the layout and the part after which the first run dies, a second run
  // can take the session up, verify what was done, PUT the rest and complete.
  lemma CrashedUploadCanFinish(
      b: Binding, session: Session, source: map<nat, Bytes>, done: nat, count: nat, sha: Hash) returns (w: World)
    requires WellFormed(b) && b.sourceIdentity != "" && b.parentID != "" && count == b.partCount <= MAX_INT64
    requires session.docID != "" && session.rev != "" && session.uploadID != ""
    requires (forall bytes :: IsDigest(sha(bytes))) && SourceOf(source, b) && done <= count
    ensures Reachable(w, sha) && Step(w, Complete(1), sha) != w
    ensures ReadInFull(w.runs[1], source) && w.runs[1].resumed == Keys(Span(1, done)) && w.runs[1].binding == b
    ensures Kept(w.server, w.runs[1].writer, source, count, sha)
  {
    hide Reachable, Step, Kept, ReadInFull, IsValidFor, SourceOf, PartCount, Keys;
    w := CrashedRunResumes(b, session, source, done, sha);
    w := WriteUpTo(w, 1, b, source, done, 0, count, sha);
    w := Finishes(w, 1, b, source, count, sha);
  }

  // A mismatch found after Close has begun is real: a resumed run with all parts completed enters
  // the first chunk, Close begins, and only then the chunk turns out to have changed.  The
  // session is invalidated and completed all the same.
  lemma LateMismatchHappens(
      b: Binding, session: Session, source: map<nat, Bytes>, changed: Bytes, count: nat, sha: Hash) returns (w: World)
    requires WellFormed(b) && b.sourceIdentity != "" && b.parentID != "" && count == b.partCount <= MAX_INT64
    requires session.docID != "" && session.rev != "" && session.uploadID != ""
    requires (forall bytes :: IsDigest(sha(bytes))) && SourceOf(source, b)
    requires 1 in source && |changed| == |source[1]| && sha(changed) != sha(source[1])
    ensures Reachable(w, sha) && HasTask(w, 1, 0) && w.runs[1].tasks[0].Verifying?
    ensures w.runs[1].tasks[0].part.sha256 == sha(source[1]) && |changed| == ChunkSize(w.runs[1].binding, 0)
    ensures var v := Step(w, Verify(1, 0, changed), sha);
      && Reachable(v, sha) && Invalidated(v, 1)
      && |Step(v, Complete(1), sha).finals| == |v.finals| + 1
  {
    HasAPart(b);
    assert |source[1]| == ChunkSize(b, 0);
    hide Reachable, Step, SourceOf, PartCount, Keys, ChunkSize, StoredEtagsMatch, Halfway, IsDigest, Key;
    w := CrashedRunResumes(b, session, source, count, sha);
    w := ClosesWhileVerifying(w, b, source, count, sha);
    LateMismatchDoesNotStopClose(w, 1, 0, changed, sha);
    ReachableStep(w, Verify(1, 0, changed), sha);
    VerifyKeepsFinals(w, 1, changed, sha);
  }

  lemma ClosesWhileVerifying(w: World, b: Binding, source: map<nat, Bytes>, count: nat, sha: Hash) returns (v: World)
    requires Reachable(w, sha) && Halfway(w, 1, b, source, count, 0, sha) && count == b.partCount >= 1
    ensures Reachable(v, sha) && HasTask(v, 1, 0) && v.runs[1].tasks[0].Verifying? && v.runs[1].binding == b
    ensures 1 in source && v.runs[1].tasks[0].part.sha256 == sha(source[1]) && v.runs[1].finish.Finalising?
    ensures StoredEtagsMatch(
      v.server, v.runs[1].writer.state.session.uploadID, v.runs[1].finish.info, v.runs[1].binding.partCount)
  {
    hide Reachable, Step, Keys, ChunkSize, StoredEtagsMatch, Key;
    EnterForVerify(w, 1, 0, sha);
    ReachableStep(w, Enter(1, 0), sha);
    AllKeys(w.runs[1].writer, count);
    var u := Step(w, Enter(1, 0), sha);
    ClosesOpen(u, 1, sha);
    ReachableStep(u, CloseBegins(1), sha);
    v := Step(u, CloseBegins(1), sha);
    KeptIsStored(v, 1, source, count, sha);
  }

  lemma HasAPart(b: Binding)
    requires WellFormed(b)
    ensures b.partCount >= 1
  {
    hide PartCount;
    CountWithin(b.size, b.partSize, 0);
  }

  lemma ClosesOpen(w: World, r: RunId, sha: Hash)
    requires Live(w, r) && !w.runs[r].writer.closed && !w.runs[r].writer.aborted
    requires |w.runs[r].writer.partInfo| == w.runs[r].writer.state.binding.partCount
    ensures var run := w.runs[r];
      Step(w, CloseBegins(r), sha)
      == With(w, r, run.(writer := BeginClose(run.writer), finish := Finalising(run.writer.partInfo)))
  {
  }

  lemma KeptIsStored(w: World, r: RunId, source: map<nat, Bytes>, count: nat, sha: Hash)
    requires r in w.runs && w.runs[r].finish == Finalising(w.runs[r].writer.partInfo)
    requires w.runs[r].binding.partCount == count && Kept(w.server, w.runs[r].writer, source, count, sha)
    ensures StoredEtagsMatch(
      w.server, w.runs[r].writer.state.session.uploadID, w.runs[r].finish.info, w.runs[r].binding.partCount)
  {
    hide Key;
  }

  lemma VerifyKeepsFinals(w: World, r: RunId, bytes: Bytes, sha: Hash)
    ensures Step(w, Verify(r, 0, bytes), sha).finals == w.finals
  {
  }

  // The digest tells the parts of the file apart.
  ghost predicate TellsApart(sha: Hash, source: map<nat, Bytes>) {
    forall m, n :: m in source && n in source && sha(source[m]) == sha(source[n]) ==> source[m] == source[n]
  }

  // Both results together: with digests of the kind validFor accepts, which tell the parts of
  // the file apart, the upload that crashed and was resumed completes, and the object is the file.
  lemma CrashedUploadIsTheSource(
      b: Binding, session: Session, source: map<nat, Bytes>, done: nat, count: nat, sha: Hash) returns (w: World)
    requires WellFormed(b) && b.sourceIdentity != "" && b.parentID != "" && count == b.partCount <= MAX_INT64
    requires session.docID != "" && session.rev != "" && session.uploadID != ""
    requires (forall bytes :: IsDigest(sha(bytes))) && SourceOf(source, b) && done <= count
    requires TellsApart(sha, source)
    ensures Reachable(w, sha) && 1 in w.runs && w.runs[1].resumed == Keys(Span(1, done))
    ensures NoCollision(w.server, source, sha) && Step(w, Complete(1), sha) != w
    ensures var final := Step(w, Complete(1), sha).finals[|w.finals|];
      && (forall n :: 1 <= n <= count ==> n in final.parts)
      && Joined(final.parts, count) == Joined(source, count)
      && |Joined(final.parts, count)| == b.size
  {
    w := CrashedUploadCanFinish(b, session, source, done, count, sha);
    hide Reachable, Step, ReadInFull, SourceOf, PartCount, Keys, IsDigest;
    KeptTellsApart(w.server, w.runs[1].writer, source, count, sha);
    CompletedObjectIsTheSource(w, 1, source, count, sha);
  }

  lemma KeptTellsApart(s: Server, writer: Writer, source: map<nat, Bytes>, count: nat, sha: Hash)
    requires Kept(s, writer, source, count, sha) && TellsApart(sha, source)
    ensures NoCollision(s, source, sha)
  {
  }
}
