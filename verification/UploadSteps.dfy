/** Each step keeps the invariant. */
module UploadSteps {
  import opened Basics
  import Decimal
  import opened UploadTypes
  import opened PartSizing
  import opened ResumeRecord
  import opened ResumeStorage
  import opened WriterSteps
  import opened UploadWorld
  import opened UploadInvariant

  lemma OpenKeeps(w: World, r: RunId, b: Binding, locked: bool, sha: Hash)
    requires Inv(w, sha)
    ensures Inv(DoOpen(w, r, b, locked), sha)
  {
    var v := DoOpen(w, r, b, locked);
    if v != w {
      RunStep(w, v, r, sha);
    }
  }

  lemma LoadKeeps(w: World, r: RunId, removed: bool, sha: Hash)
    requires Inv(w, sha)
    ensures Inv(DoLoad(w, r, removed), sha)
  {
    hide StateInv;
    var v := DoLoad(w, r, removed);
    if r in w.runs && w.runs[r].phase.Loading? {
      QuietStep(w, v, r, sha);
    }
  }

  lemma IssueKeeps(s: Server, uploadID: string, origin: Origin)
    requires ServerInv(s) && uploadID !in s.issued
    ensures var t := s.(issued := s.issued[uploadID := origin]); ServerInv(t) && Grows(s, t)
  {
  }

  lemma StartKeeps(w: World, r: RunId, session: Session, sha: Hash)
    requires Inv(w, sha)
    ensures Inv(DoStart(w, r, session), sha)
  {
    hide ServerInv;
    var v := DoStart(w, r, session);
    if v != w {
      IssueKeeps(w.server, session.uploadID, OriginOf(v.runs[r].writer.state));
      RunStep(w, v, r, sha);
    }
  }

  lemma SaveKeeps(w: World, r: RunId, outcome: SaveOutcome, sha: Hash)
    requires Inv(w, sha)
    ensures Inv(DoSave(w, r, outcome), sha)
  {
    hide StateInv, ServerInv;
    var v := DoSave(w, r, outcome);
    if r in w.runs && w.runs[r].phase.Saving? {
      QuietStep(w, v, r, sha);
    }
  }

  lemma SignKeeps(w: World, r: RunId, signed: set<string>, sha: Hash)
    requires Inv(w, sha)
    ensures Inv(DoSign(w, r, signed), sha)
  {
    hide StateInv, ServerInv, EachPartReady;
    var v := DoSign(w, r, signed);
    if r in w.runs && w.runs[r].phase.Signing? && EachPartReady(w.runs[r], signed) {
      QuietStep(w, v, r, sha);
    }
  }

  lemma RefreshKeeps(w: World, r: RunId, uploadID: string, sha: Hash)
    requires Inv(w, sha)
    ensures Inv(DoRefresh(w, r, uploadID), sha)
  {
    hide ServerInv;
    var v := DoRefresh(w, r, uploadID);
    if v != w {
      assert PartInfoOf(map[]) == map[];
      IssueKeeps(w.server, uploadID, OriginOf(v.runs[r].writer.state));
      RunStep(w, v, r, sha);
    }
  }

  lemma RefreshFailsKeeps(w: World, r: RunId, removed: bool, sha: Hash)
    requires Inv(w, sha)
    ensures Inv(DoRefreshFails(w, r, removed), sha)
  {
    hide ServerInv;
    var v := DoRefreshFails(w, r, removed);
    if r in w.runs && w.runs[r].phase == Signing(true) {
      QuietStep(w, v, r, sha);
    }
  }

  lemma OpenFailsKeeps(w: World, r: RunId, sha: Hash)
    requires Inv(w, sha)
    ensures Inv(DoOpenFails(w, r), sha)
  {
    hide StateInv, ServerInv;
    var v := DoOpenFails(w, r);
    if Opening(w, r) {
      RunStep(w, v, r, sha);
    }
  }

  lemma EnterKeeps(w: World, r: RunId, chunk: int, sha: Hash)
    requires Inv(w, sha)
    ensures Inv(DoEnter(w, r, chunk), sha)
  {
    hide StateInv, ServerInv, PartInfoOf, RunningInv;
    var v := DoEnter(w, r, chunk);
    if Live(w, r) && chunk !in w.runs[r].tasks && !EnterWrite(w.runs[r].writer, chunk).Refused? {
      NewTask(w.server, w.runs[r], chunk, v.runs[r].tasks[chunk], sha);
      QuietStep(w, v, r, sha);
    }
  }

  lemma ChunkFailsKeeps(w: World, r: RunId, chunk: nat, sha: Hash)
    requires Inv(w, sha)
    ensures Inv(DoChunkFails(w, r, chunk), sha)
  {
    hide StateInv, ServerInv, PartInfoOf;
    var v := DoChunkFails(w, r, chunk);
    if HasTask(w, r, chunk) {
      QuietStep(w, v, r, sha);
    }
  }

  lemma VerifyKeeps(w: World, r: RunId, chunk: nat, bytes: Bytes, sha: Hash)
    requires Inv(w, sha)
    ensures Inv(DoVerify(w, r, chunk, bytes, sha), sha)
  {
    hide StateInv, ServerInv, PartInfoOf;
    var v := DoVerify(w, r, chunk, bytes, sha);
    if v != w {
      assert TaskInv(w.server, w.runs[r].writer, chunk, w.runs[r].tasks[chunk]);
      QuietStep(w, v, r, sha);
    }
  }

  lemma DiscardKeeps(w: World, r: RunId, chunk: nat, removed: bool, sha: Hash)
    requires Inv(w, sha)
    ensures Inv(DoDiscard(w, r, chunk, removed), sha)
  {
    hide StateInv, ServerInv, PartInfoOf;
    var v := DoDiscard(w, r, chunk, removed);
    if HasTask(w, r, chunk) && w.runs[r].tasks[chunk].Discarding? {
      QuietStep(w, v, r, sha);
    }
  }

  lemma PutKeeps(w: World, r: RunId, chunk: nat, bytes: Bytes, etag: string, sha: Hash)
    requires Inv(w, sha)
    ensures Inv(DoPut(w, r, chunk, bytes, etag), sha)
  {
    hide StateInv, ServerInv, PartInfoOf, Grows, Accept, RunningInv, EtagTells;
    var v := DoPut(w, r, chunk, bytes, etag);
    if v != w {
      var run := w.runs[r];
      var put := Put(run.writer.state.session.uploadID, chunk + 1, etag, bytes);
      RunningSessionIssued(w.server, run, sha);
      AcceptKeeps(w.server, put);
      RunInvGrows(w.server, v.server, run, sha);
      PutTask(v.server, run, chunk, put, sha);
      RunStep(w, v, r, sha);
    }
  }

  lemma RunningSessionIssued(s: Server, run: Run, sha: Hash)
    requires RunningInv(s, run, sha)
    ensures run.writer.state.session.uploadID in s.issued
  {
  }

  lemma PutTask(s: Server, run: Run, chunk: nat, put: Put, sha: Hash)
    requires RunningInv(s, run, sha) && chunk in run.tasks && run.tasks[chunk].Uploading?
    requires put in s.puts && put == Put(run.writer.state.session.uploadID, chunk + 1, put.etag, put.bytes)
    requires put.etag != "" && |put.bytes| == ChunkSize(run.binding, chunk)
    ensures RunningInv(s, run.(tasks := run.tasks[chunk := Uploaded(put.etag, put.bytes)]), sha)
  {
    hide StateInv, PartInfoOf;
    assert TaskInv(s, run.writer, chunk, run.tasks[chunk]);
  }

  lemma NewTask(s: Server, run: Run, chunk: nat, task: Task, sha: Hash)
    requires RunningInv(s, run, sha) && TaskInv(s, run.writer, chunk, task)
    ensures RunningInv(s, run.(tasks := run.tasks[chunk := task]), sha)
  {
    hide StateInv, PartInfoOf;
  }

  lemma CommitKeeps(w: World, r: RunId, chunk: nat, outcome: SaveOutcome, sha: Hash)
    requires Inv(w, sha)
    ensures Inv(DoCommit(w, r, chunk, outcome, sha), sha)
  {
    hide StateInv, ServerInv, PartInfoOf, RunningInv, CommitRefusal;
    var v := DoCommit(w, r, chunk, outcome, sha);
    if HasTask(w, r, chunk) && w.runs[r].tasks[chunk].Uploaded? {
      var run := w.runs[r];
      if CommitRefusal(run.writer).Some? {
        DropTask(w.server, run, chunk, sha);
      } else {
        CommittedRun(w.server, run, chunk, sha);
      }
      QuietStep(w, v, r, sha);
    }
  }

  lemma DropTask(s: Server, run: Run, chunk: nat, sha: Hash)
    requires RunningInv(s, run, sha)
    ensures RunningInv(s, run.(tasks := Without(run.tasks, chunk)), sha)
  {
    hide StateInv, PartInfoOf;
  }

  function Committed(run: Run, chunk: nat, sha: Hash): Run
    requires chunk in run.tasks && run.tasks[chunk].Uploaded?
  {
    var Uploaded(etag, bytes) := run.tasks[chunk];
    run.(tasks := Without(run.tasks, chunk), writer := CommitPart(run.writer, chunk, etag, sha(bytes)),
         accepted := run.accepted + {(chunk + 1, bytes)}, uploaded := run.uploaded + {ChunkKey(chunk)})
  }

  lemma CommittedRun(s: Server, run: Run, chunk: nat, sha: Hash)
    requires RunningInv(s, run, sha) && chunk in run.tasks && run.tasks[chunk].Uploaded?
    requires CommitRefusal(run.writer).None?
    ensures RunningInv(s, Committed(run, chunk, sha), sha)
    ensures StateInv(s, Committed(run, chunk, sha).writer.state, sha)
  {
    hide StateInv, PartInfoOf;
    var after := Committed(run, chunk, sha);
    assert TaskInv(s, run.writer, chunk, run.tasks[chunk]);
    CommittedState(s, run.writer, chunk, run.tasks[chunk].etag, run.tasks[chunk].bytes, sha);
    forall c | c in after.tasks
      ensures TaskInv(s, after.writer, c, after.tasks[c])
    {
      assert TaskInv(s, run.writer, c, run.tasks[c]);
      OtherKey(c, chunk);
    }
    forall x | x in after.accepted
      ensures ReadInv(after.writer, x.0, x.1, sha)
    {
      if x != (chunk + 1, run.tasks[chunk].bytes) {
        assert ReadInv(run.writer, x.0, x.1, sha);
      }
    }
  }

  lemma OtherKey(a: nat, b: nat)
    ensures ChunkKey(a) == ChunkKey(b) <==> a == b
  {
    if ChunkKey(a) == ChunkKey(b) {
      Decimal.FormatInjective(a + 1, b + 1);
    }
  }

  lemma CommittedPart(
      s: Server, w: Writer, chunk: nat, etag: string, bytes: Bytes, sha: Hash, key: string)
    requires AllBacked(s, w.state, sha) && CommitRefusal(w).None? && chunk < w.state.binding.partCount
    requires etag != "" && |bytes| == ChunkSize(w.state.binding, chunk)
    requires Put(w.state.session.uploadID, chunk + 1, etag, bytes) in s.puts
    requires key in CommitPart(w, chunk, etag, sha(bytes)).state.completed
    ensures var state := CommitPart(w, chunk, etag, sha(bytes)).state;
      PartBacked(s, state, key, state.completed[key], sha)
  {
    hide ChunkSize, Key;
    var state, state' := w.state, CommitPart(w, chunk, etag, sha(bytes)).state;
    if key == ChunkKey(chunk) {
      var put := Put(state.session.uploadID, chunk + 1, etag, bytes);
      assert PutMatches(put, state.session.uploadID, chunk + 1, state'.completed[key], sha);
    } else {
      assert PartBacked(s, state, key, state.completed[key], sha);
    }
  }

  lemma CommittedInfo(completed: map<string, ResumePart>, key: string, part: ResumePart)
    ensures PartInfoOf(completed[key := part]) == PartInfoOf(completed)[key := PartInfo(part.etag, part.size)]
  {
  }

  lemma CommittedState(s: Server, w: Writer, chunk: nat, etag: string, bytes: Bytes, sha: Hash)
    requires WriterInv(s, w, sha) && CommitRefusal(w).None? && chunk < w.state.binding.partCount
    requires etag != "" && |bytes| == ChunkSize(w.state.binding, chunk)
    requires Put(w.state.session.uploadID, chunk + 1, etag, bytes) in s.puts
    ensures WriterInv(s, CommitPart(w, chunk, etag, sha(bytes)), sha)
  {
    hide PartBacked, PartInfoOf, WellFormed, ChunkSize, Key;
    var state' := CommitPart(w, chunk, etag, sha(bytes)).state;
    forall key | key in state'.completed
      ensures PartBacked(s, state', key, state'.completed[key], sha)
    {
      CommittedPart(s, w, chunk, etag, bytes, sha, key);
    }
    CommittedInfo(w.state.completed, ChunkKey(chunk), ResumePart(etag, ChunkSize(w.state.binding, chunk), sha(bytes)));
  }

  lemma CloseBeginsKeeps(w: World, r: RunId, sha: Hash)
    requires Inv(w, sha)
    ensures Inv(DoCloseBegins(w, r), sha)
  {
    hide StateInv, ServerInv, PartInfoOf;
    var v := DoCloseBegins(w, r);
    if v != w {
      QuietStep(w, v, r, sha);
    }
  }

  lemma FinishKeeps(w: World, a: Action, sha: Hash)
    requires Inv(w, sha)
    requires a.Complete? || a.CompleteFails? || a.CleanUp?
    ensures Inv(Step(w, a, sha), sha)
  {
    hide StateInv, ServerInv, PartInfoOf, StoredEtagsMatch;
    var v := Step(w, a, sha);
    if v != w {
      QuietStep(w, v, a.r, sha);
    }
  }

  lemma CloseReleasesKeeps(w: World, r: RunId, sha: Hash)
    requires Inv(w, sha)
    ensures Inv(DoCloseReleases(w, r), sha)
  {
    hide WriterInv, ServerInv;
    var v := DoCloseReleases(w, r);
    if v != w {
      RunStep(w, v, r, sha);
    }
  }

  lemma AbortMarksKeeps(w: World, r: RunId, sha: Hash)
    requires Inv(w, sha)
    ensures Inv(DoAbortMarks(w, r), sha)
  {
    hide StateInv, ServerInv, PartInfoOf;
    var v := DoAbortMarks(w, r);
    if Live(w, r) {
      QuietStep(w, v, r, sha);
    }
  }

  lemma AbortReleasesKeeps(w: World, r: RunId, sha: Hash)
    requires Inv(w, sha)
    ensures Inv(DoAbortReleases(w, r), sha)
  {
    hide WriterInv, ServerInv;
    var v := DoAbortReleases(w, r);
    if v != w {
      RunStep(w, v, r, sha);
    }
  }

  lemma CrashKeeps(w: World, r: RunId, sha: Hash)
    requires Inv(w, sha)
    ensures Inv(DoCrash(w, r), sha)
  {
    hide RunningInv, WriterInv, ServerInv;
    var v := DoCrash(w, r);
    if r in w.runs && !w.runs[r].phase.Gone? {
      RunStep(w, v, r, sha);
    }
  }

  lemma EnvironmentKeeps(w: World, a: Action, sha: Hash)
    requires Inv(w, sha)
    requires a.StrayPut? || a.Expire? || a.Corrupt?
    ensures Inv(Step(w, a, sha), sha)
  {
    hide StateInv, RunInv, HoldsLock;
    var v := Step(w, a, sha);
    if a.Corrupt? {
    } else {
      if a.StrayPut? && v != w {
        AcceptKeeps(w.server, a.put);
      }
      ServerStep(w, v, sha);
    }
  }

  lemma StepKeeps(w: World, a: Action, sha: Hash)
    requires Inv(w, sha)
    ensures Inv(Step(w, a, sha), sha)
  {
    hide Inv, DoOpen, DoLoad, DoStart, DoSave, DoSign, DoRefresh, DoRefreshFails, DoOpenFails, DoEnter, DoChunkFails,
         DoVerify, DoDiscard, DoPut, DoCommit, DoCloseBegins, DoCloseReleases, DoAbortMarks, DoAbortReleases, DoCrash;
    match a
    case Open(r, b, locked) => OpenKeeps(w, r, b, locked, sha);
    case Load(r, removed) => LoadKeeps(w, r, removed, sha);
    case Start(r, session) => StartKeeps(w, r, session, sha);
    case Save(r, outcome) => SaveKeeps(w, r, outcome, sha);
    case Sign(r, signed) => SignKeeps(w, r, signed, sha);
    case Refresh(r, uploadID) => RefreshKeeps(w, r, uploadID, sha);
    case RefreshFails(r, removed) => RefreshFailsKeeps(w, r, removed, sha);
    case OpenFails(r) => OpenFailsKeeps(w, r, sha);
    case Enter(r, chunk) => EnterKeeps(w, r, chunk, sha);
    case ChunkFails(r, chunk) => ChunkFailsKeeps(w, r, chunk, sha);
    case Verify(r, chunk, bytes) => VerifyKeeps(w, r, chunk, bytes, sha);
    case Discard(r, chunk, removed) => DiscardKeeps(w, r, chunk, removed, sha);
    case PutPart(r, chunk, bytes, etag) => PutKeeps(w, r, chunk, bytes, etag, sha);
    case Commit(r, chunk, outcome) => CommitKeeps(w, r, chunk, outcome, sha);
    case CloseBegins(r) => CloseBeginsKeeps(w, r, sha);
    case Complete(_) => FinishKeeps(w, a, sha);
    case CompleteFails(_) => FinishKeeps(w, a, sha);
    case CleanUp(_, _) => FinishKeeps(w, a, sha);
    case CloseReleases(r) => CloseReleasesKeeps(w, r, sha);
    case AbortMarks(r) => AbortMarksKeeps(w, r, sha);
    case AbortReleases(r) => AbortReleasesKeeps(w, r, sha);
    case Crash(r) => CrashKeeps(w, r, sha);
    case StrayPut(_) => EnvironmentKeeps(w, a, sha);
    case Expire(_) => EnvironmentKeeps(w, a, sha);
    case Corrupt => EnvironmentKeeps(w, a, sha);
  }

  lemma {:induction false} HistoryKeeps(actions: seq<Action>, sha: Hash)
    ensures Inv(After(EMPTY_WORLD, actions, sha), sha)
    decreases |actions|
  {
    hide Step;
    if actions != [] {
      HistoryKeeps(actions[..|actions| - 1], sha);
      StepKeeps(After(EMPTY_WORLD, actions[..|actions| - 1], sha), actions[|actions| - 1], sha);
    }
  }
}
