/** The lock, invalidated writers, and what a finished run has uploaded. */
module UploadLifecycle {
  import opened Basics
  import opened Decimal
  import opened UploadTypes
  import opened PartSizing
  import opened ResumeRecord
  import opened ResumeStorage
  import opened WriterSteps
  import opened UploadWorld
  import opened UploadInvariant
  import opened UploadSteps
  import opened UploadTheorems

  // ---- The lock ----

  // The actions that call save() on an enabled store.
  predicate Saves(w: World, a: Action) {
    || (a.Save? && a.r in w.runs && w.runs[a.r].phase.Saving? && w.runs[a.r].storeEnabled)
    || (a.Commit? && HasTask(w, a.r, a.chunk) && w.runs[a.r].tasks[a.chunk].Uploaded?
        && CommitRefusal(w.runs[a.r].writer).None? && w.runs[a.r].storeEnabled)
  }

  // Every save happens while the saver holds the lock.
  lemma SavesHoldTheLock(w: World, a: Action, sha: Hash)
    requires Reachable(w, sha) && Saves(w, a)
    ensures w.holder == Some(a.r)
  {
    hide WriterInv, ServerInv;
    ReachableInv(w, sha);
    assert RunInv(w.server, w.runs[a.r], sha);
    assert HoldsLock(w.runs[a.r]);
  }

  // Any other change of the file only loses progress: a remove, however late and whoever holds
  // the lock by then, leaves no file.
  lemma OnlySavesWrite(w: World, a: Action, sha: Hash)
    requires Step(w, a, sha).file != w.file && !Saves(w, a)
    ensures Step(w, a, sha).file.NoFile? || (a.Corrupt? && Step(w, a, sha).file.Unreadable?)
  {
  }

  predicate TouchesLock(a: Action) {
    a.Open? || a.OpenFails? || a.CloseReleases? || a.AbortReleases? || a.Crash?
  }

  lemma LockTouched(w: World, a: Action, sha: Hash)
    requires LockInv(w) && TouchesLock(a) && Step(w, a, sha).holder != w.holder
    ensures (w.holder == None && a.Open? && Step(w, a, sha).holder == Some(a.r))
         || (w.holder == Some(a.r) && Step(w, a, sha).holder == None)
  {
    hide DoLoad, DoStart, DoSave, DoSign, DoRefresh, DoRefreshFails, DoEnter, DoChunkFails, DoVerify, DoDiscard;
    hide DoPut, DoCommit;
    hide DoCloseBegins, DoComplete, DoCompleteFails, DoCleanUp, DoAbortMarks, DoStrayPut, DoExpire;
  }

  lemma LockKept(w: World, a: Action, sha: Hash)
    requires !TouchesLock(a)
    ensures Step(w, a, sha).holder == w.holder
  {
    hide FileAfterSave, FileAfterRemove, Accept, EnterWrite, CommitPart, CommitRefusal, CloseRefusal;
    hide StoredEtagsMatch, EachPartReady, EtagTells;
    hide DoOpen, DoOpenFails, DoCloseReleases, DoAbortReleases, DoCrash;
  }

  // A lock is only taken when free, and only dropped by the run that holds it.
  lemma LockChangesHands(w: World, a: Action, sha: Hash)
    requires Reachable(w, sha) && Step(w, a, sha).holder != w.holder
    ensures !a.StrayPut? && !a.Expire? && !a.Corrupt?
    ensures (w.holder == None && a.Open? && Step(w, a, sha).holder == Some(a.r))
         || (w.holder == Some(a.r) && Step(w, a, sha).holder == None)
  {
    hide RunInv, ServerInv, FileInv, LockInv, Reachable, Step;
    ReachableInv(w, sha);
    if TouchesLock(a) {
      LockTouched(w, a, sha);
    } else {
      LockKept(w, a, sha);
    }
  }

  lemma NotRegained(w: World, a: Action, r: RunId, sha: Hash)
    requires r in w.runs && !HoldsLock(w.runs[r])
    ensures r in Step(w, a, sha).runs && !HoldsLock(Step(w, a, sha).runs[r])
  {
    hide FileAfterSave, FileAfterRemove, Accept, EnterWrite, CommitPart, CommitRefusal, CloseRefusal;
    hide StoredEtagsMatch, EachPartReady, EtagTells;
  }

  // Hence a run drops its lock at most once: having dropped it, it never holds it again.
  lemma {:induction false} LockDroppedOnce(w: World, actions: seq<Action>, r: RunId, sha: Hash)
    requires Reachable(w, sha) && r in w.runs && w.holder != Some(r)
    ensures After(w, actions, sha).holder != Some(r)
    decreases |actions|
  {
    ReachableInv(w, sha);
    NeverHolds(w, actions, r, sha);
    ReachableOn(w, actions, sha);
    ReachableInv(After(w, actions, sha), sha);
  }

  lemma {:induction false} NeverHolds(w: World, actions: seq<Action>, r: RunId, sha: Hash)
    requires r in w.runs && !HoldsLock(w.runs[r])
    ensures r in After(w, actions, sha).runs && !HoldsLock(After(w, actions, sha).runs[r])
    decreases |actions|
  {
    hide Step, HoldsLock;
    if actions != [] {
      var n := |actions| - 1;
      NeverHolds(w, actions[..n], r, sha);
      NotRegained(After(w, actions[..n], sha), actions[n], r, sha);
    }
  }

  lemma {:induction false} AfterConcat(w: World, a: seq<Action>, b: seq<Action>, sha: Hash)
    ensures After(w, a + b, sha) == After(After(w, a, sha), b, sha)
    decreases |b|
  {
    hide Step;
    if b == [] {
      assert a + b == a;
    } else {
      var n := |b| - 1;
      assert (a + b)[..|a + b| - 1] == a + b[..n];
      AfterConcat(w, a, b[..n], sha);
    }
  }

  lemma ReachableOn(w: World, actions: seq<Action>, sha: Hash)
    requires Reachable(w, sha)
    ensures Reachable(After(w, actions, sha), sha)
  {
    var before :| w == After(EMPTY_WORLD, before, sha);
    AfterConcat(EMPTY_WORLD, before, actions, sha);
  }

  // ---- Invalidated writers ----

  ghost predicate Invalidated(w: World, r: RunId) {
    r in w.runs && (w.runs[r].phase.Running? || w.runs[r].phase.Gone?)
    && w.runs[r].writer.resumeInvalid && w.runs[r].writer.aborted
  }

  ghost predicate StaysDead(w: World, v: World, r: RunId)
    requires r in w.runs
  {
    && Invalidated(v, r)
    && v.runs[r].writer.state == w.runs[r].writer.state
    && v.runs[r].writer.partInfo == w.runs[r].writer.partInfo
    && v.runs[r].writer.closed == w.runs[r].writer.closed
    && (w.runs[r].finish.NotClosing? ==> v.runs[r].finish.NotClosing?)
    && (!w.runs[r].finish.Finalising? ==> !v.runs[r].finish.Finalising?)
  }

  lemma DeadStep(w: World, a: Action, r: RunId, sha: Hash)
    requires Invalidated(w, r)
    ensures StaysDead(w, Step(w, a, sha), r)
  {
    hide Step, StaysDead;
    if WritesChunks(a) {
      DeadChunkStep(w, a, r, sha);
    } else {
      DeadOtherStep(w, a, r, sha);
    }
  }

  lemma DeadChunkStep(w: World, a: Action, r: RunId, sha: Hash)
    requires Invalidated(w, r) && WritesChunks(a)
    ensures StaysDead(w, Step(w, a, sha), r)
  {
    hide FileAfterSave, FileAfterRemove, Accept, EtagTells;
    hide DoOpen, DoLoad, DoStart, DoSave, DoSign, DoRefresh, DoRefreshFails, DoOpenFails, DoCloseBegins, DoComplete;
    hide DoCompleteFails;
    hide DoCleanUp, DoCloseReleases, DoAbortMarks, DoAbortReleases, DoCrash, DoStrayPut, DoExpire;
  }

  lemma DeadOtherStep(w: World, a: Action, r: RunId, sha: Hash)
    requires Invalidated(w, r) && !WritesChunks(a)
    ensures StaysDead(w, Step(w, a, sha), r)
  {
    hide FileAfterSave, FileAfterRemove, Accept, StoredEtagsMatch, EachPartReady, EtagTells;
    hide DoEnter, DoChunkFails, DoVerify, DoDiscard, DoPut, DoCommit;
  }

  predicate WritesChunks(a: Action) {
    a.Enter? || a.ChunkFails? || a.Verify? || a.Discard? || a.PutPart? || a.Commit?
  }

  // From the step that invalidates a writer on, its maps never change, and no Close starts
  // finalisation.
  lemma {:induction false} InvalidatedIsDead(w: World, actions: seq<Action>, r: RunId, sha: Hash)
    requires Invalidated(w, r)
    ensures StaysDead(w, After(w, actions, sha), r)
    decreases |actions|
  {
    hide Step;
    if actions != [] {
      var n := |actions| - 1;
      InvalidatedIsDead(w, actions[..n], r, sha);
      DeadStep(After(w, actions[..n], sha), actions[n], r, sha);
    }
  }

  // And every WriteChunk that enters, while the writer is not closed, or reaches its commit gets
  // the retryable restart error, whatever happened since.
  lemma InvalidatedReportsRestart(w: World, actions: seq<Action>, r: RunId, chunk: nat, sha: Hash)
    requires Invalidated(w, r) && chunk < w.runs[r].writer.state.binding.partCount
    ensures r in After(w, actions, sha).runs
    ensures var writer := After(w, actions, sha).runs[r].writer;
      && CommitRefusal(writer) == Some(RestartUpload)
      && (EnterWrite(writer, chunk) == Refused(RestartUpload) <==> !w.runs[r].writer.closed)
      && CloseRefusal(writer) == Some(CloseAborted)
  {
    InvalidatedIsDead(w, actions, r, sha);
  }

  // In a reachable world the flag alone says it.
  lemma ResumeInvalidMeansAborted(w: World, r: RunId, sha: Hash)
    requires Reachable(w, sha) && Live(w, r) && w.runs[r].writer.resumeInvalid
    ensures Invalidated(w, r)
  {
    ReachableInv(w, sha);
    assert RunInv(w.server, w.runs[r], sha);
  }

  // An invalidated session is never completed if Close was not finalising.
  lemma InvalidatedOtherwiseNeverCompletes(w: World, actions: seq<Action>, r: RunId, sha: Hash)
    requires Invalidated(w, r) && !w.runs[r].finish.Finalising?
    ensures Step(After(w, actions, sha), Complete(r), sha) == After(w, actions, sha)
  {
    InvalidatedIsDead(w, actions, r, sha);
  }

  lemma PutOfPart(s: Server, run: Run, n: nat, sha: Hash) returns (put: Put)
    requires RunningInv(s, run, sha) && run.finish.Finalising?
    requires 1 <= n <= run.binding.partCount && Key(n) in run.finish.info
    ensures put in s.puts && put.uploadID == run.writer.state.session.uploadID && put.part == n
    ensures put.etag == run.finish.info[Key(n)].etag
  {
    hide TaskInv, ReadInv, SessionKnown, WellFormed, ChunkSize, Key;
    var state := run.writer.state;
    var part := state.completed[Key(n)];
    assert PartBacked(s, state, Key(n), part, sha);
    var m: nat, p :| 1 <= m <= state.binding.partCount && Key(n) == Key(m) && p in s.puts
      && PutMatches(p, state.session.uploadID, m, part, sha)
      && part.etag != "" && part.size == ChunkSize(state.binding, m - 1);
    SameNumber(n, m);
    put := p;
  }

  lemma SameNumber(m: nat, n: nat)
    requires Key(m) == Key(n)
    ensures m == n
  {
    FormatInjective(m, n);
  }

  // A part that was PUT can be stored once more: a delayed copy of its request arrives.
  lemma PartArrivesAgain(w: World, r: RunId, n: nat, sha: Hash) returns (put: Put)
    requires Inv(w, sha) && Live(w, r) && w.runs[r].finish.Finalising?
    requires 1 <= n <= w.runs[r].binding.partCount && Key(n) in w.runs[r].finish.info
    ensures put.uploadID == w.runs[r].writer.state.session.uploadID && put.part == n
    ensures put.etag == w.runs[r].finish.info[Key(n)].etag
    ensures Step(w, StrayPut(put), sha) == w.(server := Accept(w.server, put))
  {
    hide RunningInv, LockInv, FileInv, Key;
    assert RunInv(w.server, w.runs[r], sha);
    put := PutOfPart(w.server, w.runs[r], n, sha);
  }

  ghost predicate StoredUpTo(w: World, r: RunId, count: nat)
    requires r in w.runs && w.runs[r].finish.Finalising?
  {
    StoredEtagsMatch(w.server, w.runs[r].writer.state.session.uploadID, w.runs[r].finish.info, count)
  }

  lemma {:induction false} PartsArriveAgain(w: World, r: RunId, count: nat, sha: Hash) returns (actions: seq<Action>)
    requires Inv(w, sha) && Live(w, r) && w.runs[r].finish.Finalising? && count <= w.runs[r].binding.partCount
    ensures After(w, actions, sha) == w.(server := After(w, actions, sha).server)
    ensures Inv(After(w, actions, sha), sha) && StoredUpTo(After(w, actions, sha), r, count)
    decreases count
  {
    hide Inv, Step;
    actions := [];
    assert After(w, actions, sha) == w;
    if count > 0 {
      var before := PartsArriveAgain(w, r, count - 1, sha);
      actions := before;
      var v := After(w, before, sha);
      if Key(count) in v.runs[r].finish.info {
        var put := PartArrivesAgain(v, r, count, sha);
        actions := before + [StrayPut(put)];
        assert actions[..|before|] == before;
        StepKeeps(v, StrayPut(put), sha);
      }
    }
  }

  // A mismatch found after Close has begun does not stop that finalisation: the next step can
  // complete the session exactly when Close was already finalising with matching ETags.
  lemma LateMismatchDoesNotStopClose(w: World, r: RunId, chunk: nat, bytes: Bytes, sha: Hash)
    requires HasTask(w, r, chunk) && w.runs[r].tasks[chunk].Verifying?
    requires |bytes| == ChunkSize(w.runs[r].binding, chunk) && sha(bytes) != w.runs[r].tasks[chunk].part.sha256
    ensures Invalidated(Step(w, Verify(r, chunk, bytes), sha), r)
    ensures var v, run := Step(w, Verify(r, chunk, bytes), sha), w.runs[r];
      |Step(v, Complete(r), sha).finals| == |w.finals| + 1 <==>
        && run.finish.Finalising?
        && StoredEtagsMatch(w.server, run.writer.state.session.uploadID, run.finish.info, run.binding.partCount)
  {
    hide StoredEtagsMatch;
  }

  // Over all that can
  // follow, an invalidated session is completed in some history exactly when Close was finalising.
  lemma InvalidatedCompletesExactly(w: World, r: RunId, count: nat, sha: Hash)
    requires Reachable(w, sha) && Live(w, r) && w.runs[r].writer.resumeInvalid && count == w.runs[r].binding.partCount
    ensures (exists actions :: Step(After(w, actions, sha), Complete(r), sha) != After(w, actions, sha)) <==>
      w.runs[r].finish.Finalising?
  {
    ResumeInvalidMeansAborted(w, r, sha);
    if w.runs[r].finish.Finalising? {
      ReachableInv(w, sha);
      var actions := PartsArriveAgain(w, r, count, sha);
      CompletesIfStored(After(w, actions, sha), r, sha);
    } else {
      forall actions
        ensures Step(After(w, actions, sha), Complete(r), sha) == After(w, actions, sha)
      {
        InvalidatedOtherwiseNeverCompletes(w, actions, r, sha);
      }
    }
  }

  lemma CompletesIfStored(w: World, r: RunId, sha: Hash)
    requires Live(w, r) && w.runs[r].finish.Finalising?
    requires StoredEtagsMatch(
      w.server, w.runs[r].writer.state.session.uploadID, w.runs[r].finish.info, w.runs[r].binding.partCount)
    ensures Step(w, Complete(r), sha) != w
  {
    var v := Step(w, Complete(r), sha);
    assert |v.finals| == |w.finals| + 1;
  }

  // ---- What a finished run has uploaded ----

  // A run never PUTs a part it found completed.
  lemma PutsOnlyMissingParts(w: World, r: RunId, chunk: nat, bytes: Bytes, etag: string, sha: Hash)
    requires Reachable(w, sha) && Step(w, PutPart(r, chunk, bytes, etag), sha) != w
    ensures ChunkKey(chunk) !in w.runs[r].resumed && ChunkKey(chunk) !in w.runs[r].uploaded
  {
    hide StateInv, ServerInv;
    ReachableInv(w, sha);
    assert RunInv(w.server, w.runs[r], sha);
    assert TaskInv(w.server, w.runs[r].writer, chunk, w.runs[r].tasks[chunk]);
  }

  // The bytes of the parts among the first `count` whose keys are in a set.
  function BytesOf(b: Binding, keys: set<string>, count: nat): int {
    if count == 0 then 0
    else BytesOf(b, keys, count - 1) + if Key(count) in keys then ChunkSize(b, count - 1) else 0
  }

  lemma {:induction false} BytesSplit(b: Binding, x: set<string>, y: set<string>, count: nat)
    requires x !! y && forall n :: 1 <= n <= count ==> Key(n) in x + y
    ensures BytesOf(b, x, count) + BytesOf(b, y, count) == SumOfParts(b.size, b.partSize, count)
    decreases count
  {
    if count > 0 {
      BytesSplit(b, x, y, count - 1);
    }
  }

  // Once Close has begun, the run has uploaded exactly the parts it had not found completed, and
  // resumed bytes plus uploaded bytes are the file.
  lemma UploadedIsTheRest(w: World, r: RunId, count: nat, sha: Hash)
    requires Reachable(w, sha) && Live(w, r) && w.runs[r].writer.closed && count == w.runs[r].binding.partCount
    ensures w.runs[r].uploaded == Keys(Span(1, count)) - w.runs[r].resumed
    ensures BytesOf(w.runs[r].binding, w.runs[r].resumed, count) + BytesOf(w.runs[r].binding, w.runs[r].uploaded, count)
         == w.runs[r].binding.size
  {
    hide Reachable, TotalSize, BytesOf, PartCount, RunningInv;
    var run := w.runs[r];
    KeysAreResumedOrUploaded(w, r, sha);
    CloseGate(w, r, count, sha);
    WriterMapsAgree(w, r, sha);
    KeysOfAll(run.writer.partInfo, count);
    BytesSplit(run.binding, run.resumed, run.uploaded, count);
    LayoutOf(w, r, sha);
    PartsTile(run.binding.size, run.binding.partSize, count);
  }

  lemma KeysAreResumedOrUploaded(w: World, r: RunId, sha: Hash)
    requires Reachable(w, sha) && Live(w, r)
    ensures w.runs[r].resumed !! w.runs[r].uploaded
    ensures w.runs[r].writer.partInfo.Keys == w.runs[r].resumed + w.runs[r].uploaded
  {
    hide StateInv, FinishInv, TaskInv, ReadInv, FileInv, ServerInv;
    ReachableInv(w, sha);
    assert RunInv(w.server, w.runs[r], sha);
  }

  lemma LayoutOf(w: World, r: RunId, sha: Hash)
    requires Reachable(w, sha) && Live(w, r)
    ensures WellFormed(w.runs[r].binding)
  {
    hide FinishInv, TaskInv, ReadInv, FileInv, ServerInv;
    ReachableInv(w, sha);
    assert RunInv(w.server, w.runs[r], sha);
  }

  lemma KeysOfAll<T>(parts: map<string, T>, count: nat)
    requires AllPresent(parts, count) && Canonical(parts, count)
    ensures parts.Keys == Keys(Span(1, count))
    ensures forall n :: 1 <= n <= count ==> Key(n) in parts.Keys
  {
  }

  // ---- Concurrent equals in order ----

  function EtagsOf(info: map<string, PartInfo>, count: nat): (etags: seq<string>)
    requires AllPresent(info, count)
    ensures |etags| == count
  {
    seq(count, i requires 0 <= i < count => info[Key(i + 1)].etag)
  }

  lemma {:induction false} InOrderAt(size: int, partSize: int, etags: seq<string>, count: nat, n: nat)
    requires count <= |etags| && 1 <= n <= count
    ensures InOrderInfo(size, partSize, etags, count)[Key(n)]
         == PartInfo(etags[n - 1], ExpectedSize(size, partSize, n - 1))
    decreases count
  {
    if n < count {
      if Key(n) == Key(count) {
        FormatInjective(n, count);
      }
      InOrderAt(size, partSize, etags, count - 1, n);
    }
  }

  // Whatever the order and interleaving of the part writers, and whether or not parts were
  // resumed, the partinfo sent is the one the in-order upload builds from the same ETags.
  lemma ConcurrentEqualsInOrder(w: World, r: RunId, count: nat, sha: Hash)
    requires Reachable(w, sha) && Live(w, r) && w.runs[r].writer.closed && count == w.runs[r].binding.partCount
    ensures AllPresent(w.runs[r].writer.partInfo, count)
    ensures var b, info := w.runs[r].binding, w.runs[r].writer.partInfo;
      info == InOrderInfo(b.size, b.partSize, EtagsOf(info, count), count)
  {
    hide Reachable, TotalSize, EtagsOf, InOrderInfo;
    CloseGate(w, r, count, sha);
    WriterMapsAgree(w, r, sha);
    CompleteInfoIsInOrder(w.runs[r].writer.partInfo, w.runs[r].binding, count);
  }

  lemma CompleteInfoIsInOrder(info: map<string, PartInfo>, b: Binding, count: nat)
    requires count == b.partCount && AllPresent(info, count) && Canonical(info, count) && SizesExpected(info, b)
    ensures info == InOrderInfo(b.size, b.partSize, EtagsOf(info, count), count)
  {
    hide InOrderInfo, EtagsOf, SizesExpected, Key;
    var inOrder := InOrderInfo(b.size, b.partSize, EtagsOf(info, count), count);
    forall key | key in info
      ensures key in inOrder && inOrder[key] == info[key]
    {
      var n :| n in Span(1, count) && key == Key(n);
      SameInOrder(info, b, count, n);
    }
    assert inOrder.Keys == info.Keys;
  }

  lemma SameInOrder(info: map<string, PartInfo>, b: Binding, count: nat, n: nat)
    requires count == b.partCount && AllPresent(info, count) && SizesExpected(info, b) && 1 <= n <= count
    ensures var inOrder := InOrderInfo(b.size, b.partSize, EtagsOf(info, count), count);
      Key(n) in inOrder && inOrder[Key(n)] == info[Key(n)]
  {
    hide InOrderInfo, Key;
    InOrderAt(b.size, b.partSize, EtagsOf(info, count), count, n);
  }
}
