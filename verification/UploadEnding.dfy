/** How runs end: what Abort and Close shut off for good, and that no run completes twice. */
module UploadEnding {
  import opened Basics
  import opened ResumeStorage
  import opened UploadInvariant
  import opened UploadLifecycle
  import UploadSteps
  import opened UploadTheorems
  import opened UploadTypes
  import opened UploadWorld
  import opened WriterSteps

  // A writer that was handed out and has been closed or aborted since.
  predicate Shut(w: World, r: RunId) {
    && r in w.runs && (w.runs[r].phase.Running? || w.runs[r].phase.Gone?)
    && (w.runs[r].writer.closed || w.runs[r].writer.aborted)
  }

  // An aborted writer whose Close never began.
  predicate GivenUp(w: World, r: RunId) {
    Shut(w, r) && w.runs[r].writer.aborted && w.runs[r].finish.NotClosing?
  }

  ghost predicate StaysShut(w: World, v: World, r: RunId) {
    && (Shut(w, r) ==> Shut(v, r))
    && (GivenUp(w, r) ==> GivenUp(v, r))
  }

  lemma ShutChunkStep(w: World, a: Action, r: RunId, sha: Hash)
    requires Shut(w, r) && WritesChunks(a)
    ensures StaysShut(w, Step(w, a, sha), r)
  {
    hide Accept, EtagTells, FileAfterSave, FileAfterRemove;
    hide DoOpen, DoLoad, DoStart, DoSave, DoSign, DoRefresh, DoRefreshFails, DoOpenFails, DoCloseBegins, DoComplete;
    hide DoCompleteFails, DoCleanUp, DoCloseReleases, DoAbortMarks, DoAbortReleases, DoCrash, DoStrayPut, DoExpire;
  }

  lemma ShutOtherStep(w: World, a: Action, r: RunId, sha: Hash)
    requires Shut(w, r) && !WritesChunks(a)
    ensures StaysShut(w, Step(w, a, sha), r)
  {
    hide Accept, EtagTells, StoredEtagsMatch, EachPartReady, FileAfterSave;
    hide FileAfterRemove, DoEnter, DoChunkFails, DoVerify, DoDiscard, DoPut, DoCommit;
  }

  lemma {:induction false} ShutForGood(w: World, actions: seq<Action>, r: RunId, sha: Hash)
    requires Shut(w, r)
    ensures StaysShut(w, After(w, actions, sha), r)
    decreases |actions|
  {
    hide Step, Shut, GivenUp;
    if actions != [] {
      var n := |actions| - 1;
      var v := After(w, actions[..n], sha);
      ShutForGood(w, actions[..n], r, sha);
      if WritesChunks(actions[n]) {
        ShutChunkStep(v, actions[n], r, sha);
      } else {
        ShutOtherStep(v, actions[n], r, sha);
      }
    }
  }

  // After an Abort, of an open writer or a closed one, no WriteChunk call of that run ever starts.
  lemma AbortedStartsNothing(w: World, r: RunId, actions: seq<Action>, chunk: int, sha: Hash)
    requires Live(w, r)
    ensures var v := After(Step(w, AbortMarks(r), sha), actions, sha); Step(v, Enter(r, chunk), sha) == v
  {
    var u := Step(w, AbortMarks(r), sha);
    assert Shut(u, r);
    ShutForGood(u, actions, r, sha);
  }

  // Nor after Close has begun.
  lemma ClosedStartsNothing(w: World, r: RunId, actions: seq<Action>, chunk: int, sha: Hash)
    requires Live(w, r) && Step(w, CloseBegins(r), sha) != w
    ensures var v := After(Step(w, CloseBegins(r), sha), actions, sha); Step(v, Enter(r, chunk), sha) == v
  {
    var u := Step(w, CloseBegins(r), sha);
    assert Shut(u, r);
    ShutForGood(u, actions, r, sha);
  }

  // A completion of any run is recorded at the end, and no other step touches what was completed.
  lemma FinalsGrow(w: World, a: Action, sha: Hash)
    ensures var v := Step(w, a, sha);
      v.finals == w.finals || (a.Complete? && v != w && |v.finals| == |w.finals| + 1
                               && v.finals[..|w.finals|] == w.finals && v.finals[|w.finals|].run == a.r)
  {
    hide Accept, EtagTells, EachPartReady, EnterWrite, CommitPart, CommitRefusal, CloseRefusal;
    hide FileAfterSave, FileAfterRemove, StoredEtagsMatch;
  }

  // The completions recorded after w, none of them by r.
  ghost predicate NoneBy(w: World, v: World, r: RunId) {
    && |w.finals| <= |v.finals| && v.finals[..|w.finals|] == w.finals
    && forall i :: |w.finals| <= i < |v.finals| ==> v.finals[i].run != r
  }

  // A run aborted before its Close began, invalidated or not, never completes anything, and its
  // Close never begins.
  lemma {:induction false} AbortedNeverCompletes(w: World, actions: seq<Action>, r: RunId, sha: Hash)
    requires GivenUp(w, r)
    ensures var v := After(w, actions, sha);
      && NoneBy(w, v, r) && Step(v, CloseBegins(r), sha) == v && Step(v, Complete(r), sha) == v
    decreases |actions|
  {
    ShutForGood(w, actions, r, sha);
    GivenUpDoesNothing(After(w, actions, sha), r, sha);
    hide Step, Shut, GivenUp;
    if actions != [] {
      var n := |actions| - 1;
      AbortedNeverCompletes(w, actions[..n], r, sha);
      FinalsGrow(After(w, actions[..n], sha), actions[n], sha);
    }
  }

  lemma GivenUpDoesNothing(w: World, r: RunId, sha: Hash)
    requires GivenUp(w, r)
    ensures Step(w, CloseBegins(r), sha) == w && Step(w, Complete(r), sha) == w
  {
  }

  lemma AbortGivesUp(w: World, r: RunId, sha: Hash)
    requires Live(w, r) && w.runs[r].finish.NotClosing? && !w.runs[r].writer.closed
    ensures GivenUp(Step(w, AbortMarks(r), sha), r)
  {
  }

  // A run that has completed is past finalising.
  predicate Past(w: World, r: RunId) {
    r in w.runs && (w.runs[r].finish.CleaningUp? || w.runs[r].finish.Releasing? || w.runs[r].finish.Closed?)
    && (w.runs[r].phase.Running? || w.runs[r].phase.Gone?)
  }

  ghost predicate OncePerRun(w: World) {
    && (forall i :: 0 <= i < |w.finals| ==> Past(w, w.finals[i].run))
    && forall i, j :: 0 <= i < j < |w.finals| ==> w.finals[i].run != w.finals[j].run
  }

  lemma PastChunkStep(w: World, a: Action, r: RunId, sha: Hash)
    requires Past(w, r) && WritesChunks(a)
    ensures Past(Step(w, a, sha), r)
  {
    hide Accept, EtagTells, FileAfterSave, FileAfterRemove, EnterWrite, CommitPart;
    hide DoOpen, DoLoad, DoStart, DoSave, DoSign, DoRefresh, DoRefreshFails, DoOpenFails, DoCloseBegins, DoComplete;
    hide DoCompleteFails, DoCleanUp, DoCloseReleases, DoAbortMarks, DoAbortReleases, DoCrash, DoStrayPut, DoExpire;
  }

  lemma PastOtherStep(w: World, a: Action, r: RunId, sha: Hash)
    requires Past(w, r) && !WritesChunks(a)
    requires r in w.runs && w.runs[r].phase.Running? ==> w.runs[r].writer.closed
    ensures Past(Step(w, a, sha), r)
  {
    hide Accept, EtagTells, StoredEtagsMatch, EachPartReady, FileAfterSave;
    hide FileAfterRemove, DoEnter, DoChunkFails, DoVerify, DoDiscard, DoPut, DoCommit;
  }

  lemma OnceStep(w: World, a: Action, sha: Hash)
    requires Inv(w, sha) && OncePerRun(w)
    ensures OncePerRun(Step(w, a, sha))
  {
    var v := Step(w, a, sha);
    hide Step, Past, Inv, RunningInv, FileInv, ServerInv, LockInv;
    FinalsGrow(w, a, sha);
    forall i | 0 <= i < |w.finals|
      ensures Past(v, w.finals[i].run)
    {
      PastStays(w, a, w.finals[i].run, sha);
    }
    if v.finals != w.finals {
      CompletionIsFirst(w, a.r, sha);
      assert forall i :: 0 <= i < |w.finals| ==> v.finals[i] == v.finals[..|w.finals|][i];
    }
  }

  lemma PastStays(w: World, a: Action, r: RunId, sha: Hash)
    requires Inv(w, sha) && Past(w, r)
    ensures Past(Step(w, a, sha), r)
  {
    hide Step;
    if WritesChunks(a) {
      PastChunkStep(w, a, r, sha);
    } else {
      assert RunInv(w.server, w.runs[r], sha);
      PastOtherStep(w, a, r, sha);
    }
  }

  lemma CompletionIsFirst(w: World, r: RunId, sha: Hash)
    requires Step(w, Complete(r), sha) != w
    ensures !Past(w, r) && Past(Step(w, Complete(r), sha), r)
  {
    hide StoredEtagsMatch;
  }

  lemma {:induction false} OnceAlways(actions: seq<Action>, sha: Hash)
    ensures OncePerRun(After(EMPTY_WORLD, actions, sha))
    decreases |actions|
  {
    hide Step, Past, Inv;
    if actions != [] {
      var n := |actions| - 1;
      OnceAlways(actions[..n], sha);
      UploadSteps.HistoryKeeps(actions[..n], sha);
      OnceStep(After(EMPTY_WORLD, actions[..n], sha), actions[n], sha);
    }
  }

  // No run completes twice.
  lemma NoRunCompletesTwice(w: World, i: nat, j: nat, sha: Hash)
    requires Reachable(w, sha) && i < j < |w.finals|
    ensures w.finals[i].run != w.finals[j].run
  {
    var actions :| w == After(EMPTY_WORLD, actions, sha);
    OnceAlways(actions, sha);
  }

  // Once a completion was accepted or refused, Close removes the saved state and drops the lock.
  lemma CloseCleansUp(w: World, r: RunId, removed: bool, sha: Hash)
    requires Reachable(w, sha) && Live(w, r) && w.runs[r].finish.CleaningUp?
    ensures var u := Step(w, CleanUp(r, removed), sha);
      var v := Step(u, CloseReleases(r), sha);
      && u.file == (if w.runs[r].storeEnabled && removed then NoFile else w.file)
      && v.file == u.file && v.holder != Some(r) && v.runs[r].finish == Closed
  {
    hide Inv, Reachable;
    KeptByCleaningUp(w, r, removed, sha);
  }

  lemma KeptByCleaningUp(w: World, r: RunId, removed: bool, sha: Hash)
    requires Reachable(w, sha) && Live(w, r) && w.runs[r].finish.CleaningUp?
    ensures LockInv(Step(w, CleanUp(r, removed), sha))
  {
    hide Step, RunInv, ServerInv, FileInv, LockInv;
    ReachableInv(w, sha);
    UploadSteps.StepKeeps(w, CleanUp(r, removed), sha);
  }

  // A completion ends finalisation whether or not it was accepted, so Close gets that far.
  lemma FinalisingEnds(w: World, r: RunId, sha: Hash)
    requires Live(w, r) && w.runs[r].finish.Finalising?
    ensures Step(w, CompleteFails(r), sha).runs[r].finish.CleaningUp?
    ensures Step(w, Complete(r), sha) != w ==> Step(w, Complete(r), sha).runs[r].finish.CleaningUp?
  {
    hide StoredEtagsMatch;
  }

  // Abort drops the lock and keeps the saved state.
  lemma AbortUnlocks(w: World, r: RunId, sha: Hash)
    requires Reachable(w, sha) && Live(w, r)
    ensures var v := Step(Step(w, AbortMarks(r), sha), AbortReleases(r), sha);
      v.holder != Some(r) && v.file == w.file && r in v.runs && v.runs[r].aborts == w.runs[r].aborts
  {
    hide Inv, LockInv, Step;
    ReachableInv(w, sha);
    HolderHolds(w, r, sha);
    AbortSteps(w, r, sha);
  }

  lemma HolderHolds(w: World, r: RunId, sha: Hash)
    requires Inv(w, sha) && r in w.runs
    ensures w.holder == Some(r) ==> w.runs[r].storeEnabled && !w.runs[r].released
  {
    hide RunInv, ServerInv, FileInv;
  }

  lemma AbortSteps(w: World, r: RunId, sha: Hash)
    requires Live(w, r) && (w.holder == Some(r) ==> w.runs[r].storeEnabled && !w.runs[r].released)
    ensures var v := Step(Step(w, AbortMarks(r), sha), AbortReleases(r), sha);
      v.holder != Some(r) && v.file == w.file && r in v.runs && v.runs[r].aborts == w.runs[r].aborts
  {
  }

  // A chunk whose bytes have another digest than the part recorded invalidates the writer, and the
  // call goes on to remove the saved state; one with the same bytes ends there, accepted.
  lemma VerificationDecides(w: World, r: RunId, chunk: nat, bytes: Bytes, sha: Hash)
    requires HasTask(w, r, chunk) && w.runs[r].tasks[chunk].Verifying? && |bytes| == ChunkSize(w.runs[r].binding, chunk)
    ensures var run, v := w.runs[r], Step(w, Verify(r, chunk, bytes), sha);
      && r in v.runs && v.file == w.file && v.server == w.server && v.holder == w.holder
      && if sha(bytes) == run.tasks[chunk].part.sha256
         then chunk !in v.runs[r].tasks && v.runs[r].writer == run.writer
              && v.runs[r].accepted == run.accepted + {(chunk + 1, bytes)}
         else HasTask(v, r, chunk) && v.runs[r].tasks[chunk].Discarding? && v.runs[r].accepted == run.accepted
              && v.runs[r].writer.aborted && v.runs[r].writer.resumeInvalid
  {
    hide ChunkSize;
  }

  // A mismatch removes the saved state, whatever it says by then.
  lemma DiscardRemoves(w: World, r: RunId, chunk: nat, removed: bool, sha: Hash)
    requires HasTask(w, r, chunk) && w.runs[r].tasks[chunk].Discarding?
    ensures Step(w, Discard(r, chunk, removed), sha).file
      == if w.runs[r].storeEnabled && removed then NoFile else w.file
  {
  }
}
