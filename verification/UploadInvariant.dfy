/** What every step of the upload machine keeps. */
module UploadInvariant {
  import opened Basics
  import opened UploadTypes
  import opened PartSizing
  import opened ResumeRecord
  import opened ResumeStorage
  import opened WriterSteps
  import opened UploadWorld

  ghost predicate ServerInv(s: Server) {
    && (forall k :: k in s.stored ==>
          s.stored[k] in s.puts && s.stored[k].uploadID == k.0 && s.stored[k].part == k.1)
    && (forall p :: p in s.puts ==> p.uploadID in s.issued && EtagTells(s.puts, p))
  }

  // What the server ever received and issued only grows.
  ghost predicate Grows(s: Server, t: Server) {
    && s.puts <= t.puts
    && forall id :: id in s.issued ==> id in t.issued && t.issued[id] == s.issued[id]
  }

  ghost predicate PutMatches(p: Put, uploadID: string, n: nat, part: ResumePart, sha: Hash) {
    && p.uploadID == uploadID && p.part == n && p.etag == part.etag
    && |p.bytes| == part.size && sha(p.bytes) == part.sha256
  }

  // A completed entry names a part that was PUT under the state's upload ID with that ETag,
  // that size and that digest; its key is the part's number and its size what is expected.
  ghost predicate PartBacked(s: Server, state: ResumeState, key: string, part: ResumePart, sha: Hash) {
    exists n: nat, p ::
      && 1 <= n <= state.binding.partCount && key == Key(n) && p in s.puts
      && PutMatches(p, state.session.uploadID, n, part, sha)
      && part.etag != "" && part.size == ChunkSize(state.binding, n - 1)
  }

  ghost predicate AllBacked(s: Server, state: ResumeState, sha: Hash) {
    forall key :: key in state.completed ==> PartBacked(s, state, key, state.completed[key], sha)
  }

  ghost predicate SessionKnown(s: Server, state: ResumeState) {
    && state.session.docID != "" && state.session.rev != "" && state.session.uploadID != ""
    && state.session.uploadID in s.issued && s.issued[state.session.uploadID] == OriginOf(state)
  }

  ghost predicate StateInv(s: Server, state: ResumeState, sha: Hash) {
    && state.version == RESUME_VERSION && WellFormed(state.binding)
    && SessionKnown(s, state) && AllBacked(s, state, sha)
  }

  ghost predicate FileInv(s: Server, file: File, sha: Hash) {
    file.Saved? ==> StateInv(s, file.state, sha)
  }

  ghost predicate WriterInv(s: Server, w: Writer, sha: Hash) {
    && StateInv(s, w.state, sha)
    && w.partInfo == PartInfoOf(w.state.completed)
    && (w.resumeInvalid ==> w.aborted)
  }

  // Before the writer is handed out nothing has happened to it.
  predicate Untouched(run: Run) {
    && !run.released && run.tasks == map[] && run.finish.NotClosing? && run.aborts == 0
    && run.accepted == {} && run.resumed == {} && run.uploaded == {}
    && !run.writer.closed && !run.writer.aborted && !run.writer.resumeInvalid
  }

  ghost predicate TaskInv(s: Server, w: Writer, chunk: nat, task: Task) {
    && chunk < w.state.binding.partCount
    && match task
       case Verifying(part) => ChunkKey(chunk) in w.state.completed && w.state.completed[ChunkKey(chunk)] == part
       case Discarding => w.aborted && w.resumeInvalid
       case Uploading => ChunkKey(chunk) !in w.state.completed
       case Uploaded(etag, bytes) =>
         && ChunkKey(chunk) !in w.state.completed
         && etag != "" && |bytes| == ChunkSize(w.state.binding, chunk)
         && Put(w.state.session.uploadID, chunk + 1, etag, bytes) in s.puts
  }

  // A read whose WriteChunk succeeded has the digest recorded for its part.
  ghost predicate ReadInv(w: Writer, n: nat, bytes: Bytes, sha: Hash) {
    && 1 <= n <= w.state.binding.partCount && Key(n) in w.state.completed
    && w.state.completed[Key(n)].sha256 == sha(bytes) && |bytes| == ChunkSize(w.state.binding, n - 1)
  }

  predicate FinishInv(run: Run) {
    && (run.writer.closed <==> !run.finish.NotClosing?)
    && (run.writer.closed ==> |run.writer.partInfo| == run.binding.partCount)
    && (run.finish.Finalising? ==> run.finish.info == run.writer.partInfo)
    && (run.released || run.aborts > 0 ==> run.writer.closed || run.writer.aborted)
  }

  ghost predicate RunningInv(s: Server, run: Run, sha: Hash) {
    && WriterInv(s, run.writer, sha) && run.writer.state.binding == run.binding
    && (forall chunk :: chunk in run.tasks ==> TaskInv(s, run.writer, chunk, run.tasks[chunk]))
    && (forall r :: r in run.accepted ==> ReadInv(run.writer, r.0, r.1, sha))
    && FinishInv(run)
    && run.resumed !! run.uploaded && run.writer.state.completed.Keys == run.resumed + run.uploaded
  }

  ghost predicate RunInv(s: Server, run: Run, sha: Hash) {
    match run.phase
    case Loading => WellFormed(run.binding) && Untouched(run)
    case Starting => WellFormed(run.binding) && Untouched(run)
    case Saving => Untouched(run) && WriterInv(s, run.writer, sha) && run.writer.state.binding == run.binding
    case Signing(_) => Untouched(run) && WriterInv(s, run.writer, sha) && run.writer.state.binding == run.binding
    case Running => RunningInv(s, run, sha)
    case Gone => true
  }

  ghost predicate LockInv(w: World) {
    && (w.holder.Some? ==> w.holder.value in w.runs)
    && forall r :: r in w.runs ==> (HoldsLock(w.runs[r]) <==> w.holder == Some(r))
  }

  ghost predicate Inv(w: World, sha: Hash) {
    && ServerInv(w.server) && FileInv(w.server, w.file, sha) && LockInv(w)
    && forall r :: r in w.runs ==> RunInv(w.server, w.runs[r], sha)
  }

  lemma StateInvGrows(s: Server, t: Server, state: ResumeState, sha: Hash)
    requires Grows(s, t) && StateInv(s, state, sha)
    ensures StateInv(t, state, sha)
  {
    forall key | key in state.completed
      ensures PartBacked(t, state, key, state.completed[key], sha)
    {
      assert PartBacked(s, state, key, state.completed[key], sha);
    }
  }

  lemma RunInvGrows(s: Server, t: Server, run: Run, sha: Hash)
    requires Grows(s, t) && RunInv(s, run, sha)
    ensures RunInv(t, run, sha)
  {
    hide StateInv, PartInfoOf;
    if run.phase.Saving? || run.phase.Signing? || run.phase.Running? {
      StateInvGrows(s, t, run.writer.state, sha);
    }
  }

  // A step of run r keeps the invariant if it keeps it for the server, the file, the lock and r.
  lemma RunStep(w: World, v: World, r: RunId, sha: Hash)
    requires Inv(w, sha) && Grows(w.server, v.server) && ServerInv(v.server)
    requires r in v.runs && v.runs == w.runs[r := v.runs[r]] && RunInv(v.server, v.runs[r], sha)
    requires v.file == w.file || !v.file.Saved? || StateInv(v.server, v.file.state, sha)
    requires HoldsLock(v.runs[r]) <==> v.holder == Some(r)
    requires
      v.holder == w.holder || (v.holder == None && w.holder == Some(r)) || (w.holder == None && v.holder == Some(r))
    ensures Inv(v, sha)
  {
    hide ServerInv, StateInv, RunInv, Grows, HoldsLock;
    if v.file.Saved? && v.file == w.file {
      StateInvGrows(w.server, v.server, w.file.state, sha);
    }
    forall q | q in v.runs
      ensures RunInv(v.server, v.runs[q], sha) && (HoldsLock(v.runs[q]) <==> v.holder == Some(q))
    {
      if q != r {
        assert v.runs[q] == w.runs[q];
        RunInvGrows(w.server, v.server, w.runs[q], sha);
      }
    }
  }

  // The same for a step that leaves the server alone and neither takes nor drops the lock.
  lemma QuietStep(w: World, v: World, r: RunId, sha: Hash)
    requires Inv(w, sha) && v.server == w.server && v.holder == w.holder
    requires r in w.runs && r in v.runs && v.runs == w.runs[r := v.runs[r]] && RunInv(v.server, v.runs[r], sha)
    requires v.file == w.file || !v.file.Saved? || StateInv(v.server, v.file.state, sha)
    requires HoldsLock(v.runs[r]) <==> HoldsLock(w.runs[r])
    ensures Inv(v, sha)
  {
    RunStep(w, v, r, sha);
  }

  lemma AcceptKeeps(s: Server, put: Put)
    requires ServerInv(s) && put.uploadID in s.issued && EtagTells(s.puts, put)
    ensures ServerInv(Accept(s, put)) && Grows(s, Accept(s, put)) && put in Accept(s, put).puts
  {
    var t := Accept(s, put);
    forall p | p in t.puts
      ensures EtagTells(t.puts, p)
    {
    }
  }

  lemma ServerStep(w: World, v: World, sha: Hash)
    requires Inv(w, sha) && Grows(w.server, v.server) && ServerInv(v.server)
    requires v.runs == w.runs && v.holder == w.holder && v.file == w.file
    ensures Inv(v, sha)
  {
    hide ServerInv, StateInv, RunInv, Grows, HoldsLock;
    if v.file.Saved? {
      StateInvGrows(w.server, v.server, w.file.state, sha);
    }
    forall q | q in v.runs
      ensures RunInv(v.server, v.runs[q], sha)
    {
      RunInvGrows(w.server, v.server, w.runs[q], sha);
    }
  }
}
