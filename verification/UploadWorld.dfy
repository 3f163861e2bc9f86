/**
 The resumable multipart upload of one remote path as a step machine: any number of runs, in
 one process or several, their concurrent part writers, the saved state and its lock, and the
 server.  A run is one OpenChunkWriter call and the writer it hands out.  Every step is atomic;
 a step whose guard fails changes nothing, so every list of actions is a history.

 Assumed of the environment: upload IDs are fresh; a save replaces the whole file, leaves it
 alone, or (remove, then failing rename) leaves no file; within one part of one session equal
 ETags mean equal bytes; a completion is accepted only if every listed ETag is the one stored;
 at most one WriteChunk call per chunk is under way in a writer; the lock is exclusive and dies
 with its holder.  A PUT may reach the server late, twice or unnoticed, a session may lose its
 parts, and the saved file may become unreadable, at any time.
 */
module UploadWorld {
  import opened Basics
  import opened UploadTypes
  import opened PartSizing
  import opened ResumeRecord
  import opened ResumeStorage
  import opened WriterSteps

  type RunId = nat

  datatype Put = Put(uploadID: string, part: nat, etag: string, bytes: Bytes)

  // What a session was started for.
  datatype Origin = Origin(existingID: string, existingRev: string, docID: string, rev: string)

  datatype Server = Server(issued: map<string, Origin>, puts: set<Put>, stored: map<(string, nat), Put>)

  datatype Phase = Loading | Starting | Saving | Signing(resumed: bool) | Running | Gone

  // One WriteChunk call between its critical sections.
  datatype Task =
    | Verifying(part: ResumePart)
    | Discarding                     // mismatch recorded, saved state not yet removed
    | Uploading
    | Uploaded(etag: string, bytes: Bytes)

  datatype Finish = NotClosing | Finalising(info: map<string, PartInfo>) | CleaningUp | Releasing | Closed

  datatype Run = Run(
    binding: Binding,
    storeEnabled: bool, released: bool,
    phase: Phase, writer: Writer,
    tasks: map<nat, Task>, finish: Finish, aborts: nat,
    // History: the reads of parts whose WriteChunk returned success, and the parts found
    // completed when the writer was handed out and those committed since.
    accepted: set<(nat, Bytes)>, resumed: set<string>, uploaded: set<string>)

  // A completed upload: the bytes of each part as the server had them.
  datatype Final = Final(run: RunId, origin: Origin, editedRev: string, parts: map<nat, Bytes>)

  datatype World = World(
    server: Server, file: File, holder: Option<RunId>, runs: map<RunId, Run>, finals: seq<Final>)

  const EMPTY_WORLD := World(Server(map[], {}, map[]), NoFile, None, map[], [])

  datatype Action =
    // OpenChunkWriter
    | Open(r: RunId, binding: Binding, locked: bool)
    | Load(r: RunId, removed: bool)
    | Start(r: RunId, session: Session)
    | Save(r: RunId, outcome: SaveOutcome)
    | Sign(r: RunId, signed: set<string>)
    | Refresh(r: RunId, uploadID: string)
    | RefreshFails(r: RunId, removed: bool)
    | OpenFails(r: RunId)
    // WriteChunk
    | Enter(r: RunId, chunkNumber: int)
    | ChunkFails(r: RunId, chunk: nat)
    | Verify(r: RunId, chunk: nat, bytes: Bytes)
    | Discard(r: RunId, chunk: nat, removed: bool)
    | PutPart(r: RunId, chunk: nat, bytes: Bytes, etag: string)
    | Commit(r: RunId, chunk: nat, outcome: SaveOutcome)
    // Close
    | CloseBegins(r: RunId)
    | Complete(r: RunId)
    | CompleteFails(r: RunId)
    | CleanUp(r: RunId, removed: bool)
    | CloseReleases(r: RunId)
    // Abort
    | AbortMarks(r: RunId)
    | AbortReleases(r: RunId)
    // The environment
    | Crash(r: RunId)
    | StrayPut(put: Put)
    | Expire(uploadID: string)
    | Corrupt

  predicate WellFormed(b: Binding) {
    b.size > 0 && b.partSize > 0 && b.partCount == PartCount(b.size, b.partSize)
  }

  function OriginOf(s: ResumeState): Origin {
    Origin(s.binding.existingID, s.binding.existingRev, s.session.docID, s.session.rev)
  }

  predicate HoldsLock(run: Run) {
    run.storeEnabled && !run.released && run.phase != Gone
  }

  function With(w: World, r: RunId, run: Run): World {
    w.(runs := w.runs[r := run])
  }

  // release(): unlocks once, and only if the store holds a lock.
  function Release(w: World, r: RunId): World
    requires r in w.runs
  {
    var run := w.runs[r];
    With(w.(holder := if run.storeEnabled && !run.released then None else w.holder), r, run.(released := true))
  }

  // remove() still reaches the file after release().
  function Remove(w: World, run: Run, removed: bool): World {
    w.(file := FileAfterRemove(run.storeEnabled, w.file, removed))
  }

  function Store(w: World, run: Run, state: ResumeState, outcome: SaveOutcome): World {
    w.(file := FileAfterSave(run.storeEnabled, w.file, state, outcome))
  }

  predicate EtagTells(puts: set<Put>, put: Put) {
    forall p :: p in puts && p.uploadID == put.uploadID && p.part == put.part && p.etag == put.etag
      ==> p.bytes == put.bytes
  }

  function Accept(s: Server, put: Put): Server {
    s.(puts := s.puts + {put}, stored := s.stored[(put.uploadID, put.part) := put])
  }

  predicate Opening(w: World, r: RunId) {
    r in w.runs && !w.runs[r].phase.Gone? && !w.runs[r].phase.Running?
  }

  predicate Live(w: World, r: RunId) {
    r in w.runs && w.runs[r].phase.Running?
  }

  predicate HasTask(w: World, r: RunId, chunk: nat) {
    Live(w, r) && chunk in w.runs[r].tasks
  }

  function Without(tasks: map<nat, Task>, chunk: nat): map<nat, Task> {
    tasks - {chunk}
  }

  function DoOpen(w: World, r: RunId, b: Binding, locked: bool): World {
    if r in w.runs || !WellFormed(b) || (locked && w.holder.Some?) then w
    else
      var run := Run(b, locked, false, Loading, Fresh(b, Session("", "", "")), map[], NotClosing, 0, {}, {}, {});
      With(w.(holder := if locked then Some(r) else w.holder), r, run)
  }

  ghost function DoLoad(w: World, r: RunId, removed: bool): World {
    if r !in w.runs || w.runs[r].phase != Loading then w
    else
      var run := w.runs[r];
      match LoadedFile(run.storeEnabled, w.file)
      case Saved(state) =>
        if IsValidFor(state, run.binding) then With(w, r, run.(phase := Signing(true), writer := Resumed(state)))
        else With(Remove(w, run, removed), r, run.(phase := Starting))
      case Unreadable => With(Remove(w, run, removed), r, run.(phase := Starting))
      case NoFile => With(w, r, run.(phase := Starting))
  }

  function DoStart(w: World, r: RunId, session: Session): World {
    if r !in w.runs || w.runs[r].phase != Starting || session.uploadID in w.server.issued
       || session.docID == "" || session.rev == "" || session.uploadID == "" then w
    else
      var run := w.runs[r];
      var writer := Fresh(run.binding, session);
      With(w.(server := w.server.(issued := w.server.issued[session.uploadID := OriginOf(writer.state)])),
           r, run.(phase := Saving, writer := writer))
  }

  function DoSave(w: World, r: RunId, outcome: SaveOutcome): World {
    if r !in w.runs || w.runs[r].phase != Saving then w
    else
      var run := w.runs[r];
      With(Store(w, run, run.writer.state, outcome), r, run.(phase := Signing(false)))
  }

  predicate EachPartReady(run: Run, signed: set<string>) {
    forall n :: 1 <= n <= run.binding.partCount ==> Key(n) in run.writer.partInfo || Key(n) in signed
  }

  function DoSign(w: World, r: RunId, signed: set<string>): World {
    if r !in w.runs || !w.runs[r].phase.Signing? || !EachPartReady(w.runs[r], signed) then w
    else
      var run := w.runs[r];
      With(w, r, run.(phase := Running, resumed := run.writer.state.completed.Keys))
  }

  function DoRefresh(w: World, r: RunId, uploadID: string): World {
    if r !in w.runs || w.runs[r].phase != Signing(true) || uploadID in w.server.issued || uploadID == "" then w
    else
      var run := w.runs[r];
      var writer := Refreshed(run.writer, uploadID);
      With(w.(server := w.server.(issued := w.server.issued[uploadID := OriginOf(writer.state)])),
           r, run.(phase := Saving, writer := writer))
  }

  function DoRefreshFails(w: World, r: RunId, removed: bool): World {
    if r !in w.runs || w.runs[r].phase != Signing(true) then w
    else
      var run := w.runs[r];
      With(Remove(w, run, removed), r, run.(phase := Starting))
  }

  function DoOpenFails(w: World, r: RunId): World {
    if !Opening(w, r) then w
    else
      var released := Release(w, r);
      With(released, r, released.runs[r].(phase := Gone))
  }

  function DoEnter(w: World, r: RunId, chunk: int): World {
    if !Live(w, r) || chunk in w.runs[r].tasks then w
    else
      var run := w.runs[r];
      match EnterWrite(run.writer, chunk)
      case Refused(_) => w
      case MustVerify(part) => With(w, r, run.(tasks := run.tasks[chunk := Verifying(part)]))
      case MustUpload => With(w, r, run.(tasks := run.tasks[chunk := Uploading]))
  }

  function DoChunkFails(w: World, r: RunId, chunk: nat): World {
    if !HasTask(w, r, chunk) then w
    else With(w, r, w.runs[r].(tasks := Without(w.runs[r].tasks, chunk)))
  }

  function DoVerify(w: World, r: RunId, chunk: nat, bytes: Bytes, sha: Hash): World {
    if !HasTask(w, r, chunk) || !w.runs[r].tasks[chunk].Verifying?
       || |bytes| != ChunkSize(w.runs[r].binding, chunk) then w
    else
      var run := w.runs[r];
      if sha(bytes) == run.tasks[chunk].part.sha256 then
        With(w, r, run.(tasks := Without(run.tasks, chunk), accepted := run.accepted + {(chunk + 1, bytes)}))
      else
        With(w, r, run.(tasks := run.tasks[chunk := Discarding], writer := Invalidate(run.writer)))
  }

  function DoDiscard(w: World, r: RunId, chunk: nat, removed: bool): World {
    if !HasTask(w, r, chunk) || !w.runs[r].tasks[chunk].Discarding? then w
    else
      var run := w.runs[r];
      With(Remove(w, run, removed), r, run.(tasks := Without(run.tasks, chunk)))
  }

  function DoPut(w: World, r: RunId, chunk: nat, bytes: Bytes, etag: string): World {
    if !HasTask(w, r, chunk) || !w.runs[r].tasks[chunk].Uploading?
       || |bytes| != ChunkSize(w.runs[r].binding, chunk) || etag == "" then w
    else
      var run := w.runs[r];
      var put := Put(run.writer.state.session.uploadID, chunk + 1, etag, bytes);
      if !EtagTells(w.server.puts, put) then w
      else With(w.(server := Accept(w.server, put)), r, run.(tasks := run.tasks[chunk := Uploaded(etag, bytes)]))
  }

  function DoCommit(w: World, r: RunId, chunk: nat, outcome: SaveOutcome, sha: Hash): World {
    if !HasTask(w, r, chunk) || !w.runs[r].tasks[chunk].Uploaded? then w
    else
      var run := w.runs[r];
      var Uploaded(etag, bytes) := run.tasks[chunk];
      if CommitRefusal(run.writer).Some? then With(w, r, run.(tasks := Without(run.tasks, chunk)))
      else
        var writer := CommitPart(run.writer, chunk, etag, sha(bytes));
        With(Store(w, run, writer.state, outcome), r,
             run.(tasks := Without(run.tasks, chunk), writer := writer,
                  accepted := run.accepted + {(chunk + 1, bytes)}, uploaded := run.uploaded + {ChunkKey(chunk)}))
  }

  function DoCloseBegins(w: World, r: RunId): World {
    if !Live(w, r) || CloseRefusal(w.runs[r].writer).Some? then w
    else
      var run := w.runs[r];
      With(w, r, run.(writer := BeginClose(run.writer), finish := Finalising(run.writer.partInfo)))
  }

  predicate StoredEtagsMatch(s: Server, uploadID: string, info: map<string, PartInfo>, count: int) {
    forall n :: 1 <= n <= count && Key(n) in info ==>
      (uploadID, n) in s.stored && s.stored[(uploadID, n)].etag == info[Key(n)].etag
  }

  function FinalOf(w: World, r: RunId, info: map<string, PartInfo>): Final
    requires r in w.runs
    requires StoredEtagsMatch(w.server, w.runs[r].writer.state.session.uploadID, info, w.runs[r].binding.partCount)
  {
    var run := w.runs[r];
    var id := run.writer.state.session.uploadID;
    Final(r, OriginOf(run.writer.state), run.binding.existingRev,
          map n: nat | 1 <= n <= run.binding.partCount && Key(n) in info :: w.server.stored[(id, n)].bytes)
  }

  function DoComplete(w: World, r: RunId): World {
    if !Live(w, r) || !w.runs[r].finish.Finalising?
       || !StoredEtagsMatch(
            w.server, w.runs[r].writer.state.session.uploadID, w.runs[r].finish.info, w.runs[r].binding.partCount)
    then w
    else
      var run := w.runs[r];
      With(w.(finals := w.finals + [FinalOf(w, r, run.finish.info)]), r, run.(finish := CleaningUp))
  }

  function DoCompleteFails(w: World, r: RunId): World {
    if !Live(w, r) || !w.runs[r].finish.Finalising? then w
    else With(w, r, w.runs[r].(finish := CleaningUp))
  }

  function DoCleanUp(w: World, r: RunId, removed: bool): World {
    if !Live(w, r) || w.runs[r].finish != CleaningUp then w
    else With(Remove(w, w.runs[r], removed), r, w.runs[r].(finish := Releasing))
  }

  function DoCloseReleases(w: World, r: RunId): World {
    if !Live(w, r) || w.runs[r].finish != Releasing then w
    else
      var released := Release(w, r);
      With(released, r, released.runs[r].(finish := Closed))
  }

  function DoAbortMarks(w: World, r: RunId): World {
    if !Live(w, r) then w
    else With(w, r, w.runs[r].(writer := Abort(w.runs[r].writer), aborts := w.runs[r].aborts + 1))
  }

  function DoAbortReleases(w: World, r: RunId): World {
    if !Live(w, r) || w.runs[r].aborts == 0 then w
    else
      var released := Release(w, r);
      With(released, r, released.runs[r].(aborts := w.runs[r].aborts - 1))
  }

  function DoCrash(w: World, r: RunId): World {
    if r !in w.runs || w.runs[r].phase.Gone? then w
    else With(w.(holder := if HoldsLock(w.runs[r]) then None else w.holder), r, w.runs[r].(phase := Gone))
  }

  function DoStrayPut(w: World, put: Put): World {
    if put.uploadID !in w.server.issued || !EtagTells(w.server.puts, put) then w
    else w.(server := Accept(w.server, put))
  }

  function DoExpire(w: World, uploadID: string): World {
    w.(server := w.server.(stored := map k | k in w.server.stored && k.0 != uploadID :: w.server.stored[k]))
  }

  ghost function Step(w: World, a: Action, sha: Hash): World {
    match a
    case Open(r, b, locked) => DoOpen(w, r, b, locked)
    case Load(r, removed) => DoLoad(w, r, removed)
    case Start(r, session) => DoStart(w, r, session)
    case Save(r, outcome) => DoSave(w, r, outcome)
    case Sign(r, signed) => DoSign(w, r, signed)
    case Refresh(r, uploadID) => DoRefresh(w, r, uploadID)
    case RefreshFails(r, removed) => DoRefreshFails(w, r, removed)
    case OpenFails(r) => DoOpenFails(w, r)
    case Enter(r, chunk) => DoEnter(w, r, chunk)
    case ChunkFails(r, chunk) => DoChunkFails(w, r, chunk)
    case Verify(r, chunk, bytes) => DoVerify(w, r, chunk, bytes, sha)
    case Discard(r, chunk, removed) => DoDiscard(w, r, chunk, removed)
    case PutPart(r, chunk, bytes, etag) => DoPut(w, r, chunk, bytes, etag)
    case Commit(r, chunk, outcome) => DoCommit(w, r, chunk, outcome, sha)
    case CloseBegins(r) => DoCloseBegins(w, r)
    case Complete(r) => DoComplete(w, r)
    case CompleteFails(r) => DoCompleteFails(w, r)
    case CleanUp(r, removed) => DoCleanUp(w, r, removed)
    case CloseReleases(r) => DoCloseReleases(w, r)
    case AbortMarks(r) => DoAbortMarks(w, r)
    case AbortReleases(r) => DoAbortReleases(w, r)
    case Crash(r) => DoCrash(w, r)
    case StrayPut(put) => DoStrayPut(w, put)
    case Expire(uploadID) => DoExpire(w, uploadID)
    case Corrupt => w.(file := if w.file.NoFile? then NoFile else Unreadable)
  }

  // The world after a history of actions.
  ghost function After(w: World, actions: seq<Action>, sha: Hash): World {
    if actions == [] then w else Step(After(w, actions[..|actions| - 1], sha), actions[|actions| - 1], sha)
  }
}
