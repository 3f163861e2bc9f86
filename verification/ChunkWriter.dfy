/**
 The chunk writer as an object.  Each method between two Lock/Unlock pairs of the original is a
 method of its own, specified by the critical section it is in the step machine.  WriteChunk puts
 them together; whatever other calls may do to the writer, and anyone to the disk, may happen
 between them.
 */
module ChunkWriting {
  import opened Basics
  import opened UploadTypes
  import opened PartSizing
  import opened ResumeStorage
  import opened WriterSteps

  // How a part's PUT went: its signed request is unusable, it failed, or it got an ETag (or "")
  // for the bytes sent.
  datatype PutAnswer = Unsigned | PutFailed | PutAccepted(sent: Bytes, etag: string)

  datatype ChunkError =
    | Rejected(reason: WriteError)
    | VerifyReadFailed
    | BadSignedRequest
    | UploadFailed
    | SourceEndedEarly
    | MissingEtag

  // What other calls may do to a writer while a call for one part is between two sections: raise
  // flags and record other parts.
  predicate Rely(v: Writer, w: Writer, key: string) {
    && w.state == v.state.(completed := w.state.completed)
    && (v.closed ==> w.closed) && (v.aborted ==> w.aborted) && (v.resumeInvalid ==> w.resumeInvalid)
    && (forall k :: k in v.state.completed ==>
          k in w.state.completed && w.state.completed[k] == v.state.completed[k])
    && (forall k :: k in v.partInfo ==> k in w.partInfo && w.partInfo[k] == v.partInfo[k])
    && (key in w.state.completed ==> key in v.state.completed) && (key in w.partInfo ==> key in v.partInfo)
  }

  class ChunkWriter {
    const binding: Binding
    const session: Session
    const store: ResumeStore

    var partInfo: map<string, PartInfo>
    var closed: bool
    var aborted: bool
    var resumeInvalid: bool
    var completed: map<string, ResumePart>

    // The state that is saved: the header fixed at opening and the parts completed so far.
    function State(): ResumeState
      reads this
    {
      ResumeState(RESUME_VERSION, binding, session, completed)
    }

    function View(): Writer
      reads this
    {
      Writer(State(), partInfo, closed, aborted, resumeInvalid)
    }

    ghost predicate Valid()
      reads this, store, store.disk
    {
      store.Valid()
    }

    constructor (initial: Writer, store: ResumeStore)
      requires store.Valid() && initial.state.version == RESUME_VERSION
      ensures Valid() && View() == initial && this.store == store
    {
      binding, session, this.store := initial.state.binding, initial.state.session, store;
      partInfo, completed := initial.partInfo, initial.state.completed;
      closed, aborted, resumeInvalid := initial.closed, initial.aborted, initial.resumeInvalid;
    }

    method EnterChunk(chunkNumber: int) returns (entered: Entered)
      ensures entered == EnterWrite(View(), chunkNumber)
      ensures entered.Refused? <==> !(0 <= chunkNumber < binding.partCount) || closed || aborted
      ensures 0 <= chunkNumber < binding.partCount && closed ==> entered == Refused(AlreadyClosed)
      ensures 0 <= chunkNumber < binding.partCount && !closed && aborted ==>
        entered == Refused(if resumeInvalid then RestartUpload else WriterAborted)
    {
      if chunkNumber < 0 || chunkNumber >= binding.partCount {
        return Refused(InvalidChunk);
      }
      var partKey := Key(chunkNumber + 1);
      if closed {
        return Refused(AlreadyClosed);
      }
      if aborted {
        if resumeInvalid {
          return Refused(RestartUpload);
        }
        return Refused(WriterAborted);
      }
      if partKey in completed {
        return MustVerify(completed[partKey]);
      }
      return MustUpload;
    }

    method RecordMismatch()
      modifies this
      ensures View() == Invalidate(old(View()))
      ensures aborted && resumeInvalid && closed == old(closed)
      ensures partInfo == old(partInfo) && completed == old(completed)
    {
      aborted := true;
      resumeInvalid := true;
    }

    method RecordPart(chunk: nat, etag: string, digest: string, outcome: SaveOutcome)
      returns (refused: Option<WriteError>)
      requires Valid()
      modifies this, store.disk`file
      ensures Valid()
      ensures refused == CommitRefusal(old(View())) && View() == CommitPart(old(View()), chunk, etag, digest)
      ensures store.disk.file == if refused.Some? then old(store.disk.file)
                                 else FileAfterSave(store.enabled, old(store.disk.file), View().state, outcome)
      ensures closed == old(closed) && aborted == old(aborted) && resumeInvalid == old(resumeInvalid)
      ensures old(closed || aborted) ==>
        refused == Some(if old(resumeInvalid) then RestartUpload else ChangedState)
        && partInfo == old(partInfo) && completed == old(completed)
      ensures !old(closed || aborted) ==>
        var size := Min(binding.partSize, binding.size - chunk * binding.partSize);
        && refused.None?
        && partInfo == old(partInfo)[Key(chunk + 1) := PartInfo(etag, size)]
        && completed == old(completed)[Key(chunk + 1) := ResumePart(etag, size, digest)]
    {
      if closed || aborted {
        if resumeInvalid {
          return Some(RestartUpload);
        }
        return Some(ChangedState);
      }
      var partKey := Key(chunk + 1);
      var expected := Min(binding.partSize, binding.size - chunk * binding.partSize);
      partInfo := partInfo[partKey := PartInfo(etag, expected)];
      completed := completed[partKey := ResumePart(etag, expected, digest)];
      store.Save(State(), outcome);
      return None;
    }

    // Other calls on this writer, and other processes on the disk, for a while.
    method OthersAct(key: string)
      requires Valid()
      modifies this, store`released, store.disk
      ensures Valid() && Rely(old(View()), View(), key)
    {
      var w: Writer := *;
      if Rely(View(), w, key) {
        partInfo, completed := w.partInfo, w.state.completed;
        closed, aborted, resumeInvalid := w.closed, w.aborted, w.resumeInvalid;
      }
      OthersUseDisk();
    }

    method OthersUseDisk()
      requires Valid()
      modifies store`released, store.disk
      ensures Valid()
    {
      store.disk.file := *;
      if * {
        store.released := true;
      }
      if store.released || !store.enabled {
        store.disk.holder := *;
      }
    }

    // One WriteChunk call.  `source` is what verification reads of the chunk, if it can, and
    // `answer` how the PUT goes.  `met` and `metFile` are the writer at the call's last section
    // and the file at its last access to it.
    method WriteChunk(
        chunkNumber: int, source: Option<Bytes>, answer: PutAnswer, outcome: SaveOutcome, removed: bool, sha: Hash)
      returns (r: Result<int, ChunkError>, ghost met: Writer, ghost metFile: File)
      requires Valid()
      modifies this, store`released, store.disk
      ensures Valid()
      // A chunk that does not exist, a closed writer and an aborted one are refused in this order,
      // the last with the error that tells whether to restart.  A refused call does nothing.
      ensures !(0 <= chunkNumber < binding.partCount) ==> r == Err(Rejected(InvalidChunk))
      ensures 0 <= chunkNumber < binding.partCount && old(closed) ==> r == Err(Rejected(AlreadyClosed))
      ensures 0 <= chunkNumber < binding.partCount && !old(closed) && old(aborted) ==>
        r == Err(Rejected(if old(resumeInvalid) then RestartUpload else WriterAborted))
      ensures !(0 <= chunkNumber < binding.partCount) || old(closed || aborted) ==>
        && View() == met == old(View()) && store.disk.file == metFile == old(store.disk.file)
        && store.disk.holder == old(store.disk.holder) && store.released == old(store.released)
      // Otherwise only others have changed the writer when its last section begins.
      ensures 0 <= chunkNumber < binding.partCount && !old(closed || aborted) ==>
        Rely(old(View()), met, Key(chunkNumber + 1))
      // A part found completed is not sent again: it is accepted exactly when the bytes read now
      // are as many as the chunk has and have the digest recorded at entry.  Other bytes
      // invalidate the writer, and the saved state is removed.
      ensures 0 <= chunkNumber < binding.partCount && !old(closed || aborted)
              && Key(chunkNumber + 1) in old(completed) ==>
        var size := Min(binding.partSize, binding.size - chunkNumber * binding.partSize);
        var readable := source.Some? && |source.value| == size;
        var same := readable && sha(source.value) == old(completed)[Key(chunkNumber + 1)].sha256;
        && r == (if same then Ok(size) else Err(if readable then Rejected(RestartUpload) else VerifyReadFailed))
        && (if readable && !same
            then && aborted && resumeInvalid && Key(chunkNumber + 1) in completed
                 && Rely(met.(aborted := true, resumeInvalid := true), View(), Key(chunkNumber + 1))
                 && store.disk.file == (if store.enabled && removed then NoFile else metFile)
            else View() == met && store.disk.file == metFile)
      // A missing part is recorded and saved exactly when all its bytes got an ETag and the writer
      // was still open then; otherwise the error tells what is wrong and whether to restart.
      ensures 0 <= chunkNumber < binding.partCount && !old(closed || aborted)
              && Key(chunkNumber + 1) !in old(completed) ==>
        var size := Min(binding.partSize, binding.size - chunkNumber * binding.partSize);
        && (r.Ok? <==> answer.PutAccepted? && |answer.sent| == size && answer.etag != "" && !met.closed && !met.aborted)
        && (r.Ok? ==> r.value == size)
        && (r.Err? ==> r.error == match answer
              case Unsigned => BadSignedRequest
              case PutFailed => UploadFailed
              case PutAccepted(sent, etag) =>
                if |sent| != size then SourceEndedEarly else if etag == "" then MissingEtag
                else Rejected(if met.resumeInvalid then RestartUpload else ChangedState))
        && (closed, aborted, resumeInvalid) == (met.closed, met.aborted, met.resumeInvalid)
        && partInfo == (if r.Err? then met.partInfo
                        else met.partInfo[Key(chunkNumber + 1) := PartInfo(answer.etag, size)])
        && completed == (if r.Err? then met.state.completed
                         else met.state.completed[
                                Key(chunkNumber + 1) := ResumePart(answer.etag, size, sha(answer.sent))])
        && store.disk.file == (if r.Ok? && store.enabled && outcome.SaveDone? then Saved(State())
                               else if r.Ok? && store.enabled && outcome.SaveLostFile? then NoFile else metFile)
    {
      hide Key;
      met, metFile := View(), store.disk.file;
      var entered := EnterChunk(chunkNumber);
      match entered {
        case Refused(reason) =>
          r := Err(Rejected(reason));
        case MustVerify(persisted) =>
          r, met, metFile := VerifyChunk(chunkNumber, persisted, source, removed, sha);
        case MustUpload =>
          r, met, metFile := UploadChunk(chunkNumber, answer, outcome, sha);
      }
    }

    // The part is unlocked, read and compared, locked again and unlocked before the remove.
    method VerifyChunk(chunk: nat, persisted: ResumePart, source: Option<Bytes>, removed: bool, sha: Hash)
      returns (r: Result<int, ChunkError>, ghost met: Writer, ghost metFile: File)
      requires Valid() && Key(chunk + 1) in completed
      modifies this, store`released, store.disk
      ensures Valid() && Rely(old(View()), met, Key(chunk + 1)) && Key(chunk + 1) in completed
      ensures var size := Min(binding.partSize, binding.size - chunk * binding.partSize);
        var readable := source.Some? && |source.value| == size;
        var same := readable && sha(source.value) == persisted.sha256;
        && r == (if same then Ok(size) else Err(if readable then Rejected(RestartUpload) else VerifyReadFailed))
        && (if readable && !same
            then && aborted && resumeInvalid
                 && Rely(met.(aborted := true, resumeInvalid := true), View(), Key(chunk + 1))
                 && store.disk.file == (if store.enabled && removed then NoFile else metFile)
            else View() == met && store.disk.file == metFile)
    {
      hide Key;
      OthersAct(Key(chunk + 1));
      met, metFile := View(), store.disk.file;
      var expected := ChunkSize(binding, chunk);
      if source.None? || |source.value| != expected {
        return Err(VerifyReadFailed), met, metFile;
      }
      if sha(source.value) == persisted.sha256 {
        return Ok(expected), met, metFile;
      }
      RecordMismatch();
      OthersAct(Key(chunk + 1));
      metFile := store.disk.file;
      store.Remove(removed);
      r := Err(Rejected(RestartUpload));
    }

    method UploadChunk(chunk: nat, answer: PutAnswer, outcome: SaveOutcome, sha: Hash)
      returns (r: Result<int, ChunkError>, ghost met: Writer, ghost metFile: File)
      requires Valid()
      modifies this, store`released, store.disk
      ensures Valid() && Rely(old(View()), met, Key(chunk + 1))
      ensures var size := Min(binding.partSize, binding.size - chunk * binding.partSize);
        && (r.Ok? <==> answer.PutAccepted? && |answer.sent| == size && answer.etag != "" && !met.closed && !met.aborted)
        && (r.Ok? ==> r.value == size)
        && (r.Err? ==> r.error == match answer
              case Unsigned => BadSignedRequest
              case PutFailed => UploadFailed
              case PutAccepted(sent, etag) =>
                if |sent| != size then SourceEndedEarly else if etag == "" then MissingEtag
                else Rejected(if met.resumeInvalid then RestartUpload else ChangedState))
        && (closed, aborted, resumeInvalid) == (met.closed, met.aborted, met.resumeInvalid)
        && partInfo == (if r.Err? then met.partInfo else met.partInfo[Key(chunk + 1) := PartInfo(answer.etag, size)])
        && completed == (if r.Err? then met.state.completed
                         else met.state.completed[Key(chunk + 1) := ResumePart(answer.etag, size, sha(answer.sent))])
        && store.disk.file == (if r.Ok? && store.enabled && outcome.SaveDone? then Saved(State())
                               else if r.Ok? && store.enabled && outcome.SaveLostFile? then NoFile else metFile)
    {
      hide Key;
      OthersAct(Key(chunk + 1));
      met, metFile := View(), store.disk.file;
      var expected := ChunkSize(binding, chunk);
      if answer.Unsigned? {
        return Err(BadSignedRequest), met, metFile;
      }
      if answer.PutFailed? {
        return Err(UploadFailed), met, metFile;
      }
      if |answer.sent| != expected {
        return Err(SourceEndedEarly), met, metFile;
      }
      if answer.etag == "" {
        return Err(MissingEtag), met, metFile;
      }
      var refused := RecordPart(chunk, answer.etag, sha(answer.sent), outcome);
      r := if refused.Some? then Err(Rejected(refused.value)) else Ok(expected);
    }

    method StartClosing() returns (refused: Option<CloseError>, info: map<string, PartInfo>)
      modifies this
      ensures refused == CloseRefusal(old(View())) && View() == BeginClose(old(View()))
      ensures info == if refused.None? then partInfo else map[]
      ensures refused == if old(aborted) then Some(CloseAborted) else if old(closed) then Some(CloseTwice)
                         else if |old(partInfo)| != binding.partCount then Some(Incomplete(|old(partInfo)|)) else None
      ensures closed == (old(closed) || refused.None?) && aborted == old(aborted)
      ensures resumeInvalid == old(resumeInvalid) && partInfo == old(partInfo) && completed == old(completed)
    {
      if aborted {
        return Some(CloseAborted), map[];
      }
      if closed {
        return Some(CloseTwice), map[];
      }
      if |partInfo| != binding.partCount {
        return Some(Incomplete(|partInfo|)), map[];
      }
      closed := true;
      return None, partInfo;
    }

    // Close, given whether finalisation works.  Either way the state file goes and the lock is
    // released: an ambiguous finalisation is not carried over.
    method Close(finalised: bool, removed: bool) returns (refused: Option<CloseError>, ok: bool)
      requires Valid()
      modifies this, store`released, store.disk
      ensures Valid()
      ensures refused == CloseRefusal(old(View())) && View() == BeginClose(old(View()))
      // An aborted writer, one closed before and one without all parts are refused in this order.
      ensures old(aborted) ==> refused == Some(CloseAborted)
      ensures !old(aborted) && old(closed) ==> refused == Some(CloseTwice)
      ensures !old(aborted || closed) && |old(partInfo)| != binding.partCount ==>
        refused == Some(Incomplete(|old(partInfo)|))
      ensures !old(aborted || closed) && |old(partInfo)| == binding.partCount ==> refused.None?
      ensures ok <==> refused.None? && finalised
      // A refused Close changes nothing; any other closes the writer, removes the file and unlocks.
      ensures refused.Some? ==>
        && View() == old(View()) && store.disk.file == old(store.disk.file)
        && store.disk.holder == old(store.disk.holder) && store.released == old(store.released)
      ensures refused.None? ==>
        && closed && !aborted && resumeInvalid == old(resumeInvalid)
        && partInfo == old(partInfo) && completed == old(completed)
        && store.disk.file == (if store.enabled && removed then NoFile else old(store.disk.file))
        && (store.enabled ==> store.released)
        && store.disk.holder == (if store.enabled && !old(store.released) then None else old(store.disk.holder))
    {
      var info;
      refused, info := StartClosing();
      ok := refused.None? && finalised;
      if refused.Some? {
        return;
      }
      store.Remove(removed);
      store.Release();
    }

    // Abort keeps the saved state for the next run.
    method AbortUpload()
      requires Valid()
      modifies this, store`released, store.disk`holder
      ensures Valid() && View() == Abort(old(View())) && (store.enabled ==> store.released)
      ensures aborted == (old(aborted) || !old(closed)) && closed == old(closed)
      ensures resumeInvalid == old(resumeInvalid) && partInfo == old(partInfo) && completed == old(completed)
      ensures store.disk.holder == if store.enabled && !old(store.released) then None else old(store.disk.holder)
    {
      if !closed {
        aborted := true;
      }
      store.Release();
    }
  }
}
