/**
 The critical sections of the chunk writer: what each does to the guarded fields, as functions
 of their values.  Between two sections of one call other calls may run.
 */
module WriterSteps {
  import opened Basics
  import opened UploadTypes
  import opened PartSizing

  // The fields guarded by the writer's mutex, with the resume state they are saved in.
  datatype Writer = Writer(
    state: ResumeState, partInfo: map<string, PartInfo>, closed: bool, aborted: bool, resumeInvalid: bool)

  datatype WriteError =
    | InvalidChunk
    | AlreadyClosed
    | WriterAborted
    | ChangedState
    | RestartUpload  // the only retryable one

  datatype Entered = Refused(error: WriteError) | MustVerify(part: ResumePart) | MustUpload

  function ChunkKey(chunk: nat): string {
    Key(chunk + 1)
  }

  function ChunkSize(b: Binding, chunk: int): int {
    ExpectedSize(b.size, b.partSize, chunk)
  }

  function EnterWrite(w: Writer, chunk: int): Entered {
    if chunk < 0 || chunk >= w.state.binding.partCount then Refused(InvalidChunk)
    else if w.closed then Refused(AlreadyClosed)
    else if w.aborted then Refused(if w.resumeInvalid then RestartUpload else WriterAborted)
    else if ChunkKey(chunk) in w.state.completed then MustVerify(w.state.completed[ChunkKey(chunk)])
    else MustUpload
  }

  // A completed part whose source bytes have another digest.
  function Invalidate(w: Writer): Writer {
    w.(aborted := true, resumeInvalid := true)
  }

  // The section after a part's PUT succeeded: it is recorded, or why it is not.
  function CommitRefusal(w: Writer): Option<WriteError> {
    if w.closed || w.aborted then Some(if w.resumeInvalid then RestartUpload else ChangedState) else None
  }

  function CommitPart(w: Writer, chunk: nat, etag: string, digest: string): Writer {
    if CommitRefusal(w).Some? then w
    else
      var size := ChunkSize(w.state.binding, chunk);
      w.(partInfo := w.partInfo[ChunkKey(chunk) := PartInfo(etag, size)],
         state := w.state.(completed := w.state.completed[ChunkKey(chunk) := ResumePart(etag, size, digest)]))
  }

  datatype CloseError = CloseAborted | CloseTwice | Incomplete(got: nat)

  function CloseRefusal(w: Writer): Option<CloseError> {
    if w.aborted then Some(CloseAborted)
    else if w.closed then Some(CloseTwice)
    else if |w.partInfo| != w.state.binding.partCount then Some(Incomplete(|w.partInfo|))
    else None
  }

  function BeginClose(w: Writer): Writer {
    if CloseRefusal(w).Some? then w else w.(closed := true)
  }

  function Abort(w: Writer): Writer {
    if w.closed then w else w.(aborted := true)
  }

  function Fresh(binding: Binding, session: Session): Writer {
    Writer(ResumeState(RESUME_VERSION, binding, session, map[]), map[], false, false, false)
  }

  function Resumed(s: ResumeState): Writer {
    Writer(s, PartInfoOf(s.completed), false, false, false)
  }

  // The replacement upload ID starts without parts.
  function Refreshed(w: Writer, uploadID: string): Writer {
    w.(state := w.state.(session := w.state.session.(uploadID := uploadID), completed := map[]), partInfo := map[])
  }
}
