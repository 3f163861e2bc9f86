# PKU Disk backend: a model with proofs

This project models the three parts of rclone's PKU Disk backend (`backend/pkudisk`) where something can go wrong that
no single function shows, and proves what they keep.

**Resumable multipart uploads.** `UploadTypes`, `PartSizing`, `MissingRanges`, `ResumeRecord`, `ResumeStorage` and
`WriterSteps` hold the values, the arithmetic and the critical sections; `ChunkWriter` and `OpenWriter` are the
imperative code, specified by those functions, and `OpenBinding` what an upload is bound to before. `UploadWorld` puts
everything that runs concurrently into one step machine: any number of runs in any number of processes, their part
writers between their lock sections, Close, Abort, crashes, failed saves and removes, the state file and its lock, and a
server whose sessions expire. `OpenSteps` shows that OpenChunkWriter is a run of that machine, with the same writer,
file and lock. `UploadInvariant` and `UploadSteps` prove one invariant for every step; `UploadTheorems`,
`UploadLifecycle`, `UploadEnding` and `UploadProgress` draw the consequences for every history.

**The LevelDB write-ahead log.** `LevelDBLog`, `Varint`, `WriteBatch` and `WalScan` are the reader, the base-128
decoder, the batch parser and the latest-write scan, each a loop proved equal to a recursive function.
`LevelDBLogWriter` and the encoders are the printers the format asks for (LevelDB's `doc/log_format.md` and the
varints of Protocol Buffers); the parsers are proved to undo them. `LevelDBPieces` says what they make of anything
else. `WrittenLogs` goes end to end, from the bytes of several files, each cut anywhere, to the replayed store.

**Optimistic concurrency and the path/ID cache.** `UploadGuard` and `RevisionRace` turn preconditions into
compare-and-set at the server under interference, multipart sessions taken over by a later run included. `Paths` relates
the string operations on paths and document IDs to lists of components; `ServerTree` is the server's tree with
cumulative IDs; `ServerApi` is the server as the backend calls it; `CacheCoherence` and `DirectoryFs` are the directory
cache and the operations that use and flush it; `PointLookup` is the one-query lookup beside plain traversal.

## Assumptions

- Upload IDs and revisions issued by the server are new. Within one part of one session equal ETags mean equal bytes,
  and a completion is accepted only if every listed ETag is the stored one. Creating and completing are one server
  step each. At most one WriteChunk call per chunk is under way in one writer.
- A save replaces the state file, leaves it, or (remove, then a failing rename) leaves none. The file lock is
  exclusive and is dropped when its holder dies.
- SHA-256 is any function from bytes to strings. Only where byte equality is concluded, no part the server received
  may have the digest of a part of the source without being it.
- The server checks `editedrev` when an upload begins and when it ends, and refuses a create whose name is taken.
- The name encoder is any pair with decode(encode(x)) = x that maps path components to path components; names below
  the libraries are ones it encoded, and names are unique per directory. Paths are clean where the code's callers make
  them so.
- The server refuses a rename, move or deletion whose kind (file or directory) is wrong and a move of a directory
  into itself. Renaming within a directory keeps the document ID; moving to another changes it, and the IDs below it.
- For the directory cache there is one client. Every call may fail; a change may also be made and its reply lost. The
  server counts the calls that fail for no reason of theirs (`faults`); any other call it takes unless its stated
  conditions forbid it.

## What the model shows about the code

- `validFor` accepts other spellings of a part number: a state with keys "1" and "01" passes, has the right count and
  lacks part 2. States the code itself saved never look like that, so the count test in Close is sound for them.
- The count test in Close is right exactly when all keys are canonical part numbers.
- A digest mismatch found by a WriteChunk that is still verifying when Close is finalising does not stop that
  finalisation: a history in which it happens is given. README.md:218 of the repository says an uncertain session is
  never finalized; once a mismatch is known that holds exactly when Close was not finalising then.
- The product of the part limits can wrap around, and then small files are rejected; the sum that rounds up can
  overflow, and then the part limit is broken. The sum that gives the number of parts can overflow too, and then
  there are none. All three have an exact condition.
- The log reader drops a non-empty record begun with exactly seven bytes left in a block, and no other.
- `int(keyLen)` can turn a length negative: the guard then lets it through and the slice fails, exactly when start
  plus length reaches 2^63.
- An empty value put into LevelDB is presented like a deletion; the scan agrees with a replay exactly otherwise.
- An upload of an existing document for which the listing reports no revision carries no guard, and can replace a
  revision another client wrote after it looked: a history in which it does is given. No other upload of an
  existing document can.
- When the reply to a directory move, removal or deletion is lost after the server acted (for a move also when it
  lacks the document ID, `backend/pkudisk/api.go:430-432`), the cache is not flushed; it is stale exactly if something
  at or below the directory was cached, which for path-based operations is always so.
- On a path of one component the one-query lookup says "is a directory" for a library and the listing route says "not
  found"; everywhere else they agree.

## Model

| member | source | states |
|---|---|---|
| UploadSteps.StepKeeps | backend/pkudisk/chunk_writer.go:56-426 | every step of every run, and of the environment, keeps the invariant tying writers, saved state, lock and server together |
| UploadSteps.HistoryKeeps | backend/pkudisk/chunk_writer.go:56-426 | so every history from nothing satisfies it |
| UploadSteps.LoadKeeps | backend/pkudisk/chunk_writer.go:165-183 | loading takes a state up only if valid, and discards it otherwise, without breaking the invariant |
| UploadSteps.RefreshKeeps | backend/pkudisk/chunk_writer.go:194-206 | a refresh empties both maps under the new upload ID and keeps the invariant |
| UploadSteps.VerifyKeeps | backend/pkudisk/chunk_writer.go:289-312 | verification accepts a part only by its digest, or invalidates the writer |
| UploadSteps.PutKeeps | backend/pkudisk/chunk_writer.go:323-346 | a PUT the server stored but the run has not yet recorded keeps the invariant |
| UploadSteps.CommitKeeps | backend/pkudisk/chunk_writer.go:348-367 | recording a part, whatever becomes of the save, keeps the saved state backed by the server |
| UploadSteps.CommittedState | backend/pkudisk/chunk_writer.go:356-362 | after the commit both maps agree and each entry names a PUT part of that ETag, size and digest |
| UploadSteps.CloseBeginsKeeps | backend/pkudisk/chunk_writer.go:370-390 | Close takes a snapshot of all parts and shuts the writer in one step |
| UploadSteps.FinishKeeps | backend/pkudisk/chunk_writer.go:392-410 | finalisation and removal of the state file keep the invariant even after the lock is gone |
| UploadSteps.AbortMarksKeeps | backend/pkudisk/chunk_writer.go:414-419 | Abort leaves both maps and the saved state alone |
| UploadSteps.CrashKeeps | backend/pkudisk/multipart_resume.go:79-121 | a crash at any point frees the lock and leaves a state that is still backed |
| UploadTheorems.SavedStateIsBacked | backend/pkudisk/chunk_writer.go:356-365 | over all histories each saved entry names a part PUT under the saved upload ID with that ETag, exactly that size and digest |
| UploadTheorems.RefreshInheritsNothing | backend/pkudisk/chunk_writer.go:194-206 | a refreshed upload ID starts with no parts, on the server and in both maps |
| UploadTheorems.SavedStateResumesExactly | backend/pkudisk/multipart_resume.go:213-238 | a state the code saved is taken up exactly by a run with the same source, destination, revision and layout |
| UploadTheorems.WriterMapsAgree | backend/pkudisk/chunk_writer.go:356-362 | partInfo and Completed agree in keys, ETags and sizes; keys are canonical, sizes the expected ones |
| UploadTheorems.CloseGate | backend/pkudisk/chunk_writer.go:380-389 | the bare count test means all parts are there and their sizes add up to the file |
| UploadTheorems.AcceptedPartsMatchReads | backend/pkudisk/chunk_writer.go:300-311 | on completion each stored part has the digest and length of every read the run reported as written |
| UploadTheorems.CompletedObjectIsTheSource | backend/pkudisk/chunk_writer.go:248-412 | over all histories, unless a part received by the server collides with a part of the source, a completed object is byte for byte the source as the last run read it |
| UploadTheorems.CompletedForItsOrigin | backend/pkudisk/chunk_writer.go:109-206 | a session, resumed or refreshed, is completed under the existing ID and revision it was started with |
| OpenBinding.BindUpload | backend/pkudisk/chunk_writer.go:61-108 | which objects the preconditions accept, and that an upload is bound exactly when size, place, lookup and limits allow too; the revision bound is the expected one, or the one seen |
| OpenBinding.CompletedAsExpected | backend/pkudisk/chunk_writer.go:95-102 | a run completes its session, whoever began it, under the expected document and revision, or as a new file if absence is expected |
| OpenBinding.TakenUpExactly | backend/pkudisk/multipart_resume.go:213-222 | for the same source a saved state is taken up exactly by a run with the same parent, name, existing ID and base revision |
| OpenBinding.BoundIsItsDestination | backend/pkudisk/chunk_writer.go:82-102 | the binding has the destination the preconditions and the lookup give |
| UploadLifecycle.SavesHoldTheLock | backend/pkudisk/chunk_writer.go:348-366 | every save happens while the saver holds the file lock |
| UploadLifecycle.OnlySavesWrite | backend/pkudisk/multipart_resume.go:185-194 | any other change of the file, a late remove included, can only lose progress |
| UploadLifecycle.LockChangesHands | backend/pkudisk/multipart_resume.go:79-121 | the lock is taken only when free and dropped only by its holder |
| UploadLifecycle.LockDroppedOnce | backend/pkudisk/multipart_resume.go:112-121 | a run that has dropped its lock never holds it again |
| UploadLifecycle.InvalidatedIsDead | backend/pkudisk/chunk_writer.go:300-309 | from a mismatch on the maps never change and no Close starts finalisation |
| UploadLifecycle.InvalidatedReportsRestart | backend/pkudisk/chunk_writer.go:256-268 | every later WriteChunk that enters an open writer or commits gets the retryable restart error |
| UploadLifecycle.ResumeInvalidMeansAborted | backend/pkudisk/chunk_writer.go:300-304 | the invalid flag alone implies the dead state in reachable worlds |
| UploadLifecycle.LateMismatchDoesNotStopClose | backend/pkudisk/chunk_writer.go:289-309 | right after a mismatch the session can be completed exactly when Close was already finalising with matching ETags |
| UploadLifecycle.InvalidatedCompletesExactly | backend/pkudisk/chunk_writer.go:300-309 | over everything that can follow, an invalidated session is completed in some history exactly when Close was finalising |
| UploadProgress.LateMismatchHappens | backend/pkudisk/chunk_writer.go:289-392 | a history in which a resumed run's mismatch comes during finalisation and the session is completed all the same |
| UploadLifecycle.InvalidatedOtherwiseNeverCompletes | backend/pkudisk/chunk_writer.go:370-375 | a session invalidated before Close, or after it failed, is never completed, whatever follows |
| UploadEnding.AbortedStartsNothing | backend/pkudisk/chunk_writer.go:256-268 | after an Abort no WriteChunk call of that run starts anything, over all that follows |
| UploadEnding.ClosedStartsNothing | backend/pkudisk/chunk_writer.go:257-260 | nor after Close has begun |
| UploadEnding.AbortedNeverCompletes | backend/pkudisk/chunk_writer.go:370-375 | a run aborted before its Close began, invalidated or not, never begins it and completes nothing, over all that follows |
| UploadEnding.NoRunCompletesTwice | backend/pkudisk/chunk_writer.go:376-390 | in every history no run completes twice |
| UploadEnding.CloseCleansUp | backend/pkudisk/chunk_writer.go:392-411 | once finalisation has ended, Close removes the saved state and no longer holds the lock |
| UploadEnding.AbortUnlocks | backend/pkudisk/chunk_writer.go:414-426 | Abort keeps the saved state and no longer holds the lock |
| UploadEnding.VerificationDecides | backend/pkudisk/chunk_writer.go:289-311 | the same digest accepts the read and changes nothing else; another invalidates the writer and goes on to remove the saved state |
| UploadEnding.DiscardRemoves | backend/pkudisk/chunk_writer.go:300-309 | a mismatch removes the saved state |
| UploadLifecycle.PutsOnlyMissingParts | backend/pkudisk/chunk_writer.go:269-313 | a run never PUTs a part it found completed or has already committed |
| UploadLifecycle.UploadedIsTheRest | backend/pkudisk/chunk_writer.go:313-367 | once closed, the PUT parts are exactly the others, and resumed plus PUT bytes are the file |
| UploadLifecycle.ConcurrentEqualsInOrder | backend/pkudisk/upload.go:178-213 | any interleaving ends with the partInfo the in-order loop builds from the same ETags |
| UploadProgress.CrashedUploadCanFinish | backend/pkudisk/chunk_writer.go:56-412 | for every file and every part to crash after, a second run can resume, verify, PUT the rest and complete |
| UploadProgress.CrashedUploadIsTheSource | backend/pkudisk/chunk_writer.go:56-412 | that completion is accepted with digests validFor accepts, and the object is the file |
| ChunkWriting.ChunkWriter.EnterChunk | backend/pkudisk/chunk_writer.go:249-275 | refuses exactly missing chunks, a closed writer and an aborted one, with the error for each, and else tells verification from upload |
| ChunkWriting.ChunkWriter.RecordMismatch | backend/pkudisk/chunk_writer.go:301-304 | sets both flags and nothing else |
| ChunkWriting.ChunkWriter.RecordPart | backend/pkudisk/chunk_writer.go:348-367 | refuses a closed or aborted writer, else records the part in both maps and saves |
| ChunkWriting.ChunkWriter.WriteChunk | backend/pkudisk/chunk_writer.go:248-368 | with anything other calls may do in between: which calls are refused and how, exactly when the others succeed, which error each failure has, and the fields and file every outcome leaves |
| ChunkWriting.ChunkWriter.VerifyChunk | backend/pkudisk/chunk_writer.go:274-312 | verification accepts by digest, else invalidates and removes the saved state |
| ChunkWriting.ChunkWriter.UploadChunk | backend/pkudisk/chunk_writer.go:313-367 | records exactly a fully sent part with an ETag in a writer still open |
| ChunkWriting.ChunkWriter.StartClosing | backend/pkudisk/chunk_writer.go:371-390 | an aborted writer, a closed one and one without all parts are refused in this order; no other is |
| ChunkWriting.ChunkWriter.Close | backend/pkudisk/chunk_writer.go:370-412 | a refused Close changes nothing; any other removes the state and releases the lock whether or not finalisation works |
| ChunkWriting.ChunkWriter.AbortUpload | backend/pkudisk/chunk_writer.go:414-426 | aborts an open writer, keeps the saved state, releases the lock |
| OpenWriter.OpenChunkWriter | backend/pkudisk/chunk_writer.go:144-245 | a valid state is resumed when its missing parts are signed, refreshed when they are not, and a new session used otherwise; each part handed out is completed or signed; exactly what becomes of file and lock |
| OpenWriter.Prepare | backend/pkudisk/chunk_writer.go:144-200 | resume, refresh and fresh branches arrive at the candidate state and leave the file as specified |
| OpenSteps.OpenIsItsSteps | backend/pkudisk/chunk_writer.go:144-200 | each branch is a run of the step machine that ends with the same writer, the same file and the lock untouched |
| OpenSteps.OpenEndsAsItsSteps | backend/pkudisk/chunk_writer.go:68-72 | the machine hands out the writer with the lock, or fails and frees it, exactly as the call does |
| OpenWriter.CheckReady | backend/pkudisk/chunk_writer.go:204-212 | true exactly if each part is completed or has a signed request of two fields or more |
| OpenWriter.SignMultipartParts | backend/pkudisk/upload.go:42-59 | the loop gathers the answers of all ranges or fails |
| OpenWriter.SignAllGathers | backend/pkudisk/upload.go:42-59 | success means every range was signed, and a part is signed exactly if some answer has it |
| OpenWriter.LastAnswerCounts | backend/pkudisk/upload.go:54-56 | for a part several answers name the last one counts |
| OpenWriter.MissingGetSigned | backend/pkudisk/chunk_writer.go:192-212 | when every range of missing parts is answered, every part is ready |
| ResumeRecord.ValidFor | backend/pkudisk/multipart_resume.go:213-238 | the loop rejects a state for each header field and each misfit of an entry, and for nothing else |
| ResumeRecord.CountMeansAllPresent | backend/pkudisk/chunk_writer.go:380-384 | a full count means all parts are present if and only if all keys are canonical |
| ResumeRecord.AcceptedStateMissesAPart | backend/pkudisk/multipart_resume.go:223-236 | an accepted state of full count can lack a part when keys are spelled differently |
| ResumeRecord.TotalIsSum | backend/pkudisk/chunk_writer.go:380-389 | expected sizes add up to the tiling of the file |
| ResumeStorage.ResumeStore.constructor | backend/pkudisk/multipart_resume.go:79-110 | the store is enabled exactly if the lock was free |
| ResumeStorage.ResumeStore.Load | backend/pkudisk/multipart_resume.go:123-140 | an unreadable file is dropped, a disabled store reads nothing |
| ResumeStorage.ResumeStore.Save | backend/pkudisk/multipart_resume.go:142-183 | replaces the file, leaves it, or leaves none |
| ResumeStorage.ResumeStore.Remove | backend/pkudisk/multipart_resume.go:185-194 | removes the file, even after release |
| ResumeStorage.ResumeStore.Release | backend/pkudisk/multipart_resume.go:112-121 | unlocks the first time only |
| Decimal.ParseFormat | backend/pkudisk/multipart_resume.go:224 | parsing a part key gives the part number back |
| Decimal.OtherSpellingsParse | backend/pkudisk/multipart_resume.go:224 | other spellings are accepted too |
| Decimal.ParseExactly | backend/pkudisk/multipart_resume.go:224 | an optional sign and digits within range are a number, and nothing else is |
| MissingRanges.MissingMultipartRanges | backend/pkudisk/multipart_resume.go:248-270 | the nested loops render exactly the list of runs of missing parts |
| MissingRanges.RangesAreRuns | backend/pkudisk/multipart_resume.go:248-270 | the ranges are increasing, separated by gaps, and cover exactly the missing parts |
| MissingRanges.RangesAreFewest | backend/pkudisk/multipart_resume.go:248-270 | no list of ranges covering the missing parts is shorter |
| MissingRanges.RenderedRangeParses | backend/pkudisk/multipart_resume.go:263-267 | "n" and "a-b" parse back to the range |
| PartSizing.MultipartPartSize | backend/pkudisk/upload.go:256-274 | the default size when it reaches and is allowed, else the nearest limit or the least size that reaches; within the size limits and, if the rounding sum fits, within the part limit; exactly which files are refused |
| PartSizing.ChosenSizeRespectsLimits | backend/pkudisk/upload.go:261-273 | a chosen size is within the size limits and needs no more parts than allowed, unless the rounding sum overflows |
| PartSizing.PartLimitKeptExactly | backend/pkudisk/upload.go:268-272 | with overflow, the exact condition under which the part limit is still kept |
| PartSizing.TooLargeExactly | backend/pkudisk/upload.go:264-266 | the rejection is right exactly when the limits' product does not wrap below the size |
| PartSizing.WrappedLimitsRejectSmallFile | backend/pkudisk/upload.go:264 | a one-byte file rejected because the product wraps |
| PartSizing.OverflowingSumBreaksLimit | backend/pkudisk/upload.go:269 | a file whose chosen size needs more parts than allowed |
| PartSizing.CountWithin | backend/pkudisk/upload.go:158 | in unbounded arithmetic the rounded-up count is within a limit exactly when that many parts reach the size |
| PartSizing.PartCountExactly | backend/pkudisk/chunk_writer.go:108 | the 64-bit count is that one exactly when size plus part size is at most 2^63, else it is not positive |
| PartSizing.PartsTile | backend/pkudisk/chunk_writer.go:254 | min(partSize, size - i*partSize) tiles the file with positive pieces |
| PartSizing.UploadInOrder | backend/pkudisk/upload.go:178-213 | the sequential loop ends with nothing remaining exactly if every part got an ETag |
| LevelDBLog.LogicalRecords | backend/pkudisk/auth.go:244-282 | the block loop returns the logical records |
| LevelDBLog.ReadBlock | backend/pkudisk/auth.go:248-279 | the inner loop yields one block's records and the open fragment, with nil kept apart from empty |
| LevelDBLog.ReaderIsStable | backend/pkudisk/auth.go:244-282 | the records of a prefix of any bytes are a prefix of the records |
| LevelDBPieces.PiecesRead | backend/pkudisk/auth.go:247-281 | physical records of any kinds in any order, with blocks ending in any of the ways that end them, read as the records they complete |
| LevelDBLogWriter.LogRoundTrip | backend/pkudisk/auth.go:244-282 | whatever the checksums, exactly the records with a non-empty FIRST fragment, or begun elsewhere, come back |
| LevelDBLogWriter.LogRoundTripExactly | backend/pkudisk/auth.go:244-282 | reading undoes writing if and only if no non-empty record begins with seven bytes left |
| LevelDBLogWriter.ReadFragments | backend/pkudisk/auth.go:262-278 | a record split into fragments over any number of blocks is put together again |
| LevelDBLogWriter.TornLog | backend/pkudisk/auth.go:257-259 | any written log cut anywhere yields a prefix of its surviving records |
| LevelDBLogWriter.TornLogKeepsComplete | backend/pkudisk/auth.go:257-259 | no surviving record written completely before the cut is missing |
| LevelDBLogWriter.SecondRecordLost | backend/pkudisk/auth.go:267 | a concrete pair of records of which the second is lost |
| Varint.ReadVarint | backend/pkudisk/auth.go:284-295 | the loop decodes as the recursive scan does |
| Varint.VarintRoundTrip | backend/pkudisk/auth.go:284-295 | every 64-bit value comes back from its encoding, in any surroundings, with the position after it |
| Varint.EncodedSize | backend/pkudisk/auth.go:286 | an encoding has one to ten bytes |
| Varint.ReadBounds | backend/pkudisk/auth.go:284-295 | success consumes one to ten bytes in bounds, and happens exactly if a last byte is among the next ten |
| WriteBatch.CutOutOfRangeExactly | backend/pkudisk/auth.go:206-210 | the guard lets a failing slice through exactly when start plus length reaches 2^63 |
| WriteBatch.ReadEncodedOp | backend/pkudisk/auth.go:203-228 | an encoded put or deletion is read back, and the cursor is after it |
| WriteBatch.BatchRoundTrip | backend/pkudisk/auth.go:192-238 | a written batch reads as its operations with consecutive sequence numbers |
| WriteBatch.ReadOpExactly | backend/pkudisk/auth.go:203-228 | the outcome of one operation in unbounded arithmetic: which ends the record, which fails, which is read |
| WriteBatch.MalformedBatch | backend/pkudisk/auth.go:195-228 | a batch gives as many of its operations as it claims, up to the first thing that is none |
| WriteBatch.ShortRecordIsEmpty | backend/pkudisk/auth.go:192-194 | a record shorter than a header gives nothing |
| WriteBatch.HugeKeyLengthPanics | backend/pkudisk/auth.go:205-210 | a family of records on which the slice fails |
| WalScan.ReadLatestWalMutations | backend/pkudisk/auth.go:178-242 | the file loop keeps, per wanted key, what a fold over all mutations keeps |
| WalScan.LogRecordsConcat | backend/pkudisk/auth.go:186-191 | readable files count in order, unreadable ones are passed over wherever they stand |
| WalScan.ScanRecords | backend/pkudisk/auth.go:191-239 | the same for the records of one file |
| WalScan.ScanRecord | backend/pkudisk/auth.go:192-238 | the same for the operations of one batch |
| WalScan.ParseOp | backend/pkudisk/auth.go:203-228 | one operation with its two varints and two guarded slices |
| WalScan.KeepAllIsLatest | backend/pkudisk/auth.go:233-237 | what is kept is the first scanned of the mutations of its key with the highest sequence |
| WalScan.ScanRefinesReplay | backend/pkudisk/auth.go:178-242 | in whatever order files and records are scanned the result is the replay in sequence order, empty values aside |
| WalScan.ScanEqualsReplay | backend/pkudisk/auth.go:223 | scan and replay present the same exactly when the replayed value is not empty |
| WrittenLogs.ReadableIsRead | backend/pkudisk/auth.go:244-282 | what is read of a torn log of batches is a prefix of the surviving batches |
| WrittenLogs.WholeIsReadable | backend/pkudisk/auth.go:244-282 | of a whole log only batches begun with seven bytes left are missing |
| WrittenLogs.WrittenLogsReplay | backend/pkudisk/auth.go:178-242 | from the bytes of several log files, each cut anywhere, to the replayed store, without failing |
| UploadGuard.ExtractSyncUploadPreconditions | backend/pkudisk/pkudisk.go:931-975 | in whatever order and number, options are accepted exactly when no value is empty or differs, absence is true, ID and revision come together and not with absence; the result is what they say |
| UploadGuard.CollectedIsSound | backend/pkudisk/pkudisk.go:967-974 | accepted preconditions name an ID and a revision, or absence |
| UploadGuard.RemoteObject.Update | backend/pkudisk/pkudisk.go:999-1036 | which objects the preconditions accept, the request and the guards it carries, and the error of each failure; identity changes only on success |
| RevisionRace.StepKeeps | backend/pkudisk/upload.go:97-128 | every step of every upload and of other clients keeps what each revision was and what each begun upload is for |
| RevisionRace.NoLostUpdate | backend/pkudisk/upload.go:97-128 | in every interleaving a successful guarded upload, begun by itself or taken over, replaces exactly the expected revision of the expected document |
| RevisionRace.AbsentCreatesOnly | backend/pkudisk/pkudisk.go:981-986 | a successful expected-absent upload, begun by itself or taken over, creates an entry and overwrites none |
| RevisionRace.AbsentUploadCreates | backend/pkudisk/pkudisk.go:981-986 | on any server where the name is free an expected-absent upload does create its entry |
| RevisionRace.BeginGuardExactly | backend/pkudisk/upload.go:97-116 | an upload of an existing document begins exactly when its preconditions accept it and its base revision is current or was unknown |
| RevisionRace.CreateBeginsExactly | backend/pkudisk/upload.go:111-114 | one that saw no object begins exactly when it expects none and the name is free |
| RevisionRace.CreateEndsExactly | backend/pkudisk/upload.go:118-128 | and ends exactly when the name is still free |
| RevisionRace.EndGuardExactly | backend/pkudisk/upload.go:118-128 | an upload of an existing document ends exactly when its base revision is current or was unknown |
| RevisionRace.UnseenRevisionReplaced | backend/pkudisk/upload.go:107-109 | a reachable upload without a known revision replaces one another client wrote after it looked |
| RevisionRace.TakenOverEnds | backend/pkudisk/chunk_writer.go:144-180 | a guarded upload that took over a session does end, replacing the expected revision |
| RevisionRace.GuardIsKnown | backend/pkudisk/pkudisk.go:1004-1012 | the base revision is the expected one, or the one seen |
| Paths.SplitJoin | backend/pkudisk/point_lookup.go:45-52 | splitting undoes joining on slash-free components |
| Paths.UnderExactly | backend/pkudisk/pkudisk.go:643-644 | the cache's string prefix test is the prefix test on components |
| Paths.ParentOfEntry | backend/pkudisk/point_lookup.go:58-67 | every entry but a library has the ID one segment up as parent; a library has none |
| Paths.ParentExactly | backend/pkudisk/point_lookup.go:58-67 | for any string, when a parent is found and what it is |
| ServerTree.LeadsToOne | backend/pkudisk/pkudisk.go:312-335 | plain traversal finds at most one entry at a path |
| ServerTree.BelowMatches | backend/pkudisk/point_lookup.go:50-54 | being below in ID and being below in path are the same |
| ServerTree.MoveCarries | backend/pkudisk/pkudisk.go:660-668 | a move re-prefixes every descendant's ID and carries the whole subtree to the new path |
| ServerTree.RelocationCarries | backend/pkudisk/pkudisk.go:648-669 | the same for rename or move, whichever relocateEntry picks |
| ServerTree.RelocationEffects | backend/pkudisk/pkudisk.go:648-669 | everything else stays, and nothing stays behind |
| ServerTree.RelocatedWellFormed | backend/pkudisk/pkudisk.go:660-668 | the tree after a move is a tree again |
| CacheCoherence.FlushKeeps | backend/pkudisk/pkudisk.go:643-644 | dropping the directory and all below it leaves every cached pair right after a delete, rename or move |
| CacheCoherence.StaleExactly | backend/pkudisk/pkudisk.go:640-642 | without the flush the cache is right exactly if nothing at or below the directory was cached |
| DirectoryFs.Fs.FindLeaf | backend/pkudisk/pkudisk.go:312-335 | finds the directory of that shown name, or says there is none |
| DirectoryFs.Fs.FindDir | backend/pkudisk/pkudisk.go:312-342 | through the cache or not, finds exactly the live directory plain traversal finds; it fails only for a faulty call, nothing there, a missing library or a file in the way |
| DirectoryFs.Fs.CreateDir | backend/pkudisk/pkudisk.go:337-342 | makes one directory, never a library |
| DirectoryFs.Fs.List | backend/pkudisk/pkudisk.go:344-380 | reports exactly the children under their shown names and keeps the cache right; without a faulty call fails exactly when there is no directory |
| DirectoryFs.Fs.Mkdir | backend/pkudisk/pkudisk.go:454-457 | ends with a live directory and makes nothing but directories along the path; the outcome of every call without a fault |
| DirectoryFs.Fs.Rmdir | backend/pkudisk/pkudisk.go:459-497 | removes exactly one empty directory; the outcome of every call without a fault; the cache stays right if and only if no reply was lost |
| DirectoryFs.Fs.Purge | backend/pkudisk/pkudisk.go:502-535 | removes exactly one subtree, never a library; the outcome of every call without a fault; the same for the cache |
| DirectoryFs.Fs.RelocateEntry | backend/pkudisk/pkudisk.go:648-669 | renames in place or moves, and reports the entry's ID afterwards |
| DirectoryFs.Fs.DirMove | backend/pkudisk/pkudisk.go:622-646 | the directory and its subtree end at the destination, where there was none; the outcome of every call without a fault; the cache stays right if and only if no reply was lost |
| DirectoryFs.Fs.FindEnds | backend/pkudisk/pkudisk.go:631-636 | makes the destination's parents and finds the ends of the move, or says which is missing or taken |
| DirectoryFs.Fs.SyncMove | backend/pkudisk/pkudisk.go:716-777 | moves by ID; the outcome of every call without a fault; the exact condition under which the cache stays right |
| DirectoryFs.Fs.SyncDeleteDir | backend/pkudisk/pkudisk.go:697-714 | deletes only an empty directory below a library; the outcome of every call without a fault; the exact condition for the cache |
| DirectoryFs.Fs.RunAll | backend/pkudisk/pkudisk.go:344-777 | after any sequence of these operations that succeed or leave the server unchanged every cached pair is right |
| PointLookup.EncodedNamePath | backend/pkudisk/point_lookup.go:25-35 | keeps the library's name and encodes every other component |
| PointLookup.StoredMatchesShown | backend/pkudisk/point_lookup.go:25-35 | going down by encoded names leads to an entry exactly if going down by shown names does |
| PointLookup.NewObjectByPath | backend/pkudisk/point_lookup.go:110-128 | settles the matter as plain traversal does unless the path is empty or the query failed |
| PointLookup.NewObjectByListing | backend/pkudisk/pkudisk.go:397-422 | the listing route's outcome is that of plain traversal below the libraries, else not found |
| PointLookup.NewObject | backend/pkudisk/pkudisk.go:393-423 | whichever route answers, the outcome is that of plain traversal, except for a single component; it fails only when both routes did |
| PointLookup.RoutesAgreeExactly | backend/pkudisk/pkudisk.go:393-423 | on every path the query's outcome is the listing route's exactly unless the path is one component naming a library |
| PointLookup.SeedDirCacheFromDocID | backend/pkudisk/point_lookup.go:40-56 | puts nothing, or one pair per prefix; which of the two for any strings |
| PointLookup.TrimmedExactly | backend/pkudisk/point_lookup.go:41 | all slashes go at both ends and nothing else |
| PointLookup.SeedsAreTheWalk | backend/pkudisk/point_lookup.go:50-54 | given the directory's ID, the pairs put are exactly what the walk finds, and the cache stays right |
| PointLookup.TryResolveRootByPath | backend/pkudisk/point_lookup.go:72-108 | a root is settled exactly when the query finds a directory, or a file below the top, and has the ID of the live directory there, or of the one holding the file |

## Left out

- HTTP, TLS, JSON, OAuth, signed-request parsing, `retryTransient` and the two-try authentication loop: each server call is one step that may fail.
- `parseCompletionResponse` and the object-store completion request: completing is one server step, which may fail at any time.
- Token decoding and the goleveldb read of the compacted tables (`auth.go:103-176`, `297-`): library calls.
- SHA-256, `flock`, rclone's encoder and `dircache`: an arbitrary function, a lock with one holder, an arbitrary inverse pair, and a map with Put, Get, Flush and prefix FlushDir. `dircache` is not part of the repository; its FindDir and DirMove are written as that library documents them.
- The Windows fallback in `save` is an outcome that leaves no file.
- A writer without resume state: `OpenChunkWriter` never builds one. A nil `Completed` map reads as empty.
- Copy, Move of files, Open and download, `sync-delete`, Remove: they touch no directory ID and would only repeat the guards shown.
- `path.Join` cleaning of "." and "..", trimming of command arguments and the spelling of booleans: paths are clean, arguments trimmed, and truth of a value is a parameter.
- `Put` (`backend/pkudisk/pkudisk.go:425-452`) is a lookup followed by Update: the Look step of the upload races, which see the document before anything else happens.
- Remotes whose root is below the virtual root are modelled for the lookup of the root and for encoded paths only; the cache operations are on a remote at the virtual root.
- Several clients changing the tree at once make any cache stale; only the upload races have other clients.
- Rmdir: does not protect libraries, because the code tests the parent only for the empty path; an empty library can be deleted, as its contract allows.
- A crash between the start of finalisation and the removal of the state file leaves the file, so that a session whose finalisation began is never resumed is not claimed.
- PartSizing.CountWithin: is about the unbounded count; the step machine and the in-order loop have uploads with size plus part size at most 2^63, where PartCountExactly says the code computes that count.
- The race of revisions and the part machine are two machines: a begun upload of the former is the document ID and revision of a session of the latter, which a refresh does not change.
- DirectoryFs.Fs.RunAll: stops at the first lost reply, because the cache may then be stale and later calls would act on wrong IDs.
