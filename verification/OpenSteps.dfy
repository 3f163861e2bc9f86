/** OpenChunkWriter as a run of the step machine: each of its branches is a list of steps. */
module OpenSteps {
  import opened Basics
  import opened UploadTypes
  import opened PartSizing
  import opened ResumeRecord
  import opened ResumeStorage
  import opened WriterSteps
  import opened OpenWriter
  import opened UploadWorld
  import opened UploadLifecycle

  // Starting fresh: without a session it ends there.
  function FreshSteps(r: RunId, b: Binding, start: Option<Session>, outcome: SaveOutcome): seq<Action> {
    if Started(b, start).Some? then [Start(r, start.value), Save(r, outcome)] else []
  }

  // The steps of the branch taken, up to the session it ends with, if any.
  ghost function Branch(
      r: RunId, loaded: File, b: Binding, start: Option<Session>, sign: Signer, refresh: Option<string>,
      removed: bool, outcome: SaveOutcome): seq<Action>
  {
    if !loaded.Saved? || !IsValidFor(loaded.state, b) then [Load(r, removed)] + FreshSteps(r, b, start, outcome)
    else if Signed(Resumed(loaded.state), sign).Some? then [Load(r, removed)]
    else if refresh.Some? && refresh.value != "" then [Load(r, removed)] + [Refresh(r, refresh.value), Save(r, outcome)]
    else [Load(r, removed)] + RestartSteps(r, b, start, removed, outcome)
  }

  function RestartSteps(r: RunId, b: Binding, start: Option<Session>, removed: bool, outcome: SaveOutcome)
    : seq<Action>
  {
    [RefreshFails(r, removed)] + FreshSteps(r, b, start, outcome)
  }

  function UsableKeys(signed: SignedParts): set<string> {
    set key | key in signed && |signed[key]| >= 2
  }

  // The writer is handed out or the store released.
  ghost function LastStep(r: RunId, candidate: Option<Writer>, sign: Signer): Action {
    if HandsOut(candidate, sign) then Sign(r, UsableKeys(Signed(candidate.value, sign).value)) else OpenFails(r)
  }

  lemma AfterOne(w: World, a: Action, sha: Hash)
    ensures After(w, [a], sha) == Step(w, a, sha)
  {
    hide Step;
    assert [a][..0] == [];
    assert After(w, [], sha) == w;
  }

  lemma AfterTwo(w: World, a: Action, b: Action, sha: Hash)
    ensures After(w, [a, b], sha) == Step(Step(w, a, sha), b, sha)
  {
    hide Step;
    assert [a, b][..1] == [a];
    AfterOne(w, a, sha);
  }

  // What the run and the file are between two steps; the lock has not changed.
  predicate Waiting(w: World, v: World, r: RunId, phase: Phase, writer: Writer, file: File) {
    && r in w.runs && r in v.runs && v.file == file && v.holder == w.holder
    && v.runs[r] == w.runs[r].(phase := phase, writer := writer)
  }

  // A run that is still opening, with the candidate if there is one.
  predicate Arrives(w: World, v: World, r: RunId, candidate: Option<Writer>, file: File) {
    && Opening(v, r) && Waiting(w, v, r, v.runs[r].phase, v.runs[r].writer, file)
    && (candidate.Some? ==> v.runs[r].phase.Signing? && v.runs[r].writer == candidate.value)
  }

  lemma WaitingArrives(
      w: World, u: World, v: World, r: RunId, before: Phase, phase: Phase, first: Writer, writer: Writer,
      left: File, file: File, candidate: Option<Writer>)
    requires Waiting(w, u, r, before, first, left) && Waiting(u, v, r, phase, writer, file)
    requires phase.Signing? || phase.Starting?
    requires candidate.Some? ==> phase.Signing? && writer == candidate.value
    ensures Arrives(w, v, r, candidate, file)
  {
  }

  lemma LoadStarts(w: World, r: RunId, removed: bool, sha: Hash)
    requires r in w.runs && w.runs[r].phase == Loading
    requires var loaded := LoadedFile(w.runs[r].storeEnabled, w.file);
      !loaded.Saved? || !IsValidFor(loaded.state, w.runs[r].binding)
    ensures var v, enabled := Step(w, Load(r, removed), sha), w.runs[r].storeEnabled;
      && v.server == w.server
      && Waiting(w, v, r, Starting, w.runs[r].writer,
                 if LoadedFile(enabled, w.file).NoFile? then w.file else FileAfterRemove(enabled, w.file, removed))
  {
    hide IsValidFor;
  }

  lemma LoadResumes(w: World, r: RunId, removed: bool, state: ResumeState, sha: Hash)
    requires r in w.runs && w.runs[r].phase == Loading
    requires LoadedFile(w.runs[r].storeEnabled, w.file) == Saved(state) && IsValidFor(state, w.runs[r].binding)
    ensures var v := Step(w, Load(r, removed), sha);
      v.server == w.server && Waiting(w, v, r, Signing(true), Resumed(state), w.file)
  {
    hide IsValidFor;
  }

  lemma StartsFresh(w: World, r: RunId, start: Option<Session>, outcome: SaveOutcome, sha: Hash)
    requires r in w.runs && w.runs[r].phase == Starting
    requires start.Some? ==> start.value.uploadID !in w.server.issued
    ensures var b := w.runs[r].binding;
      var v := After(w, FreshSteps(r, b, start, outcome), sha);
      var file := FileStarted(w.runs[r].storeEnabled, w.file, b, start, outcome);
      if Started(b, start).Some? then Waiting(w, v, r, Signing(false), Started(b, start).value, file)
      else v == w && Waiting(w, v, r, Starting, w.runs[r].writer, file)
  {
    if Started(w.runs[r].binding, start).Some? {
      AfterTwo(w, Start(r, start.value), Save(r, outcome), sha);
      SessionStarts(w, r, start.value, sha);
      StateSaved(Step(w, Start(r, start.value), sha), r, outcome, sha);
      hide Step, After, FileAfterSave;
    }
  }

  lemma SessionStarts(w: World, r: RunId, session: Session, sha: Hash)
    requires r in w.runs && w.runs[r].phase == Starting && Usable(session) && session.uploadID !in w.server.issued
    ensures var v := Step(w, Start(r, session), sha);
      && r in v.runs && v.file == w.file && v.holder == w.holder
      && v.runs[r] == w.runs[r].(phase := Saving, writer := Fresh(w.runs[r].binding, session))
  {
  }

  lemma StateSaved(w: World, r: RunId, outcome: SaveOutcome, sha: Hash)
    requires r in w.runs && w.runs[r].phase == Saving
    ensures Waiting(
      w, Step(w, Save(r, outcome), sha), r, Signing(false), w.runs[r].writer,
      FileAfterSave(w.runs[r].storeEnabled, w.file, w.runs[r].writer.state, outcome))
  {
    hide FileAfterSave;
  }

  lemma Refreshes(w: World, r: RunId, uploadID: string, outcome: SaveOutcome, sha: Hash)
    requires r in w.runs && w.runs[r].phase == Signing(true) && uploadID != "" && uploadID !in w.server.issued
    ensures var writer := Refreshed(w.runs[r].writer, uploadID);
      var v := After(w, [Refresh(r, uploadID), Save(r, outcome)], sha);
      Waiting(w, v, r, Signing(false), writer, FileAfterSave(w.runs[r].storeEnabled, w.file, writer.state, outcome))
  {
    AfterTwo(w, Refresh(r, uploadID), Save(r, outcome), sha);
  }

  lemma RefreshFailing(w: World, r: RunId, removed: bool, sha: Hash)
    requires r in w.runs && w.runs[r].phase == Signing(true)
    ensures var v := Step(w, RefreshFails(r, removed), sha);
      && v.server == w.server
      && Waiting(w, v, r, Starting, w.runs[r].writer, FileAfterRemove(w.runs[r].storeEnabled, w.file, removed))
  {
  }

  lemma Restarts(w: World, r: RunId, start: Option<Session>, removed: bool, outcome: SaveOutcome, sha: Hash)
    requires r in w.runs && w.runs[r].phase == Signing(true)
    requires start.Some? ==> start.value.uploadID !in w.server.issued
    ensures var b, enabled := w.runs[r].binding, w.runs[r].storeEnabled;
      var v := After(w, RestartSteps(r, b, start, removed, outcome), sha);
      var file := FileStarted(enabled, FileAfterRemove(enabled, w.file, removed), b, start, outcome);
      if Started(b, start).Some? then Waiting(w, v, r, Signing(false), Started(b, start).value, file)
      else Waiting(w, v, r, Starting, w.runs[r].writer, file)
  {
    hide Step, After, FileStarted, FileAfterRemove, Started, FreshSteps;
    var b := w.runs[r].binding;
    AfterConcat(w, [RefreshFails(r, removed)], FreshSteps(r, b, start, outcome), sha);
    AfterOne(w, RefreshFails(r, removed), sha);
    RefreshFailing(w, r, removed, sha);
    StartsFresh(Step(w, RefreshFails(r, removed), sha), r, start, outcome, sha);
  }

  // Whatever was saved, and whatever the server answers with IDs it has not issued before, the
  // steps of the branch lead to the candidate of OpenChunkWriter, leave the file it leaves, and
  // do not touch the lock.
  lemma OpenIsItsSteps(
      w: World, r: RunId, start: Option<Session>, sign: Signer, refresh: Option<string>,
      removed: bool, outcome: SaveOutcome, sha: Hash)
    requires r in w.runs && w.runs[r].phase == Loading
    requires start.Some? ==> start.value.uploadID !in w.server.issued
    requires refresh.Some? ==> refresh.value !in w.server.issued
    ensures var b, enabled := w.runs[r].binding, w.runs[r].storeEnabled;
      var loaded := LoadedFile(enabled, w.file);
      var c := Candidate(loaded, b, start, sign, refresh);
      var v := After(w, Branch(r, loaded, b, start, sign, refresh, removed, outcome), sha);
      Arrives(w, v, r, c, FileLeft(enabled, w.file, b, start, sign, refresh, removed, outcome))
  {
    hide Step, IsValidFor, LoadedFile, After, Arrives, Branch, Candidate, FileLeft;
    var b := w.runs[r].binding;
    var loaded := LoadedFile(w.runs[r].storeEnabled, w.file);
    if loaded.Saved? && IsValidFor(loaded.state, b) {
      ResumedSteps(w, r, loaded.state, start, sign, refresh, removed, outcome, sha);
    } else {
      UnresumedSteps(w, r, start, sign, refresh, removed, outcome, sha);
    }
  }

  lemma UnresumedSteps(
      w: World, r: RunId, start: Option<Session>, sign: Signer, refresh: Option<string>,
      removed: bool, outcome: SaveOutcome, sha: Hash)
    requires r in w.runs && w.runs[r].phase == Loading
    requires var loaded := LoadedFile(w.runs[r].storeEnabled, w.file);
      !loaded.Saved? || !IsValidFor(loaded.state, w.runs[r].binding)
    requires start.Some? ==> start.value.uploadID !in w.server.issued
    ensures var b, enabled := w.runs[r].binding, w.runs[r].storeEnabled;
      var loaded := LoadedFile(enabled, w.file);
      var c := Candidate(loaded, b, start, sign, refresh);
      var v := After(w, Branch(r, loaded, b, start, sign, refresh, removed, outcome), sha);
      Arrives(w, v, r, c, FileLeft(enabled, w.file, b, start, sign, refresh, removed, outcome))
  {
    hide Step, IsValidFor, Signed, LoadedFile, After, FileAfterRemove, FreshSteps, Started, FileStarted, Arrives;
    hide Waiting;
    var b, enabled := w.runs[r].binding, w.runs[r].storeEnabled;
    var left := if LoadedFile(enabled, w.file).NoFile? then w.file else FileAfterRemove(enabled, w.file, removed);
    var u := Step(w, Load(r, removed), sha);
    AfterConcat(w, [Load(r, removed)], FreshSteps(r, b, start, outcome), sha);
    AfterOne(w, Load(r, removed), sha);
    LoadStarts(w, r, removed, sha);
    WaitingMeans(w, u, r, Starting, w.runs[r].writer, left);
    StartsFresh(u, r, start, outcome, sha);
    var v := After(u, FreshSteps(r, b, start, outcome), sha);
    var c := Started(b, start);
    WaitingArrives(
      w, u, v, r, Starting, if c.Some? then Signing(false) else Starting, w.runs[r].writer,
      if c.Some? then c.value else w.runs[r].writer, left, FileStarted(enabled, left, b, start, outcome), c);
  }

  lemma WaitingItself(w: World, r: RunId)
    requires r in w.runs
    ensures Waiting(w, w, r, w.runs[r].phase, w.runs[r].writer, w.file)
  {
  }

  lemma WaitingMeans(w: World, v: World, r: RunId, phase: Phase, writer: Writer, file: File)
    requires Waiting(w, v, r, phase, writer, file)
    ensures r in w.runs && r in v.runs && v.runs[r].phase == phase && v.runs[r].writer == writer
    ensures v.runs[r].binding == w.runs[r].binding && v.runs[r].storeEnabled == w.runs[r].storeEnabled
    ensures v.file == file && v.holder == w.holder && v.runs[r].released == w.runs[r].released
  {
  }

  lemma ResumedSteps(
      w: World, r: RunId, state: ResumeState, start: Option<Session>, sign: Signer, refresh: Option<string>,
      removed: bool, outcome: SaveOutcome, sha: Hash)
    requires r in w.runs && w.runs[r].phase == Loading
    requires LoadedFile(w.runs[r].storeEnabled, w.file) == Saved(state) && IsValidFor(state, w.runs[r].binding)
    requires start.Some? ==> start.value.uploadID !in w.server.issued
    requires refresh.Some? ==> refresh.value !in w.server.issued
    ensures var b, enabled := w.runs[r].binding, w.runs[r].storeEnabled;
      var c := Candidate(Saved(state), b, start, sign, refresh);
      var v := After(w, Branch(r, Saved(state), b, start, sign, refresh, removed, outcome), sha);
      Arrives(w, v, r, c, FileLeft(enabled, w.file, b, start, sign, refresh, removed, outcome))
  {
    hide Step, IsValidFor, Signed, LoadedFile, After, FileAfterSave, FileAfterRemove, FreshSteps, RestartSteps;
    hide Started, FileStarted, Refreshed, Waiting, Arrives;
    var b, enabled := w.runs[r].binding, w.runs[r].storeEnabled;
    var load, first := [Load(r, removed)], Resumed(state);
    var u := Step(w, Load(r, removed), sha);
    AfterOne(w, Load(r, removed), sha);
    LoadResumes(w, r, removed, state, sha);
    WaitingMeans(w, u, r, Signing(true), first, w.file);
    assert LoadedFile(enabled, w.file) == Saved(state);
    if Signed(first, sign).Some? {
      WaitingItself(u, r);
      WaitingArrives(w, u, u, r, Signing(true), Signing(true), first, first, w.file, w.file, Some(first));
    } else if refresh.Some? && refresh.value != "" {
      AfterConcat(w, load, [Refresh(r, refresh.value), Save(r, outcome)], sha);
      Refreshes(u, r, refresh.value, outcome, sha);
      var v := After(u, [Refresh(r, refresh.value), Save(r, outcome)], sha);
      var last := Refreshed(first, refresh.value);
      WaitingArrives(
        w, u, v, r, Signing(true), Signing(false), first, last, w.file,
        FileAfterSave(enabled, w.file, last.state, outcome), Some(last));
    } else {
      AfterConcat(w, load, RestartSteps(r, b, start, removed, outcome), sha);
      Restarts(u, r, start, removed, outcome, sha);
      var v, c := After(u, RestartSteps(r, b, start, removed, outcome), sha), Started(b, start);
      WaitingArrives(
        w, u, v, r, Signing(true), if c.Some? then Signing(false) else Starting, first,
        if c.Some? then c.value else first, w.file,
        FileStarted(enabled, FileAfterRemove(enabled, w.file, removed), b, start, outcome), c);
    }
  }

  // And the last step ends as the call ends: with the writer and the lock, or without both.
  lemma OpenEndsAsItsSteps(
      w: World, r: RunId, start: Option<Session>, sign: Signer, refresh: Option<string>,
      removed: bool, outcome: SaveOutcome, sha: Hash)
    requires r in w.runs && w.runs[r].phase == Loading
    requires start.Some? ==> start.value.uploadID !in w.server.issued
    requires refresh.Some? ==> refresh.value !in w.server.issued
    ensures var b, enabled := w.runs[r].binding, w.runs[r].storeEnabled;
      var loaded := LoadedFile(enabled, w.file);
      var c := Candidate(loaded, b, start, sign, refresh);
      var steps := Branch(r, loaded, b, start, sign, refresh, removed, outcome) + [LastStep(r, c, sign)];
      var v := After(w, steps, sha);
      && r in v.runs && v.file == FileLeft(enabled, w.file, b, start, sign, refresh, removed, outcome)
      && if HandsOut(c, sign) then v.runs[r].phase.Running? && Some(v.runs[r].writer) == c && v.holder == w.holder
         else v.runs[r].phase.Gone? && v.holder == if enabled && !w.runs[r].released then None else w.holder
  {
    hide Step, After, Candidate, FileLeft, Branch, LoadedFile;
    var b := w.runs[r].binding;
    var loaded := LoadedFile(w.runs[r].storeEnabled, w.file);
    var c := Candidate(loaded, b, start, sign, refresh);
    var branch := Branch(r, loaded, b, start, sign, refresh, removed, outcome);
    OpenIsItsSteps(w, r, start, sign, refresh, removed, outcome, sha);
    AfterConcat(w, branch, [LastStep(r, c, sign)], sha);
    var v := After(w, branch, sha);
    AfterOne(v, LastStep(r, c, sign), sha);
    if HandsOut(c, sign) {
      CandidateBinding(loaded, b, start, sign, refresh);
      SignsReady(v, r, Signed(c.value, sign).value, sha);
    } else {
      FailingReleases(v, r, sha);
    }
  }

  lemma CandidateBinding(loaded: File, b: Binding, start: Option<Session>, sign: Signer, refresh: Option<string>)
    requires Candidate(loaded, b, start, sign, refresh).Some?
    ensures Candidate(loaded, b, start, sign, refresh).value.state.binding == b
  {
    hide Signed;
  }

  lemma SignsReady(w: World, r: RunId, signed: SignedParts, sha: Hash)
    requires Opening(w, r) && w.runs[r].phase.Signing? && AllReady(w.runs[r].writer, signed)
    requires w.runs[r].writer.state.binding == w.runs[r].binding
    ensures var v := Step(w, Sign(r, UsableKeys(signed)), sha);
      r in v.runs && v.runs[r].phase.Running? && v.runs[r].writer == w.runs[r].writer
      && v.holder == w.holder && v.file == w.file
  {
    hide Key;
    forall n | 1 <= n <= w.runs[r].binding.partCount
      ensures Key(n) in w.runs[r].writer.partInfo || Key(n) in UsableKeys(signed)
    {
      assert PartReady(w.runs[r].writer, signed, n);
    }
    assert EachPartReady(w.runs[r], UsableKeys(signed));
  }

  lemma FailingReleases(w: World, r: RunId, sha: Hash)
    requires Opening(w, r)
    ensures var v := Step(w, OpenFails(r), sha);
      r in v.runs && v.runs[r].phase.Gone? && v.file == w.file
      && v.holder == if w.runs[r].storeEnabled && !w.runs[r].released then None else w.holder
  {
  }
}
