/**
 OpenChunkWriter from the loaded resume state on: resume, refresh or start fresh, sign what is
 missing, and hand out a writer only if every part is completed or has a signed request.
 */
module OpenWriter {
  import opened Basics
  import opened Decimal
  import opened UploadTypes
  import opened PartSizing
  import opened MissingRanges
  import opened ResumeRecord
  import opened ResumeStorage
  import opened WriterSteps

  // A signed request is a method, a URL and header lines; two fields make it usable.
  type SignedParts = map<string, seq<string>>

  // The server's answer to a request to sign a range of parts of a session.
  type Signer = (Session, string) -> Option<SignedParts>

  // The answers of all ranges together, a later answer replacing an earlier one for a part.
  function SignAll(session: Session, ranges: seq<string>, sign: Signer): Option<SignedParts> {
    if ranges == [] then Some(map[])
    else
      var n := |ranges| - 1;
      match (SignAll(session, ranges[..n], sign), sign(session, ranges[n]))
      case (Some(before), Some(batch)) => Some(before + batch)
      case _ => None
  }

  lemma {:induction false} SignAllFailsAt(session: Session, ranges: seq<string>, sign: Signer, i: nat)
    requires i < |ranges| && sign(session, ranges[i]).None?
    ensures SignAll(session, ranges, sign).None?
    decreases |ranges|
  {
    var n := |ranges| - 1;
    if i < n {
      SignAllFailsAt(session, ranges[..n], sign, i);
    }
  }

  // All ranges are signed or none is: and then each answered part is there.
  lemma {:induction false} SignAllGathers(session: Session, ranges: seq<string>, sign: Signer, key: string)
    requires SignAll(session, ranges, sign).Some?
    ensures forall i :: 0 <= i < |ranges| ==> sign(session, ranges[i]).Some?
    ensures key in SignAll(session, ranges, sign).value <==>
      exists i :: 0 <= i < |ranges| && key in sign(session, ranges[i]).value
    decreases |ranges|
  {
    if ranges != [] {
      var n := |ranges| - 1;
      SignAllGathers(session, ranges[..n], sign, key);
      forall i | 0 <= i < n
        ensures sign(session, ranges[i]).Some?
      {
        assert ranges[..n][i] == ranges[i];
      }
      if i :| 0 <= i < |ranges| && key in sign(session, ranges[i]).value {
        assert i < n ==> ranges[..n][i] == ranges[i];
      }
    }
  }

  // For a part that several answers name, the last one counts.
  lemma {:induction false} LastAnswerCounts(session: Session, ranges: seq<string>, sign: Signer, i: nat, key: string)
    requires SignAll(session, ranges, sign).Some? && i < |ranges|
    requires sign(session, ranges[i]).Some? && key in sign(session, ranges[i]).value
    requires forall j :: i < j < |ranges| && sign(session, ranges[j]).Some? ==> key !in sign(session, ranges[j]).value
    ensures key in SignAll(session, ranges, sign).value
    ensures SignAll(session, ranges, sign).value[key] == sign(session, ranges[i]).value[key]
    decreases |ranges|
  {
    var n := |ranges| - 1;
    if i < n {
      assert ranges[..n][i] == ranges[i];
      assert forall j :: 0 <= j < n ==> ranges[..n][j] == ranges[j];
      LastAnswerCounts(session, ranges[..n], sign, i, key);
    }
  }

  // Every range of missing parts is answered, with usable requests for all its parts.
  ghost predicate AnswersMissing(sign: Signer, session: Session, count: int, done: set<string>) {
    forall r :: r in RangesFrom(1, count, done) ==>
      && sign(session, Render(r)).Some?
      && (forall n :: In(n, r) ==> Key(n) in sign(session, Render(r)).value)
      && forall key :: key in sign(session, Render(r)).value ==> |sign(session, Render(r)).value[key]| >= 2
  }

  // Some range of missing parts is not answered.
  ghost predicate Unanswered(sign: Signer, session: Session, count: int, done: set<string>) {
    exists r :: r in RangesFrom(1, count, done) && sign(session, Render(r)).None?
  }

  lemma {:induction false} AllUsable(session: Session, ranges: seq<string>, sign: Signer)
    requires forall i :: 0 <= i < |ranges| ==>
      && sign(session, ranges[i]).Some?
      && forall key :: key in sign(session, ranges[i]).value ==> |sign(session, ranges[i]).value[key]| >= 2
    ensures SignAll(session, ranges, sign).Some?
    ensures var all := SignAll(session, ranges, sign).value; forall key :: key in all ==> |all[key]| >= 2
    decreases |ranges|
  {
    if ranges != [] {
      var n := |ranges| - 1;
      assert forall i :: 0 <= i < n ==> ranges[..n][i] == ranges[i];
      AllUsable(session, ranges[..n], sign);
    }
  }

  // Then all missing parts get a usable request, and only those need one.
  lemma MissingGetSigned(w: Writer, sign: Signer)
    requires AnswersMissing(sign, w.state.session, w.state.binding.partCount, w.partInfo.Keys)
    ensures Signed(w, sign).Some? && AllReady(w, Signed(w, sign).value)
  {
    hide Render, Key, SignAll;
    var session, count, done := w.state.session, w.state.binding.partCount, w.partInfo.Keys;
    var rs, ranges := RangesFrom(1, count, done), Ranges(w);
    assert forall i :: 0 <= i < |ranges| ==> ranges[i] == Render(rs[i]) && rs[i] in rs;
    AllUsable(session, ranges, sign);
    var all := SignAll(session, ranges, sign).value;
    RangesAreRuns(1, count, done);
    forall n | 1 <= n <= count && Key(n) !in done
      ensures Key(n) in all
    {
      assert Missing(n, count, done) && Covers(rs, n);
      var i :| 0 <= i < |rs| && In(n, rs[i]);
      assert Key(n) in sign(session, ranges[i]).value;
      SignAllGathers(session, ranges, sign, Key(n));
    }
    forall n | 1 <= n <= count
      ensures PartReady(w, all, n)
    {
      if Key(n) !in done {
        assert Key(n) in all;
      }
    }
  }

  lemma UnansweredFails(w: Writer, sign: Signer)
    requires Unanswered(sign, w.state.session, w.state.binding.partCount, w.partInfo.Keys)
    ensures Signed(w, sign).None?
  {
    hide Render;
    var rs := RangesFrom(1, w.state.binding.partCount, w.partInfo.Keys);
    var range :| range in rs && sign(w.state.session, Render(range)).None?;
    var i :| 0 <= i < |rs| && rs[i] == range;
    SignAllFailsAt(w.state.session, Ranges(w), sign, i);
  }

  method SignMultipartParts(session: Session, ranges: seq<string>, sign: Signer) returns (r: Option<SignedParts>)
    ensures r == SignAll(session, ranges, sign)
  {
    var result: SignedParts := map[];
    var i := 0;
    while i < |ranges|
      invariant 0 <= i <= |ranges|
      invariant SignAll(session, ranges[..i], sign) == Some(result)
    {
      var batch := sign(session, ranges[i]);
      if batch.None? {
        SignAllFailsAt(session, ranges, sign, i);
        return None;
      }
      assert ranges[..i + 1][..i] == ranges[..i];
      result := result + batch.value;
      i := i + 1;
    }
    assert ranges[..|ranges|] == ranges;
    return Some(result);
  }

  function Ranges(w: Writer): seq<string> {
    RenderAll(RangesFrom(1, w.state.binding.partCount, w.partInfo.Keys))
  }

  function Signed(w: Writer, sign: Signer): Option<SignedParts> {
    SignAll(w.state.session, Ranges(w), sign)
  }

  predicate Usable(session: Session) {
    session.docID != "" && session.rev != "" && session.uploadID != ""
  }

  function Started(b: Binding, start: Option<Session>): Option<Writer> {
    if start.Some? && Usable(start.value) then Some(Fresh(b, start.value)) else None
  }

  // The writer the three branches arrive at, before its parts are checked.
  ghost function Candidate(loaded: File, b: Binding, start: Option<Session>, sign: Signer, refresh: Option<string>)
    : Option<Writer>
  {
    if !loaded.Saved? || !IsValidFor(loaded.state, b) then Started(b, start)
    else if Signed(Resumed(loaded.state), sign).Some? then Some(Resumed(loaded.state))
    else if refresh.Some? && refresh.value != "" then Some(Refreshed(Resumed(loaded.state), refresh.value))
    else Started(b, start)
  }

  // The file after starting fresh: without a session nothing is saved.
  function FileStarted(enabled: bool, file: File, b: Binding, start: Option<Session>, outcome: SaveOutcome): File {
    if Started(b, start).Some? then FileAfterSave(enabled, file, Started(b, start).value.state, outcome) else file
  }

  // The file the three branches leave.
  ghost function FileLeft(
      enabled: bool, file: File, b: Binding, start: Option<Session>, sign: Signer, refresh: Option<string>,
      removed: bool, outcome: SaveOutcome): File
  {
    var loaded := LoadedFile(enabled, file);
    if loaded.NoFile? then FileStarted(enabled, file, b, start, outcome)
    else if !loaded.Saved? || !IsValidFor(loaded.state, b) then
      FileStarted(enabled, FileAfterRemove(enabled, file, removed), b, start, outcome)
    else if Signed(Resumed(loaded.state), sign).Some? then file
    else if refresh.Some? && refresh.value != "" then
      FileAfterSave(enabled, file, Refreshed(Resumed(loaded.state), refresh.value).state, outcome)
    else FileStarted(enabled, FileAfterRemove(enabled, file, removed), b, start, outcome)
  }

  predicate PartReady(w: Writer, signed: SignedParts, n: nat) {
    Key(n) in w.partInfo || (Key(n) in signed && |signed[Key(n)]| >= 2)
  }

  ghost predicate AllReady(w: Writer, signed: SignedParts) {
    forall n :: 1 <= n <= w.state.binding.partCount ==> PartReady(w, signed, n)
  }

  // There is no valid state, or it can be neither signed nor refreshed.
  ghost predicate StartsOver(enabled: bool, file: File, b: Binding, sign: Signer, refresh: Option<string>) {
    || !enabled || !file.Saved? || !IsValidFor(file.state, b)
    || (Unanswered(sign, file.state.session, b.partCount, file.state.completed.Keys)
        && (refresh.None? || refresh.value == ""))
  }

  // Resuming: the signed writer is handed out and the file is left alone.
  lemma Resumes(
      file: File, b: Binding, start: Option<Session>, sign: Signer, refresh: Option<string>,
      removed: bool, outcome: SaveOutcome)
    requires file.Saved? && IsValidFor(file.state, b)
    requires AnswersMissing(sign, file.state.session, b.partCount, file.state.completed.Keys)
    ensures var c := Candidate(LoadedFile(true, file), b, start, sign, refresh);
      && HandsOut(c, sign) && FileLeft(true, file, b, start, sign, refresh, removed, outcome) == file
      && c == Some(Writer(file.state, PartInfoOf(file.state.completed), false, false, false))
  {
    ValidBinding(file.state, b);
    hide Signed, AllReady, AnswersMissing, Unanswered, IsValidFor;
    assert PartInfoOf(file.state.completed).Keys == file.state.completed.Keys;
    SignedExactly(Resumed(file.state), sign);
  }

  // Refreshing: the session continues under the new upload ID without its parts.
  lemma Refreshes(
      file: File, b: Binding, start: Option<Session>, sign: Signer, uploadID: string,
      removed: bool, outcome: SaveOutcome)
    requires file.Saved? && IsValidFor(file.state, b) && uploadID != ""
    requires Unanswered(sign, file.state.session, b.partCount, file.state.completed.Keys)
    requires AnswersMissing(sign, file.state.session.(uploadID := uploadID), b.partCount, {})
    ensures var c := Candidate(LoadedFile(true, file), b, start, sign, Some(uploadID));
      var state := file.state.(session := file.state.session.(uploadID := uploadID), completed := map[]);
      && HandsOut(c, sign) && c == Some(Writer(state, map[], false, false, false))
      && (outcome.SaveDone? ==>
            FileLeft(true, file, b, start, sign, Some(uploadID), removed, outcome) == Saved(state))
  {
    ValidBinding(file.state, b);
    hide Signed, AllReady, AnswersMissing, Unanswered, IsValidFor;
    assert PartInfoOf(file.state.completed).Keys == file.state.completed.Keys;
    SignedExactly(Resumed(file.state), sign);
    var w := Refreshed(Resumed(file.state), uploadID);
    assert w.partInfo.Keys == {};
    SignedExactly(w, sign);
  }

  lemma NeedsASession(
      enabled: bool, file: File, b: Binding, start: Option<Session>, sign: Signer, refresh: Option<string>,
      removed: bool, outcome: SaveOutcome)
    requires StartsOver(enabled, file, b, sign, refresh)
    ensures Candidate(LoadedFile(enabled, file), b, start, sign, refresh) == Started(b, start)
    ensures var left := FileLeft(enabled, file, b, start, sign, refresh, removed, outcome);
      && (Started(b, start).Some? && enabled && outcome.SaveDone? ==> left == Saved(Started(b, start).value.state))
      && (Started(b, start).None? && enabled && removed ==> left.NoFile?)
  {
    if enabled && file.Saved? && IsValidFor(file.state, b) {
      ValidBinding(file.state, b);
      hide Signed, AllReady, AnswersMissing, Unanswered, IsValidFor;
      assert PartInfoOf(file.state.completed).Keys == file.state.completed.Keys;
      SignedExactly(Resumed(file.state), sign);
    }
  }

  // Starting over: a usable session is handed out fresh, and without one there is no writer.
  lemma StartsFresh(b: Binding, start: Session, sign: Signer)
    requires start.docID != "" && start.rev != "" && start.uploadID != ""
    requires AnswersMissing(sign, start, b.partCount, {})
    ensures var state := ResumeState(RESUME_VERSION, b, start, map[]);
      && Started(b, Some(start)) == Some(Writer(state, map[], false, false, false))
      && HandsOut(Started(b, Some(start)), sign)
  {
    hide Signed, AllReady, AnswersMissing, Unanswered;
    assert Fresh(b, start).partInfo.Keys == {};
    SignedExactly(Fresh(b, start), sign);
  }

  // What the branches come to, with the file they leave.
  lemma Branches(
      enabled: bool, file: File, b: Binding, start: Option<Session>, sign: Signer, refresh: Option<string>,
      removed: bool, outcome: SaveOutcome)
    ensures var c := Candidate(LoadedFile(enabled, file), b, start, sign, refresh);
      var left := FileLeft(enabled, file, b, start, sign, refresh, removed, outcome);
      && (enabled && file.Saved? && IsValidFor(file.state, b)
          && AnswersMissing(sign, file.state.session, b.partCount, file.state.completed.Keys)
          ==> HandsOut(c, sign) && left == file
              && c == Some(Writer(file.state, PartInfoOf(file.state.completed), false, false, false)))
      && (enabled && file.Saved? && IsValidFor(file.state, b)
          && Unanswered(sign, file.state.session, b.partCount, file.state.completed.Keys)
          && refresh.Some? && refresh.value != ""
          && AnswersMissing(sign, file.state.session.(uploadID := refresh.value), b.partCount, {})
          ==> var session := file.state.session.(uploadID := refresh.value);
              var state := file.state.(session := session, completed := map[]);
              && HandsOut(c, sign) && c == Some(Writer(state, map[], false, false, false))
              && (outcome.SaveDone? ==> left == Saved(state)))
      && (StartsOver(enabled, file, b, sign, refresh)
          && start.Some? && start.value.docID != "" && start.value.rev != "" && start.value.uploadID != ""
          && AnswersMissing(sign, start.value, b.partCount, {})
          ==> var state := ResumeState(RESUME_VERSION, b, start.value, map[]);
              && HandsOut(c, sign) && c == Some(Writer(state, map[], false, false, false))
              && (enabled && outcome.SaveDone? ==> left == Saved(state)))
      && (StartsOver(enabled, file, b, sign, refresh)
          && (start.None? || start.value.docID == "" || start.value.rev == "" || start.value.uploadID == "")
          ==> c.None? && (enabled && removed ==> left.NoFile?))
  {
    hide AnswersMissing, Unanswered, IsValidFor, Candidate, FileLeft, HandsOut, StartsOver, LoadedFile;
    if enabled && file.Saved? && IsValidFor(file.state, b) {
      if AnswersMissing(sign, file.state.session, b.partCount, file.state.completed.Keys) {
        Resumes(file, b, start, sign, refresh, removed, outcome);
      }
      if Unanswered(sign, file.state.session, b.partCount, file.state.completed.Keys)
        && refresh.Some? && refresh.value != ""
        && AnswersMissing(sign, file.state.session.(uploadID := refresh.value), b.partCount, {})
      {
        Refreshes(file, b, start, sign, refresh.value, removed, outcome);
      }
    }
    if StartsOver(enabled, file, b, sign, refresh) {
      NeedsASession(enabled, file, b, start, sign, refresh, removed, outcome);
      if Started(b, start).Some? && AnswersMissing(sign, start.value, b.partCount, {}) {
        StartsFresh(b, start.value, sign);
      }
    }
  }

  lemma SignedExactly(w: Writer, sign: Signer)
    ensures AnswersMissing(sign, w.state.session, w.state.binding.partCount, w.partInfo.Keys) ==>
      Signed(w, sign).Some? && AllReady(w, Signed(w, sign).value)
    ensures Unanswered(sign, w.state.session, w.state.binding.partCount, w.partInfo.Keys) ==> Signed(w, sign).None?
  {
    hide Signed, AllReady, AnswersMissing, Unanswered;
    if AnswersMissing(sign, w.state.session, w.state.binding.partCount, w.partInfo.Keys) {
      MissingGetSigned(w, sign);
    }
    if Unanswered(sign, w.state.session, w.state.binding.partCount, w.partInfo.Keys) {
      UnansweredFails(w, sign);
    }
  }

  lemma ReadyMeans(w: Writer, signed: SignedParts)
    requires AllReady(w, signed)
    ensures forall n :: 1 <= n <= w.state.binding.partCount && Key(n) !in w.partInfo ==>
      Key(n) in signed && |signed[Key(n)]| >= 2
  {
    hide Key;
    forall n | 1 <= n <= w.state.binding.partCount && Key(n) !in w.partInfo
      ensures Key(n) in signed && |signed[Key(n)]| >= 2
    {
      assert PartReady(w, signed, n);
    }
  }

  // A branch gave a writer and the parts it misses were signed.
  ghost predicate HandsOut(candidate: Option<Writer>, sign: Signer) {
    && candidate.Some? && Signed(candidate.value, sign).Some?
    && AllReady(candidate.value, Signed(candidate.value, sign).value)
  }

  method OpenChunkWriter(
      store: ResumeStore, b: Binding, start: Option<Session>, sign: Signer, refresh: Option<string>,
      removed: bool, outcome: SaveOutcome)
    returns (writer: Option<Writer>, signed: SignedParts)
    requires store.Valid()
    modifies store`released, store.disk
    ensures store.Valid()
    // A writer is handed out exactly when a branch gave one and its missing parts were signed.
    ensures writer.Some? <==>
      b.size > 0
      && HandsOut(Candidate(LoadedFile(store.enabled, old(store.disk.file)), b, start, sign, refresh), sign)
    ensures writer.Some? ==>
      && writer == Candidate(LoadedFile(store.enabled, old(store.disk.file)), b, start, sign, refresh)
      && writer.value.state.binding == b && writer.value.partInfo == PartInfoOf(writer.value.state.completed)
      && Signed(writer.value, sign) == Some(signed) && AllReady(writer.value, signed)
    // Each part is then completed or has a usable request.
    ensures writer.Some? ==>
      forall n :: 1 <= n <= b.partCount && Key(n) !in writer.value.partInfo ==>
        Key(n) in signed && |signed[Key(n)]| >= 2
    // A valid state is resumed when its missing parts, and only those, are signed.
    ensures
      && b.size > 0 && store.enabled && old(store.disk.file).Saved? && IsValidFor(old(store.disk.file).state, b)
      && AnswersMissing(
           sign, old(store.disk.file).state.session, b.partCount, old(store.disk.file).state.completed.Keys)
      ==>
        && store.disk.file == old(store.disk.file)
        && var state := old(store.disk.file).state;
           writer == Some(Writer(state, PartInfoOf(state.completed), false, false, false))
    // It is refreshed, without its parts, when they are not and a new upload ID is given.
    ensures
      && b.size > 0 && store.enabled && old(store.disk.file).Saved? && IsValidFor(old(store.disk.file).state, b)
      && Unanswered(sign, old(store.disk.file).state.session, b.partCount, old(store.disk.file).state.completed.Keys)
      && refresh.Some? && refresh.value != ""
      && AnswersMissing(sign, old(store.disk.file).state.session.(uploadID := refresh.value), b.partCount, {})
      ==>
        var was := old(store.disk.file).state;
        var state := was.(session := was.session.(uploadID := refresh.value), completed := map[]);
        && writer == Some(Writer(state, map[], false, false, false))
        && (outcome.SaveDone? ==> store.disk.file == Saved(state))
    // Without a valid state, or if it can be neither signed nor refreshed, a new session is used.
    ensures
      && b.size > 0 && StartsOver(store.enabled, old(store.disk.file), b, sign, refresh)
      && start.Some? && start.value.docID != "" && start.value.rev != "" && start.value.uploadID != ""
      && AnswersMissing(sign, start.value, b.partCount, {})
      ==>
        var state := ResumeState(RESUME_VERSION, b, start.value, map[]);
        && writer == Some(Writer(state, map[], false, false, false))
        && (store.enabled && outcome.SaveDone? ==> store.disk.file == Saved(state))
    ensures
      && b.size > 0 && StartsOver(store.enabled, old(store.disk.file), b, sign, refresh)
      && (start.None? || start.value.docID == "" || start.value.rev == "" || start.value.uploadID == "")
      ==> writer.None? && (store.enabled && removed ==> store.disk.file.NoFile?)
    // It keeps the lock with it; without a writer the lock is given back.
    ensures writer.Some? ==> store.released == old(store.released) && store.disk.holder == old(store.disk.holder)
    ensures writer.None? && store.enabled ==> store.released
    ensures writer.None? ==>
      store.disk.holder == if store.enabled && !old(store.released) then None else old(store.disk.holder)
    // The file is what the branch leaves, with or without a writer.
    ensures store.disk.file ==
      if b.size <= 0 then old(store.disk.file)
      else FileLeft(store.enabled, old(store.disk.file), b, start, sign, refresh, removed, outcome)
    // So it is as before, gone, or holds the state of a session just begun without parts.
    ensures store.disk.file == old(store.disk.file) || store.disk.file.NoFile?
         || (store.disk.file.Saved? && store.disk.file.state.completed == map[] && store.disk.file.state.binding == b)
    ensures writer.Some? && store.disk.file.Saved? && store.disk.file != old(store.disk.file) ==>
      store.disk.file == Saved(writer.value.state)
  {
    hide Candidate, Signed, AllReady, FileLeft, FileAfterRemove, FileAfterSave, AnswersMissing, Unanswered;
    hide StartsOver, IsValidFor, LoadedFile, Key;
    Branches(store.enabled, store.disk.file, b, start, sign, refresh, removed, outcome);
    writer, signed := None, map[];
    if b.size > 0 {
      var answer;
      writer, answer := Prepare(store, b, start, sign, refresh, removed, outcome);
      if writer.Some? && answer.Some? {
        var ready := CheckReady(writer.value, answer.value);
        if ready {
          ReadyMeans(writer.value, answer.value);
          return writer, answer.value;
        }
      }
    }
    // The deferred release of a store that is not handed off.
    store.Release();
    return None, map[];
  }

  // From the loaded state to a session and the answer to signing its missing parts.
  method Prepare(
      store: ResumeStore, b: Binding, start: Option<Session>, sign: Signer, refresh: Option<string>,
      removed: bool, outcome: SaveOutcome)
    returns (writer: Option<Writer>, answer: Option<SignedParts>)
    requires store.Valid()
    modifies store.disk`file
    ensures store.Valid()
    ensures writer == Candidate(LoadedFile(store.enabled, old(store.disk.file)), b, start, sign, refresh)
    ensures writer.Some? ==>
      && answer == Signed(writer.value, sign)
      && writer.value.state.binding == b && writer.value.partInfo == PartInfoOf(writer.value.state.completed)
    ensures store.disk.file == FileLeft(store.enabled, old(store.disk.file), b, start, sign, refresh, removed, outcome)
    ensures store.disk.file == old(store.disk.file) || store.disk.file.NoFile?
         || (writer.Some? && store.disk.file == Saved(writer.value.state) && writer.value.state.completed == map[])
  {
    hide Signed, IsValidFor, Misfit;
    writer, answer := None, None;
    var loaded := store.Load(removed);
    var resumed := false;
    if loaded.Saved? {
      resumed := ValidFor(loaded.state, b);
      if resumed {
        ValidBinding(loaded.state, b);
      } else {
        store.Remove(removed);
      }
    }
    assert PartInfoOf(map[]) == map[];
    if resumed {
      writer := Some(Resumed(loaded.state));
    } else {
      writer := StartFresh(store, b, start, outcome);
      if writer.None? {
        return;
      }
    }
    answer := SignMissing(writer.value, sign);
    if answer.None? && resumed {
      if refresh.None? || refresh.value == "" {
        store.Remove(removed);
        writer := StartFresh(store, b, start, outcome);
        if writer.None? {
          return;
        }
      } else {
        writer := Some(Refreshed(writer.value, refresh.value));
        store.Save(writer.value.state, outcome);
      }
      answer := SignMissing(writer.value, sign);
    }
  }

  // A new session, with an empty state saved for it.
  method StartFresh(store: ResumeStore, b: Binding, start: Option<Session>, outcome: SaveOutcome)
    returns (writer: Option<Writer>)
    requires store.Valid()
    modifies store.disk`file
    ensures store.Valid() && writer == Started(b, start)
    ensures store.disk.file == FileStarted(store.enabled, old(store.disk.file), b, start, outcome)
  {
    if start.None? || !Usable(start.value) {
      return None;
    }
    writer := Some(Fresh(b, start.value));
    store.Save(writer.value.state, outcome);
  }

  method SignMissing(w: Writer, sign: Signer) returns (answer: Option<SignedParts>)
    ensures answer == Signed(w, sign)
  {
    var ranges := MissingMultipartRanges(w.state.binding.partCount, w.partInfo);
    answer := SignMultipartParts(w.state.session, ranges, sign);
  }

  lemma ValidBinding(s: ResumeState, b: Binding)
    requires IsValidFor(s, b)
    ensures s.binding == b
  {
  }

  method CheckReady(w: Writer, signed: SignedParts) returns (ready: bool)
    ensures ready <==> AllReady(w, signed)
    ensures ready <==> forall n :: 1 <= n <= w.state.binding.partCount ==>
      Key(n) in w.partInfo || (Key(n) in signed && |signed[Key(n)]| >= 2)
  {
    var part := 1;
    while part <= w.state.binding.partCount
      invariant 1 <= part
      invariant forall n :: 1 <= n < part ==> PartReady(w, signed, n)
      invariant forall n :: 1 <= n < part ==> Key(n) in w.partInfo || (Key(n) in signed && |signed[Key(n)]| >= 2)
    {
      if !PartReady(w, signed, part) {
        return false;
      }
      part := part + 1;
    }
    return true;
  }
}
