/**
 What OpenChunkWriter binds an upload to before it looks for a resume state: the preconditions
 decide the revision, and a state is taken up only for the same destination.
 */
module OpenBinding {
  import opened Basics
  import opened Decimal
  import opened Int64
  import opened PartSizing
  import RevisionRace
  import opened ResumeRecord
  import opened ResumeStorage
  import opened UploadGuard
  import opened UploadTheorems
  import opened UploadTypes
  import opened UploadWorld

  datatype Source = Source(identity: string, size: int, modTimeNsec: int)

  // Where the file goes, as far as it could be found out.
  datatype Place = NoPlace | InVirtualRoot | Place(parentID: string, encodedLeaf: string)

  datatype Existing = LookupFailed | Absent | Found(id: string, rev: string)

  datatype BindError = TooSmall | PlaceNotFound | VirtualRoot | LookupError | Precondition | Limit | BadLimits

  function IDOf(existing: Existing): (id: string)
    ensures existing.Found? ==> id == existing.id
  {
    if existing.Found? then existing.id else ""
  }

  function RevOf(existing: Existing): (rev: string)
    ensures existing.Found? ==> rev == existing.rev
  {
    if existing.Found? then existing.rev else ""
  }

  // The destination as the preconditions want it.
  predicate BoundFor(b: Binding, p: Preconditions, existing: Existing, place: Place) {
    && place.Place? && b.parentID == place.parentID && b.encodedLeaf == place.encodedLeaf
    && CheckObject(p, IDOf(existing), RevOf(existing)).None?
    && b.existingID == IDOf(existing) && b.existingRev == BaseRev(p, RevOf(existing))
  }

  method BindUpload(p: Preconditions, source: Source, place: Place, existing: Existing, limits: Option<Limits>)
    returns (r: Result<Binding, BindError>)
    requires source.size < TWO63
    requires limits.Some? ==> IsInt64(limits.value.partMaxNum) && IsInt64(limits.value.partMaxSize)
    ensures r.Ok? <==>
      && source.size > 0 && place.Place? && !existing.LookupFailed?
      && CheckObject(p, IDOf(existing), RevOf(existing)).None?
      && limits.Some? && PartSizeFor(limits.value, source.size).Ok?
    ensures r.Ok? ==>
      && BoundFor(r.value, p, existing, place)
      && r.value.sourceIdentity == source.identity
      && r.value.size == source.size && r.value.modTimeNsec == source.modTimeNsec
      && PartSizeFor(limits.value, source.size) == Ok(r.value.partSize) && r.value.partSize > 0
      && r.value.partCount == PartCount64(source.size, r.value.partSize)
    // Preconditions accept an object directly: absence only none, an expected object only itself.
    ensures r.Ok? && p.set_ && p.expectedAbsent ==> existing.Absent? || existing.id == ""
    ensures r.Ok? && p.set_ && !p.expectedAbsent ==>
      existing == Found(p.expectedID, p.expectedRev) && p.expectedID != ""
    ensures
      && source.size > 0 && place.Place? && limits.Some? && PartSizeFor(limits.value, source.size).Ok?
      && (existing.Absent? || (existing.Found? && existing.id == "")) && (!p.set_ || p.expectedAbsent)
      ==> r.Ok? && r.value.existingID == "" && r.value.existingRev == RevOf(existing)
    ensures
      && source.size > 0 && place.Place? && limits.Some? && PartSizeFor(limits.value, source.size).Ok?
      && existing.Found? && existing.id != ""
      && (!p.set_ || (!p.expectedAbsent && existing == Found(p.expectedID, p.expectedRev)))
      ==> r.Ok? && r.value.existingID == existing.id && r.value.existingRev == existing.rev
    // The step machine's layout is the one computed exactly when the sum fits.
    ensures r.Ok? ==> (WellFormed(r.value) <==> source.size + r.value.partSize <= TWO63)
    ensures r == Err(Precondition) ==> p.set_
  {
    hide PartSizeFor, PartCount64, PartCount;
    if source.size <= 0 {
      return Err(TooSmall);
    }
    match place {
      case NoPlace => return Err(PlaceNotFound);
      case InVirtualRoot => return Err(BindError.VirtualRoot);
      case Place(_, _) =>
    }
    if existing.LookupFailed? {
      return Err(LookupError);
    }
    var existingID, existingRev := IDOf(existing), RevOf(existing);
    if p.set_ {
      if CheckObject(p, existingID, existingRev).Some? {
        return Err(Precondition);
      }
      if !p.expectedAbsent {
        existingRev := p.expectedRev;
      }
    }
    if limits.None? {
      return Err(BadLimits);
    }
    var partSize := MultipartPartSize(limits.value, source.size);
    if partSize.Err? {
      return Err(Limit);
    }
    PartCountExactly(source.size, partSize.value);
    r := Ok(Binding(
      source.identity, source.size, source.modTimeNsec, place.parentID, place.encodedLeaf, existingID, existingRev,
      partSize.value, PartCount64(source.size, partSize.value)));
  }

  // A run whose binding came from preconditions completes its session, whoever began it, under
  // exactly the document and revision they name: the expected ones, or none at all.
  lemma CompletedAsExpected(w: World, r: RunId, p: Preconditions, existing: Existing, place: Place, sha: Hash)
    requires Reachable(w, sha) && Step(w, Complete(r), sha) != w
    requires Sound(p) && BoundFor(w.runs[r].binding, p, existing, place)
    ensures var final := Step(w, Complete(r), sha).finals[|w.finals|];
      && final.origin.existingID == IDOf(existing)
      && final.origin.existingRev == final.editedRev == BaseRev(p, RevOf(existing))
      && (p.set_ && !p.expectedAbsent ==>
            final.origin.existingID == p.expectedID && final.editedRev == p.expectedRev != "")
      && (p.expectedAbsent ==> final.origin.existingID == "")
  {
    hide Reachable, Step;
    CompletedForItsOrigin(w, r, sha);
  }

  // The same source in the same layout.
  predicate SameSource(a: Binding, b: Binding) {
    && (a.sourceIdentity, a.size, a.modTimeNsec) == (b.sourceIdentity, b.size, b.modTimeNsec)
    && (a.partSize, a.partCount) == (b.partSize, b.partCount)
  }

  // For the same source, a saved state is taken up exactly by a run with the same destination:
  // the condition under which the race lets an upload take over another's session.
  lemma TakenUpExactly(w: World, b: Binding, sha: Hash)
    requires Reachable(w, sha) && w.file.Saved? && w.file.state.binding.partCount <= MAX_INT64
    requires forall bytes :: IsDigest(sha(bytes))
    requires SameSource(b, w.file.state.binding) && b.sourceIdentity != "" && b.parentID != ""
    ensures IsValidFor(w.file.state, b) <==>
      RevisionRace.BoundDestination(b) == RevisionRace.BoundDestination(w.file.state.binding)
  {
    hide Reachable, IsValidFor, IsDigest;
    SavedStateResumesExactly(w, b, sha);
  }

  // A binding has the destination of the upload that looked up what it was bound for.
  lemma BoundIsItsDestination(b: Binding, p: Preconditions, existing: Existing, place: Place, up: RevisionRace.Upload)
    requires BoundFor(b, p, existing, place)
    requires up.p == p && up.id == IDOf(existing) && up.rev == RevOf(existing)
    requires up.parent == place.parentID && up.name == place.encodedLeaf
    ensures RevisionRace.BoundDestination(b) == RevisionRace.DestinationOf(up)
    ensures CheckObject(up.p, up.id, up.rev).None?
  {
  }
}
