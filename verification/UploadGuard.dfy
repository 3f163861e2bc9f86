/** Upload preconditions and the requests they turn into. */
module UploadGuard {
  import opened Basics

  const EXPECTED_ID := "pkudisk-sync-expected-id"
  const EXPECTED_REV := "pkudisk-sync-expected-rev"
  const EXPECTED_ABSENT := "pkudisk-sync-expected-absent"

  datatype Preconditions = Preconditions(expectedID: string, expectedRev: string, expectedAbsent: bool, set_: bool)

  datatype GuardError = PreconditionFailed | PathNotFound | VirtualRoot | UploadFailed(conflict: bool)

  // Whether a value says true, ignoring case and surrounding space.
  type Truth = string -> bool

  // All values given for a metadata key, in order.  An option that is not metadata is None.
  function ValuesFor(options: seq<Option<map<string, string>>>, key: string): seq<string> {
    if options == [] then []
    else
      var n := |options| - 1;
      Joined(ValuesFor(options[..n], key), options[n], key)
  }

  // Present values agree and none is empty.
  predicate Agreed(values: seq<string>) {
    forall v <- values :: v != "" && v == values[0]
  }

  // Everything the options say, per key.
  datatype Given = Given(ids: seq<string>, revs: seq<string>, absents: seq<string>)

  function GivenIn(options: seq<Option<map<string, string>>>): Given {
    Given(ValuesFor(options, EXPECTED_ID), ValuesFor(options, EXPECTED_REV), ValuesFor(options, EXPECTED_ABSENT))
  }

  predicate Consistent(g: Given, isTrue: Truth) {
    Agreed(g.ids) && Agreed(g.revs) && forall v <- g.absents :: isTrue(v)
  }

  predicate Acceptable(g: Given, isTrue: Truth) {
    Consistent(g, isTrue) && (g.ids == [] <==> g.revs == []) && (g.ids == [] || g.absents == [])
  }

  function First(values: seq<string>): string {
    if values == [] then "" else values[0]
  }

  function Collected(g: Given): Preconditions {
    Preconditions(First(g.ids), First(g.revs), g.absents != [], g.ids != [] || g.absents != [])
  }

  // The values of one option for a key, after those seen before.
  function Joined(values: seq<string>, option: Option<map<string, string>>, key: string): seq<string> {
    if option.Some? && key in option.value then values + [option.value[key]] else values
  }

  method Take(ghost values: seq<string>, seen: string, seenSet: bool, option: Option<map<string, string>>, key: string)
    returns (ok: bool, value: string, isSet: bool)
    requires Agreed(values) && seen == First(values) && seenSet == (values != [])
    ensures ok <==> Agreed(Joined(values, option, key))
    ensures ok ==> value == First(Joined(values, option, key)) && isSet == (Joined(values, option, key) != [])
  {
    ok, value, isSet := true, seen, seenSet;
    if option.Some? && key in option.value {
      var given := option.value[key];
      assert given in values + [given];
      if given == "" {
        return false, seen, seenSet;
      }
      if seenSet && seen != given {
        return false, seen, seenSet;
      }
      return true, given, true;
    }
  }

  method ExtractSyncUploadPreconditions(options: seq<Option<map<string, string>>>, isTrue: Truth)
    returns (r: Result<Preconditions, GuardError>)
    // Whatever the order of the options, they are accepted exactly when they are consistent.
    ensures r.Ok? <==> Acceptable(GivenIn(options), isTrue)
    ensures r.Ok? ==> r.value == Collected(GivenIn(options))
    // That is: no ID or revision is empty or differs from another, absence is only ever true, ID
    // and revision come together, and never with absence.
    ensures r.Ok? <==>
      && (forall i :: 0 <= i < |options| && Gives(options[i], EXPECTED_ID) ==>
            options[i].value[EXPECTED_ID] != ""
            && forall j :: 0 <= j < |options| && Gives(options[j], EXPECTED_ID) ==>
                 options[i].value[EXPECTED_ID] == options[j].value[EXPECTED_ID])
      && (forall i :: 0 <= i < |options| && Gives(options[i], EXPECTED_REV) ==>
            options[i].value[EXPECTED_REV] != ""
            && forall j :: 0 <= j < |options| && Gives(options[j], EXPECTED_REV) ==>
                 options[i].value[EXPECTED_REV] == options[j].value[EXPECTED_REV])
      && (forall i :: 0 <= i < |options| && Gives(options[i], EXPECTED_ABSENT) ==>
            isTrue(options[i].value[EXPECTED_ABSENT]))
      && (SomeGives(options, EXPECTED_ID) <==> SomeGives(options, EXPECTED_REV))
      && !(SomeGives(options, EXPECTED_ID) && SomeGives(options, EXPECTED_ABSENT))
    // And the result is what they say.
    ensures r.Ok? ==>
      && (r.value.expectedAbsent <==> SomeGives(options, EXPECTED_ABSENT))
      && (r.value.set_ <==> SomeGives(options, EXPECTED_ID) || SomeGives(options, EXPECTED_ABSENT))
      && (!SomeGives(options, EXPECTED_ID) ==> r.value.expectedID == "" && r.value.expectedRev == "")
      && (forall i :: 0 <= i < |options| && Gives(options[i], EXPECTED_ID) ==>
            r.value.expectedID == options[i].value[EXPECTED_ID])
      && (forall i :: 0 <= i < |options| && Gives(options[i], EXPECTED_REV) ==>
            r.value.expectedRev == options[i].value[EXPECTED_REV])
  {
    hide ValuesFor, Agreed, Joined;
    GivenMeans(options, isTrue);
    var p := Preconditions("", "", false, false);
    var idSet, revSet, absentSet := false, false, false;
    var i := 0;
    NothingGiven(isTrue);
    assert options[..0] == [];
    while i < |options|
      invariant 0 <= i <= |options|
      invariant Consistent(GivenIn(options[..i]), isTrue)
      invariant p.expectedID == First(GivenIn(options[..i]).ids) && idSet == (GivenIn(options[..i]).ids != [])
      invariant p.expectedRev == First(GivenIn(options[..i]).revs) && revSet == (GivenIn(options[..i]).revs != [])
      invariant p.expectedAbsent == absentSet == (GivenIn(options[..i]).absents != [])
    {
      ghost var g := GivenIn(options[..i]);
      GivenUpTo(options, i);
      var idOk, idValue, idNow := Take(g.ids, p.expectedID, idSet, options[i], EXPECTED_ID);
      if !idOk {
        StaysInconsistent(options, i + 1, isTrue);
        return Err(PreconditionFailed);
      }
      var revOk, revValue, revNow := Take(g.revs, p.expectedRev, revSet, options[i], EXPECTED_REV);
      if !revOk {
        StaysInconsistent(options, i + 1, isTrue);
        return Err(PreconditionFailed);
      }
      var absentOk, absentNow := TakeAbsent(g.absents, absentSet, options[i], isTrue);
      if !absentOk {
        StaysInconsistent(options, i + 1, isTrue);
        return Err(PreconditionFailed);
      }
      p := p.(expectedID := idValue, expectedRev := revValue, expectedAbsent := absentNow);
      idSet, revSet, absentSet := idNow, revNow, absentNow;
      i := i + 1;
    }
    assert options[..|options|] == options;
    if idSet != revSet {
      return Err(PreconditionFailed);
    }
    if absentSet && idSet {
      return Err(PreconditionFailed);
    }
    return Ok(p.(set_ := idSet || absentSet));
  }

  predicate Gives(option: Option<map<string, string>>, key: string) {
    option.Some? && key in option.value
  }

  predicate SomeGives(options: seq<Option<map<string, string>>>, key: string) {
    exists i | 0 <= i < |options| :: Gives(options[i], key)
  }

  // The values are those some option gives.
  lemma {:induction false} ValuesAreGiven(options: seq<Option<map<string, string>>>, key: string, v: string)
    ensures v in ValuesFor(options, key) <==>
      exists i :: 0 <= i < |options| && Gives(options[i], key) && options[i].value[key] == v
    decreases |options|
  {
    if options != [] {
      var n := |options| - 1;
      var before := options[..n];
      ValuesAreGiven(before, key, v);
      assert forall i :: 0 <= i < n ==> before[i] == options[i];
      if v in ValuesFor(options, key) && v in ValuesFor(before, key) {
        var i :| 0 <= i < n && Gives(before[i], key) && before[i].value[key] == v;
        assert Gives(options[i], key) && options[i].value[key] == v;
      }
      if i :| 0 <= i < |options| && Gives(options[i], key) && options[i].value[key] == v {
        assert i < n ==> Gives(before[i], key) && before[i].value[key] == v;
      }
    }
  }

  lemma AgreedMeans(options: seq<Option<map<string, string>>>, key: string)
    ensures Agreed(ValuesFor(options, key)) <==>
      forall i :: 0 <= i < |options| && Gives(options[i], key) ==>
        options[i].value[key] != ""
        && forall j :: 0 <= j < |options| && Gives(options[j], key) ==> options[i].value[key] == options[j].value[key]
    ensures (ValuesFor(options, key) == []) <==> !SomeGives(options, key)
    ensures Agreed(ValuesFor(options, key)) ==>
      forall i :: 0 <= i < |options| && Gives(options[i], key) ==>
        First(ValuesFor(options, key)) == options[i].value[key]
  {
    hide ValuesFor;
    var values := ValuesFor(options, key);
    forall i | 0 <= i < |options| && Gives(options[i], key)
      ensures options[i].value[key] in values
    {
      ValuesAreGiven(options, key, options[i].value[key]);
    }
    forall v | v in values
      ensures exists i :: 0 <= i < |options| && Gives(options[i], key) && options[i].value[key] == v
    {
      ValuesAreGiven(options, key, v);
    }
    if values != [] {
      assert values[0] in values;
    }
  }

  lemma AbsentMeans(options: seq<Option<map<string, string>>>, isTrue: Truth)
    ensures (forall v <- ValuesFor(options, EXPECTED_ABSENT) :: isTrue(v)) <==>
      forall i :: 0 <= i < |options| && Gives(options[i], EXPECTED_ABSENT) ==> isTrue(options[i].value[EXPECTED_ABSENT])
  {
    hide ValuesFor;
    forall i | 0 <= i < |options| && Gives(options[i], EXPECTED_ABSENT)
      ensures options[i].value[EXPECTED_ABSENT] in ValuesFor(options, EXPECTED_ABSENT)
    {
      ValuesAreGiven(options, EXPECTED_ABSENT, options[i].value[EXPECTED_ABSENT]);
    }
    forall v | v in ValuesFor(options, EXPECTED_ABSENT)
      ensures exists i ::
        0 <= i < |options| && Gives(options[i], EXPECTED_ABSENT) && options[i].value[EXPECTED_ABSENT] == v
    {
      ValuesAreGiven(options, EXPECTED_ABSENT, v);
    }
  }

  lemma GivenMeans(options: seq<Option<map<string, string>>>, isTrue: Truth)
    ensures var g := GivenIn(options);
      && (Agreed(g.ids) <==>
            forall i :: 0 <= i < |options| && Gives(options[i], EXPECTED_ID) ==>
              options[i].value[EXPECTED_ID] != ""
              && forall j :: 0 <= j < |options| && Gives(options[j], EXPECTED_ID) ==>
                   options[i].value[EXPECTED_ID] == options[j].value[EXPECTED_ID])
      && (Agreed(g.revs) <==>
            forall i :: 0 <= i < |options| && Gives(options[i], EXPECTED_REV) ==>
              options[i].value[EXPECTED_REV] != ""
              && forall j :: 0 <= j < |options| && Gives(options[j], EXPECTED_REV) ==>
                   options[i].value[EXPECTED_REV] == options[j].value[EXPECTED_REV])
      && ((forall v <- g.absents :: isTrue(v)) <==>
            forall i :: 0 <= i < |options| && Gives(options[i], EXPECTED_ABSENT) ==>
              isTrue(options[i].value[EXPECTED_ABSENT]))
      && ((g.ids == []) <==> !SomeGives(options, EXPECTED_ID))
      && ((g.revs == []) <==> !SomeGives(options, EXPECTED_REV))
      && ((g.absents == []) <==> !SomeGives(options, EXPECTED_ABSENT))
      && (Agreed(g.ids) ==>
            forall i :: 0 <= i < |options| && Gives(options[i], EXPECTED_ID) ==>
              First(g.ids) == options[i].value[EXPECTED_ID])
      && (Agreed(g.revs) ==>
            forall i :: 0 <= i < |options| && Gives(options[i], EXPECTED_REV) ==>
              First(g.revs) == options[i].value[EXPECTED_REV])
  {
    hide ValuesFor, Agreed, First, SomeGives, Gives;
    AgreedMeans(options, EXPECTED_ID);
    AgreedMeans(options, EXPECTED_REV);
    AgreedMeans(options, EXPECTED_ABSENT);
    AbsentMeans(options, isTrue);
  }

  method TakeAbsent(ghost values: seq<string>, seen: bool, option: Option<map<string, string>>, isTrue: Truth)
    returns (ok: bool, isSet: bool)
    requires (forall v <- values :: isTrue(v)) && seen == (values != [])
    ensures ok <==> forall v <- Joined(values, option, EXPECTED_ABSENT) :: isTrue(v)
    ensures ok ==> isSet == (Joined(values, option, EXPECTED_ABSENT) != [])
  {
    ok, isSet := true, seen;
    if option.Some? && EXPECTED_ABSENT in option.value {
      var given := option.value[EXPECTED_ABSENT];
      assert given in values + [given];
      ok, isSet := isTrue(given), true;
    }
  }

  lemma NothingGiven(isTrue: Truth)
    ensures Consistent(GivenIn([]), isTrue) && GivenIn([]) == Given([], [], [])
  {
  }

  lemma GivenUpTo(options: seq<Option<map<string, string>>>, i: nat)
    requires i < |options|
    ensures var g := GivenIn(options[..i]);
      GivenIn(options[..i + 1]) == Given(
        Joined(g.ids, options[i], EXPECTED_ID), Joined(g.revs, options[i], EXPECTED_REV),
        Joined(g.absents, options[i], EXPECTED_ABSENT))
  {
    ValuesUpTo(options, EXPECTED_ID, i);
    ValuesUpTo(options, EXPECTED_REV, i);
    ValuesUpTo(options, EXPECTED_ABSENT, i);
  }

  lemma ValuesUpTo(options: seq<Option<map<string, string>>>, key: string, i: nat)
    requires i < |options|
    ensures ValuesFor(options[..i + 1], key) == Joined(ValuesFor(options[..i], key), options[i], key)
  {
    assert options[..i + 1][..i] == options[..i];
  }

  lemma {:induction false} ValuesGrow(options: seq<Option<map<string, string>>>, key: string, i: nat)
    requires i <= |options|
    ensures IsPrefix(ValuesFor(options[..i], key), ValuesFor(options, key))
    decreases |options| - i
  {
    if i == |options| {
      assert options[..i] == options;
    } else {
      ValuesUpTo(options, key, i);
      ValuesGrow(options, key, i + 1);
    }
  }

  // An inconsistency among the first options is not repaired by later ones.
  lemma StaysInconsistent(options: seq<Option<map<string, string>>>, i: nat, isTrue: Truth)
    requires i <= |options| && !Consistent(GivenIn(options[..i]), isTrue)
    ensures !Consistent(GivenIn(options), isTrue)
  {
    hide ValuesFor, Agreed;
    var a, b := GivenIn(options[..i]), GivenIn(options);
    ValuesGrow(options, EXPECTED_ID, i);
    ValuesGrow(options, EXPECTED_REV, i);
    ValuesGrow(options, EXPECTED_ABSENT, i);
    PrefixAgrees(a.ids, b.ids);
    PrefixAgrees(a.revs, b.revs);
    assert forall v :: v in a.absents ==> v in b.absents;
  }

  lemma PrefixAgrees(a: seq<string>, b: seq<string>)
    requires IsPrefix(a, b)
    ensures Agreed(b) ==> Agreed(a)
  {
    assert forall v :: v in a ==> v in b;
  }

  // What extraction can produce.
  predicate Sound(p: Preconditions) {
    && (p.set_ ==> p.expectedAbsent || (p.expectedID != "" && p.expectedRev != ""))
    && (p.expectedAbsent ==> p.set_)
  }

  lemma CollectedIsSound(g: Given, isTrue: Truth)
    requires Acceptable(g, isTrue)
    ensures Sound(Collected(g))
  {
    if g.ids != [] {
      assert g.ids[0] in g.ids && g.revs[0] in g.revs;
    }
  }

  function CheckObject(p: Preconditions, id: string, rev: string): Option<GuardError> {
    if !p.set_ then None
    else if p.expectedAbsent then if id != "" then Some(PreconditionFailed) else None
    else if id == "" || id != p.expectedID || rev != p.expectedRev then Some(PreconditionFailed)
    else None
  }

  // A request that starts an upload: a new version of a document, guarded by its revision if
  // one is known, or a new entry that must not exist yet (ondup=1).
  datatype StartRequest = Edit(docID: string, editedRev: Option<string>) | Create(parentID: string, name: string)

  function Guard(rev: string): Option<string> {
    if rev == "" then None else Some(rev)
  }

  function UploadStartBody(parentID: string, name: string, existingID: string, existingRev: string): StartRequest {
    if existingID != "" then Edit(existingID, Guard(existingRev)) else Create(parentID, name)
  }

  // The request that ends it carries the guard again.
  datatype EndRequest = End(docID: string, rev: string, editedRev: Option<string>)

  function UploadEndBody(docID: string, rev: string, existingRev: string): EndRequest {
    End(docID, rev, Guard(existingRev))
  }

  // The revision an upload of an object seen as (id, rev) is based on.
  function BaseRev(p: Preconditions, rev: string): string {
    if p.set_ && !p.expectedAbsent then p.expectedRev else rev
  }

  function Begin(p: Preconditions, id: string, rev: string, parentID: string, name: string)
    : Result<StartRequest, GuardError>
  {
    if CheckObject(p, id, rev).Some? then Err(PreconditionFailed)
    else Ok(UploadStartBody(parentID, name, id, BaseRev(p, rev)))
  }

  // The server's report on the uploaded file.
  datatype Metadata = Metadata(docID: string, rev: string, size: int)

  class RemoteObject {
    var id: string
    var rev: string
    var size: int

    constructor (id: string, rev: string, size: int)
      ensures this.id == id && this.rev == rev && this.size == size
    {
      this.id, this.rev, this.size := id, rev, size;
    }

    // Update: the requests it makes and, when the upload works, the new identity of the object.
    // The parent is None when looking the path up failed, Some(None) at the virtual root; an
    // upload error may be a revision conflict.
    method Update(p: Preconditions, parent: Option<Option<string>>, name: string, answer: Result<Metadata, bool>)
      returns (r: Result<StartRequest, GuardError>, endRev: Option<string>)
      modifies this
      // Preconditions come first: absence wants no object, an expected object just that ID and
      // revision.  Then the path, then the upload.
      ensures p.set_ && p.expectedAbsent && old(id) != "" ==> r == Err(PreconditionFailed)
      ensures p.set_ && !p.expectedAbsent && (old(id) == "" || old(id) != p.expectedID || old(rev) != p.expectedRev) ==>
        r == Err(PreconditionFailed)
      ensures (!p.set_ || (p.expectedAbsent && old(id) == "")
               || (!p.expectedAbsent && old(id) != "" && old(id) == p.expectedID && old(rev) == p.expectedRev)) ==>
          && (parent.None? ==> r == Err(PathNotFound))
          && (parent == Some(None) ==> r == Err(VirtualRoot))
          && (parent.Some? && parent.value.Some? && answer.Err? ==>
                r == Err(if p.set_ && answer.error then PreconditionFailed else UploadFailed(answer.error)))
          && (parent.Some? && parent.value.Some? && answer.Ok? ==> r.Ok?)
      // A known object is edited under the revision it is based on, an unknown one created, and
      // the end of the upload carries the same guard.
      ensures r.Ok? ==>
        var base := if p.set_ && !p.expectedAbsent then p.expectedRev else old(rev);
        && r == Begin(p, old(id), old(rev), parent.value.value, name)
        && r.value == (if old(id) == "" then Create(parent.value.value, name)
                       else Edit(old(id), if base == "" then None else Some(base)))
        && endRev == (if base == "" then None else Some(base))
        && (id, rev, size) == (answer.value.docID, answer.value.rev, answer.value.size)
      ensures r.Err? ==> id == old(id) && rev == old(rev) && size == old(size)
    {
      endRev := None;
      var existingRev := rev;
      if p.set_ {
        var failed := CheckObject(p, id, rev);
        if failed.Some? {
          return Err(failed.value), None;
        }
        if !p.expectedAbsent {
          existingRev := p.expectedRev;
        }
      }
      if parent.None? {
        return Err(PathNotFound), None;
      }
      if parent.value.None? {
        return Err(VirtualRoot), None;
      }
      var start := UploadStartBody(parent.value.value, name, id, existingRev);
      if answer.Err? {
        if p.set_ && answer.error {
          return Err(PreconditionFailed), None;
        }
        return Err(UploadFailed(answer.error)), None;
      }
      id, rev, size := answer.value.docID, answer.value.rev, answer.value.size;
      return Ok(start), Guard(existingRev);
    }
  }
}
