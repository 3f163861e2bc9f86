/**
 Uploads racing with other clients on a server that checks editedrev when an upload begins and
 when it ends, and refuses a create whose name is taken (ondup=1).  Revisions and document IDs
 are never reused; a move to another directory gives a new document ID.  Between any two steps
 of an upload anything may happen to any entry, and a later upload may take over a multipart
 session that an earlier one began.
 */
module RevisionRace {
  import opened Basics
  import opened UploadGuard
  import UploadTypes

  datatype Entry = Entry(parent: string, name: string, rev: string, content: Bytes)

  // A begun upload, known to the server by the revision it will become.
  datatype Ticket = EditTicket(docID: string) | CreateTicket(docID: string, parent: string, name: string)

  // `history` records the content each revision ever had.
  datatype Server = Server(
    entries: map<string, Entry>, pending: map<string, Ticket>, usedIDs: set<string>, history: map<string, Bytes>)

  datatype Stage = Looked | Begun(docID: string, newRev: string) | Ended | GivenUp

  // An upload to (parent, name) whose target was seen as (id, rev): id is "" when absent, rev when
  // absent or not reported.
  datatype Upload = Upload(p: Preconditions, parent: string, name: string, id: string, rev: string, stage: Stage)

  datatype World = World(server: Server, uploads: map<nat, Upload>)

  datatype Action =
    | Look(u: nat, p: Preconditions, parent: string, name: string, found: Option<string>, reported: bool)
    | BeginUpload(u: nat, newID: string, newRev: string)
    | TakeOver(u: nat, from: nat)
    | EndUpload(u: nat, content: Bytes)
    | OtherWrite(docID: string, rev: string, content: Bytes)
    | OtherCreate(docID: string, entry: Entry)
    | OtherDelete(docID: string)
    | OtherMove(docID: string, newID: string, parent: string, name: string)

  ghost predicate NameFree(s: Server, parent: string, name: string) {
    forall d :: d in s.entries ==> s.entries[d].parent != parent || s.entries[d].name != name
  }

  predicate FreshRev(s: Server, rev: string) {
    rev != "" && rev !in s.history && rev !in s.pending
  }

  predicate GuardHolds(s: Server, docID: string, guard: Option<string>) {
    docID in s.entries && (guard.Some? ==> s.entries[docID].rev == guard.value)
  }

  ghost function BeginOn(s: Server, req: StartRequest, newID: string, newRev: string): Option<(Server, string)> {
    if !FreshRev(s, newRev) then None
    else match req
      case Edit(docID, guard) =>
        if GuardHolds(s, docID, guard)
        then Some((s.(pending := s.pending[newRev := EditTicket(docID)]), docID)) else None
      case Create(parent, name) =>
        if !NameFree(s, parent, name) || newID in s.usedIDs || newID == "" then None
        else
          var ticket := CreateTicket(newID, parent, name);
          Some((s.(pending := s.pending[newRev := ticket], usedIDs := s.usedIDs + {newID}), newID))
  }

  function Put(s: Server, docID: string, entry: Entry): Server {
    s.(entries := s.entries[docID := entry], history := s.history[entry.rev := entry.content])
  }

  ghost function EndOn(s: Server, end: EndRequest, content: Bytes): Option<Server> {
    if end.rev !in s.pending || s.pending[end.rev].docID != end.docID then None
    else
      var done := s.(pending := s.pending - {end.rev});
      match s.pending[end.rev]
      case EditTicket(docID) =>
        if GuardHolds(s, docID, end.editedRev)
        then Some(Put(done, docID, s.entries[docID].(rev := end.rev, content := content))) else None
      case CreateTicket(docID, parent, name) =>
        if docID !in s.entries && NameFree(s, parent, name)
        then Some(Put(done, docID, Entry(parent, name, end.rev, content))) else None
  }

  ghost predicate Sees(s: Server, parent: string, name: string, found: Option<string>) {
    match found
    case None => NameFree(s, parent, name)
    case Some(d) => d in s.entries && s.entries[d].parent == parent && s.entries[d].name == name
  }

  function EndRequestOf(up: Upload): EndRequest
    requires up.stage.Begun?
  {
    UploadEndBody(up.stage.docID, up.stage.newRev, BaseRev(up.p, up.rev))
  }

  // What a resume state is bound to besides the source and the layout.
  datatype Destination = Destination(parent: string, name: string, id: string, baseRev: string)

  function DestinationOf(up: Upload): Destination {
    Destination(up.parent, up.name, up.id, BaseRev(up.p, up.rev))
  }

  function BoundDestination(b: UploadTypes.Binding): Destination {
    Destination(b.parentID, b.encodedLeaf, b.existingID, b.existingRev)
  }

  // Within a directory a renamed document keeps its ID; in another it gets a new one.
  predicate Movable(s: Server, docID: string, newID: string, parent: string) {
    docID in s.entries
    && if parent == s.entries[docID].parent then newID == docID else newID != "" && newID !in s.usedIDs
  }

  function Move(s: Server, docID: string, newID: string, parent: string, name: string): Server
    requires docID in s.entries
  {
    var moved := s.entries[docID].(parent := parent, name := name);
    s.(entries := (s.entries - {docID})[newID := moved], usedIDs := s.usedIDs + {newID})
  }

  // A resume state is taken up exactly when source, layout and destination are the same; the
  // upload taking it up has passed its own preconditions.
  predicate TakesOver(w: World, u: nat, from: nat) {
    && u in w.uploads && w.uploads[u].stage.Looked? && from in w.uploads && w.uploads[from].stage.Begun?
    && CheckObject(w.uploads[u].p, w.uploads[u].id, w.uploads[u].rev).None?
    && DestinationOf(w.uploads[u]) == DestinationOf(w.uploads[from])
  }

  ghost function Step(w: World, a: Action): World {
    match a
    case Look(u, p, parent, name, found, reported) =>
      if u in w.uploads || !Sound(p) || !Sees(w.server, parent, name, found) then w
      else
        var id := if found.Some? then found.value else "";
        var rev := if found.Some? && reported then w.server.entries[found.value].rev else "";
        w.(uploads := w.uploads[u := Upload(p, parent, name, id, rev, Looked)])
    case BeginUpload(u, newID, newRev) =>
      if u !in w.uploads || w.uploads[u].stage != Looked then w
      else
        var up := w.uploads[u];
        var req := Begin(up.p, up.id, up.rev, up.parent, up.name);
        if req.Err? then w.(uploads := w.uploads[u := up.(stage := GivenUp)])
        else
          var begun := BeginOn(w.server, req.value, newID, newRev);
          if begun.None? then w.(uploads := w.uploads[u := up.(stage := GivenUp)])
          else World(begun.value.0, w.uploads[u := up.(stage := Begun(begun.value.1, newRev))])
    case TakeOver(u, from) =>
      if !TakesOver(w, u, from) then w
      else w.(uploads := w.uploads[u := w.uploads[u].(stage := w.uploads[from].stage)])
    case EndUpload(u, content) =>
      if u !in w.uploads || !w.uploads[u].stage.Begun? then w
      else
        var up := w.uploads[u];
        var ended := EndOn(w.server, EndRequestOf(up), content);
        if ended.None? then w.(uploads := w.uploads[u := up.(stage := GivenUp)])
        else World(ended.value, w.uploads[u := up.(stage := Ended)])
    case OtherWrite(docID, rev, content) =>
      if docID !in w.server.entries || !FreshRev(w.server, rev) then w
      else w.(server := Put(w.server, docID, w.server.entries[docID].(rev := rev, content := content)))
    case OtherCreate(docID, entry) =>
      if docID in w.server.usedIDs || docID == "" || !FreshRev(w.server, entry.rev)
         || !NameFree(w.server, entry.parent, entry.name)
      then w
      else w.(server := Put(w.server.(usedIDs := w.server.usedIDs + {docID}), docID, entry))
    case OtherDelete(docID) => w.(server := w.server.(entries := w.server.entries - {docID}))
    case OtherMove(docID, newID, parent, name) =>
      if !Movable(w.server, docID, newID, parent) || !NameFree(w.server, parent, name) then w
      else w.(server := Move(w.server, docID, newID, parent, name))
  }

  ghost predicate ServerInv(s: Server) {
    && (forall d :: d in s.entries ==>
          d in s.usedIDs && d != "" && s.entries[d].rev != ""
          && s.entries[d].rev in s.history && s.history[s.entries[d].rev] == s.entries[d].content)
    && (forall r :: r in s.pending ==>
          r !in s.history && r != "" && s.pending[r].docID in s.usedIDs && s.pending[r].docID != "")
  }

  // A begun upload passed its preconditions, and its ticket is for what it saw.
  ghost predicate UploadInv(s: Server, up: Upload) {
    && Sound(up.p) && (up.id == "" ==> up.rev == "")
    && (up.stage.Begun? ==>
          && CheckObject(up.p, up.id, up.rev).None?
          && (up.stage.newRev in s.pending ==>
                s.pending[up.stage.newRev] == if up.id != "" then EditTicket(up.id)
                                              else CreateTicket(up.stage.docID, up.parent, up.name))
          && (up.id != "" ==> up.stage.docID == up.id)
          && (up.stage.newRev in s.pending || up.stage.newRev in s.history))
  }

  ghost predicate Inv(w: World) {
    ServerInv(w.server) && forall u :: u in w.uploads ==> UploadInv(w.server, w.uploads[u])
  }

  // What revisions were is never rewritten, and a ticket once used is not issued again.
  ghost predicate Extends(s: Server, t: Server) {
    && (forall r :: r in s.history ==> r in t.history && t.history[r] == s.history[r])
    && (forall r :: r in s.pending ==>
          (r in t.pending || r in t.history) && (r in t.pending ==> t.pending[r] == s.pending[r]))
    && (forall r :: r in t.pending ==> r !in s.history)
  }

  // A new current revision of a document, under a fresh revision or a ticket's.
  lemma PutKeeps(s: Server, docID: string, entry: Entry)
    requires ServerInv(s) && docID in s.usedIDs && docID != ""
    requires entry.rev != "" && entry.rev !in s.history && entry.rev !in s.pending
    ensures ServerInv(Put(s, docID, entry))
    ensures Extends(s, Put(s, docID, entry))
  {
  }

  lemma OthersStep(w: World, a: Action)
    requires Inv(w) && (a.OtherWrite? || a.OtherCreate? || a.OtherDelete? || a.OtherMove?)
    ensures ServerInv(Step(w, a).server) && Extends(w.server, Step(w, a).server) && Step(w, a).uploads == w.uploads
  {
    hide NameFree, Put;
    var s := w.server;
    match a
    case OtherWrite(docID, rev, content) =>
      if docID in s.entries && FreshRev(s, rev) {
        PutKeeps(s, docID, s.entries[docID].(rev := rev, content := content));
      }
    case OtherCreate(docID, entry) =>
      if docID != "" && FreshRev(s, entry.rev) {
        PutKeeps(s.(usedIDs := s.usedIDs + {docID}), docID, entry);
      }
    case OtherDelete(_) =>
    case OtherMove(_, _, _, _) =>
  }

  lemma UploadInvExtends(s: Server, t: Server, up: Upload)
    requires UploadInv(s, up) && Extends(s, t)
    ensures UploadInv(t, up)
  {
  }

  // Replacing the server by one that extends it and the upload by one that fits it.
  lemma OwnStep(w: World, v: World, u: nat)
    requires Inv(w) && ServerInv(v.server) && Extends(w.server, v.server)
    requires u in v.uploads && v.uploads == w.uploads[u := v.uploads[u]] && UploadInv(v.server, v.uploads[u])
    ensures Inv(v)
  {
    hide ServerInv, Extends, UploadInv;
    forall q | q in v.uploads
      ensures UploadInv(v.server, v.uploads[q])
    {
      if q != u {
        assert v.uploads[q] == w.uploads[q];
        UploadInvExtends(w.server, v.server, w.uploads[q]);
      }
    }
  }

  lemma BeginStep(w: World, u: nat, newID: string, newRev: string)
    requires Inv(w)
    ensures var v := Step(w, BeginUpload(u, newID, newRev)); Inv(v) && Extends(w.server, v.server)
  {
    hide NameFree;
    var v := Step(w, BeginUpload(u, newID, newRev));
    if u in w.uploads && w.uploads[u].stage.Looked? {
      assert UploadInv(w.server, w.uploads[u]);
      OwnStep(w, v, u);
    }
  }

  lemma TakeOverStep(w: World, u: nat, from: nat)
    requires Inv(w)
    ensures var v := Step(w, TakeOver(u, from)); Inv(v) && Extends(w.server, v.server)
  {
    if TakesOver(w, u, from) {
      assert UploadInv(w.server, w.uploads[u]) && UploadInv(w.server, w.uploads[from]);
    }
  }

  lemma EndOnKeeps(s: Server, end: EndRequest, content: Bytes)
    requires ServerInv(s) && EndOn(s, end, content).Some?
    ensures ServerInv(EndOn(s, end, content).value) && Extends(s, EndOn(s, end, content).value)
    ensures end.rev in EndOn(s, end, content).value.history
  {
    hide NameFree;
    var done := s.(pending := s.pending - {end.rev});
    var entry := match s.pending[end.rev]
      case EditTicket(docID) => s.entries[docID].(rev := end.rev, content := content)
      case CreateTicket(docID, parent, name) => Entry(parent, name, end.rev, content);
    PutKeeps(done, end.docID, entry);
  }

  lemma EndStep(w: World, u: nat, content: Bytes)
    requires Inv(w)
    ensures Inv(Step(w, EndUpload(u, content))) && Extends(w.server, Step(w, EndUpload(u, content)).server)
  {
    hide NameFree, EndOn;
    var v := Step(w, EndUpload(u, content));
    if u in w.uploads && w.uploads[u].stage.Begun? {
      assert UploadInv(w.server, w.uploads[u]);
      var end := EndRequestOf(w.uploads[u]);
      if EndOn(w.server, end, content).Some? {
        EndOnKeeps(w.server, end, content);
      }
      OwnStep(w, v, u);
    }
  }

  lemma StepKeeps(w: World, a: Action)
    requires Inv(w)
    ensures Inv(Step(w, a)) && Extends(w.server, Step(w, a).server)
  {
    match a
    case Look(_, _, _, _, _, _) =>
    case BeginUpload(u, newID, newRev) => BeginStep(w, u, newID, newRev);
    case TakeOver(u, from) => TakeOverStep(w, u, from);
    case EndUpload(u, content) => EndStep(w, u, content);
    case _ =>
      OthersStep(w, a);
      forall u | u in w.uploads
        ensures UploadInv(Step(w, a).server, w.uploads[u])
      {
        UploadInvExtends(w.server, Step(w, a).server, w.uploads[u]);
      }
  }

  ghost function After(w: World, actions: seq<Action>): World {
    if actions == [] then w else Step(After(w, actions[..|actions| - 1]), actions[|actions| - 1])
  }

  // Any server to start from, no uploads yet, any history.
  ghost predicate Reachable(w: World) {
    exists s, actions :: ServerInv(s) && w == After(World(s, map[]), actions)
  }

  lemma {:induction false} AfterKeeps(w: World, actions: seq<Action>)
    requires Inv(w)
    ensures Inv(After(w, actions))
    ensures forall r :: r in w.server.history ==>
              (r in After(w, actions).server.history && After(w, actions).server.history[r] == w.server.history[r])
    decreases |actions|
  {
    hide Step;
    if actions != [] {
      AfterKeeps(w, actions[..|actions| - 1]);
      StepKeeps(After(w, actions[..|actions| - 1]), actions[|actions| - 1]);
    }
  }

  lemma ReachableInv(w: World)
    requires Reachable(w)
    ensures Inv(w)
  {
    var s, actions :| ServerInv(s) && w == After(World(s, map[]), actions);
    AfterKeeps(World(s, map[]), actions);
  }

  predicate Succeeds(w: World, v: World, u: nat) {
    u in w.uploads && w.uploads[u].stage.Begun? && u in v.uploads && v.uploads[u].stage.Ended?
  }

  // No lost update: in every interleaving, a successful upload with expected id and revision,
  // whether it began itself or took over what another began, replaces exactly that revision of
  // that document, whose content is the one that revision always had, and changes no other entry.
  lemma NoLostUpdate(w: World, u: nat, content: Bytes)
    requires Reachable(w) && Succeeds(w, Step(w, EndUpload(u, content)), u)
    requires w.uploads[u].p.set_ && !w.uploads[u].p.expectedAbsent
    ensures var p, s, t := w.uploads[u].p, w.server, Step(w, EndUpload(u, content)).server;
      && p.expectedID in s.entries && s.entries[p.expectedID].rev == p.expectedRev
      && p.expectedRev in s.history && s.history[p.expectedRev] == s.entries[p.expectedID].content
      && t.entries == s.entries[
           p.expectedID := s.entries[p.expectedID].(rev := w.uploads[u].stage.newRev, content := content)]
      && w.uploads[u].stage.newRev !in s.history
  {
    hide NameFree;
    ReachableInv(w);
    assert UploadInv(w.server, w.uploads[u]);
  }

  // A successful expected-absent upload creates an entry where there was none and overwrites nothing.
  lemma AbsentCreatesOnly(w: World, u: nat, content: Bytes)
    requires Reachable(w) && Succeeds(w, Step(w, EndUpload(u, content)), u)
    requires w.uploads[u].p.expectedAbsent
    ensures var up, s, t := w.uploads[u], w.server, Step(w, EndUpload(u, content)).server;
      && up.stage.docID !in s.entries && NameFree(s, up.parent, up.name)
      && t.entries == s.entries[up.stage.docID := Entry(up.parent, up.name, up.stage.newRev, content)]
  {
    ReachableInv(w);
    assert UploadInv(w.server, w.uploads[u]);
  }

  // The end of an upload of an existing document goes through exactly when the document is
  // still there at the revision the upload is based on, or when no such revision was known:
  // only then can it overwrite a revision it never saw.
  lemma EndGuardExactly(w: World, u: nat, content: Bytes)
    requires Reachable(w) && u in w.uploads && w.uploads[u].stage.Begun?
    requires w.uploads[u].id != "" && w.uploads[u].stage.newRev in w.server.pending
    ensures var up := w.uploads[u];
      Succeeds(w, Step(w, EndUpload(u, content)), u) <==>
        && up.id in w.server.entries
        && (BaseRev(up.p, up.rev) == "" || w.server.entries[up.id].rev == BaseRev(up.p, up.rev))
  {
    hide NameFree;
    ReachableInv(w);
    assert UploadInv(w.server, w.uploads[u]);
  }

  // An upload of an existing document begins exactly when the document is still there at the
  // revision the upload is based on, or when no such revision was known; and it goes no further
  // than its preconditions: absence wants no object, an expected object just that ID and revision.
  lemma BeginGuardExactly(w: World, u: nat, newID: string, newRev: string)
    requires Reachable(w) && u in w.uploads && w.uploads[u].stage.Looked?
    requires w.uploads[u].id != "" && FreshRev(w.server, newRev)
    ensures var up, v := w.uploads[u], Step(w, BeginUpload(u, newID, newRev));
      var base := if up.p.set_ && !up.p.expectedAbsent then up.p.expectedRev else up.rev;
      v.uploads[u].stage.Begun? <==>
        && (up.p.set_ ==> !up.p.expectedAbsent && up.id == up.p.expectedID && up.rev == up.p.expectedRev)
        && up.id in w.server.entries && (base == "" || w.server.entries[up.id].rev == base)
  {
    hide NameFree;
  }

  // An upload that saw no object begins exactly when its name is free and it expects no object;
  // the ID the server gives it must be new.
  lemma CreateBeginsExactly(w: World, u: nat, newID: string, newRev: string)
    requires Reachable(w) && u in w.uploads && w.uploads[u].stage.Looked?
    requires w.uploads[u].id == "" && FreshRev(w.server, newRev) && newID != "" && newID !in w.server.usedIDs
    ensures var up, v := w.uploads[u], Step(w, BeginUpload(u, newID, newRev));
      v.uploads[u].stage.Begun? <==> (up.p.set_ ==> up.p.expectedAbsent) && NameFree(w.server, up.parent, up.name)
  {
    ReachableInv(w);
    hide NameFree, Reachable;
    assert UploadInv(w.server, w.uploads[u]);
  }

  // An upload that creates ends exactly when the name is still free and nothing has its ID.
  lemma CreateEndsExactly(w: World, u: nat, content: Bytes)
    requires Reachable(w) && u in w.uploads && w.uploads[u].stage.Begun?
    requires w.uploads[u].id == "" && w.uploads[u].stage.newRev in w.server.pending
    ensures var up := w.uploads[u];
      Succeeds(w, Step(w, EndUpload(u, content)), u) <==>
        up.stage.docID !in w.server.entries && NameFree(w.server, up.parent, up.name)
  {
    ReachableInv(w);
    hide NameFree, Reachable;
    assert UploadInv(w.server, w.uploads[u]);
  }

  // Preconditions with an expected revision always carry it; a plain upload of an entry seen
  // with a revision carries that one.
  lemma GuardIsKnown(w: World, u: nat)
    requires Reachable(w) && u in w.uploads && w.uploads[u].stage.Begun?
    ensures w.uploads[u].p.set_ && !w.uploads[u].p.expectedAbsent ==>
      BaseRev(w.uploads[u].p, w.uploads[u].rev) == w.uploads[u].p.expectedRev == w.uploads[u].rev != ""
    ensures !w.uploads[u].p.set_ ==> BaseRev(w.uploads[u].p, w.uploads[u].rev) == w.uploads[u].rev
  {
    ReachableInv(w);
    assert UploadInv(w.server, w.uploads[u]);
  }

  lemma Follows(w: World, a: Action)
    requires Reachable(w)
    ensures Reachable(Step(w, a))
  {
    hide Step;
    var s, actions :| ServerInv(s) && w == After(World(s, map[]), actions);
    assert (actions + [a])[..|actions|] == actions;
    assert Step(w, a) == After(World(s, map[]), actions + [a]);
  }

  lemma NoneYet(s: Server)
    requires ServerInv(s)
    ensures Reachable(World(s, map[]))
  {
    assert After(World(s, map[]), []) == World(s, map[]);
  }

  const PLAIN := Preconditions("", "", false, false)

  // That does happen: when the listing reports no revision, a plain upload carries no guard, and
  // the revision another client wrote in between, which the upload never saw, is replaced.
  lemma UnseenRevisionReplaced(s: Server, d: string, between: string, last: string, other: Bytes, content: Bytes)
    returns (w: World)
    requires ServerInv(s) && d in s.entries && FreshRev(s, between) && FreshRev(s, last) && between != last
    ensures Reachable(w) && Succeeds(w, Step(w, EndUpload(0, content)), 0)
    ensures w.uploads[0].id == d && w.uploads[0].rev == "" && between !in s.history
    ensures d in w.server.entries && w.server.entries[d].rev == between && w.server.entries[d].content == other
    ensures Step(w, EndUpload(0, content)).server.entries[d] == s.entries[d].(rev := last, content := content)
  {
    var e := s.entries[d];
    assert d != "";
    hide Reachable, ServerInv;
    NoneYet(s);
    w := World(s, map[]);
    LooksUnreported(s, d);
    Follows(w, Look(0, PLAIN, e.parent, e.name, Some(d), false));
    w := Step(w, Look(0, PLAIN, e.parent, e.name, Some(d), false));
    BeginsUnguarded(w, d, last);
    Follows(w, BeginUpload(0, "", last));
    w := Step(w, BeginUpload(0, "", last));
    Follows(w, OtherWrite(d, between, other));
    w := Step(w, OtherWrite(d, between, other));
  }

  lemma LooksUnreported(s: Server, d: string)
    requires d in s.entries
    ensures var e := s.entries[d];
      Step(World(s, map[]), Look(0, PLAIN, e.parent, e.name, Some(d), false))
      == World(s, map[0 := Upload(PLAIN, e.parent, e.name, d, "", Looked)])
  {
  }

  lemma BeginsUnguarded(w: World, d: string, last: string)
    requires 0 in w.uploads && w.uploads[0] == Upload(PLAIN, w.uploads[0].parent, w.uploads[0].name, d, "", Looked)
    requires d != "" && d in w.server.entries && FreshRev(w.server, last)
    ensures Step(w, BeginUpload(0, "", last))
         == World(w.server.(pending := w.server.pending[last := EditTicket(d)]),
                  w.uploads[0 := w.uploads[0].(stage := Begun(d, last))])
  {
    hide NameFree;
  }

  // An upload that expects no object does create one: the preconditions its option gives, on any
  // server where the name is free.
  lemma AbsentUploadCreates(s: Server, parent: string, name: string, newID: string, last: string, content: Bytes)
    returns (w: World)
    requires ServerInv(s) && NameFree(s, parent, name) && FreshRev(s, last) && newID != "" && newID !in s.usedIDs
    ensures Reachable(w) && Succeeds(w, Step(w, EndUpload(0, content)), 0)
    ensures w.uploads[0].p == Preconditions("", "", true, true) && w.server.entries == s.entries
    ensures Step(w, EndUpload(0, content)).server.entries == s.entries[newID := Entry(parent, name, last, content)]
  {
    var p := Preconditions("", "", true, true);
    assert newID !in s.entries;
    hide Reachable, ServerInv;
    NoneYet(s);
    w := World(s, map[]);
    LooksAbsent(s, p, parent, name);
    Follows(w, Look(0, p, parent, name, None, true));
    w := Step(w, Look(0, p, parent, name, None, true));
    BeginsCreating(w, p, parent, name, newID, last);
    Follows(w, BeginUpload(0, newID, last));
    w := Step(w, BeginUpload(0, newID, last));
    EndsCreating(w, s, p, parent, name, newID, last, content);
  }

  lemma LooksAbsent(s: Server, p: Preconditions, parent: string, name: string)
    requires NameFree(s, parent, name) && p == Preconditions("", "", true, true)
    ensures Step(World(s, map[]), Look(0, p, parent, name, None, true))
         == World(s, map[0 := Upload(p, parent, name, "", "", Looked)])
  {
    hide NameFree;
  }

  lemma BeginsCreating(w: World, p: Preconditions, parent: string, name: string, newID: string, last: string)
    requires w.uploads == map[0 := Upload(p, parent, name, "", "", Looked)] && p == Preconditions("", "", true, true)
    requires NameFree(w.server, parent, name) && FreshRev(w.server, last)
    requires newID != "" && newID !in w.server.usedIDs
    ensures Step(w, BeginUpload(0, newID, last))
         == World(w.server.(pending := w.server.pending[last := CreateTicket(newID, parent, name)],
                            usedIDs := w.server.usedIDs + {newID}),
                  map[0 := Upload(p, parent, name, "", "", Begun(newID, last))])
  {
    hide NameFree;
    var up := Upload(p, parent, name, "", "", Begun(newID, last));
    assert w.uploads[0 := up] == map[0 := up];
  }

  lemma EndsCreating(
      w: World, s: Server, p: Preconditions, parent: string, name: string, newID: string, last: string,
      content: Bytes)
    requires w.uploads == map[0 := Upload(p, parent, name, "", "", Begun(newID, last))]
    requires p == Preconditions("", "", true, true) && w.server.entries == s.entries && NameFree(s, parent, name)
    requires last in w.server.pending && w.server.pending[last] == CreateTicket(newID, parent, name)
    requires newID !in s.entries
    ensures Succeeds(w, Step(w, EndUpload(0, content)), 0)
    ensures Step(w, EndUpload(0, content)).server.entries == s.entries[newID := Entry(parent, name, last, content)]
  {
    assert NameFree(w.server, parent, name);
    hide NameFree;
  }

  // And a guarded upload that took over another's session does end, if nothing came between.
  lemma TakenOverEnds(s: Server, d: string, last: string, content: Bytes) returns (w: World)
    requires ServerInv(s) && d in s.entries && FreshRev(s, last)
    ensures Reachable(w) && TakesOver(w, 1, 0)
    ensures var v := Step(w, TakeOver(1, 0));
      && w.uploads[1].p == Preconditions(d, s.entries[d].rev, false, true)
      && Succeeds(v, Step(v, EndUpload(1, content)), 1)
      && Step(v, EndUpload(1, content)).server.entries
         == s.entries[d := s.entries[d].(rev := last, content := content)]
  {
    var e := s.entries[d];
    assert d != "" && e.rev != "";
    hide Reachable, ServerInv;
    var p := Preconditions(d, e.rev, false, true);
    NoneYet(s);
    w := World(s, map[]);
    LooksReported(w, 0, p, d);
    Follows(w, Look(0, p, e.parent, e.name, Some(d), true));
    w := Step(w, Look(0, p, e.parent, e.name, Some(d), true));
    BeginsGuarded(w, d, last);
    Follows(w, BeginUpload(0, "", last));
    w := Step(w, BeginUpload(0, "", last));
    LooksReported(w, 1, p, d);
    Follows(w, Look(1, p, e.parent, e.name, Some(d), true));
    w := Step(w, Look(1, p, e.parent, e.name, Some(d), true));
  }

  lemma LooksReported(w: World, u: nat, p: Preconditions, d: string)
    requires u !in w.uploads && Sound(p) && d in w.server.entries
    ensures var e := w.server.entries[d];
      Step(w, Look(u, p, e.parent, e.name, Some(d), true))
      == World(w.server, w.uploads[u := Upload(p, e.parent, e.name, d, e.rev, Looked)])
  {
  }

  lemma BeginsGuarded(w: World, d: string, last: string)
    requires 0 in w.uploads && d != "" && d in w.server.entries && w.server.entries[d].rev != ""
    requires var up := w.uploads[0];
      up.p == Preconditions(d, up.rev, false, true) && up.id == d && up.stage == Looked
      && up.rev == w.server.entries[d].rev
    requires FreshRev(w.server, last)
    ensures Step(w, BeginUpload(0, "", last))
         == World(w.server.(pending := w.server.pending[last := EditTicket(d)]),
                  w.uploads[0 := w.uploads[0].(stage := Begun(d, last))])
  {
    hide NameFree;
  }
}
