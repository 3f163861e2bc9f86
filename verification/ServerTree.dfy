/**
 The server's tree.  Entries are keyed by cumulative document ID; a node keeps its stored name,
 and a negative size marks a directory.  IDs of one segment are document libraries, whose names
 are shown as they are; all other names are shown decoded.
 */
module ServerTree {
  import opened Basics
  import opened Paths

  // rclone's name encoder: encode to store, decode to show.
  datatype Encoder = Encoder(enc: string -> string, dec: string -> string)

  // Decoding undoes encoding, and the encoding of a component is a component.
  ghost predicate Reversible(e: Encoder) {
    forall x :: e.dec(e.enc(x)) == x && (Part(x) ==> Part(e.enc(x)))
  }

  datatype Node = Node(name: string, size: int, rev: string)

  type Tree = map<DocId, Node>

  predicate IsDir(n: Node) {
    n.size < 0
  }

  predicate Folder(t: Tree, id: DocId) {
    id == [] || (id in t && IsDir(t[id]))
  }

  function Above<T>(s: seq<T>): seq<T>
    requires s != []
  {
    s[..|s| - 1]
  }

  function Last<T>(s: seq<T>): T
    requires s != []
  {
    s[|s| - 1]
  }

  lemma Peel<T>(a: seq<T>, b: seq<T>)
    requires b != []
    ensures a + b == (a + Above(b)) + [Last(b)]
  {
  }

  function Shown(t: Tree, e: Encoder, id: DocId): string
    requires id in t
  {
    if |id| == 1 then t[id].name else e.dec(t[id].name)
  }

  predicate Hangs(t: Tree, id: DocId) {
    id != [] && Folder(t, Above(id))
  }

  // Every entry hangs below a directory, and libraries are directories.
  ghost predicate Placed(t: Tree) {
    && (forall id :: id in t ==> id != [] && Parts(id))
    && (forall id {:trigger Hangs(t, id)} :: id in t ==> Hangs(t, id))
    && (forall id :: id in t && |id| == 1 ==> IsDir(t[id]))
  }

  // Every name is a path component when shown, and below the libraries one the encoder stored.
  ghost predicate Named(t: Tree, e: Encoder) {
    forall id :: id in t ==> Part(Shown(t, e, id)) && (|id| != 1 ==> e.enc(e.dec(t[id].name)) == t[id].name)
  }

  predicate Siblings(x: DocId, y: DocId) {
    x != [] && y != [] && Above(x) == Above(y)
  }

  ghost predicate Distinct(t: Tree) {
    forall x, y :: x in t && y in t && Siblings(x, y) && t[x].name == t[y].name ==> x == y
  }

  ghost predicate WellFormed(t: Tree, e: Encoder) {
    Placed(t) && Named(t, e) && Distinct(t)
  }

  ghost predicate NameFree(t: Tree, dir: DocId, name: string) {
    forall x :: x in t && x != [] && Above(x) == dir ==> t[x].name != name
  }

  // --- Plain traversal -----------------------------------------------------------------------

  // Going down from the root by the components of `path` leads to `id`.
  ghost predicate Leads(t: Tree, e: Encoder, path: seq<string>, id: DocId) {
    && |path| == |id|
    && (id != [] ==> id in t && Shown(t, e, id) == Last(path) && Leads(t, e, Above(path), Above(id)))
  }

  ghost predicate LiveDir(t: Tree, e: Encoder, path: seq<string>, id: DocId) {
    Leads(t, e, path, id) && Folder(t, id)
  }

  lemma ShownDistinct(t: Tree, e: Encoder, x: DocId, y: DocId)
    requires WellFormed(t, e) && x in t && y in t && Siblings(x, y) && Shown(t, e, x) == Shown(t, e, y)
    ensures x == y
  {
    assert |x| == |y|;
  }

  // At most one entry is at a path, and an entry is at one path only.
  lemma {:induction false} LeadsToOne(t: Tree, e: Encoder, path: seq<string>, x: DocId, y: DocId)
    requires WellFormed(t, e) && Leads(t, e, path, x) && Leads(t, e, path, y)
    ensures x == y
  {
    hide WellFormed;
    if path != [] {
      LeadsToOne(t, e, Above(path), Above(x), Above(y));
      ShownDistinct(t, e, x, y);
    }
  }

  lemma {:induction false} LedFromOne(t: Tree, e: Encoder, p: seq<string>, q: seq<string>, id: DocId)
    requires Leads(t, e, p, id) && Leads(t, e, q, id)
    ensures p == q
  {
    if id != [] {
      LedFromOne(t, e, Above(p), Above(q), Above(id));
      assert p == Above(p) + [Last(p)] && q == Above(q) + [Last(q)];
    }
  }

  lemma EntryClean(t: Tree, e: Encoder, id: DocId)
    requires WellFormed(t, e) && id in t
    ensures id != [] && Parts(id) && Part(Shown(t, e, id))
  {
  }

  lemma {:induction false} LeadsClean(t: Tree, e: Encoder, path: seq<string>, id: DocId)
    requires WellFormed(t, e) && Leads(t, e, path, id)
    ensures Parts(path) && Parts(id)
  {
    hide WellFormed, Shown, Part;
    if id != [] {
      EntryClean(t, e, id);
      LeadsClean(t, e, Above(path), Above(id));
      forall i | 0 <= i < |path|
        ensures Part(path[i])
      {
        assert i < |path| - 1 ==> path[i] == Above(path)[i];
      }
    }
  }

  lemma {:induction false} LeadsPrefix(t: Tree, e: Encoder, path: seq<string>, id: DocId, n: nat)
    requires Leads(t, e, path, id) && n <= |id|
    ensures Leads(t, e, path[..n], id[..n])
    decreases |id|
  {
    if n < |id| {
      LeadsPrefix(t, e, Above(path), Above(id), n);
      assert Above(path)[..n] == path[..n] && Above(id)[..n] == id[..n];
    } else {
      assert path[..n] == path && id[..n] == id;
    }
  }

  lemma LeadsLength(t: Tree, e: Encoder, path: seq<string>, id: DocId)
    requires Leads(t, e, path, id)
    ensures |path| == |id|
  {
  }

  // Below a directory's ID is exactly below its path.
  lemma BelowMatches(t: Tree, e: Encoder, src: seq<string>, id: DocId, path: seq<string>, x: DocId)
    requires WellFormed(t, e) && Leads(t, e, src, id) && Leads(t, e, path, x)
    ensures id <= x <==> src <= path
  {
    hide WellFormed, Leads;
    LeadsLength(t, e, src, id);
    LeadsLength(t, e, path, x);
    if |id| <= |x| {
      LeadsPrefix(t, e, path, x, |id|);
      assert id <= x <==> x[..|id|] == id;
      assert src <= path <==> path[..|id|] == src;
      if id <= x {
        LedFromOne(t, e, src, path[..|id|], id);
      }
      if src <= path {
        LeadsToOne(t, e, src, id, x[..|id|]);
      }
    }
  }

  lemma ParentIsFolder(t: Tree, id: DocId)
    requires Placed(t) && id in t
    ensures id != [] && Folder(t, Above(id)) && Parts(id)
  {
    assert Hangs(t, id);
  }

  // An entry's ancestors are directories.
  lemma {:induction false} AncestorsAreFolders(t: Tree, id: DocId, n: nat)
    requires Placed(t) && id in t && n < |id|
    ensures Folder(t, id[..n])
    decreases |id|
  {
    ParentIsFolder(t, id);
    if n == |id| - 1 {
      assert id[..n] == Above(id);
    } else {
      AncestorsAreFolders(t, Above(id), n);
      assert Above(id)[..n] == id[..n];
    }
  }

  // --- What the server's operations do to the tree ---------------------------------------------

  function WithDir(t: Tree, id: DocId, name: string): Tree {
    t[id := Node(name, -1, "")]
  }

  function Without(t: Tree, id: DocId): Tree {
    map x | x in t && !(id <= x) :: t[x]
  }

  function Renamed(t: Tree, id: DocId, name: string): Tree
    requires id in t
  {
    t[id := t[id].(name := name)]
  }

  // Where an entry of the relocated tree was before.
  function Origin(id: DocId, moved: DocId, x: DocId): DocId {
    if moved <= x then id + x[|moved|..] else x
  }

  // A move changes the ID of the entry and of everything below it.
  function Relocated(t: Tree, id: DocId, moved: DocId, name: string): Tree
    requires id in t
  {
    var below := set x | x in t && id <= x :: moved + x[|id|..];
    map x | x in t.Keys + below && (moved <= x || !(id <= x)) && Origin(id, moved, x) in t
      :: if x == moved then t[id].(name := name) else t[Origin(id, moved, x)]
  }

  ghost predicate Relocatable(t: Tree, id: DocId, moved: DocId, name: string) {
    && id in t && |id| >= 2 && |moved| >= 2 && Parts(moved)
    && Folder(t, Above(moved)) && !(id <= Above(moved)) && moved !in t
    && NameFree(t, Above(moved), name)
  }

  // The names a well-behaved client stores.
  ghost predicate Storable(e: Encoder, name: string) {
    Part(e.dec(name)) && e.enc(e.dec(name)) == name
  }

  lemma EncodedIsStorable(e: Encoder, leaf: string)
    requires Reversible(e) && Part(leaf)
    ensures Storable(e, e.enc(leaf)) && e.dec(e.enc(leaf)) == leaf
  {
  }

  lemma WithDirWellFormed(t: Tree, e: Encoder, id: DocId, name: string)
    requires WellFormed(t, e) && id !in t && |id| >= 2 && Parts(id) && Folder(t, Above(id))
    requires Storable(e, name) && NameFree(t, Above(id), name)
    ensures WellFormed(WithDir(t, id, name), e)
  {
    hide Placed, Parts;
    WithDirPlaced(t, id, name);
  }

  lemma WithDirPlaced(t: Tree, id: DocId, name: string)
    requires Placed(t) && id !in t && |id| >= 2 && Parts(id) && Folder(t, Above(id))
    ensures Placed(WithDir(t, id, name))
  {
    hide Parts;
    var u := WithDir(t, id, name);
    forall x | x in u
      ensures Hangs(u, x)
    {
      if x != id {
        ParentIsFolder(t, x);
      }
    }
  }

  lemma WithoutWellFormed(t: Tree, e: Encoder, id: DocId)
    requires WellFormed(t, e) && id != []
    ensures WellFormed(Without(t, id), e)
  {
    hide Placed, Parts, Part;
    WithoutPlaced(t, id);
  }

  lemma WithoutPlaced(t: Tree, id: DocId)
    requires Placed(t) && id != []
    ensures Placed(Without(t, id))
  {
    hide Parts;
    var u := Without(t, id);
    forall x | x in u
      ensures Hangs(u, x)
    {
      ParentIsFolder(t, x);
      assert id <= Above(x) ==> id <= x;
    }
  }

  lemma RenamedWellFormed(t: Tree, e: Encoder, id: DocId, name: string)
    requires WellFormed(t, e) && id in t && |id| >= 2 && Storable(e, name)
    requires NameFree(t, Above(id), name) || t[id].name == name
    ensures WellFormed(Renamed(t, id, name), e)
  {
    hide Placed, Distinct, Named, Renamed, NameFree, Storable;
    RenamedPlaced(t, id, name);
    RenamedNamed(t, e, id, name);
    RenamedDistinct(t, id, name);
  }

  lemma RenamedNamed(t: Tree, e: Encoder, id: DocId, name: string)
    requires Named(t, e) && id in t && |id| >= 2 && Storable(e, name)
    ensures Named(Renamed(t, id, name), e)
  {
    hide Part;
  }

  lemma RenamedPlaced(t: Tree, id: DocId, name: string)
    requires Placed(t) && id in t
    ensures Placed(Renamed(t, id, name))
  {
    hide Parts;
    var u := Renamed(t, id, name);
    forall x | x in u
      ensures Hangs(u, x)
    {
      ParentIsFolder(t, x);
    }
  }

  lemma RenamedDistinct(t: Tree, id: DocId, name: string)
    requires Distinct(t) && id in t && id != []
    requires NameFree(t, Above(id), name) || t[id].name == name
    ensures Distinct(Renamed(t, id, name))
  {
  }

  lemma RelocatedHas(t: Tree, id: DocId, moved: DocId, name: string, x: DocId)
    requires id in t
    ensures x in Relocated(t, id, moved, name) <==> (moved <= x || !(id <= x)) && Origin(id, moved, x) in t
  {
    if moved <= x && Origin(id, moved, x) in t {
      var o := Origin(id, moved, x);
      assert id <= o && moved + o[|id|..] == x;
    }
  }

  lemma OriginAbove(id: DocId, moved: DocId, x: DocId)
    requires x != [] && x != moved && id != [] && Origin(id, moved, x) != []
    ensures Origin(id, moved, Above(x)) == Above(Origin(id, moved, x))
  {
    if moved <= x {
      assert moved <= Above(x);
      assert Origin(id, moved, Above(x)) == id + Above(x)[|moved|..];
    }
  }

  // No entry was at or below the new ID before.
  lemma NothingBelow(t: Tree, moved: DocId, x: DocId)
    requires Placed(t) && moved != [] && moved !in t && x in t
    ensures !(moved <= x)
  {
    if |moved| < |x| {
      AncestorsAreFolders(t, x, |moved|);
      var head := x[..|moved|];
      assert moved <= x ==> head == moved;
    }
    assert |moved| == |x| && moved <= x ==> moved == x;
  }

  lemma OriginSame(id: DocId, moved: DocId, x: DocId, y: DocId)
    requires Origin(id, moved, x) == Origin(id, moved, y)
    requires moved <= x <==> moved <= y
    ensures x == y
  {
    if moved <= x {
      assert x == moved + x[|moved|..] && y == moved + y[|moved|..];
      var o := Origin(id, moved, x);
      assert o[|id|..] == x[|moved|..];
      assert o[|id|..] == y[|moved|..];
    }
  }

  lemma RelocatableHas(t: Tree, id: DocId, moved: DocId, name: string)
    requires Relocatable(t, id, moved, name)
    ensures id in t && |id| >= 2 && moved != []
  {
  }

  lemma RelocatedPlaced(t: Tree, id: DocId, moved: DocId, name: string)
    requires Placed(t) && Relocatable(t, id, moved, name)
    ensures Placed(Relocated(t, id, moved, name))
  {
    hide Relocated, Relocatable, Parts, Folder;
    assert id in t by { RelocatableHas(t, id, moved, name); }
    var u := Relocated(t, id, moved, name);
    forall x | x in u
      ensures x != [] && Parts(x) && Hangs(u, x) && (|x| == 1 ==> IsDir(u[x]))
    {
      RelocatedFits(t, id, moved, name, x);
    }
  }

  lemma RelocatedFits(t: Tree, id: DocId, moved: DocId, name: string, x: DocId)
    requires Placed(t) && Relocatable(t, id, moved, name) && x in Relocated(t, id, moved, name)
    ensures var u := Relocated(t, id, moved, name);
      x != [] && Parts(x) && Folder(u, Above(x)) && (|x| == 1 ==> IsDir(u[x]))
  {
    hide Relocated, NameFree;
    var u := Relocated(t, id, moved, name);
    RelocatedHas(t, id, moved, name, x);
    var o := Origin(id, moved, x);
    ParentIsFolder(t, o);
    RelocatedParts(t, id, moved, x);
    RelocatedHas(t, id, moved, name, Above(x));
    RelocatedNode(t, id, moved, name, x);
    if x == moved {
      NothingAboveMoved(t, id, moved, name);
    } else {
      OriginAbove(id, moved, x);
      if Above(x) != [] {
        assert Above(x) in u by {
          assert !(moved <= x) ==> !(id <= Above(x));
        }
        RelocatedNode(t, id, moved, name, Above(x));
      }
    }
  }

  lemma NothingAboveMoved(t: Tree, id: DocId, moved: DocId, name: string)
    requires Placed(t) && Relocatable(t, id, moved, name)
    ensures Folder(Relocated(t, id, moved, name), Above(moved))
  {
    hide NameFree, Relocated;
    RelocatedHas(t, id, moved, name, Above(moved));
    RelocatedNode(t, id, moved, name, Above(moved));
  }

  lemma RelocatedParts(t: Tree, id: DocId, moved: DocId, x: DocId)
    requires Placed(t) && id in t && Parts(moved) && moved != [] && Origin(id, moved, x) in t
    ensures x != [] && Parts(x)
  {
    if moved <= x {
      var o := Origin(id, moved, x);
      forall i | 0 <= i < |x|
        ensures Part(x[i])
      {
        if i < |moved| {
          assert x[i] == moved[i];
        } else {
          assert x[i] == o[|id| + i - |moved|];
        }
      }
    }
  }

  lemma RelocatedNode(t: Tree, id: DocId, moved: DocId, name: string, x: DocId)
    requires id in t
    ensures x in Relocated(t, id, moved, name) ==>
      Relocated(t, id, moved, name)[x] == if x == moved then t[id].(name := name) else t[Origin(id, moved, x)]
  {
  }

  lemma RelocatedNamed(t: Tree, e: Encoder, id: DocId, moved: DocId, name: string)
    requires WellFormed(t, e) && Relocatable(t, id, moved, name) && Storable(e, name)
    ensures Named(Relocated(t, id, moved, name), e)
  {
    hide Relocated, NameFree, Distinct;
    var u := Relocated(t, id, moved, name);
    forall x | x in u
      ensures Part(Shown(u, e, x)) && (|x| != 1 ==> e.enc(e.dec(u[x].name)) == u[x].name)
    {
      RelocatedHas(t, id, moved, name, x);
      RelocatedNode(t, id, moved, name, x);
      if x != moved {
        assert Origin(id, moved, x) in t;
      }
    }
  }

  lemma RelocatedSiblings(t: Tree, id: DocId, moved: DocId, name: string, x: DocId, y: DocId)
    requires Placed(t) && Distinct(t) && Relocatable(t, id, moved, name)
    requires var u := Relocated(t, id, moved, name); x in u && y in u && Siblings(x, y) && u[x].name == u[y].name
    requires x != moved
    ensures x == y
  {
    hide Relocated;
    RelocatedHas(t, id, moved, name, x);
    RelocatedHas(t, id, moved, name, y);
    RelocatedNode(t, id, moved, name, x);
    RelocatedNode(t, id, moved, name, y);
    var o, p := Origin(id, moved, x), Origin(id, moved, y);
    if y != moved {
      assert moved <= x <==> moved <= Above(x);
      assert moved <= y <==> moved <= Above(y);
      OriginAbove(id, moved, x);
      OriginAbove(id, moved, y);
      assert Siblings(o, p);
      OriginSame(id, moved, x, y);
    }
  }

  lemma RelocatedDistinct(t: Tree, id: DocId, moved: DocId, name: string)
    requires Placed(t) && Distinct(t) && Relocatable(t, id, moved, name)
    ensures Distinct(Relocated(t, id, moved, name))
  {
    hide Relocated, Placed, NameFree;
    var u := Relocated(t, id, moved, name);
    forall x, y | x in u && y in u && Siblings(x, y) && u[x].name == u[y].name
      ensures x == y
    {
      if x != moved {
        RelocatedSiblings(t, id, moved, name, x, y);
      } else if y != moved {
        RelocatedSiblings(t, id, moved, name, y, x);
      }
    }
  }

  lemma RelocatedWellFormed(t: Tree, e: Encoder, id: DocId, moved: DocId, name: string)
    requires WellFormed(t, e) && Relocatable(t, id, moved, name) && Storable(e, name)
    ensures WellFormed(Relocated(t, id, moved, name), e)
  {
    hide Relocated, Relocatable, Placed, Named, Distinct;
    RelocatedPlaced(t, id, moved, name);
    RelocatedNamed(t, e, id, moved, name);
    RelocatedDistinct(t, id, moved, name);
  }

  // --- What an operation leaves where it was ---------------------------------------------------

  // Entries outside the subtree at `id` are untouched.
  ghost predicate KeptOutside(t: Tree, u: Tree, id: DocId) {
    forall x :: x in t && !(id <= x) ==> x in u && u[x] == t[x]
  }

  lemma {:induction false} LeadsKept(t: Tree, u: Tree, e: Encoder, id: DocId, path: seq<string>, x: DocId)
    requires KeptOutside(t, u, id) && Leads(t, e, path, x) && !(id <= x)
    ensures Leads(u, e, path, x)
    ensures LiveDir(t, e, path, x) ==> LiveDir(u, e, path, x)
  {
    if x != [] {
      assert id <= Above(x) ==> id <= x;
      LeadsKept(t, u, e, id, Above(path), Above(x));
    }
  }

  lemma DeleteKeeps(t: Tree, id: DocId)
    ensures KeptOutside(t, Without(t, id), id)
  {
  }

  lemma RenameKeeps(t: Tree, id: DocId, name: string)
    requires id in t
    ensures KeptOutside(t, Renamed(t, id, name), id)
  {
  }

  lemma MoveKeeps(t: Tree, id: DocId, moved: DocId, name: string)
    requires Placed(t) && Relocatable(t, id, moved, name)
    ensures KeptOutside(t, Relocated(t, id, moved, name), id)
  {
    hide Relocated;
    forall x | x in t && !(id <= x)
      ensures x in Relocated(t, id, moved, name) && Relocated(t, id, moved, name)[x] == t[x]
    {
      NothingBelow(t, moved, x);
      RelocatedHas(t, id, moved, name, x);
      RelocatedNode(t, id, moved, name, x);
    }
  }

  // After the operation nothing that was at or below `id` is still found where it was.
  ghost predicate Uprooted(t: Tree, u: Tree, e: Encoder, id: DocId) {
    id in t && ((forall x :: id <= x ==> x !in u) || (id in u && Shown(u, e, id) != Shown(t, e, id)))
  }

  lemma UprootedIsLost(t: Tree, u: Tree, e: Encoder, id: DocId, path: seq<string>, x: DocId)
    requires Uprooted(t, u, e, id) && Leads(t, e, path, x) && id <= x && id != []
    ensures !Leads(u, e, path, x)
  {
    LeadsPrefix(t, e, path, x, |id|);
    assert x[..|id|] == id;
    if x in u && Leads(u, e, path, x) {
      LeadsPrefix(u, e, path, x, |id|);
    }
  }

  lemma MoveUproots(t: Tree, e: Encoder, id: DocId, moved: DocId, name: string)
    requires Placed(t) && Relocatable(t, id, moved, name)
    ensures Uprooted(t, Relocated(t, id, moved, name), e, id)
  {
    hide Relocated;
    forall x | id <= x
      ensures x !in Relocated(t, id, moved, name)
    {
      RelocatedHas(t, id, moved, name, x);
      NothingBelow(t, moved, id);
      var above := Above(moved);
      assert moved <= x && |id| < |moved| ==> id <= above;
      assert moved <= x && |id| >= |moved| ==> moved <= id;
    }
  }

  lemma MoveCarriesTop(t: Tree, e: Encoder, id: DocId, moved: DocId, name: string, dst: seq<string>)
    requires Placed(t) && Relocatable(t, id, moved, name) && Leads(t, e, dst, Above(moved))
    ensures Leads(Relocated(t, id, moved, name), e, dst + [e.dec(name)], moved)
  {
    hide Relocated, Placed, NameFree;
    var u := Relocated(t, id, moved, name);
    assert Origin(id, moved, moved) == id;
    RelocatedHas(t, id, moved, name, moved);
    RelocatedNode(t, id, moved, name, moved);
    MoveKeeps(t, id, moved, name);
    LeadsKept(t, u, e, id, dst, Above(moved));
    assert Above(dst + [e.dec(name)]) == dst;
  }

  lemma NamesCarried(t: Tree, e: Encoder, id: DocId, moved: DocId, name: string, below: DocId)
    requires Relocatable(t, id, moved, name) && below != [] && id + below in t
    ensures var u := Relocated(t, id, moved, name);
      moved + below in u && Shown(u, e, moved + below) == Shown(t, e, id + below)
  {
    hide Relocated, NameFree;
    var x := moved + below;
    assert x[|moved|..] == below && moved <= x;
    RelocatedHas(t, id, moved, name, x);
    RelocatedNode(t, id, moved, name, x);
  }

  lemma LeadsOne(t: Tree, e: Encoder, path: seq<string>, leaf: string, id: DocId, segment: string)
    ensures Leads(t, e, path + [leaf], id + [segment]) <==>
      Leads(t, e, path, id) && id + [segment] in t && Shown(t, e, id + [segment]) == leaf
  {
    assert Above(path + [leaf]) == path && Above(id + [segment]) == id;
  }

  // A move carries the whole subtree along: what was below the old path is below the new one,
  // under the new ID, with its names unchanged.
  lemma {:induction false} MoveCarries(
      t: Tree, e: Encoder, id: DocId, moved: DocId, name: string, src: seq<string>, dst: seq<string>,
      rest: seq<string>, below: DocId)
    requires Placed(t) && Relocatable(t, id, moved, name)
    requires Leads(t, e, src, id) && Leads(t, e, dst, Above(moved)) && Leads(t, e, src + rest, id + below)
    ensures Leads(Relocated(t, id, moved, name), e, dst + [e.dec(name)] + rest, moved + below)
    decreases |below|
  {
    LeadsLength(t, e, src, id);
    LeadsLength(t, e, src + rest, id + below);
    hide Placed, Relocated, Leads, Shown;
    var to := dst + [e.dec(name)];
    if below == [] {
      assert to + rest == to && moved + below == moved;
      MoveCarriesTop(t, e, id, moved, name, dst);
    } else {
      hide Relocatable;
      var r, b := Above(rest), Above(below);
      Peel(src, rest);
      Peel(id, below);
      Peel(to, rest);
      Peel(moved, below);
      LeadsOne(t, e, src + r, Last(rest), id + b, Last(below));
      MoveCarries(t, e, id, moved, name, src, dst, r, b);
      NamesCarried(t, e, id, moved, name, below);
      LeadsOne(Relocated(t, id, moved, name), e, to + r, Last(rest), moved + b, Last(below));
    }
  }

  lemma {:induction false} RenameCarries(
      t: Tree, e: Encoder, id: DocId, name: string, src: seq<string>, rest: seq<string>, below: DocId)
    requires id in t && |id| >= 2 && Leads(t, e, src, id) && Leads(t, e, src + rest, id + below)
    ensures Leads(Renamed(t, id, name), e, Above(src) + [e.dec(name)] + rest, id + below)
    decreases |below|
  {
    LeadsLength(t, e, src, id);
    LeadsLength(t, e, src + rest, id + below);
    var u := Renamed(t, id, name);
    var to := Above(src) + [e.dec(name)];
    if below == [] {
      assert to + rest == to && id + below == id && Above(to) == Above(src);
      RenameKeeps(t, id, name);
      LeadsKept(t, u, e, id, Above(src), Above(id));
    } else {
      hide Leads, Shown;
      var r, b := Above(rest), Above(below);
      Peel(src, rest);
      Peel(id, below);
      Peel(to, rest);
      LeadsOne(t, e, src + r, Last(rest), id + b, Last(below));
      RenameCarries(t, e, id, name, src, r, b);
      RenamedBelow(t, e, id, name, below);
      LeadsOne(u, e, to + r, Last(rest), id + b, Last(below));
    }
  }

  lemma RenamedBelow(t: Tree, e: Encoder, id: DocId, name: string, below: DocId)
    requires id in t && below != [] && id + below in t
    ensures var u := Renamed(t, id, name);
      id + below in u && Shown(u, e, id + below) == Shown(t, e, id + below)
  {
    assert |id + below| != |id|;
  }

  // Renaming within a directory keeps the ID; moving to another gives a new one.
  ghost predicate Relocation(t: Tree, u: Tree, e: Encoder, id: DocId, dst: DocId, leaf: string, moved: DocId) {
    && id in t && |id| >= 2 && moved != [] && Above(moved) == dst
    && if dst == Above(id) then moved == id && u == Renamed(t, id, e.enc(leaf))
       else Relocatable(t, id, moved, e.enc(leaf)) && u == Relocated(t, id, moved, e.enc(leaf))
  }

  // Everything that was at or below the old path is at the same place below the new one.
  lemma RelocationCarries(
      t: Tree, u: Tree, e: Encoder, id: DocId, dst: DocId, leaf: string, moved: DocId,
      src: seq<string>, to: seq<string>, rest: seq<string>, below: DocId)
    requires WellFormed(t, e) && Reversible(e) && Relocation(t, u, e, id, dst, leaf, moved)
    requires Leads(t, e, src, id) && Leads(t, e, to, dst) && Leads(t, e, src + rest, id + below)
    ensures Leads(u, e, to + [leaf] + rest, moved + below)
  {
    LeadsLength(t, e, src, id);
    var name := e.enc(leaf);
    assert e.dec(name) == leaf;
    if dst == Above(id) {
      assert Leads(t, e, Above(src), Above(id));
      LedFromOne(t, e, to, Above(src), dst);
      RenameCarries(t, e, id, name, src, rest, below);
    } else {
      hide Leads;
      MoveCarries(t, e, id, moved, name, src, to, rest, below);
    }
  }

  // Everything else stays, and nothing is left where the entry was unless it kept its name.
  lemma RelocationEffects(t: Tree, u: Tree, e: Encoder, id: DocId, dst: DocId, leaf: string, moved: DocId)
    requires WellFormed(t, e) && Reversible(e) && Relocation(t, u, e, id, dst, leaf, moved)
    ensures KeptOutside(t, u, id)
    ensures u != t ==> Uprooted(t, u, e, id)
    ensures dst == Above(id) && leaf == Shown(t, e, id) ==> u == t
    ensures dst != Above(id) ==> u != t
  {
    var name := e.enc(leaf);
    if dst == Above(id) {
      RenameKeeps(t, id, name);
      assert e.dec(name) == leaf;
      assert t[id].name == name ==> t[id].(name := name) == t[id];
    } else {
      hide Relocated;
      MoveKeeps(t, id, moved, name);
      MoveUproots(t, e, id, moved, name);
    }
  }
}
