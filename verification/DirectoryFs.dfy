/**
 The backend's directory operations on a remote rooted at the virtual root, with one client.
 Each keeps the cache right unless the server changed the tree and its reply was lost.
 */
module DirectoryFs {
  import opened Basics
  import opened Paths
  import opened ServerTree
  import opened CacheCoherence
  import opened ServerApi

  datatype Failure = DirNotFound | DirectoryNotEmpty | DirExists | CantDirMove | Protected | Malformed | ApiFailed

  // A path that does not start at a slash; cleaner paths are only needed to make directories.
  predicate Relative(path: string) {
    path != "" ==> path[0] != '/'
  }

  lemma SplitRelative(path: string)
    requires Relative(path) && path != ""
    ensures var (dir, leaf) := SplitPath(path);
      Relative(dir) && '/' !in leaf && Comps(path) == Comps(dir) + [leaf] && |dir| < |path|
  {
    hide Split, LastSlash;
    SplitAtLast(path);
    var (dir, leaf) := SplitPath(path);
    assert LastSlash(path) > 0 ==> dir[0] == path[0];
  }

  lemma SplitClean(path: string)
    requires Clean(path) && path != ""
    ensures Clean(SplitPath(path).0) && Part(SplitPath(path).1) && Relative(path)
  {
    SplitPathComps(path);
    var i := LastSlash(path);
    assert path[0] == '/' ==> i >= 0;
    CleanHead(path);
  }

  lemma {:induction false} CleanHead(path: string)
    requires Clean(path) && path != ""
    ensures path[0] != '/'
    decreases |path|
  {
    SplitPathComps(path);
    var (dir, leaf) := SplitPath(path);
    if dir != "" {
      CleanHead(dir);
    }
  }

  lemma RootExactly(s: string)
    requires Located(s).Some?
    ensures (s == VIRTUAL_ROOT_ID) <==> (Located(s).value == [])
  {
    IdStringLocated(s);
  }

  // No live directory is at the path.
  ghost predicate Nowhere(t: Tree, e: Encoder, path: string) {
    forall id :: !LiveDir(t, e, Comps(path), id)
  }

  ghost predicate ChildDir(t: Tree, e: Encoder, dir: DocId, leaf: string, s: string) {
    Located(s).Some?
    && var x := Located(s).value;
      x in t && x != [] && Above(x) == dir && IsDir(t[x]) && Shown(t, e, x) == leaf && Parts(x) && IdString(x) == s
  }

  ghost predicate NoChildDir(t: Tree, e: Encoder, dir: DocId, leaf: string) {
    forall x :: x in t && x != [] && Above(x) == dir && IsDir(t[x]) ==> Shown(t, e, x) != leaf
  }

  lemma FoundChild(t: Tree, e: Encoder, dir: string, d: string, leaf: string, s: string, path: string)
    requires FoundAt(t, e, dir, d) && ChildDir(t, e, Located(d).value, leaf, s) && Comps(path) == Comps(dir) + [leaf]
    ensures FoundAt(t, e, path, s)
  {
    var x := Located(s).value;
    assert x == Above(x) + [Last(x)];
    LeadsOne(t, e, Comps(dir), leaf, Above(x), Last(x));
  }

  lemma NoParentNoChild(t: Tree, e: Encoder, dir: string, leaf: string, path: string)
    requires WellFormed(t, e) && Nowhere(t, e, dir) && Comps(path) == Comps(dir) + [leaf]
    ensures Nowhere(t, e, path)
  {
    forall x
      ensures !LiveDir(t, e, Comps(path), x)
    {
      assert Above(Comps(path)) == Comps(dir);
      if x in t {
        ParentIsFolder(t, x);
        assert !LiveDir(t, e, Comps(dir), Above(x));
      }
    }
  }

  lemma NoChildNowhere(t: Tree, e: Encoder, dir: string, d: string, leaf: string, path: string)
    requires WellFormed(t, e) && FoundAt(t, e, dir, d) && NoChildDir(t, e, Located(d).value, leaf)
    requires Comps(path) == Comps(dir) + [leaf]
    ensures Nowhere(t, e, path)
  {
    hide WellFormed;
    forall x
      ensures !LiveDir(t, e, Comps(path), x)
    {
      if Leads(t, e, Comps(path), x) {
        assert Above(Comps(path)) == Comps(dir) && Last(Comps(path)) == leaf;
        LeadsToOne(t, e, Comps(dir), Above(x), Located(d).value);
      }
    }
  }

  // Only directories along the path were made.
  ghost predicate MadeAlong(t: Tree, u: Tree, e: Encoder, path: seq<string>) {
    && Grew(t, u)
    && forall x :: x in u && x !in t ==> IsDir(u[x]) && 2 <= |x| <= |path| && Leads(u, e, path[..|x|], x)
  }

  lemma MadeOneMore(t: Tree, u: Tree, v: Tree, e: Encoder, dir: seq<string>, leaf: string, made: DocId)
    requires MadeAlong(t, u, e, dir) && Grew(u, v) && (forall x :: x in v && x != made ==> x in u)
    requires |made| >= 2 && LiveDir(v, e, dir + [leaf], made)
    ensures MadeAlong(t, v, e, dir + [leaf])
  {
    hide Leads;
    forall x | x in v && x !in t
      ensures IsDir(v[x]) && 2 <= |x| <= |dir| + 1 && Leads(v, e, (dir + [leaf])[..|x|], x)
    {
      if x == made {
        LeadsLength(v, e, dir + [leaf], made);
        assert (dir + [leaf])[..|x|] == dir + [leaf];
      } else {
        GrewLeads(u, v, e, dir[..|x|], x);
        assert (dir + [leaf])[..|x|] == dir[..|x|];
      }
    }
  }

  lemma MadeNone(t: Tree, u: Tree, e: Encoder, dir: seq<string>, leaf: string)
    requires MadeAlong(t, u, e, dir)
    ensures MadeAlong(t, u, e, dir + [leaf])
  {
    hide Leads;
    assert forall n :: 0 <= n <= |dir| ==> (dir + [leaf])[..n] == dir[..n];
  }

  lemma MadeChild(t: Tree, e: Encoder, made: DocId, leaf: string)
    requires Reversible(e) && made !in t && |made| >= 2 && Parts(made)
    ensures var u := WithDir(t, made, e.enc(leaf));
      Grew(t, u) && ChildDir(u, e, Above(made), leaf, IdString(made)) && (forall x :: x in u && x != made ==> x in t)
  {
    LocatedIdString(made);
  }

  // The path is to be in a library that does not exist.
  ghost predicate NoLibrary(t: Tree, path: string) {
    Comps(path) != [] && forall x :: x in t && |x| == 1 ==> t[x].name != Comps(path)[0]
  }

  // A file is at the path or on the way to it.
  ghost predicate FileInTheWay(t: Tree, e: Encoder, path: string) {
    exists n, x :: 0 < n <= |Comps(path)| && x in t && !IsDir(t[x]) && Leads(t, e, Comps(path)[..n], x)
  }

  lemma FoundIsSomewhere(t: Tree, e: Encoder, path: string, s: string)
    requires FoundAt(t, e, path, s)
    ensures !Nowhere(t, e, path)
  {
  }

  lemma NoLibraryBelow(t: Tree, dir: string, leaf: string, path: string)
    requires Comps(path) == Comps(dir) + [leaf] && NoLibrary(t, dir)
    ensures NoLibrary(t, path)
  {
  }

  lemma FileInTheWayBelow(t: Tree, e: Encoder, dir: string, leaf: string, path: string)
    requires Comps(path) == Comps(dir) + [leaf] && FileInTheWay(t, e, dir)
    ensures FileInTheWay(t, e, path)
  {
    var n, x :| 0 < n <= |Comps(dir)| && x in t && !IsDir(t[x]) && Leads(t, e, Comps(dir)[..n], x);
    assert Comps(path)[..n] == Comps(dir)[..n];
  }

  // At the root only libraries are found, so a missing one is missing.
  lemma NoChildOfRoot(t: Tree, u: Tree, e: Encoder, d: string, leaf: string, path: string)
    requires WellFormed(u, e) && d == VIRTUAL_ROOT_ID && NoChildDir(u, e, [], leaf)
    requires Grew(t, u) && Comps(path) == [leaf]
    ensures NoLibrary(t, path)
  {
    forall x | x in t && |x| == 1
      ensures t[x].name != leaf
    {
      assert x in u && Above(x) == [] && IsDir(u[x]);
    }
  }

  // What was there before the tree grew was at the same path.
  lemma {:induction false} LedBefore(t: Tree, u: Tree, e: Encoder, path: seq<string>, x: DocId)
    requires Placed(t) && Grew(t, u) && (x == [] || x in t) && Leads(u, e, path, x)
    ensures Leads(t, e, path, x)
  {
    if x != [] {
      ParentIsFolder(t, x);
      LedBefore(t, u, e, Above(path), Above(x));
    }
  }

  // A name that is taken where no directory has it is a file's.
  lemma TakenByAFile(
      t: Tree, u: Tree, e: Encoder, base: seq<string>, dir: string, d: string, leaf: string, path: string)
    requires WellFormed(t, e) && WellFormed(u, e) && Reversible(e) && MadeAlong(t, u, e, base)
    requires FoundAt(u, e, dir, d) && Located(d).value != [] && Comps(path) == Comps(dir) + [leaf]
    requires NoChildDir(u, e, Located(d).value, leaf) && !NameFree(u, Located(d).value, e.enc(leaf))
    ensures FileInTheWay(t, e, path)
  {
    PlacedWhenWellFormed(t, e);
    FoundIsLive(u, e, dir, d);
    hide WellFormed, Comps, Located, Placed, NameFree, NoChildDir, MadeAlong, FoundAt, Reversible, FileInTheWay;
    var to := Located(d).value;
    var x := NameHolder(u, to, e.enc(leaf));
    ShownWhenEncoded(u, e, x, leaf);
    NotADirectory(u, e, to, leaf, x);
    FilesWereThere(t, u, e, base, x);
    FileLed(t, u, e, Comps(dir), to, leaf, x);
    FileAtTheEnd(t, e, path, x);
  }

  lemma FilesWereThere(t: Tree, u: Tree, e: Encoder, base: seq<string>, x: DocId)
    requires MadeAlong(t, u, e, base) && x in u && !IsDir(u[x])
    ensures Grew(t, u) && x in t && !IsDir(t[x])
  {
  }

  lemma FileLed(t: Tree, u: Tree, e: Encoder, path: seq<string>, dir: DocId, leaf: string, x: DocId)
    requires Placed(t) && Grew(t, u) && Leads(u, e, path, dir)
    requires x in t && x in u && x != [] && Above(x) == dir && Shown(u, e, x) == leaf
    ensures Leads(t, e, path + [leaf], x)
  {
    hide Placed, Leads, Grew;
    assert x == Above(x) + [Last(x)];
    LeadsOne(u, e, path, leaf, Above(x), Last(x));
    LedBefore(t, u, e, path + [leaf], x);
  }

  lemma FileAtTheEnd(t: Tree, e: Encoder, path: string, x: DocId)
    requires x in t && !IsDir(t[x]) && Leads(t, e, Comps(path), x) && Comps(path) != []
    ensures FileInTheWay(t, e, path)
  {
    assert Comps(path)[..|Comps(path)|] == Comps(path);
  }

  lemma NameHolder(t: Tree, dir: DocId, name: string) returns (x: DocId)
    requires !NameFree(t, dir, name)
    ensures x in t && x != [] && Above(x) == dir && t[x].name == name
  {
    x :| x in t && x != [] && Above(x) == dir && t[x].name == name;
  }

  lemma NotADirectory(t: Tree, e: Encoder, dir: DocId, leaf: string, x: DocId)
    requires NoChildDir(t, e, dir, leaf) && x in t && x != [] && Above(x) == dir && Shown(t, e, x) == leaf
    ensures !IsDir(t[x])
  {
  }

  lemma PlacedWhenWellFormed(t: Tree, e: Encoder)
    requires WellFormed(t, e)
    ensures Placed(t)
  {
  }

  lemma ShownWhenEncoded(t: Tree, e: Encoder, x: DocId, leaf: string)
    requires Reversible(e) && x in t && |x| >= 2 && t[x].name == e.enc(leaf)
    ensures Shown(t, e, x) == leaf
  {
    assert e.dec(e.enc(leaf)) == leaf;
  }

  // Where a directory is found, its library was there before and no file is in the way.
  lemma FoundExcludes(t: Tree, u: Tree, e: Encoder, path: string, s: string)
    requires WellFormed(u, e) && MadeAlong(t, u, e, Comps(path)) && FoundAt(u, e, path, s)
    ensures !NoLibrary(t, path) && !FileInTheWay(t, e, path)
  {
    var id := Located(s).value;
    LeadsLength(u, e, Comps(path), id);
    if Comps(path) != [] {
      LeadsPrefix(u, e, Comps(path), id, 1);
      assert id[..1] in u && |id[..1]| == 1;
      assert Shown(u, e, id[..1]) == Last(Comps(path)[..1]) == Comps(path)[0];
    }
    forall n, x | 0 < n <= |Comps(path)| && x in t && !IsDir(t[x])
      ensures !Leads(t, e, Comps(path)[..n], x)
    {
      FileIsNotOnTheWay(t, u, e, Comps(path), id, n, x);
    }
  }

  lemma FileIsNotOnTheWay(t: Tree, u: Tree, e: Encoder, path: seq<string>, id: DocId, n: nat, x: DocId)
    requires WellFormed(u, e) && Grew(t, u) && LiveDir(u, e, path, id) && n <= |path| && x in t && !IsDir(t[x])
    ensures !Leads(t, e, path[..n], x)
  {
    LeadsLength(u, e, path, id);
    hide Leads;
    LeadsPrefix(u, e, path, id, n);
    if n < |id| {
      AncestorsAreFolders(u, id, n);
    } else {
      assert id[..n] == id;
    }
    if Leads(t, e, path[..n], x) {
      GrewLeads(t, u, e, path[..n], x);
      LeadsToOne(u, e, path[..n], x, id[..n]);
    }
  }

  // A file in the way is below a library that exists.
  lemma FileNeedsLibrary(t: Tree, e: Encoder, path: string)
    requires WellFormed(t, e) && FileInTheWay(t, e, path)
    ensures !NoLibrary(t, path)
  {
    var n, x :| 0 < n <= |Comps(path)| && x in t && !IsDir(t[x]) && Leads(t, e, Comps(path)[..n], x);
    LeadsLength(t, e, Comps(path)[..n], x);
    LeadsPrefix(t, e, Comps(path)[..n], x, 1);
    assert x[..1] in t && Shown(t, e, x[..1]) == Last(Comps(path)[..n][..1]) == Comps(path)[0];
  }

  // Library names are shown as they are stored.
  function ListedName(e: Encoder, library: bool, it: Item): string {
    if library then it.node.name else e.dec(it.node.name)
  }

  // Why a directory cannot be made at the path.
  ghost predicate NotMakeable(t: Tree, e: Encoder, path: string, why: Failure) {
    (why == Protected && NoLibrary(t, path)) || (why == ApiFailed && FileInTheWay(t, e, path))
  }

  lemma NotMakeableBelow(t: Tree, e: Encoder, dir: string, leaf: string, path: string, why: Failure)
    requires Comps(path) == Comps(dir) + [leaf]
    ensures NotMakeable(t, e, dir, why) ==> NotMakeable(t, e, path, why)
  {
    if NoLibrary(t, dir) {
      NoLibraryBelow(t, dir, leaf, path);
    }
    if FileInTheWay(t, e, dir) {
      FileInTheWayBelow(t, e, dir, leaf, path);
    }
  }

  lemma RootIsEmptyPath(t: Tree, e: Encoder, path: string, s: string)
    requires FoundAt(t, e, path, s) && s == VIRTUAL_ROOT_ID
    ensures Comps(path) == []
  {
  }

  lemma GrewWhenMade(t: Tree, u: Tree, e: Encoder, path: seq<string>)
    requires MadeAlong(t, u, e, path)
    ensures Grew(t, u)
  {
  }

  lemma FoundIsFolder(t: Tree, e: Encoder, path: string, s: string)
    requires FoundAt(t, e, path, s)
    ensures Located(s).Some? && Folder(t, Located(s).value)
  {
  }

  // Something is in the directory at the path.
  ghost predicate HasEntries(t: Tree, e: Encoder, path: string) {
    exists id, x :: LiveDir(t, e, Comps(path), id) && x in t && x != [] && Above(x) == id
  }

  lemma ListedChildren(t: Tree, dir: DocId, l: Listing)
    requires Lists(t, dir, l)
    ensures l.dirs == [] && l.files == [] <==> forall x :: x in t && x != [] ==> Above(x) != dir
  {
    hide IdString;
    if l.dirs != [] {
      assert l.dirs[0] in l.dirs && Describes(t, dir, l.dirs[0]);
    }
    if l.files != [] {
      assert l.files[0] in l.files && Describes(t, dir, l.files[0]);
    }
    if l.dirs == [] && l.files == [] {
      forall x | x in t && x != []
        ensures Above(x) != dir
      {
        assert Item(IdString(x), t[x]) !in l.dirs && Item(IdString(x), t[x]) !in l.files;
      }
    }
  }

  lemma ListingTellsEntries(t: Tree, e: Encoder, path: string, s: string, l: Listing)
    requires WellFormed(t, e) && FoundAt(t, e, path, s) && Lists(t, Located(s).value, l)
    ensures l.dirs == [] && l.files == [] <==> !HasEntries(t, e, path)
  {
    hide WellFormed, Lists, Leads, Comps, Located;
    ListedChildren(t, Located(s).value, l);
    forall id | LiveDir(t, e, Comps(path), id)
      ensures id == Located(s).value
    {
      LeadsToOne(t, e, Comps(path), id, Located(s).value);
    }
    assert LiveDir(t, e, Comps(path), Located(s).value);
  }

  lemma SomewhereAbove(t: Tree, e: Encoder, dir: string, leaf: string, path: string)
    requires WellFormed(t, e) && !Nowhere(t, e, path) && Comps(path) == Comps(dir) + [leaf]
    ensures !Nowhere(t, e, dir)
  {
    hide WellFormed, Nowhere, Comps;
    if Nowhere(t, e, dir) {
      NoParentNoChild(t, e, dir, leaf, path);
    }
  }

  lemma RootExactlyAt(t: Tree, e: Encoder, path: string, s: string)
    requires FoundAt(t, e, path, s)
    ensures (s == VIRTUAL_ROOT_ID) <==> (Comps(path) == [])
    ensures (s == VIRTUAL_ROOT_ID) <==> (path == "")
  {
    hide Located, Comps, Folder;
    RootExactly(s);
    LeadsLength(t, e, Comps(path), Located(s).value);
    EmptyComps(path);
  }

  lemma NotMakeableWhy(t: Tree, e: Encoder, path: string, why: Failure)
    requires WellFormed(t, e)
    ensures NotMakeable(t, e, path, why) ==>
      if NoLibrary(t, path) then why == Protected else FileInTheWay(t, e, path) && why == ApiFailed
  {
    hide WellFormed, NoLibrary, FileInTheWay;
    if FileInTheWay(t, e, path) {
      FileNeedsLibrary(t, e, path);
    }
  }

  // The server takes a rename to a name that is free or the entry's own, and a move of the entry
  // to another directory, not inside itself, where the name is free.
  ghost predicate MayRelocate(t: Tree, e: Encoder, id: DocId, dst: DocId, leaf: string, isDir: bool) {
    && id in t && |id| >= 2 && (isDir <==> IsDir(t[id])) && dst != [] && Folder(t, dst)
    && if dst == Above(id) then NameFree(t, dst, e.enc(leaf)) || t[id].name == e.enc(leaf)
       else !(id <= dst) && NameFree(t, dst, e.enc(leaf))
  }

  // For a directory found at `src` and a place where there is none: unless the place is inside it
  // or taken by a file.
  lemma MayRelocateExactly(
      t: Tree, e: Encoder, src: string, s: string, dir: string, d: string, leaf: string, dst: string)
    requires WellFormed(t, e) && Reversible(e) && FoundAt(t, e, src, s) && FoundAt(t, e, dir, d)
    requires |Comps(src)| >= 2 && Comps(dir) != [] && Comps(dst) == Comps(dir) + [leaf] && Nowhere(t, e, dst)
    ensures MayRelocate(t, e, Located(s).value, Located(d).value, leaf, true) <==>
      !(Comps(src) <= Comps(dir)) && !FileInTheWay(t, e, dst)
  {
    var id, to := Located(s).value, Located(d).value;
    LeadsLength(t, e, Comps(src), id);
    LeadsLength(t, e, Comps(dir), to);
    hide WellFormed, Comps, Located, Leads;
    BelowMatches(t, e, Comps(src), id, Comps(dir), to);
    NameTakenExactly(t, e, dir, d, leaf, dst);
    if to == Above(id) {
      NotInItsParent(id);
      if t[id].name == e.enc(leaf) {
        OwnNameIsThere(t, e, id, dir, d, leaf, dst);
      }
    }
  }

  lemma NotInItsParent(id: DocId)
    requires id != []
    ensures !(id <= Above(id))
  {
  }

  lemma OwnNameIsThere(t: Tree, e: Encoder, id: DocId, dir: string, d: string, leaf: string, dst: string)
    requires Reversible(e) && id in t && |id| >= 2 && IsDir(t[id]) && t[id].name == e.enc(leaf)
    requires FoundAt(t, e, dir, d) && Located(d).value == Above(id) && Comps(dst) == Comps(dir) + [leaf]
    ensures !Nowhere(t, e, dst)
  {
    hide Comps, Located;
    ShownWhenEncoded(t, e, id, leaf);
    assert id == Above(id) + [Last(id)];
    LeadsOne(t, e, Comps(dir), leaf, Above(id), Last(id));
    assert LiveDir(t, e, Comps(dst), id);
  }

  // Where no directory has the name, it is taken exactly by a file.
  lemma NameTakenExactly(t: Tree, e: Encoder, dir: string, d: string, leaf: string, dst: string)
    requires WellFormed(t, e) && Reversible(e) && FoundAt(t, e, dir, d) && Comps(dir) != []
    requires Comps(dst) == Comps(dir) + [leaf] && Nowhere(t, e, dst)
    ensures NameFree(t, Located(d).value, e.enc(leaf)) <==> !FileInTheWay(t, e, dst)
  {
    hide WellFormed, Comps, Located, NameFree;
    if !NameFree(t, Located(d).value, e.enc(leaf)) {
      TakenIsInTheWay(t, e, dir, d, leaf, dst);
    }
    if FileInTheWay(t, e, dst) {
      var n, x :| 0 < n <= |Comps(dst)| && x in t && !IsDir(t[x]) && Leads(t, e, Comps(dst)[..n], x);
      FileBelowFound(t, e, dir, d, leaf, dst, n, x);
    }
  }

  lemma TakenIsInTheWay(t: Tree, e: Encoder, dir: string, d: string, leaf: string, dst: string)
    requires Reversible(e) && FoundAt(t, e, dir, d) && Comps(dir) != []
    requires Comps(dst) == Comps(dir) + [leaf] && Nowhere(t, e, dst) && !NameFree(t, Located(d).value, e.enc(leaf))
    ensures FileInTheWay(t, e, dst)
  {
    var to := Located(d).value;
    LeadsLength(t, e, Comps(dir), to);
    hide Comps, Located, Leads, Folder;
    var x :| x in t && x != [] && Above(x) == to && t[x].name == e.enc(leaf);
    ShownWhenEncoded(t, e, x, leaf);
    assert x == Above(x) + [Last(x)];
    LeadsOne(t, e, Comps(dir), leaf, to, Last(x));
    assert !LiveDir(t, e, Comps(dst), x);
    assert Comps(dst)[..|Comps(dst)|] == Comps(dst);
    FileHere(t, x);
  }

  lemma FileHere(t: Tree, x: DocId)
    requires x in t
    ensures Folder(t, x) <==> x == [] || IsDir(t[x])
  {
  }

  lemma FileBelowFound(
      t: Tree, e: Encoder, dir: string, d: string, leaf: string, dst: string, n: nat, x: DocId)
    requires WellFormed(t, e) && FoundAt(t, e, dir, d) && Comps(dir) != [] && Comps(dst) == Comps(dir) + [leaf]
    requires 0 < n <= |Comps(dst)| && x in t && !IsDir(t[x]) && Leads(t, e, Comps(dst)[..n], x)
    ensures !NameFree(t, Located(d).value, e.enc(leaf))
  {
    hide WellFormed, Comps, Located, Leads, NameFree, Folder;
    if n <= |Comps(dir)| {
      PrefixOfAppend(Comps(dir), leaf, n);
      FileIsNotOnTheWay(t, t, e, Comps(dir), Located(d).value, n, x);
    } else {
      assert Comps(dst)[..n] == Comps(dst);
      FileInTheDirectory(t, e, Comps(dir), Located(d).value, leaf, x);
    }
  }

  lemma PrefixOfAppend<T>(a: seq<T>, b: T, n: nat)
    requires n <= |a|
    ensures (a + [b])[..n] == a[..n]
  {
  }

  lemma FileInTheDirectory(t: Tree, e: Encoder, path: seq<string>, dir: DocId, leaf: string, x: DocId)
    requires WellFormed(t, e) && Leads(t, e, path, dir) && path != [] && Leads(t, e, path + [leaf], x) && x in t
    ensures !NameFree(t, dir, e.enc(leaf))
  {
    LeadsLength(t, e, path + [leaf], x);
    NameKept(t, e, x);
    hide WellFormed, Leads, NameFree;
    assert x == Above(x) + [Last(x)];
    LeadsOne(t, e, path, leaf, Above(x), Last(x));
    LeadsToOne(t, e, path, Above(x), dir);
    TakenHere(t, dir, x, e.enc(leaf));
  }

  lemma NameKept(t: Tree, e: Encoder, x: DocId)
    requires WellFormed(t, e) && x in t && |x| >= 2
    ensures t[x].name == e.enc(Shown(t, e, x))
  {
  }

  lemma TakenHere(t: Tree, dir: DocId, x: DocId, name: string)
    requires x in t && x != [] && Above(x) == dir && t[x].name == name
    ensures !NameFree(t, dir, name)
  {
  }

  // The same for an entry named by its ID.
  ghost predicate MaySyncMove(t: Tree, e: Encoder, id: string, dst: string, isDir: bool) {
    && Located(id).Some?
    && exists dir :: LiveDir(t, e, Comps(SplitPath(dst).0), dir)
         && MayRelocate(t, e, Located(id).value, dir, SplitPath(dst).1, isDir)
  }

  lemma MaySyncMoveExactly(t: Tree, e: Encoder, id: string, dst: string, d: string, isDir: bool)
    requires WellFormed(t, e) && FoundAt(t, e, SplitPath(dst).0, d)
    ensures MaySyncMove(t, e, id, dst, isDir) <==>
      Located(id).Some? && MayRelocate(t, e, Located(id).value, Located(d).value, SplitPath(dst).1, isDir)
  {
    hide WellFormed, Comps, Located, Leads, Folder, MayRelocate;
    forall dir | LiveDir(t, e, Comps(SplitPath(dst).0), dir)
      ensures dir == Located(d).value
    {
      LeadsToOne(t, e, Comps(SplitPath(dst).0), dir, Located(d).value);
    }
    assert LiveDir(t, e, Comps(SplitPath(dst).0), Located(d).value);
  }

  // What the calls of a move by ID are refused for is what forbids it.
  lemma SyncMoveRefusals(t: Tree, e: Encoder, id: string, dst: string, d: string, isDir: bool)
    requires WellFormed(t, e) && FoundAt(t, e, SplitPath(dst).0, d) && d != VIRTUAL_ROOT_ID && ParentDocID(id).Some?
    requires Part(e.enc(SplitPath(dst).1))
    ensures var name := e.enc(SplitPath(dst).1);
      MaySyncMove(t, e, id, dst, isDir) <==>
        if ParentDocID(id) == Some(d) then
          && Located(id).Some? && Located(id).value in t && |Located(id).value| >= 2
          && (isDir <==> IsDir(t[Located(id).value]))
          && (NameFree(t, Above(Located(id).value), name) || t[Located(id).value].name == name)
        else Acceptable(t, Located(id), Located(d), name, isDir)
  {
    MaySyncMoveExactly(t, e, id, dst, d, isDir);
    RootExactly(d);
    FoundIsFolder(t, e, SplitPath(dst).0, d);
    NotTheRoot(id);
    var x, to := Located(id).value, Located(d).value;
    if x in t {
      HasParent(t, e, id);
      ParentIsAbove(t, e, x, d);
    }
    hide WellFormed, Comps, Located, NameFree, FoundAt, ParentDocID, MaySyncMove, IdString, Folder;
  }

  lemma ParentIsAbove(t: Tree, e: Encoder, x: DocId, d: string)
    requires WellFormed(t, e) && x in t && Located(d).Some?
    ensures IdString(Above(x)) == d <==> Above(x) == Located(d).value
  {
    hide WellFormed, Located, IdString;
    EntryClean(t, e, x);
    LocatedIdString(Above(x));
    IdStringLocated(d);
  }

  lemma RelocatableIsAcceptable(t: Tree, id: DocId, moved: DocId, name: string)
    requires Relocatable(t, id, moved, name)
    ensures id in t && |id| >= 2 && moved != [] && Above(moved) != [] && Folder(t, Above(moved))
    ensures !(id <= Above(moved)) && NameFree(t, Above(moved), name)
  {
  }

  lemma AboveIsFolder(t: Tree, e: Encoder, x: DocId)
    requires WellFormed(t, e) && x in t && |x| >= 2
    ensures Above(x) != [] && Folder(t, Above(x))
  {
    ParentIsFolder(t, x);
  }

  lemma NotTheRoot(id: string)
    requires ParentDocID(id).Some?
    ensures Located(id).Some? && Located(id).value != []
  {
    assert VIRTUAL_ROOT_ID[0] == 'p' && id[0] == 'g';
  }

  // In every operation `lost` tells whether the server made a change and its reply was lost;
  // the backend itself cannot know and only sees a failure.
  class Fs {
    const e: Encoder
    const server: Server
    const dirCache: DirCache

    ghost predicate Valid()
      reads server, dirCache
    {
      Reversible(e) && WellFormed(server.tree, e) && Coherent(server.tree, e, dirCache.cache)
    }

    constructor (e: Encoder, server: Server)
      requires Reversible(e) && WellFormed(server.tree, e)
      ensures Valid() && this.e == e && this.server == server && fresh(dirCache)
    {
      this.e := e;
      this.server := server;
      dirCache := new DirCache();
    }

    method FindLeaf(pathID: string, leaf: string) returns (r: Result<Option<string>, Failure>)
      requires WellFormed(server.tree, e) && Located(pathID).Some?
      modifies server`faults
      ensures server.faults >= old(server.faults) && (r.Ok? ==> server.faults == old(server.faults))
      ensures r.Err? && server.faults == old(server.faults) ==> !Folder(server.tree, Located(pathID).value)
      ensures r.Ok? && r.value.Some? ==> ChildDir(server.tree, e, Located(pathID).value, leaf, r.value.value)
      ensures r.Ok? && r.value.None? ==> NoChildDir(server.tree, e, Located(pathID).value, leaf)
      ensures r.Err? ==> r.error == ApiFailed
    {
      hide WellFormed, Located, Lists, ChildDir, NoChildDir, Describes, ListedName, Folder;
      RootExactly(pathID);
      var listing := server.ListDir(pathID);
      if listing.None? {
        return Err(ApiFailed);
      }
      var dirs := listing.value.dirs;
      var library := pathID == VIRTUAL_ROOT_ID;
      ghost var dir := Located(pathID).value;
      for i := 0 to |dirs|
        invariant forall j :: 0 <= j < i ==> ListedName(e, library, dirs[j]) != leaf
      {
        if ListedName(e, library, dirs[i]) == leaf {
          ListedChild(server.tree, e, dir, listing.value, dirs[i], leaf);
          return Ok(Some(dirs[i].docID));
        }
      }
      NoneListed(server.tree, e, dir, listing.value, leaf);
      r := Ok(None);
    }

    // Finds the directory at a path, through the cache, or makes it.
    method FindDir(path: string, create: bool) returns (r: Result<string, Failure>)
      requires Valid() && Relative(path) && (create ==> Clean(path))
      modifies dirCache, server
      ensures Valid() && MadeAlong(old(server.tree), server.tree, e, Comps(path))
      ensures !create ==> server.tree == old(server.tree)
      ensures r.Ok? ==> FoundAt(server.tree, e, path, r.value) && (path != "" ==> path in dirCache.cache)
      ensures r.Err? && r.error == DirNotFound ==> !create && Nowhere(server.tree, e, path)
      ensures forall p :: p in old(dirCache.cache) ==> p in dirCache.cache
      // Unless a call failed for no reason, it fails exactly when there is nothing to be found, or
      // when a library is missing or a file in the way of making the directory.
      ensures server.faults >= old(server.faults)
      ensures server.faults == old(server.faults) && r.Err? ==>
        if create then NotMakeable(old(server.tree), e, path, r.error) else r.error == DirNotFound
      ensures path == "" ==> r == Ok(VIRTUAL_ROOT_ID) && server.faults == old(server.faults)
      decreases |path|
    {
      hide WellFormed, Coherent, FoundAt, MadeAlong, Nowhere, ChildDir, NoChildDir, Reversible, Clean, Comps;
      hide NotMakeable;
      ghost var before := server.tree;
      MadeAlongSame(server.tree, e, Comps(path));
      if path == "" {
        RootFound(server.tree, e);
        return Ok(VIRTUAL_ROOT_ID);
      }
      var cached := dirCache.Get(path);
      if cached.Some? {
        CachedFound(server.tree, e, dirCache.cache, path);
        return Ok(cached.value);
      }
      var (dir, leaf) := SplitPath(path);
      SplitRelative(path);
      if create {
        SplitClean(path);
      }
      var parent := FindDir(dir, create);
      ghost var t := server.tree;
      if parent.Err? {
        if parent.error == DirNotFound {
          NoParentNoChild(t, e, dir, leaf, path);
        }
        MadeNone(old(server.tree), t, e, Comps(dir), leaf);
        NotMakeableBelow(before, e, dir, leaf, path, parent.error);
        return parent;
      }
      FoundIsFolder(t, e, dir, parent.value);
      var found := FindLeaf(parent.value, leaf);
      if found.Err? {
        MadeNone(old(server.tree), t, e, Comps(dir), leaf);
        return Err(found.error);
      }
      var id;
      if found.value.None? {
        if !create {
          NoChildNowhere(t, e, dir, parent.value, leaf, path);
          MadeNone(old(server.tree), t, e, Comps(dir), leaf);
          return Err(DirNotFound);
        }
        var made := CreateDir(parent.value, leaf, old(server.tree), dir, path);
        if made.Err? {
          return made;
        }
        id := made.value;
      } else {
        id := found.value.value;
        FoundChild(t, e, dir, parent.value, leaf, id, path);
        MadeNone(old(server.tree), t, e, Comps(dir), leaf);
      }
      PutKeeps(server.tree, e, dirCache.cache, path, id);
      dirCache.Put(path, id);
      r := Ok(id);
    }

    // The ghost parameters say which path the new directory is for and where making it began.
    method CreateDir(pathID: string, leaf: string, ghost before: Tree, ghost dir: string, ghost path: string)
      returns (r: Result<string, Failure>)
      requires Valid() && Part(leaf) && FoundAt(server.tree, e, dir, pathID) && Comps(path) == Comps(dir) + [leaf]
      requires MadeAlong(before, server.tree, e, Comps(dir)) && WellFormed(before, e)
      requires NoChildDir(server.tree, e, Located(pathID).value, leaf)
      modifies server
      ensures Valid() && MadeAlong(before, server.tree, e, Comps(path))
      ensures r.Ok? ==> FoundAt(server.tree, e, path, r.value)
      ensures r.Err? ==> r.error != DirNotFound
      ensures server.faults >= old(server.faults)
      ensures server.faults == old(server.faults) && r.Err? ==> NotMakeable(before, e, path, r.error)
    {
      hide WellFormed, Coherent, FoundAt, MadeAlong, ChildDir, NoChildDir, Comps, Located, Folder, NameFree;
      MadeNone(before, server.tree, e, Comps(dir), leaf);
      FoundIsFolder(server.tree, e, dir, pathID);
      RootExactly(pathID);
      if pathID == VIRTUAL_ROOT_ID {
        RootIsEmptyPath(server.tree, e, dir, pathID);
        GrewWhenMade(before, server.tree, e, Comps(dir));
        NoChildOfRoot(before, server.tree, e, pathID, leaf, path);
        return Err(Protected);
      }
      ghost var t := server.tree;
      EncodedIsStorable(e, leaf);
      var reply, made := server.CreateDir(pathID, e.enc(leaf), e);
      if !NameFree(t, Located(pathID).value, e.enc(leaf)) {
        TakenByAFile(before, t, e, Comps(dir), dir, pathID, leaf, path);
      }
      if made != [] {
        MadeChild(t, e, made, leaf);
        GrewFound(t, server.tree, e, dir, pathID);
        GrewKeeps(t, server.tree, e, dirCache.cache);
        FoundChild(server.tree, e, dir, pathID, leaf, IdString(made), path);
        LocatedIdString(made);
        FoundIsLive(server.tree, e, path, IdString(made));
        MadeOneMore(before, t, server.tree, e, Comps(dir), leaf, made);
      }
      r := if reply.Some? then Ok(reply.value) else Err(ApiFailed);
    }

    method List(dir: string) returns (r: Result<seq<DirEntry>, Failure>)
      requires Valid() && Relative(dir)
      modifies dirCache, server
      ensures Valid() && server.tree == old(server.tree)
      ensures r.Ok? ==>
        exists id :: LiveDir(server.tree, e, Comps(dir), id) && Reports(server.tree, e, dir, id, r.value)
      // The directories reported are cached.
      ensures r.Ok? ==> forall en :: en in r.value && IsDir(en.item.node) ==> en.remote in dirCache.cache
      ensures r.Err? && r.error == DirNotFound ==> Nowhere(server.tree, e, dir)
      // Unless a call failed for no reason, it fails exactly when there is no such directory.
      ensures server.faults >= old(server.faults)
      ensures server.faults == old(server.faults) ==>
        if Nowhere(server.tree, e, dir) then r == Err(DirNotFound) else r.Ok?
    {
      hide WellFormed, Coherent, FoundAt, MadeAlong, Nowhere, Comps, Located, Lists, Reports, LiveDir, Folder;
      var found := FindDir(dir, false);
      if found.Err? {
        return Err(found.error);
      }
      ghost var t := server.tree;
      FoundIsSomewhere(t, e, dir, found.value);
      FoundIsFolder(t, e, dir, found.value);
      FoundIsLive(t, e, dir, found.value);
      RootExactly(found.value);
      ghost var id := Located(found.value).value;
      var listing := server.ListDir(found.value);
      if listing.None? {
        return Err(ApiFailed);
      }
      var library := found.value == VIRTUAL_ROOT_ID;
      var dirs := listing.value.dirs;
      ghost var faults := server.faults;
      for i := 0 to |dirs|
        invariant Coherent(t, e, dirCache.cache) && server.tree == t && server.faults == faults
        invariant forall j :: 0 <= j < i ==> JoinPath(dir, ListedName(e, library, dirs[j])) in dirCache.cache
      {
        var remote := JoinPath(dir, ListedName(e, library, dirs[i]));
        ListedFound(t, e, dir, found.value, listing.value, dirs[i]);
        PutKeeps(t, e, dirCache.cache, remote, dirs[i].docID);
        dirCache.Put(remote, dirs[i].docID);
      }
      r := Ok(Entries(e, dir, library, listing.value.dirs + listing.value.files));
      EntriesOfDirs(e, dir, library, t, id, listing.value);
      ListingReports(t, e, dir, id, listing.value);
    }

    method Mkdir(dir: string) returns (r: Result<(), Failure>)
      requires Valid() && Clean(dir)
      modifies dirCache, server
      ensures Valid() && MadeAlong(old(server.tree), server.tree, e, Comps(dir))
      ensures r.Ok? ==> exists id :: LiveDir(server.tree, e, Comps(dir), id)
      ensures r.Err? ==> r.error != DirNotFound
      // Unless a call failed for no reason, it fails exactly when the library is missing or a
      // file is in the way.
      ensures server.faults >= old(server.faults)
      ensures server.faults == old(server.faults) ==>
        r == (if NoLibrary(old(server.tree), dir) then Err(Protected)
              else if FileInTheWay(old(server.tree), e, dir) then Err(ApiFailed)
              else Ok(()))
    {
      hide WellFormed, Coherent, FoundAt, MadeAlong, Comps, LiveDir, NoLibrary, FileInTheWay;
      ghost var t := server.tree;
      if dir != "" {
        SplitClean(dir);
      }
      if FileInTheWay(t, e, dir) {
        FileNeedsLibrary(t, e, dir);
      }
      var found := FindDir(dir, true);
      if found.Err? {
        return Err(found.error);
      }
      FoundExcludes(t, server.tree, e, dir, found.value);
      FoundIsLive(server.tree, e, dir, found.value);
      r := Ok(());
    }

    method Rmdir(dir: string) returns (r: Result<(), Failure>, lost: bool)
      requires Valid() && Relative(dir)
      modifies dirCache, server
      ensures WellFormed(server.tree, e) && (Coherent(server.tree, e, dirCache.cache) <==> !lost)
      ensures lost ==> r.Err?
      ensures r.Err? && !lost ==> server.tree == old(server.tree)
      ensures r.Ok? || lost ==> exists id ::
        Removed(old(server.tree), server.tree, e, dir, id) && forall x :: x in old(server.tree) && id <= x ==> x == id
      // Nothing else is dropped from the cache.
      ensures forall p :: p in old(dirCache.cache) && p != dir && !(dir + "/" <= p) ==> p in dirCache.cache
      // Unless a call failed for no reason, it refuses the root, what is not there and what is
      // not empty, and nothing else.
      ensures server.faults >= old(server.faults)
      ensures server.faults == old(server.faults) ==>
        r == (if dir == "" then Err(Protected)
              else if Nowhere(old(server.tree), e, dir) then Err(DirNotFound)
              else if HasEntries(old(server.tree), e, dir) then Err(DirectoryNotEmpty)
              else Ok(()))
    {
      hide WellFormed, Coherent, FoundAt, MadeAlong, Nowhere, Comps, Located, Lists, Reports, Reversible, Removed;
      hide Folder, HasEntries;
      lost := false;
      if dir == "" {
        return Err(Protected), false;
      }
      var found := FindDir(dir, false);
      if found.Err? {
        return Err(found.error), false;
      }
      ghost var t := server.tree;
      FoundIsSomewhere(t, e, dir, found.value);
      FoundIsFolder(t, e, dir, found.value);
      var listing := server.ListDir(found.value);
      if listing.None? {
        return Err(ApiFailed), false;
      }
      ListingTellsEntries(t, e, dir, found.value, listing.value);
      if |listing.value.dirs| != 0 || |listing.value.files| != 0 {
        return Err(DirectoryNotEmpty), false;
      }
      EmptyHasNothing(t, e, Located(found.value).value, listing.value);
      r, lost := DeleteAndFlush(dir, found.value);
    }

    method Purge(dir: string) returns (r: Result<(), Failure>, lost: bool)
      requires Valid() && Relative(dir)
      modifies dirCache, server
      ensures WellFormed(server.tree, e) && (Coherent(server.tree, e, dirCache.cache) <==> !lost)
      ensures lost ==> r.Err?
      ensures r.Err? && !lost ==> server.tree == old(server.tree)
      ensures r.Ok? || lost ==> exists id :: Removed(old(server.tree), server.tree, e, dir, id) && |id| >= 2
      // Nothing else is dropped from the cache.
      ensures forall p :: p in old(dirCache.cache) && p != dir && !(dir + "/" <= p) ==> p in dirCache.cache
      // Unless a call failed for no reason, it refuses the root, what is not there and libraries,
      // and nothing else.
      ensures server.faults >= old(server.faults)
      ensures server.faults == old(server.faults) ==>
        r == (if dir == "" then Err(Protected)
              else if Nowhere(old(server.tree), e, dir) then Err(DirNotFound)
              else if |Comps(dir)| == 1 then Err(Protected)
              else Ok(()))
    {
      hide WellFormed, Coherent, FoundAt, MadeAlong, Nowhere, Comps, Located, Reversible, Removed;
      lost := false;
      if dir == "" {
        return Err(Protected), false;
      }
      var found := FindDir(dir, false);
      if found.Err? {
        return Err(found.error), false;
      }
      SplitRelative(dir);
      ghost var above := SplitPath(dir).0;
      FoundIsSomewhere(server.tree, e, dir, found.value);
      SomewhereAbove(server.tree, e, above, SplitPath(dir).1, dir);
      var parent := FindDir(SplitPath(dir).0, false);
      if parent.Err? {
        return Err(parent.error), false;
      }
      RootExactlyAt(server.tree, e, above, parent.value);
      if parent.value == VIRTUAL_ROOT_ID {
        return Err(Protected), false;
      }
      LocatedWhenFound(server.tree, e, dir, found.value);
      NotALibrary(server.tree, e, dir, found.value, parent.value);
      ghost var id, t := Located(found.value).value, server.tree;
      r, lost := DeleteAndFlush(dir, found.value);
      assert r.Ok? || lost ==> Removed(t, server.tree, e, dir, id);
    }

    // The end of both: delete the directory found, then drop it from the cache.
    method DeleteAndFlush(dir: string, id: string) returns (r: Result<(), Failure>, lost: bool)
      requires Valid() && dir != "" && dir in dirCache.cache && FoundAt(server.tree, e, dir, id)
      modifies dirCache, server
      ensures WellFormed(server.tree, e) && (Coherent(server.tree, e, dirCache.cache) <==> !lost)
      ensures lost ==> r.Err?
      ensures r.Err? && !lost ==> server.tree == old(server.tree)
      ensures r.Ok? || lost ==> Removed(old(server.tree), server.tree, e, dir, Located(id).value)
      ensures server.faults >= old(server.faults)
      ensures server.faults == old(server.faults) ==> r == Ok(())
      ensures forall p :: p in old(dirCache.cache) && p != dir && !(dir + "/" <= p) ==> p in dirCache.cache
    {
      hide WellFormed, Coherent, FoundAt, Comps, Located, Reversible, Without, KeptOutside, Caches;
      ghost var t, cache := server.tree, dirCache.cache;
      FoundIsLive(t, e, dir, id);
      FoundAtClean(t, e, dir, id);
      var reply := server.DeleteEntry(id, true, e);
      if reply.Refused? {
        return Err(ApiFailed), false;
      }
      ghost var x := Located(id).value;
      DeleteKeeps(t, x);
      if reply.Lost? {
        DirCached(t, e, cache, dir, x);
        DeleteUproots(t, e, x);
        StaleExactly(t, server.tree, e, cache, x);
        return Err(ApiFailed), true;
      }
      FlushKeeps(t, server.tree, e, cache, dir, x);
      dirCache.FlushDir(dir);
      r, lost := Ok(()), false;
    }

    method RelocateEntry(
        id: string, srcParentID: string, dstParentID: string, srcLeaf: string, dstLeaf: string, isDir: bool)
      returns (r: Result<string, Failure>, lost: bool, ghost moved: DocId)
      requires Reversible(e) && WellFormed(server.tree, e) && Part(dstLeaf)
      requires IsAt(server.tree, e, id, srcParentID, srcLeaf) && Located(dstParentID).Some?
      modifies server
      ensures WellFormed(server.tree, e)
      ensures lost ==> r.Err?
      ensures r.Err? ==> r.error == ApiFailed
      ensures r.Err? && !lost ==> server.tree == old(server.tree)
      ensures r.Ok? || lost ==> Relocation(
        old(server.tree), server.tree, e, Located(id).value, Located(dstParentID).value, dstLeaf, moved)
      ensures r.Ok? ==> r.value == IdString(moved)
      ensures server.faults >= old(server.faults)
      ensures server.faults == old(server.faults) && r.Err? ==>
        !MayRelocate(old(server.tree), e, Located(id).value, Located(dstParentID).value, dstLeaf, isDir)
      ensures r.Ok? && (isDir <==> IsDir(old(server.tree)[Located(id).value])) ==>
        MayRelocate(old(server.tree), e, Located(id).value, Located(dstParentID).value, dstLeaf, isDir)
    {
      hide WellFormed, Located, IdString, Relocated, Relocatable, Reversible, Storable, Renamed, NameFree, Folder;
      ghost var t, x := server.tree, Located(id).value;
      IdStringLocated(id);
      SameParent(t, e, id, srcParentID, srcLeaf, dstParentID);
      EncodedIsStorable(e, dstLeaf);
      AboveIsFolder(t, e, x);
      if srcParentID == dstParentID {
        if srcLeaf == dstLeaf {
          RenamedToItself(t, e, x);
          EncodingNames(t, e, x, dstLeaf);
          return Ok(id), false, x;
        }
        var reply := server.RenameEntry(id, e.enc(dstLeaf), isDir, e);
        r, lost, moved := if reply.Done? then Ok(id) else Err(ApiFailed), reply.Lost?, x;
        return;
      }
      var newName := if srcLeaf != dstLeaf then e.enc(dstLeaf) else "";
      EncodingNames(t, e, x, dstLeaf);
      var reply, to := server.MoveEntry(id, dstParentID, newName, isDir, e);
      if !reply.Refused? {
        RelocatableHas(t, x, to, e.enc(dstLeaf));
        RelocatableIsAcceptable(t, x, to, e.enc(dstLeaf));
      }
      r, lost, moved := if reply.Done? then Ok(reply.value) else Err(ApiFailed), reply.Lost?, to;
    }

    // `was` is the tree when the directory was moved: the destination's parents are made first.
    method DirMove(srcRemote: string, dstRemote: string)
      returns (r: Result<(), Failure>, lost: bool, ghost was: Tree, ghost id: DocId, ghost moved: DocId)
      requires Valid() && Relative(srcRemote) && Clean(dstRemote)
      modifies dirCache, server
      ensures WellFormed(server.tree, e) && (Coherent(server.tree, e, dirCache.cache) <==> !lost)
      ensures lost ==> r.Err?
      ensures MadeAlong(old(server.tree), was, e, Comps(SplitPath(dstRemote).0))
      ensures r.Err? && !lost ==> server.tree == was
      ensures r.Ok? || lost ==> MovedDir(was, server.tree, e, srcRemote, id, dstRemote, moved)
      // Nothing else is dropped from the cache.
      ensures forall p ::
        (p in old(dirCache.cache) && p != srcRemote && !(srcRemote + "/" <= p)
         && p != dstRemote && !(dstRemote + "/" <= p)) ==> p in dirCache.cache
      // Unless a call failed for no reason, the outcome is settled: the root cannot be moved; the
      // destination's parent must be there or be made; nothing may be at the destination and a
      // directory must be at the source; libraries are not moved, nor is anything made one; and the
      // server refuses a directory inside the moved one and a file's name.
      ensures server.faults >= old(server.faults)
      ensures server.faults == old(server.faults) ==>
        r == (if srcRemote == "" || dstRemote == "" then Err(CantDirMove)
              else if NoLibrary(old(server.tree), SplitPath(dstRemote).0) then Err(Protected)
              else if FileInTheWay(old(server.tree), e, SplitPath(dstRemote).0) then Err(ApiFailed)
              else if !Nowhere(was, e, dstRemote) then Err(DirExists)
              else if Nowhere(was, e, srcRemote) then Err(DirNotFound)
              else if |Comps(srcRemote)| == 1 || |Comps(dstRemote)| == 1 then Err(CantDirMove)
              else if Comps(srcRemote) <= Comps(SplitPath(dstRemote).0) then Err(ApiFailed)
              else if FileInTheWay(was, e, dstRemote) then Err(ApiFailed)
              else Ok(()))
    {
      hide WellFormed, Coherent, FoundAt, MadeAlong, Nowhere, Comps, Located, Reversible, Clean, Relocation, Flushed;
      hide MovedDir, LiveDir, IsAt, IdString, NoLibrary, FileInTheWay, MayRelocate;
      lost, was, id, moved := false, server.tree, [], [];
      var (dstDir, dstLeaf) := SplitPath(dstRemote);
      MadeAlongSame(was, e, Comps(dstDir));
      if srcRemote == "" || dstRemote == "" {
        r := Err(CantDirMove);
        return;
      }
      SplitClean(dstRemote);
      SplitRelative(dstRemote);
      SplitRelative(srcRemote);
      var (srcDir, srcLeaf) := SplitPath(srcRemote);
      var ends;
      ends, was := FindEnds(srcRemote, dstRemote);
      if ends.Err? {
        r := Err(ends.error);
        return;
      }
      var (src, srcParent, dstParent) := ends.value;
      RootExactlyAt(was, e, srcDir, srcParent);
      RootExactlyAt(was, e, dstDir, dstParent);
      if srcParent == VIRTUAL_ROOT_ID || dstParent == VIRTUAL_ROOT_ID {
        r := Err(CantDirMove);
        return;
      }
      FoundIsAt(was, e, srcRemote, src, srcParent);
      FoundIsFolder(was, e, srcRemote, src);
      LocatedWhenFound(was, e, dstDir, dstParent);
      NotALibrary(was, e, srcRemote, src, srcParent);
      id := Located(src).value;
      MayRelocateExactly(was, e, srcRemote, src, dstDir, dstParent, dstLeaf, dstRemote);
      ghost var cache := dirCache.cache;
      var relocated;
      relocated, lost, moved := RelocateEntry(src, srcParent, dstParent, srcLeaf, dstLeaf, true);
      if relocated.Ok? || lost {
        MoveLeavesCache(was, server.tree, e, cache, srcRemote, src, dstRemote, dstParent, moved);
      }
      if relocated.Err? {
        r := Err(relocated.error);
        return;
      }
      dirCache.FlushDir(srcRemote);
      FlushAgain(server.tree, e, dirCache.cache, dstRemote);
      dirCache.FlushDir(dstRemote);
      r := Ok(());
    }

    // The directory cache's part of a move: makes the destination's parents, makes sure nothing is
    // there, and finds the source, its parent and the destination's.
    method FindEnds(srcRemote: string, dstRemote: string)
      returns (r: Result<(string, string, string), Failure>, ghost was: Tree)
      requires Valid() && Relative(srcRemote) && srcRemote != "" && Clean(dstRemote) && dstRemote != ""
      modifies dirCache, server
      ensures Valid() && server.tree == was && MadeAlong(old(server.tree), was, e, Comps(SplitPath(dstRemote).0))
      ensures forall p :: p in old(dirCache.cache) ==> p in dirCache.cache
      ensures r.Ok? ==>
        && FoundAt(was, e, srcRemote, r.value.0) && srcRemote in dirCache.cache
        && FoundAt(was, e, SplitPath(srcRemote).0, r.value.1) && FoundAt(was, e, SplitPath(dstRemote).0, r.value.2)
        && Nowhere(was, e, dstRemote) && !Nowhere(was, e, srcRemote)
        && !NoLibrary(old(server.tree), SplitPath(dstRemote).0)
        && !FileInTheWay(old(server.tree), e, SplitPath(dstRemote).0)
      ensures server.faults >= old(server.faults)
      ensures server.faults == old(server.faults) && r.Err? ==>
        r.error == (if NoLibrary(old(server.tree), SplitPath(dstRemote).0) then Protected
                    else if FileInTheWay(old(server.tree), e, SplitPath(dstRemote).0) then ApiFailed
                    else if !Nowhere(was, e, dstRemote) then DirExists
                    else DirNotFound)
      ensures server.faults == old(server.faults) && r == Err(DirNotFound) ==> Nowhere(was, e, srcRemote)
    {
      hide WellFormed, Coherent, FoundAt, MadeAlong, Nowhere, Comps, Located, Reversible, Clean;
      hide NoLibrary, FileInTheWay, NotMakeable;
      ghost var t := server.tree;
      var (dstDir, dstLeaf) := SplitPath(dstRemote);
      SplitClean(dstRemote);
      SplitRelative(dstRemote);
      SplitRelative(srcRemote);
      if dstDir != "" {
        SplitClean(dstDir);
      }
      var dstParent := FindDir(dstDir, true);
      was := server.tree;
      if dstParent.Err? {
        NotMakeableWhy(t, e, dstDir, dstParent.error);
        r := Err(dstParent.error);
        return;
      }
      FoundExcludes(t, was, e, dstDir, dstParent.value);
      var existing := FindDir(dstRemote, false);
      if existing.Ok? {
        FoundIsSomewhere(was, e, dstRemote, existing.value);
        r := Err(DirExists);
        return;
      }
      if existing.error != DirNotFound {
        r := Err(existing.error);
        return;
      }
      var (srcDir, srcLeaf) := SplitPath(srcRemote);
      var srcParent := FindDir(srcDir, false);
      if srcParent.Err? {
        if srcParent.error == DirNotFound {
          NoParentNoChild(was, e, srcDir, srcLeaf, srcRemote);
        }
        r := Err(srcParent.error);
        return;
      }
      var src := FindDir(srcRemote, false);
      if src.Err? {
        r := Err(src.error);
        return;
      }
      FoundIsSomewhere(was, e, srcRemote, src.value);
      r := Ok((src.value, srcParent.value, dstParent.value));
    }

    // The source is named by ID alone, so a moved directory drops the whole cache.
    method SyncMove(id: string, dstRemote: string, isDir: bool)
      returns (r: Result<string, Failure>, lost: bool, ghost moved: DocId)
      requires Valid() && Relative(dstRemote)
      modifies dirCache, server
      ensures WellFormed(server.tree, e) && (lost ==> r.Err?)
      ensures r.Err? && !lost ==> server.tree == old(server.tree)
      ensures r.Ok? || lost ==>
        SyncMoved(old(server.tree), server.tree, e, id, dstRemote, isDir, moved)
      ensures r.Ok? ==> r.value == IdString(moved)
      ensures Coherent(server.tree, e, dirCache.cache) <==>
        (lost && isDir && server.tree != old(server.tree) ==> !Caches(dirCache.cache, Located(id).value))
      // Unless a call failed for no reason, it refuses missing arguments, a destination whose
      // parent is not there or the root, and an ID without a parent; the server refuses the rest.
      ensures server.faults >= old(server.faults)
      ensures server.faults == old(server.faults) ==>
        if id == "" || dstRemote == "" || SplitPath(dstRemote).1 == "" then r == Err(Malformed)
        else if Nowhere(old(server.tree), e, SplitPath(dstRemote).0) then r == Err(DirNotFound)
        else if SplitPath(dstRemote).0 == "" then r == Err(Protected)
        else if ParentDocID(id).None? then r == Err(Malformed)
        else if !MaySyncMove(old(server.tree), e, id, dstRemote, isDir) then r == Err(ApiFailed)
        else r.Ok?
    {
      hide WellFormed, Coherent, FoundAt, MadeAlong, Nowhere, Comps, Located, Reversible, Relocation, Caches, LiveDir;
      hide IdString, SyncMoved, Storable, Renamed, Relocated, Relocatable, Nowhere, MaySyncMove, NameFree, Folder;
      lost, moved := false, [];
      if id == "" || dstRemote == "" {
        return Err(Malformed), false, [];
      }
      SplitRelative(dstRemote);
      var (dstDir, dstLeaf) := SplitPath(dstRemote);
      if dstLeaf == "" {
        return Err(Malformed), false, [];
      }
      var dstParent := FindDir(dstDir, false);
      if dstParent.Err? {
        return Err(dstParent.error), false, [];
      }
      FoundIsSomewhere(server.tree, e, dstDir, dstParent.value);
      RootExactlyAt(server.tree, e, dstDir, dstParent.value);
      if dstParent.value == VIRTUAL_ROOT_ID {
        return Err(Protected), false, [];
      }
      var srcParent := ParentDocID(id);
      if srcParent.None? {
        return Err(Malformed), false, [];
      }
      ghost var t, cache := server.tree, dirCache.cache;
      LocatedWhenFound(t, e, dstDir, dstParent.value);
      EncodedIsStorable(e, dstLeaf);
      EncodedIsPart(e, dstLeaf);
      SyncMoveRefusals(t, e, id, dstRemote, dstParent.value, isDir);
      var reply: Reply<string>;
      if srcParent.value == dstParent.value {
        var renamed := server.RenameEntry(id, e.enc(dstLeaf), isDir, e);
        reply := match renamed case Done(_) => Done(id) case Refused => Refused case Lost => Lost;
        if !renamed.Refused? {
          moved := Located(id).value;
          IdStringLocated(id);
          RenamedIsSyncMoved(t, server.tree, e, id, dstRemote, dstParent.value, isDir);
        }
      } else {
        reply, moved := server.MoveEntry(id, dstParent.value, e.enc(dstLeaf), isDir, e);
        if !reply.Refused? {
          RelocatableIsAcceptable(t, Located(id).value, moved, e.enc(dstLeaf));
          MovedIsSyncMoved(t, server.tree, e, id, dstRemote, dstParent.value, isDir, moved);
        }
      }
      if reply.Refused? {
        return Err(ApiFailed), false, [];
      }
      SyncMoveLeavesCache(t, server.tree, e, cache, id, dstRemote, isDir, moved);
      if reply.Lost? {
        return Err(ApiFailed), true, moved;
      }
      if isDir {
        dirCache.Flush();
        EmptyCoherent(server.tree, e);
      }
      r := Ok(reply.value);
    }

    method SyncDeleteDir(id: string) returns (r: Result<(), Failure>, lost: bool)
      requires Valid()
      modifies dirCache, server
      ensures WellFormed(server.tree, e) && (lost ==> r.Err?)
      ensures r.Err? && !lost ==> server.tree == old(server.tree)
      ensures r.Ok? || lost ==> SyncDeleted(old(server.tree), server.tree, id)
      ensures Coherent(server.tree, e, dirCache.cache) <==> (lost ==> !Caches(dirCache.cache, Located(id).value))
      // Unless a call failed for no reason, it refuses IDs without a parent and what is not empty;
      // the server has no listing of what is not a directory.
      ensures server.faults >= old(server.faults)
      ensures server.faults == old(server.faults) ==>
        r == (if id == "" || ParentDocID(id).None? then Err(Malformed)
              else if Located(id).None? || Located(id).value !in old(server.tree)
                || !IsDir(old(server.tree)[Located(id).value]) then Err(ApiFailed)
              else if exists x :: x in old(server.tree) && x != [] && Above(x) == Located(id).value
              then Err(DirectoryNotEmpty)
              else Ok(()))
    {
      hide WellFormed, Coherent, Located, Lists, Caches, Without, Uprooted, KeptOutside, Reversible;
      if id != "" && ParentDocID(id).Some? {
        NotTheRoot(id);
      }
      lost := false;
      if id == "" || ParentDocID(id).None? {
        return Err(Malformed), false;
      }
      var listing := server.ListDir(id);
      if listing.None? {
        return Err(ApiFailed), false;
      }
      ListedChildren(server.tree, Located(id).value, listing.value);
      if |listing.value.dirs| != 0 || |listing.value.files| != 0 {
        return Err(DirectoryNotEmpty), false;
      }
      ghost var t, x := server.tree, Located(id).value;
      EmptyHasNothing(t, e, x, listing.value);
      var reply := server.DeleteEntry(id, true, e);
      if reply.Refused? {
        return Err(ApiFailed), false;
      }
      HasParent(t, e, id);
      DeleteKeeps(t, x);
      DeleteUproots(t, e, x);
      StaleExactly(t, server.tree, e, dirCache.cache, x);
      if reply.Lost? {
        return Err(ApiFailed), true;
      }
      dirCache.Flush();
      EmptyCoherent(server.tree, e);
      r := Ok(());
    }

    // Any history of these operations leaves the cache right, as long as each one succeeds or
    // leaves the server as it was; the run stops at the first whose reply is lost.
    method RunAll(ops: seq<Op>) returns (lost: bool)
      requires Valid() && forall i :: 0 <= i < |ops| ==> Allowed(ops[i])
      modifies dirCache, server
      ensures WellFormed(server.tree, e)
      ensures !lost ==> Coherent(server.tree, e, dirCache.cache)
    {
      hide WellFormed, Coherent, Nowhere, Reports, MadeAlong, Removed, MovedDir, SyncMoved, SyncDeleted, LiveDir;
      hide Caches, Clean;
      lost := false;
      for i := 0 to |ops|
        invariant Valid()
      {
        lost := RunOne(ops[i]);
        if lost {
          return;
        }
      }
    }

    method RunOne(op: Op) returns (lost: bool)
      requires Valid() && Allowed(op)
      modifies dirCache, server
      ensures WellFormed(server.tree, e) && (!lost ==> Coherent(server.tree, e, dirCache.cache))
    {
      hide WellFormed, Coherent, Nowhere, Reports, MadeAlong, Removed, MovedDir, SyncMoved, SyncDeleted, LiveDir;
      hide Caches, Clean;
      lost := false;
      match op
      case ListOp(dir) => var _ := List(dir);
      case MkdirOp(dir) => var _ := Mkdir(dir);
      case RmdirOp(dir) => var _, l := Rmdir(dir); lost := l;
      case PurgeOp(dir) => var _, l := Purge(dir); lost := l;
      case DirMoveOp(src, dst) => var _, l, _, _, _ := DirMove(src, dst); lost := l;
      case SyncMoveOp(id, dst, isDir) => var _, l, _ := SyncMove(id, dst, isDir); lost := l;
      case SyncDeleteDirOp(id) => var _, l := SyncDeleteDir(id); lost := l;
    }
  }

  datatype Op =
    | ListOp(dir: string)
    | MkdirOp(dir: string)
    | RmdirOp(dir: string)
    | PurgeOp(dir: string)
    | DirMoveOp(srcRemote: string, dstRemote: string)
    | SyncMoveOp(id: string, dstRemote: string, isDir: bool)
    | SyncDeleteDirOp(id: string)

  // Only clean paths are made into directories; any relative path may be looked up, any ID sent.
  predicate Allowed(op: Op) {
    match op
    case ListOp(dir) => Relative(dir)
    case MkdirOp(dir) => Clean(dir)
    case RmdirOp(dir) => Relative(dir)
    case PurgeOp(dir) => Relative(dir)
    case DirMoveOp(src, dst) => Relative(src) && Clean(dst)
    case SyncMoveOp(_, dst, _) => Relative(dst)
    case SyncDeleteDirOp(_) => true
  }

  // The directory that was at `src` is at `dst`, where there was none, under the ID `moved`.
  ghost predicate MovedDir(t: Tree, u: Tree, e: Encoder, src: string, id: DocId, dst: string, moved: DocId) {
    && LiveDir(t, e, Comps(src), id) && Nowhere(t, e, dst)
    && moved != [] && LiveDir(t, e, Comps(SplitPath(dst).0), Above(moved))
    && Relocation(t, u, e, id, Above(moved), SplitPath(dst).1, moved)
  }

  ghost predicate SyncMoved(t: Tree, u: Tree, e: Encoder, id: string, dst: string, isDir: bool, moved: DocId) {
    && Located(id).Some? && Located(id).value in t && (isDir <==> IsDir(t[Located(id).value]))
    && moved != [] && LiveDir(t, e, Comps(SplitPath(dst).0), Above(moved))
    && Relocation(t, u, e, Located(id).value, Above(moved), SplitPath(dst).1, moved)
  }

  // Only an empty directory below a library is deleted.
  ghost predicate SyncDeleted(t: Tree, u: Tree, id: string) {
    && Located(id).Some? && Located(id).value in t && |Located(id).value| >= 2 && IsDir(t[Located(id).value])
    && (forall x :: x in t && Located(id).value <= x ==> x == Located(id).value)
    && u == Without(t, Located(id).value)
  }

  lemma HasParent(t: Tree, e: Encoder, id: string)
    requires WellFormed(t, e) && Located(id).Some? && Located(id).value in t && ParentDocID(id).Some?
    ensures |Located(id).value| >= 2 && ParentDocID(id).value == IdString(Above(Located(id).value))
  {
    hide WellFormed, Located;
    EntryClean(t, e, Located(id).value);
    IdStringLocated(id);
    ParentOfEntry(Located(id).value);
  }

  lemma EmptyCoherent(t: Tree, e: Encoder)
    ensures Coherent(t, e, map[])
  {
  }

  lemma EncodedIsPart(e: Encoder, leaf: string)
    requires Reversible(e) && Part(leaf)
    ensures Part(e.enc(leaf)) && e.enc(leaf) != ""
  {
    assert e.dec(e.enc(leaf)) == leaf;
  }

  lemma SameParent(t: Tree, e: Encoder, id: string, parent: string, leaf: string, other: string)
    requires WellFormed(t, e) && IsAt(t, e, id, parent, leaf) && Located(other).Some?
    ensures (parent == other) <==> (Located(other).value == Above(Located(id).value))
  {
    hide WellFormed, Located, IdString;
    var x := Located(id).value;
    EntryClean(t, e, x);
    LocatedIdString(Above(x));
    IdStringLocated(other);
  }

  lemma RenamedToItself(t: Tree, e: Encoder, x: DocId)
    requires WellFormed(t, e) && x in t && |x| >= 2
    ensures Relocation(t, t, e, x, Above(x), Shown(t, e, x), x)
  {
    var name := e.enc(Shown(t, e, x));
    assert t[x].(name := name) == t[x];
    assert t[x := t[x]] == t;
  }

  lemma EncodingNames(t: Tree, e: Encoder, x: DocId, leaf: string)
    requires WellFormed(t, e) && Reversible(e) && x in t && |x| >= 2 && Part(leaf)
    ensures e.enc(leaf) != ""
    ensures Shown(t, e, x) == leaf ==> t[x].name == e.enc(leaf)
  {
    EncodedIsPart(e, leaf);
  }

  lemma FoundIsAt(t: Tree, e: Encoder, path: string, s: string, parent: string)
    requires WellFormed(t, e) && path != "" && Relative(path) && FoundAt(t, e, path, s)
    requires FoundAt(t, e, SplitPath(path).0, parent) && parent != VIRTUAL_ROOT_ID
    ensures IsAt(t, e, s, parent, SplitPath(path).1)
  {
    hide WellFormed, Located, IdString, Comps;
    NotALibrary(t, e, path, s, parent);
    var (dir, leaf) := SplitPath(path);
    SplitRelative(path);
    var x := Located(s).value;
    assert Above(Comps(path)) == Comps(dir) && Last(Comps(path)) == leaf;
    LeadsToOne(t, e, Comps(dir), Above(x), Located(parent).value);
    IdStringLocated(parent);
  }

  // A directory that was moved is not where it was.
  lemma MovedIsNotKept(t: Tree, u: Tree, e: Encoder, id: DocId, dst: string, moved: DocId, src: string)
    requires WellFormed(t, e) && Reversible(e) && MovedDir(t, u, e, src, id, dst, moved) && dst != "" && Relative(dst)
    ensures u != t
  {
    hide WellFormed, Relocated, Relocatable, Comps;
    var (dir, leaf) := SplitPath(dst);
    RelocationEffects(t, u, e, id, Above(moved), leaf, moved);
    if Above(moved) == Above(id) {
      SplitRelative(dst);
      assert id == Above(id) + [Last(id)];
      LeadsOne(t, e, Comps(dir), leaf, Above(id), Last(id));
      assert !LiveDir(t, e, Comps(dst), id);
      assert e.dec(e.enc(leaf)) == leaf;
      assert u[id].name == e.enc(leaf);
    }
  }

  lemma MoveLeavesCache(
      t: Tree, u: Tree, e: Encoder, cache: Cache, src: string, s: string, dst: string, d: string, moved: DocId)
    requires WellFormed(t, e) && Reversible(e) && Coherent(t, e, cache) && src in cache
    requires FoundAt(t, e, src, s) && Nowhere(t, e, dst) && dst != "" && Relative(dst)
    requires FoundAt(t, e, SplitPath(dst).0, d)
    requires Relocation(t, u, e, Located(s).value, Located(d).value, SplitPath(dst).1, moved)
    ensures MovedDir(t, u, e, src, Located(s).value, dst, moved)
    ensures Coherent(u, e, Flushed(cache, src)) && !Coherent(u, e, cache)
  {
    RelocationBasics(t, u, e, Located(s).value, Located(d).value, SplitPath(dst).1, moved);
    hide WellFormed, Coherent, Relocation, Comps, Located, Nowhere, Reversible, Leads, Folder, KeptOutside, Uprooted;
    hide Caches;
    var id := Located(s).value;
    MovedIsNotKept(t, u, e, id, dst, moved, src);
    RelocationEffects(t, u, e, id, Located(d).value, SplitPath(dst).1, moved);
    FlushKeeps(t, u, e, cache, src, id);
    DirCached(t, e, cache, src, id);
    StaleExactly(t, u, e, cache, id);
  }

  lemma RelocationBasics(t: Tree, u: Tree, e: Encoder, id: DocId, dst: DocId, leaf: string, moved: DocId)
    requires Relocation(t, u, e, id, dst, leaf, moved)
    ensures id in t && |id| >= 2 && moved != [] && Above(moved) == dst
  {
  }

  lemma RenamedIsSyncMoved(t: Tree, u: Tree, e: Encoder, id: string, dst: string, d: string, isDir: bool)
    requires WellFormed(t, e) && dst != "" && FoundAt(t, e, SplitPath(dst).0, d)
    requires Located(id).Some? && Located(id).value in t && |Located(id).value| >= 2
    requires isDir <==> IsDir(t[Located(id).value])
    requires ParentDocID(id) == Some(d)
    requires u == Renamed(t, Located(id).value, e.enc(SplitPath(dst).1))
    ensures SyncMoved(t, u, e, id, dst, isDir, Located(id).value)
  {
    hide WellFormed, Located, IdString, Leads, Comps;
    HasParent(t, e, id);
    var x := Located(id).value;
    EntryClean(t, e, x);
    LocatedIdString(Above(x));
  }

  lemma MovedIsSyncMoved(
      t: Tree, u: Tree, e: Encoder, id: string, dst: string, d: string, isDir: bool, moved: DocId)
    requires WellFormed(t, e) && dst != "" && FoundAt(t, e, SplitPath(dst).0, d)
    requires Located(id).Some? && Located(id).value in t && (isDir <==> IsDir(t[Located(id).value]))
    requires ParentDocID(id).Some? && ParentDocID(id) != Some(d)
    requires Relocatable(t, Located(id).value, moved, e.enc(SplitPath(dst).1)) && Located(d) == Some(Above(moved))
    requires u == Relocated(t, Located(id).value, moved, e.enc(SplitPath(dst).1))
    ensures SyncMoved(t, u, e, id, dst, isDir, moved)
  {
    hide WellFormed, Located, IdString, Leads, Comps, Relocated;
    HasParent(t, e, id);
    IdStringLocated(d);
  }

  // A file is never at or above a live directory, so never at or above a cached one.
  lemma FileHoldsNothing(t: Tree, id: DocId, x: DocId)
    requires Placed(t) && id in t && !IsDir(t[id]) && Folder(t, x)
    ensures !(id <= x)
  {
    if |id| < |x| {
      AncestorsAreFolders(t, x, |id|);
      var head := x[..|id|];
      assert id <= x ==> head == id;
    }
    assert |id| == |x| && id <= x ==> id == x;
    assert id != [];
  }

  lemma FilesAreNotCached(t: Tree, e: Encoder, cache: Cache, id: DocId)
    requires WellFormed(t, e) && Coherent(t, e, cache) && id in t && !IsDir(t[id])
    ensures !Caches(cache, id)
  {
    hide Located, Comps, Leads, Placed, Named, Distinct, Folder;
    forall p | p in cache
      ensures !(id <= Located(cache[p]).value)
    {
      FileHoldsNothing(t, id, Located(cache[p]).value);
    }
  }

  lemma SyncMoveLeavesCache(
      t: Tree, u: Tree, e: Encoder, cache: Cache, id: string, dst: string, isDir: bool, moved: DocId)
    requires WellFormed(t, e) && Reversible(e) && Coherent(t, e, cache) && SyncMoved(t, u, e, id, dst, isDir, moved)
    ensures Coherent(u, e, cache) <==> (isDir && u != t ==> !Caches(cache, Located(id).value))
  {
    hide WellFormed, Coherent, Relocation, Located, Reversible, LiveDir, KeptOutside, Uprooted, Caches;
    var x := Located(id).value;
    RelocationBasics(t, u, e, x, Above(moved), SplitPath(dst).1, moved);
    RelocationEffects(t, u, e, x, Above(moved), SplitPath(dst).1, moved);
    if !isDir {
      FilesAreNotCached(t, e, cache, x);
    }
    if u != t {
      StaleExactly(t, u, e, cache, x);
    }
  }

  // The entry `id` hangs under that parent by that name.
  ghost predicate IsAt(t: Tree, e: Encoder, id: string, parent: string, leaf: string) {
    Located(id).Some?
    && var x := Located(id).value;
      x in t && |x| >= 2 && parent == IdString(Above(x)) && Shown(t, e, x) == leaf
  }

  datatype DirEntry = DirEntry(remote: string, item: Item)

  // The entries are exactly the children of the directory, under their shown names.
  ghost predicate Reports(t: Tree, e: Encoder, dir: string, id: DocId, entries: seq<DirEntry>) {
    && (forall en :: en in entries ==>
          exists x :: x in t && x != [] && Above(x) == id && en == EntryOf(t, e, dir, x))
    && (forall x :: x in t && x != [] && Above(x) == id ==> EntryOf(t, e, dir, x) in entries)
  }

  function EntryOf(t: Tree, e: Encoder, dir: string, x: DocId): DirEntry
    requires x in t
  {
    DirEntry(JoinPath(dir, Shown(t, e, x)), Item(IdString(x), t[x]))
  }

  function Entries(e: Encoder, dir: string, library: bool, items: seq<Item>): seq<DirEntry> {
    seq(|items|, i requires 0 <= i < |items| => DirEntry(JoinPath(dir, ListedName(e, library, items[i])), items[i]))
  }

  lemma EntriesOfDirs(e: Encoder, dir: string, library: bool, t: Tree, id: DocId, l: Listing)
    requires Lists(t, id, l)
    ensures forall en :: en in Entries(e, dir, library, l.dirs + l.files) && IsDir(en.item.node) ==>
      exists j :: 0 <= j < |l.dirs| && en.remote == JoinPath(dir, ListedName(e, library, l.dirs[j]))
  {
    hide JoinPath, Describes;
    var items := l.dirs + l.files;
    var entries := Entries(e, dir, library, items);
    forall i | 0 <= i < |entries| && IsDir(entries[i].item.node)
      ensures exists j :: 0 <= j < |l.dirs| && entries[i].remote == JoinPath(dir, ListedName(e, library, l.dirs[j]))
    {
      assert items[i] !in l.files;
      assert i < |l.dirs| && items[i] == l.dirs[i];
    }
  }

  lemma ListingReports(t: Tree, e: Encoder, dir: string, id: DocId, l: Listing)
    requires Lists(t, id, l)
    ensures Reports(t, e, dir, id, Entries(e, dir, id == [], l.dirs + l.files))
  {
    hide IdString, JoinPath;
    var items := l.dirs + l.files;
    var entries := Entries(e, dir, id == [], items);
    forall i | 0 <= i < |entries|
      ensures exists x :: x in t && x != [] && Above(x) == id && entries[i] == EntryOf(t, e, dir, x)
    {
      assert items[i] in l.dirs || items[i] in l.files;
      assert Describes(t, id, items[i]);
      var x :| x in t && x != [] && Above(x) == id && items[i] == Item(IdString(x), t[x]);
      assert entries[i] == EntryOf(t, e, dir, x);
    }
    forall x | x in t && x != [] && Above(x) == id
      ensures EntryOf(t, e, dir, x) in entries
    {
      assert Item(IdString(x), t[x]) in items;
      var i :| 0 <= i < |items| && items[i] == Item(IdString(x), t[x]);
      assert entries[i] == EntryOf(t, e, dir, x);
    }
  }

  lemma ListedFound(t: Tree, e: Encoder, dir: string, d: string, l: Listing, it: Item)
    requires WellFormed(t, e) && FoundAt(t, e, dir, d) && Lists(t, Located(d).value, l) && it in l.dirs
    ensures var remote := JoinPath(dir, ListedName(e, Located(d).value == [], it));
      remote != "" && FoundAt(t, e, remote, it.docID)
  {
    hide FoundAt, Lists, Located, ListedName, JoinPath, Comps, Clean, WellFormed;
    LocatedWhenFound(t, e, dir, d);
    var id := Located(d).value;
    var leaf := ListedName(e, id == [], it);
    FoundAtClean(t, e, dir, d);
    ListedChild(t, e, id, l, it, leaf);
    EntryClean(t, e, Located(it.docID).value);
    JoinPathComps(dir, leaf);
    FoundChild(t, e, dir, d, leaf, it.docID, JoinPath(dir, leaf));
  }

  // The directory at `dir` and everything in it is gone, and nothing else is.
  ghost predicate Removed(t: Tree, u: Tree, e: Encoder, dir: string, id: DocId) {
    LiveDir(t, e, Comps(dir), id) && id != [] && u == Without(t, id)
  }

  lemma ChildBetween(t: Tree, id: DocId, x: DocId)
    requires Placed(t) && x in t && id <= x && |id| < |x|
    ensures x[..|id| + 1] in t && Above(x[..|id| + 1]) == id
  {
    var n := |id| + 1;
    if n < |x| {
      AncestorsAreFolders(t, x, n);
    } else {
      assert x[..n] == x;
    }
  }

  lemma EmptyHasNothing(t: Tree, e: Encoder, id: DocId, l: Listing)
    requires WellFormed(t, e) && Lists(t, id, l) && l.dirs == [] && l.files == []
    ensures forall x :: x in t && id <= x ==> x == id
  {
    hide IdString, Describes;
    forall x | x in t && id <= x
      ensures x == id
    {
      if |id| < |x| {
        ChildBetween(t, id, x);
      }
    }
  }

  lemma NotALibrary(t: Tree, e: Encoder, dir: string, s: string, above: string)
    requires WellFormed(t, e) && dir != "" && Relative(dir) && FoundAt(t, e, dir, s)
    requires FoundAt(t, e, SplitPath(dir).0, above) && above != VIRTUAL_ROOT_ID
    ensures |Located(s).value| >= 2
  {
    hide WellFormed, Located;
    RootExactly(above);
    SplitRelative(dir);
    LeadsLength(t, e, Comps(SplitPath(dir).0), Located(above).value);
    LeadsLength(t, e, Comps(dir), Located(s).value);
  }

  lemma DirCached(t: Tree, e: Encoder, cache: Cache, dir: string, x: DocId)
    requires WellFormed(t, e) && Coherent(t, e, cache) && dir in cache && LiveDir(t, e, Comps(dir), x)
    ensures Caches(cache, x)
  {
    hide Leads, Comps, Located, WellFormed;
    LeadsToOne(t, e, Comps(dir), x, Located(cache[dir]).value);
  }

  lemma DeleteUproots(t: Tree, e: Encoder, id: DocId)
    requires id in t
    ensures Uprooted(t, Without(t, id), e, id)
  {
  }

  lemma ListedChild(t: Tree, e: Encoder, dir: DocId, l: Listing, it: Item, leaf: string)
    requires WellFormed(t, e) && Lists(t, dir, l) && it in l.dirs && ListedName(e, dir == [], it) == leaf
    ensures ChildDir(t, e, dir, leaf, it.docID)
  {
    var x :| x in t && x != [] && Above(x) == dir && it == Item(IdString(x), t[x]);
    LocatedIdString(x);
  }

  lemma NoneListed(t: Tree, e: Encoder, dir: DocId, l: Listing, leaf: string)
    requires Lists(t, dir, l)
    requires forall j :: 0 <= j < |l.dirs| ==> ListedName(e, dir == [], l.dirs[j]) != leaf
    ensures NoChildDir(t, e, dir, leaf)
  {
    hide IdString, Describes;
    forall x | x in t && x != [] && Above(x) == dir && IsDir(t[x])
      ensures Shown(t, e, x) != leaf
    {
      var it := Item(IdString(x), t[x]);
      assert it in l.dirs;
      var j :| 0 <= j < |l.dirs| && l.dirs[j] == it;
    }
  }

  lemma MadeAlongSame(t: Tree, e: Encoder, path: seq<string>)
    ensures MadeAlong(t, t, e, path)
  {
  }

  lemma RootFound(t: Tree, e: Encoder)
    ensures FoundAt(t, e, "", VIRTUAL_ROOT_ID)
  {
  }

  lemma CachedFound(t: Tree, e: Encoder, cache: Cache, path: string)
    requires Coherent(t, e, cache) && path in cache
    ensures FoundAt(t, e, path, cache[path])
  {
  }

  lemma LocatedWhenFound(t: Tree, e: Encoder, path: string, s: string)
    requires FoundAt(t, e, path, s)
    ensures Located(s).Some?
  {
  }

  lemma FoundIsLive(t: Tree, e: Encoder, path: string, s: string)
    requires FoundAt(t, e, path, s)
    ensures Located(s).Some? && LiveDir(t, e, Comps(path), Located(s).value)
  {
  }

  lemma GrewFound(t: Tree, u: Tree, e: Encoder, path: string, s: string)
    requires Grew(t, u) && FoundAt(t, e, path, s)
    ensures FoundAt(u, e, path, s)
  {
    GrewLeads(t, u, e, Comps(path), Located(s).value);
  }

  lemma PutKeeps(t: Tree, e: Encoder, cache: Cache, path: string, s: string)
    requires Coherent(t, e, cache) && path != "" && FoundAt(t, e, path, s)
    ensures Coherent(t, e, cache[path := s])
  {
    hide FoundAt;
  }
}
