/**
 Looking an entry up by one query for its whole path, filling the directory cache from the
 cumulative ID in the answer, and when that agrees with going down the tree by listings.
 */
module PointLookup {
  import opened Basics
  import opened Paths
  import opened ServerTree
  import opened CacheCoherence
  import opened ServerApi
  import opened DirectoryFs

  datatype Outcome = Object(id: string, node: Node) | ObjectNotFound | IsADirectory

  // --- Paths as the server stores them ---------------------------------------------------------

  // The first component is a library's own name; the others are encoded.
  function StoredNames(e: Encoder, parts: seq<string>): seq<string> {
    seq(|parts|, i requires 0 <= i < |parts| => if i == 0 then parts[0] else e.enc(parts[i]))
  }

  function FullPath(root: string, remote: string): string {
    if remote == "" then root else JoinPath(root, remote)
  }

  method EncodedNamePath(e: Encoder, root: string, remote: string) returns (r: string)
    requires Reversible(e) && Clean(root) && Clean(remote)
    ensures Comps(r) == StoredNames(e, Comps(root) + Comps(remote))
    ensures r == "" <==> root == "" && remote == ""
  {
    FullPathComps(root, remote);
    hide JoinPath, Split, Join;
    var full := FullPath(root, remote);
    if full == "" {
      return "";
    }
    var parts := Split(full);
    var n := |parts|;
    for i := 1 to n
      invariant |parts| == n
      invariant forall j :: 0 <= j < i ==> parts[j] == StoredNames(e, Split(full))[j]
      invariant forall j :: i <= j < n ==> parts[j] == Split(full)[j]
    {
      parts := parts[i := e.enc(parts[i])];
    }
    assert parts == StoredNames(e, Comps(full));
    StoredNamesAreParts(e, Comps(full));
    CompsOfJoin(parts);
    r := Join(parts);
  }

  lemma FullPathComps(root: string, remote: string)
    requires Clean(root) && Clean(remote)
    ensures Clean(FullPath(root, remote)) && Comps(FullPath(root, remote)) == Comps(root) + Comps(remote)
    ensures FullPath(root, remote) == "" <==> root == "" && remote == ""
  {
    if root != "" && remote != "" {
      hide Split, Join;
      JoinSplit(root);
      JoinSplit(remote);
      JoinConcat(Comps(root), Comps(remote));
      CompsOfJoin(Comps(root) + Comps(remote));
    }
  }

  lemma EmptyAddsNothing(path: string)
    ensures Clean("") && Comps("") + Comps(path) == Comps(path) == Comps(path) + Comps("")
  {
  }

  lemma {:induction false} JoinConcat(a: seq<string>, b: seq<string>)
    requires a != [] && b != []
    ensures Join(a + b) == Join(a) + "/" + Join(b)
    decreases |b|
  {
    var n := |b| - 1;
    assert (a + b)[..|a + b| - 1] == a + b[..n];
    if n > 0 {
      JoinConcat(a, b[..n]);
      assert Join(a) + "/" + (Join(b[..n]) + "/" + b[n]) == (Join(a) + "/" + Join(b[..n])) + "/" + b[n];
    } else {
      assert b[..n] == [] && a + [] == a;
    }
  }

  lemma StoredNamesAreParts(e: Encoder, parts: seq<string>)
    requires Reversible(e) && Parts(parts)
    ensures Parts(StoredNames(e, parts))
  {
  }

  lemma StoredNamesAbove(e: Encoder, path: seq<string>)
    requires |path| >= 2
    ensures Above(StoredNames(e, path)) == StoredNames(e, Above(path))
    ensures Last(StoredNames(e, path)) == e.enc(Last(path))
  {
  }

  // Going down by the stored names leads where going down by the shown names does.
  lemma {:induction false} StoredMatchesShown(t: Tree, e: Encoder, path: seq<string>, id: DocId)
    requires WellFormed(t, e) && Reversible(e) && path != []
    ensures StoredAt(t, StoredNames(e, path), id) <==> Leads(t, e, path, id)
    decreases |path|
  {
    hide StoredNames, WellFormed, Reversible;
    assert |StoredNames(e, path)| == |path| by { StoredNamesSize(e, path); }
    if |path| == |id| && id in t {
      NameMatches(t, e, id, Last(path));
      if |path| == 1 {
        StoredNamesSize(e, path);
      } else {
        StoredMatchesShown(t, e, Above(path), Above(id));
        StoredNamesAbove(e, path);
      }
    }
  }

  lemma StoredNamesSize(e: Encoder, path: seq<string>)
    ensures |StoredNames(e, path)| == |path|
    ensures |path| == 1 ==> StoredNames(e, path) == path
  {
  }

  lemma NameMatches(t: Tree, e: Encoder, id: DocId, leaf: string)
    requires WellFormed(t, e) && Reversible(e) && id in t
    ensures |id| >= 2 ==> (t[id].name == e.enc(leaf) <==> Shown(t, e, id) == leaf)
    ensures |id| == 1 ==> Shown(t, e, id) == t[id].name
  {
    assert e.dec(e.enc(leaf)) == leaf;
  }

  // --- One query against listings ----------------------------------------------------------------

  ghost predicate EntryAt(t: Tree, e: Encoder, path: seq<string>, x: DocId) {
    x != [] && Leads(t, e, path, x)
  }

  // What plain traversal finds at a path.
  ghost function Plain(t: Tree, e: Encoder, path: seq<string>): Outcome {
    if x :| EntryAt(t, e, path, x) then OutcomeOf(t, x) else ObjectNotFound
  }

  function OutcomeOf(t: Tree, x: DocId): Outcome
    requires x in t
  {
    if IsDir(t[x]) then IsADirectory else Object(IdString(x), t[x])
  }

  function ItemOutcome(it: Item): Outcome {
    if IsDir(it.node) then IsADirectory else Object(it.docID, it.node)
  }

  lemma PlainIs(t: Tree, e: Encoder, path: seq<string>, x: DocId)
    requires WellFormed(t, e) && EntryAt(t, e, path, x)
    ensures x in t && Plain(t, e, path) == OutcomeOf(t, x)
  {
    hide WellFormed;
    forall y | EntryAt(t, e, path, y)
      ensures y == x
    {
      LeadsToOne(t, e, path, x, y);
    }
  }

  method NewObjectByPath(f: Fs, remote: string) returns (r: Option<Outcome>)
    requires f.Valid() && Clean(remote)
    modifies f.server`faults
    ensures r.Some? ==> remote != "" && r.value == Plain(f.server.tree, f.e, Comps(remote))
    // It settles the matter unless the path is empty or the query failed.
    ensures r.None? ==> remote == "" || f.server.faults > old(f.server.faults)
    ensures r.Some? || remote == "" ==> f.server.faults == old(f.server.faults)
  {
    hide WellFormed, Coherent, Reversible, Comps, Located, IdString, StoredNames, StoredAt, Plain, Clean;
    EmptyAddsNothing(remote);
    var namePath := EncodedNamePath(f.e, "", remote);
    if namePath == "" {
      return None;
    }
    var meta := f.server.GetInfoByPath(namePath);
    NonEmptySplits(namePath);
    EmptyComps(remote);
    ghost var t, path := f.server.tree, Comps(remote);
    match meta
    case Unknown =>
      r := None;
    case Absent =>
      NoneStored(t, f.e, path);
      r := Some(ObjectNotFound);
    case Present(item) =>
      ghost var x :| x != [] && x in t && StoredAt(t, Split(namePath), x) && item == Item(IdString(x), t[x]);
      StoredMatchesShown(t, f.e, path, x);
      PlainIs(t, f.e, path, x);
      r := Some(ItemOutcome(item));
  }

  lemma NoneStored(t: Tree, e: Encoder, path: seq<string>)
    requires WellFormed(t, e) && Reversible(e) && path != []
    requires forall x :: x != [] ==> !StoredAt(t, StoredNames(e, path), x)
    ensures Plain(t, e, path) == ObjectNotFound
  {
    hide WellFormed, Reversible, StoredNames, StoredAt, Plain;
    forall x
      ensures !EntryAt(t, e, path, x)
    {
      StoredMatchesShown(t, e, path, x);
    }
    PlainNowhere(t, e, path);
  }

  lemma PlainNowhere(t: Tree, e: Encoder, path: seq<string>)
    requires forall x :: !EntryAt(t, e, path, x)
    ensures Plain(t, e, path) == ObjectNotFound
  {
  }

  lemma NonEmptySplits(s: string)
    requires s != ""
    ensures Comps(s) == Split(s)
  {
  }

  // The recovery route: find the parent directory and look through its listing.
  method NewObjectByListing(f: Fs, remote: string) returns (r: Result<Outcome, Failure>)
    requires f.Valid() && Clean(remote)
    modifies f.dirCache, f.server
    ensures f.Valid() && f.server.tree == old(f.server.tree)
    ensures r.Ok? ==> r.value == Listed(f.server.tree, f.e, Comps(remote))
    ensures r.Err? ==> f.server.faults > old(f.server.faults)
    ensures f.server.faults >= old(f.server.faults)
    ensures |Comps(remote)| <= 1 ==> r == Ok(ObjectNotFound)
  {
    hide WellFormed, Coherent, FoundAt, Reversible, Comps, Located, Lists, ListedName, Plain, MadeAlong, Nowhere, Clean;
    EmptyComps(remote);
    var (dir, leaf) := SplitPath(remote);
    SplitForLookup(remote);
    EmptyComps(dir);
    var parent := f.FindDir(dir, false);
    ghost var t, path := f.server.tree, Comps(remote);
    if parent.Err? {
      if parent.error == DirNotFound {
        if remote != "" {
          NoDirNoEntry(t, f.e, dir, leaf, remote);
        }
        return Ok(ObjectNotFound);
      }
      return Err(parent.error);
    }
    LocatedWhenFound(t, f.e, dir, parent.value);
    FoundAtClean(t, f.e, dir, parent.value);
    RootExactly(parent.value);
    FoundIsFolder(t, f.e, dir, parent.value);
    if parent.value == VIRTUAL_ROOT_ID {
      return Ok(ObjectNotFound);
    }
    var listing := f.server.ListDir(parent.value);
    if listing.None? {
      return Err(ApiFailed);
    }
    var found := SearchListing(f.e, listing.value, leaf, t, dir, parent.value, remote);
    r := Ok(found);
  }

  // Files first, then directories; the ghost parameters say what was listed.
  method SearchListing(
      e: Encoder, l: Listing, leaf: string, ghost t: Tree, ghost dir: string, ghost d: string, ghost path: string)
    returns (r: Outcome)
    requires WellFormed(t, e) && FoundAt(t, e, dir, d) && Located(d).value != [] && Lists(t, Located(d).value, l)
    requires Comps(path) == Comps(dir) + [leaf]
    ensures r == Plain(t, e, Comps(path))
  {
    hide WellFormed, FoundAt, Comps, Located, Lists, ListedName, Plain;
    for i := 0 to |l.files|
      invariant forall j :: 0 <= j < i ==> ListedName(e, false, l.files[j]) != leaf
    {
      if ListedName(e, false, l.files[i]) == leaf {
        ListedEntry(t, e, dir, d, l, l.files[i], leaf, path);
        return Object(l.files[i].docID, l.files[i].node);
      }
    }
    for i := 0 to |l.dirs|
      invariant forall j :: 0 <= j < i ==> ListedName(e, false, l.dirs[j]) != leaf
    {
      if ListedName(e, false, l.dirs[i]) == leaf {
        ListedEntry(t, e, dir, d, l, l.dirs[i], leaf, path);
        return IsADirectory;
      }
    }
    NotListed(t, e, dir, d, l, leaf, path);
    r := ObjectNotFound;
  }

  lemma SplitForLookup(remote: string)
    requires Clean(remote)
    ensures Relative(SplitPath(remote).0) && (remote == "" ==> SplitPath(remote).0 == "")
    ensures remote != "" ==> Comps(remote) == Comps(SplitPath(remote).0) + [SplitPath(remote).1]
  {
    if remote != "" {
      SplitClean(remote);
      SplitRelative(remote);
    }
  }

  lemma NoDirNoEntry(t: Tree, e: Encoder, dir: string, leaf: string, path: string)
    requires WellFormed(t, e) && Nowhere(t, e, dir) && Comps(path) == Comps(dir) + [leaf]
    ensures Plain(t, e, Comps(path)) == ObjectNotFound
  {
    hide Plain, Comps;
    forall x
      ensures !EntryAt(t, e, Comps(path), x)
    {
      assert Above(Comps(path)) == Comps(dir);
      if x in t {
        ParentIsFolder(t, x);
        assert !LiveDir(t, e, Comps(dir), Above(x));
      }
    }
    PlainNowhere(t, e, Comps(path));
  }

  lemma ListedEntry(t: Tree, e: Encoder, dir: string, d: string, l: Listing, it: Item, leaf: string, path: string)
    requires WellFormed(t, e) && FoundAt(t, e, dir, d) && Located(d).value != [] && Lists(t, Located(d).value, l)
    requires it in l.files + l.dirs && ListedName(e, false, it) == leaf && Comps(path) == Comps(dir) + [leaf]
    ensures Plain(t, e, Comps(path)) == ItemOutcome(it)
    ensures it in l.files ==> !IsDir(it.node)
    ensures it in l.dirs ==> IsDir(it.node)
  {
    hide WellFormed, Plain, IdString, Comps, Located;
    assert Describes(t, Located(d).value, it);
    var x :| x in t && x != [] && Above(x) == Located(d).value && it == Item(IdString(x), t[x]);
    assert x == Above(x) + [Last(x)];
    LeadsOne(t, e, Comps(dir), leaf, Above(x), Last(x));
    PlainIs(t, e, Comps(path), x);
  }

  lemma NotListed(t: Tree, e: Encoder, dir: string, d: string, l: Listing, leaf: string, path: string)
    requires WellFormed(t, e) && FoundAt(t, e, dir, d) && Located(d).value != [] && Lists(t, Located(d).value, l)
    requires forall j :: 0 <= j < |l.files| ==> ListedName(e, false, l.files[j]) != leaf
    requires forall j :: 0 <= j < |l.dirs| ==> ListedName(e, false, l.dirs[j]) != leaf
    requires Comps(path) == Comps(dir) + [leaf]
    ensures Plain(t, e, Comps(path)) == ObjectNotFound
  {
    hide WellFormed, Plain, IdString, Comps, Located;
    forall x
      ensures !EntryAt(t, e, Comps(path), x)
    {
      if EntryAt(t, e, Comps(path), x) {
        assert Above(Comps(path)) == Comps(dir) && Last(Comps(path)) == leaf;
        LeadsToOne(t, e, Comps(dir), Above(x), Located(d).value);
        NamedInListing(t, e, Above(x), x, l, leaf);
      }
    }
    PlainNowhere(t, e, Comps(path));
  }

  lemma NamedInListing(t: Tree, e: Encoder, dir: DocId, x: DocId, l: Listing, leaf: string)
    requires Lists(t, dir, l) && dir != [] && x in t && x != [] && Above(x) == dir && Shown(t, e, x) == leaf
    ensures (exists j :: 0 <= j < |l.files| && ListedName(e, false, l.files[j]) == leaf)
      || (exists j :: 0 <= j < |l.dirs| && ListedName(e, false, l.dirs[j]) == leaf)
  {
    hide IdString, Describes;
    var it := Item(IdString(x), t[x]);
    assert ListedName(e, false, it) == leaf;
    if IsDir(t[x]) {
      var j :| 0 <= j < |l.dirs| && l.dirs[j] == it;
    } else {
      var j :| 0 <= j < |l.files| && l.files[j] == it;
    }
  }

  // The query first, listings when it did not settle the matter.
  method NewObject(f: Fs, remote: string) returns (r: Result<Outcome, Failure>)
    requires f.Valid() && Clean(remote)
    modifies f.dirCache, f.server
    ensures f.Valid() && f.server.tree == old(f.server.tree)
    ensures r.Ok? && |Comps(remote)| != 1 ==> r.value == Plain(f.server.tree, f.e, Comps(remote))
    ensures r.Ok? && |Comps(remote)| == 1 ==>
      r.value == ObjectNotFound || r.value == Plain(f.server.tree, f.e, Comps(remote))
    // It fails only when both routes did; without a failed call even one component is looked up.
    ensures r.Err? ==> f.server.faults >= old(f.server.faults) + 2
    ensures f.server.faults == old(f.server.faults) ==> r == Ok(Plain(f.server.tree, f.e, Comps(remote)))
  {
    hide WellFormed, Coherent, Reversible, Comps, Plain, Clean;
    EmptyComps(remote);
    var fast := NewObjectByPath(f, remote);
    if fast.Some? {
      return Ok(fast.value);
    }
    if |Comps(remote)| == 0 {
      NothingAtRoot(f.server.tree, f.e, Comps(remote));
    }
    r := NewObjectByListing(f, remote);
  }

  lemma NothingAtRoot(t: Tree, e: Encoder, path: seq<string>)
    requires |path| == 0
    ensures Plain(t, e, path) == ObjectNotFound
  {
  }

  // What the listing route finds: nothing above the second component.
  ghost function Listed(t: Tree, e: Encoder, path: seq<string>): Outcome {
    if |path| >= 2 then Plain(t, e, path) else ObjectNotFound
  }

  ghost predicate LibraryNamed(t: Tree, name: string) {
    exists x :: |x| == 1 && x in t && t[x].name == name
  }

  // The query answers as plain traversal does, so on every path the two routes agree exactly
  // unless it is a single component that names a library: then one says it is a directory.
  lemma RoutesAgreeExactly(t: Tree, e: Encoder, path: seq<string>)
    requires WellFormed(t, e)
    ensures Plain(t, e, path) == Listed(t, e, path) <==> !(|path| == 1 && LibraryNamed(t, path[0]))
    ensures |path| == 1 && LibraryNamed(t, path[0]) ==> Plain(t, e, path) == IsADirectory
  {
    hide WellFormed, Plain;
    if |path| == 0 {
      NothingAtRoot(t, e, path);
    } else if |path| == 1 {
      assert path == [path[0]] && Above(path) == [];
      if x :| |x| == 1 && x in t && t[x].name == path[0] {
        assert Above(x) == [] && Leads(t, e, [], []);
        PlainIs(t, e, path, x);
        LibrariesAreDirs(t, e, x);
      } else {
        PlainNowhere(t, e, path);
      }
    }
  }

  lemma LibrariesAreDirs(t: Tree, e: Encoder, x: DocId)
    requires WellFormed(t, e) && x in t && |x| == 1
    ensures IsDir(t[x])
  {
  }

  // --- Seeding the cache from a cumulative ID ----------------------------------------------------

  function TrimSlashes(s: string): string
    decreases |s|
  {
    if s != "" && s[0] == '/' then TrimSlashes(s[1..])
    else if s != "" && s[|s| - 1] == '/' then TrimSlashes(s[..|s| - 1])
    else s
  }

  // `r` stands in `s` from i to j, with slashes and nothing else around it.
  predicate SlashesAround(s: string, r: string, i: nat, j: nat) {
    && i <= j <= |s| && r == s[i..j]
    && (forall k :: 0 <= k < i ==> s[k] == '/') && (forall k :: j <= k < |s| ==> s[k] == '/')
  }

  // strings.Trim(s, "/"): slashes go at both ends, all of them, and nothing else.
  lemma {:induction false} TrimmedExactly(s: string) returns (i: nat, j: nat)
    ensures TrimSlashes(s) != "" ==> TrimSlashes(s)[0] != '/' && TrimSlashes(s)[|TrimSlashes(s)| - 1] != '/'
    ensures SlashesAround(s, TrimSlashes(s), i, j)
    decreases |s|
  {
    hide SlashesAround;
    if s != "" && s[0] == '/' {
      i, j := TrimmedExactly(s[1..]);
      OneMoreBefore(s, TrimSlashes(s), i, j);
      i, j := i + 1, j + 1;
    } else if s != "" && s[|s| - 1] == '/' {
      i, j := TrimmedExactly(s[..|s| - 1]);
      OneMoreAfter(s, TrimSlashes(s), i, j);
    } else {
      i, j := 0, |s|;
      NoneAround(s);
    }
  }

  lemma OneMoreBefore(s: string, r: string, i: nat, j: nat)
    requires s != "" && s[0] == '/' && SlashesAround(s[1..], r, i, j)
    ensures SlashesAround(s, r, i + 1, j + 1)
  {
    var t := s[1..];
    assert t[i..j] == s[i + 1..j + 1];
    forall k | 0 < k < |s|
      ensures s[k] == t[k - 1]
    {
    }
  }

  lemma OneMoreAfter(s: string, r: string, i: nat, j: nat)
    requires s != "" && s[|s| - 1] == '/' && SlashesAround(s[..|s| - 1], r, i, j)
    ensures SlashesAround(s, r, i, j)
  {
    var t := s[..|s| - 1];
    assert t[i..j] == s[i..j];
    forall k | 0 <= k < |t|
      ensures s[k] == t[k]
    {
    }
  }

  lemma NoneAround(s: string)
    ensures SlashesAround(s, s, 0, |s|)
  {
  }

  function Seeded(cache: Cache, names: seq<string>, ids: seq<string>, n: nat): Cache
    requires n <= |names| == |ids|
  {
    if n == 0 then cache else Seeded(cache, names, ids, n - 1)[Join(names[..n]) := SCHEME + Join(ids[..n])]
  }

  // Whether the path and the ID have the same number of components.
  predicate Seedable(standardPath: string, docID: string) {
    && TrimSlashes(standardPath) != "" && SCHEME <= docID
    && |Split(TrimSlashes(standardPath))| == |Split(docID[|SCHEME|..])|
  }

  function SeedResult(cache: Cache, standardPath: string, docID: string): Cache
    requires Seedable(standardPath, docID)
  {
    var names, ids := Split(TrimSlashes(standardPath)), Split(docID[|SCHEME|..]);
    Seeded(cache, names, ids, |names|)
  }

  method SeedDirCacheFromDocID(dc: DirCache, standardPath: string, docID: string) returns (ok: bool)
    modifies dc
    ensures ok <==> Seedable(standardPath, docID)
    ensures !ok ==> dc.cache == old(dc.cache)
    ensures ok ==> dc.cache == SeedResult(old(dc.cache), standardPath, docID)
  {
    var path := TrimSlashes(standardPath);
    if path == "" || !(SCHEME <= docID) {
      return false;
    }
    var names, ids := Split(path), Split(docID[|SCHEME|..]);
    if |names| != |ids| {
      return false;
    }
    for i := 0 to |names|
      invariant dc.cache == Seeded(old(dc.cache), names, ids, i)
    {
      dc.Put(Join(names[..i + 1]), SCHEME + Join(ids[..i + 1]));
    }
    ok := true;
  }

  lemma TrimClean(path: string)
    requires Clean(path)
    ensures TrimSlashes(path) == path
  {
    if path != "" {
      SplitClean(path);
      assert path[0] != '/';
      NoSlash("");
      assert path[|path| - 1] == '/' ==> LastSlash(path) == |path| - 1;
    }
  }

  // Given the ID of the directory at the path, the seeds are exactly the IDs plain traversal
  // finds along it, and the cache stays right.
  lemma {:induction false} SeedsAreTheWalk(t: Tree, e: Encoder, cache: Cache, names: seq<string>, id: DocId, n: nat)
    requires WellFormed(t, e) && Coherent(t, e, cache) && LiveDir(t, e, names, id) && n <= |names| == |id|
    ensures Coherent(t, e, Seeded(cache, names, id, n))
    ensures forall k :: 0 < k <= n ==> SeededAt(t, e, Seeded(cache, names, id, n), names, id, k)
  {
    hide WellFormed, Coherent, Seeded, Folder, SeededAt;
    SeededStep(cache, names, id, n);
    if n > 0 {
      SeedsAreTheWalk(t, e, cache, names, id, n - 1);
      var before := Seeded(cache, names, id, n - 1);
      PrefixLives(t, e, names, id, n);
      CompsOfPrefix(t, e, names, id, n);
      LedIsFound(t, e, Join(names[..n]), id[..n]);
      PutKeeps(t, e, before, Join(names[..n]), IdString(id[..n]));
      SeededAtLast(t, e, before, names, id, n);
      forall k | 0 < k < n
        ensures SeededAt(t, e, Seeded(cache, names, id, n), names, id, k)
      {
        SeededAtKeeps(t, e, before, names, id, k, n);
      }
    }
  }

  // The k-th prefix of the path is cached as the k-th prefix of the ID, the only entry there.
  ghost predicate SeededAt(t: Tree, e: Encoder, cache: Cache, names: seq<string>, id: DocId, k: nat)
    requires k <= |names| == |id|
  {
    && Join(names[..k]) in cache && cache[Join(names[..k])] == IdString(id[..k])
    && forall y :: LiveDir(t, e, names[..k], y) <==> y == id[..k]
  }

  lemma SeededStep(cache: Cache, names: seq<string>, id: DocId, n: nat)
    requires n <= |names| == |id|
    ensures n == 0 ==> Seeded(cache, names, id, n) == cache
    ensures n > 0 ==>
      Seeded(cache, names, id, n) == Seeded(cache, names, id, n - 1)[Join(names[..n]) := IdString(id[..n])]
  {
  }

  lemma PrefixLives(t: Tree, e: Encoder, names: seq<string>, id: DocId, n: nat)
    requires WellFormed(t, e) && LiveDir(t, e, names, id) && n <= |names| == |id|
    ensures LiveDir(t, e, names[..n], id[..n])
    ensures forall y :: LiveDir(t, e, names[..n], y) ==> y == id[..n]
  {
    LeadsPrefix(t, e, names, id, n);
    if n < |id| {
      AncestorsAreFolders(t, id, n);
    } else {
      assert id[..n] == id;
    }
    hide WellFormed, Leads, Folder;
    forall y | LiveDir(t, e, names[..n], y)
      ensures y == id[..n]
    {
      LeadsToOne(t, e, names[..n], y, id[..n]);
    }
  }

  lemma CompsOfPrefix(t: Tree, e: Encoder, names: seq<string>, id: DocId, n: nat)
    requires WellFormed(t, e) && Leads(t, e, names, id) && 0 < n <= |names| == |id|
    ensures Comps(Join(names[..n])) == names[..n] && Join(names[..n]) != "" && Parts(id[..n])
  {
    LeadsClean(t, e, names, id);
    CompsOfJoin(names[..n]);
  }

  lemma SeededAtLast(t: Tree, e: Encoder, before: Cache, names: seq<string>, id: DocId, n: nat)
    requires WellFormed(t, e) && LiveDir(t, e, names, id) && n <= |names| == |id|
    ensures SeededAt(t, e, before[Join(names[..n]) := IdString(id[..n])], names, id, n)
  {
    PrefixLives(t, e, names, id, n);
  }

  // A later seed does not touch an earlier one: different prefixes are different paths.
  lemma SeededAtKeeps(t: Tree, e: Encoder, before: Cache, names: seq<string>, id: DocId, k: nat, n: nat)
    requires WellFormed(t, e) && LiveDir(t, e, names, id) && 0 < k < n <= |names| == |id|
    requires SeededAt(t, e, before, names, id, k)
    ensures SeededAt(t, e, before[Join(names[..n]) := IdString(id[..n])], names, id, k)
  {
    CompsOfPrefix(t, e, names, id, k);
    CompsOfPrefix(t, e, names, id, n);
    hide WellFormed, Leads, Comps, IdString;
    assert |names[..k]| != |names[..n]|;
  }

  // --- The root of a remote ----------------------------------------------------------------------

  datatype Root = Root(path: string, id: string, isFile: bool)

  // What the backend's own root becomes when one query settles it: a directory, or the
  // directory holding a file.
  // It is settled exactly when the query answers with a directory, or with a file that is not at
  // the top; `answer` is what the query said.
  method TryResolveRootByPath(server: Server, e: Encoder, root: string) returns (r: Option<Root>, answer: Lookup)
    requires Reversible(e) && WellFormed(server.tree, e) && Clean(root)
    modifies server`faults
    ensures answer.Unknown? ==> root == "" || server.faults > old(server.faults)
    ensures r.Some? <==> answer.Present? && (IsDir(answer.item.node) || SplitPath(root).0 != "")
    ensures answer.Present? ==> Plain(server.tree, e, Comps(root)) == ItemOutcome(answer.item)
    ensures answer.Absent? ==> Plain(server.tree, e, Comps(root)) == ObjectNotFound
    ensures r.Some? ==> FoundAt(server.tree, e, r.value.path, r.value.id)
    ensures r.Some? && !r.value.isFile ==> r.value.path == root
    ensures r.Some? && r.value.isFile ==>
      r.value.path == SplitPath(root).0 && r.value.path != "" && Plain(server.tree, e, Comps(root)).Object?
  {
    hide WellFormed, Reversible, Comps, IdString, StoredNames, StoredAt, Plain, Clean, Seedable, SeedResult, FoundAt;
    hide ParentDocID, Located, Leads;
    r, answer := None, Unknown;
    if root == "" {
      return;
    }
    EmptyAddsNothing(root);
    var namePath := EncodedNamePath(e, root, "");
    var meta := server.GetInfoByPath(namePath);
    answer := meta;
    ghost var t := server.tree;
    NonEmptySplits(namePath);
    EmptyComps(root);
    if !meta.Present? {
      if meta.Absent? {
        NoneStored(t, e, Comps(root));
      }
      return;
    }
    SplitClean(root);
    ghost var x :| x != [] && x in t && StoredAt(t, Split(namePath), x) && meta.item == Item(IdString(x), t[x]);
    StoredMatchesShown(t, e, Comps(root), x);
    EntryLeads(t, e, Comps(root), x);
    PlainIs(t, e, Comps(root), x);
    var dc := new DirCache();
    if IsDir(meta.item.node) {
      var ok := SeedDirCacheFromDocID(dc, root, meta.item.docID);
      SeedFindsRoot(t, e, root, x);
      var id := dc.Get(root);
      r := if ok && id.Some? then Some(Root(root, id.value, false)) else None;
      return;
    }
    var (parentRoot, leaf) := SplitPath(root);
    var parentID := ParentDocID(meta.item.docID);
    if parentRoot == "" {
      return;
    }
    ParentSeed(t, e, root, x);
    if parentID.None? {
      return;
    }
    var ok := SeedDirCacheFromDocID(dc, parentRoot, parentID.value);
    SeedFindsRoot(t, e, parentRoot, Above(x));
    var id := dc.Get(parentRoot);
    r := if ok && id.Some? then Some(Root(parentRoot, id.value, true)) else None;
  }

  lemma EntryLeads(t: Tree, e: Encoder, path: seq<string>, x: DocId)
    requires Leads(t, e, path, x) && x != []
    ensures EntryAt(t, e, path, x) && (IsDir(t[x]) ==> LiveDir(t, e, path, x))
  {
  }

  // Seeding an empty cache by the ID of the directory at a path succeeds and answers for it.
  lemma SeedFindsRoot(t: Tree, e: Encoder, path: string, x: DocId)
    requires WellFormed(t, e) && Clean(path) && path != "" && LiveDir(t, e, Comps(path), x) && x != []
    ensures Seedable(path, IdString(x))
    ensures var cache := SeedResult(map[], path, IdString(x));
      path in cache && cache[path] == IdString(x) && FoundAt(t, e, path, IdString(x))
  {
    hide WellFormed, Seeded, Folder, SeededAt, Comps;
    TrimClean(path);
    NonEmptySplits(path);
    JoinSplit(path);
    LeadsLength(t, e, Comps(path), x);
    LeadsClean(t, e, Comps(path), x);
    hide Leads, Split, Join;
    SplitJoin(x);
    assert IdString(x)[|SCHEME|..] == Join(x);
    EmptyCoherent(t, e);
    SeedsAreTheWalk(t, e, map[], Comps(path), x, |x|);
    LedIsFound(t, e, path, x);
    SeededWhole(t, e, Seeded(map[], Comps(path), x, |x|), Comps(path), x);
  }

  lemma SeededWhole(t: Tree, e: Encoder, cache: Cache, names: seq<string>, id: DocId)
    requires |names| == |id| && SeededAt(t, e, cache, names, id, |id|)
    ensures Join(names) in cache && cache[Join(names)] == IdString(id)
  {
    assert names[..|id|] == names && id[..|id|] == id;
  }

  lemma ParentSeed(t: Tree, e: Encoder, root: string, x: DocId)
    requires WellFormed(t, e) && Clean(root) && root != "" && EntryAt(t, e, Comps(root), x) && SplitPath(root).0 != ""
    ensures |x| >= 2 && ParentDocID(IdString(x)) == Some(IdString(Above(x)))
    ensures Clean(SplitPath(root).0) && LiveDir(t, e, Comps(SplitPath(root).0), Above(x))
  {
    ParentIsFolder(t, x);
    hide WellFormed, Comps, IdString, ParentDocID, Split, Join;
    SplitClean(root);
    SplitRelative(root);
    EmptyComps(SplitPath(root).0);
    LeadsLength(t, e, Comps(root), x);
    LeadsClean(t, e, Comps(root), x);
    ParentOfEntry(x);
    assert Above(Comps(root)) == Comps(SplitPath(root).0);
  }
}
