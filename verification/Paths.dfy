/**
 Remote paths and document IDs as strings, and the lists of components they stand for.  A
 document ID is cumulative: a child's ID is its parent's, a slash and one more segment.
 */
module Paths {
  import opened Basics

  const VIRTUAL_ROOT_ID := "pkudisk://root"
  const SCHEME := "gns://"

  // A component of a clean path.
  predicate Part(s: string) {
    s != "" && '/' !in s
  }

  predicate Parts(parts: seq<string>) {
    forall i :: 0 <= i < |parts| ==> Part(parts[i])
  }

  // strings.LastIndex(s, "/")
  function LastSlash(s: string): (i: int)
    ensures -1 <= i < |s| && (i >= 0 ==> s[i] == '/')
    ensures forall j :: i < j < |s| ==> s[j] != '/'
  {
    if s == "" then -1 else if s[|s| - 1] == '/' then |s| - 1 else LastSlash(s[..|s| - 1])
  }

  // strings.Split(s, "/")
  function Split(s: string): (parts: seq<string>)
    ensures |parts| > 0
  {
    var i := LastSlash(s);
    if i < 0 then [s] else Split(s[..i]) + [s[i + 1..]]
  }

  // strings.Join(parts, "/")
  function Join(parts: seq<string>): string {
    if |parts| == 0 then ""
    else if |parts| == 1 then parts[0]
    else Join(parts[..|parts| - 1]) + "/" + parts[|parts| - 1]
  }

  lemma {:induction false} JoinSplit(s: string)
    ensures Join(Split(s)) == s
  {
    var i := LastSlash(s);
    if i >= 0 {
      JoinSplit(s[..i]);
      var parts := Split(s);
      assert parts[..|parts| - 1] == Split(s[..i]);
    }
  }

  lemma LastSlashIs(s: string, i: nat)
    requires i < |s| && s[i] == '/' && forall j :: i < j < |s| ==> s[j] != '/'
    ensures LastSlash(s) == i
  {
    hide LastSlash;
  }

  // Cutting at the last slash undoes appending a slash and a piece without one.
  lemma LastSlashOf(a: string, b: string)
    requires '/' !in b
    ensures LastSlash(a + "/" + b) == |a| && (a + "/" + b)[..|a|] == a && (a + "/" + b)[|a| + 1..] == b
  {
    hide LastSlash;
    CutAt(a, '/', b);
    var s := a + "/" + b;
    LastSlashIs(s, |a|);
  }

  lemma CutAt<T>(a: seq<T>, x: T, b: seq<T>)
    ensures (a + [x] + b)[..|a|] == a && (a + [x] + b)[|a| + 1..] == b && (a + [x] + b)[|a|] == x
    ensures forall j :: |a| < j < |a| + 1 + |b| ==> (a + [x] + b)[j] in b
  {
    var s := a + [x] + b;
    forall j | |a| < j < |s|
      ensures s[j] in b
    {
      assert s[j] == b[j - |a| - 1];
    }
  }

  lemma NoSlash(s: string)
    requires '/' !in s
    ensures LastSlash(s) == -1 && Split(s) == [s]
  {
  }

  lemma SplitAtLast(s: string)
    ensures LastSlash(s) < 0 ==> Split(s) == [s]
    ensures LastSlash(s) >= 0 ==> Split(s) == Split(s[..LastSlash(s)]) + [s[LastSlash(s) + 1..]]
  {
    hide LastSlash;
  }

  lemma {:induction false} SplitJoin(parts: seq<string>)
    requires |parts| > 0 && forall i :: 0 <= i < |parts| ==> '/' !in parts[i]
    ensures Split(Join(parts)) == parts
    decreases |parts|
  {
    var n := |parts| - 1;
    if n == 0 {
      NoSlash(parts[0]);
    } else {
      hide Split, LastSlash;
      SplitJoin(parts[..n]);
      LastSlashOf(Join(parts[..n]), parts[n]);
      SplitAtLast(Join(parts));
    }
  }

  // --- Paths ---------------------------------------------------------------------------------

  // The components of a path; the empty path has none.
  function Comps(path: string): seq<string> {
    if path == "" then [] else Split(path)
  }

  predicate Clean(path: string) {
    Parts(Comps(path))
  }

  lemma CompsOfJoin(parts: seq<string>)
    requires Parts(parts)
    ensures Comps(Join(parts)) == parts
    ensures (Join(parts) == "") <==> (parts == [])
  {
    if parts != [] {
      SplitJoin(parts);
      assert Part(parts[|parts| - 1]);
    }
  }

  // dircache.SplitPath
  function SplitPath(path: string): (r: (string, string)) {
    var i := LastSlash(path);
    if i < 0 then ("", path) else (path[..i], path[i + 1..])
  }

  // path.Join of a clean directory and a clean name
  function JoinPath(dir: string, leaf: string): string {
    if dir == "" then leaf else dir + "/" + leaf
  }

  lemma SplitPathComps(path: string)
    requires Clean(path) && path != ""
    ensures var (dir, leaf) := SplitPath(path);
      Clean(dir) && Part(leaf) && Comps(path) == Comps(dir) + [leaf] && |dir| < |path|
  {
    var (dir, leaf) := SplitPath(path);
    var parts := Split(path);
    assert Part(parts[|parts| - 1]);
    if LastSlash(path) >= 0 {
      assert parts == Split(dir) + [leaf];
      assert forall i :: 0 <= i < |Split(dir)| ==> Split(dir)[i] == parts[i];
      assert parts[0] == Split(dir)[0];
      NoSlash("");
    }
  }

  lemma JoinPathComps(dir: string, leaf: string)
    requires Clean(dir) && Part(leaf)
    ensures Comps(JoinPath(dir, leaf)) == Comps(dir) + [leaf]
    ensures Clean(JoinPath(dir, leaf)) && JoinPath(dir, leaf) != ""
    ensures SplitPath(JoinPath(dir, leaf)) == (dir, leaf)
  {
    if dir == "" {
      NoSlash(leaf);
    } else {
      LastSlashOf(dir, leaf);
    }
    assert Part(leaf);
  }

  // The directory cache's prefix test: the path itself or anything below it.
  predicate Under(dir: string, path: string) {
    path == dir || dir + "/" <= path
  }

  lemma UnderStep(dir: string, above: string, leaf: string)
    requires '/' !in leaf
    ensures dir + "/" <= above + "/" + leaf <==> Under(dir, above)
  {
    var path := above + "/" + leaf;
    var d := dir + "/";
    if d <= path {
      assert d[|dir|] == '/' && path[|dir|] == '/';
      assert forall j :: |above| < j < |path| ==> path[j] == leaf[j - |above| - 1];
      assert |dir| <= |above|;
      assert forall i :: 0 <= i < |dir| ==> dir[i] == d[i] == path[i] == above[i];
      if |dir| < |above| {
        assert above[|dir|] == path[|dir|];
      }
    }
    if Under(dir, above) {
      assert above <= path;
    }
  }

  lemma PrefixStep<T>(d: seq<T>, q: seq<T>, x: T)
    ensures d <= q + [x] <==> d <= q || d == q + [x]
  {
    if d <= q + [x] && |d| <= |q| {
      assert forall i :: 0 <= i < |d| ==> d[i] == (q + [x])[i] == q[i];
    }
  }

  lemma SamePath(p: string, q: string)
    requires p != "" && q != ""
    ensures p == q <==> Comps(p) == Comps(q)
  {
    hide Split, Join;
    JoinSplit(p);
    JoinSplit(q);
  }

  lemma UnderSplit(dir: string, path: string)
    requires dir != "" && path != "" && '/' !in SplitPath(path).1
    ensures Under(dir, path) <==> path == dir || (LastSlash(path) >= 0 && Under(dir, SplitPath(path).0))
  {
    hide LastSlash, Under;
    var (above, leaf) := SplitPath(path);
    UnderMeans(dir, path);
    if LastSlash(path) >= 0 {
      assert path == above + "/" + leaf;
      UnderStep(dir, above, leaf);
    } else {
      assert (dir + "/")[|dir|] == '/';
    }
  }

  lemma UnderMeans(dir: string, path: string)
    ensures Under(dir, path) <==> path == dir || dir + "/" <= path
  {
  }

  // On clean paths the string test is exactly the prefix test on components.
  lemma {:induction false} UnderExactly(dir: string, path: string)
    requires Clean(dir) && Clean(path) && dir != ""
    ensures Under(dir, path) <==> Comps(dir) <= Comps(path)
    decreases |path|
  {
    hide Under, Comps, Clean, LastSlash;
    EmptyComps(dir);
    EmptyComps(path);
    if path == "" {
      UnderMeans(dir, path);
      assert |dir + "/"| > 0;
    } else {
      SplitPathComps(path);
      var (above, leaf) := SplitPath(path);
      UnderSplit(dir, path);
      SamePath(dir, path);
      PrefixStep(Comps(dir), Comps(above), leaf);
      UnderExactly(dir, above);
      UnderMeans(dir, "");
      assert LastSlash(path) < 0 ==> above == "";
    }
  }

  lemma EmptyComps(path: string)
    ensures (path == "") <==> (Comps(path) == [])
  {
  }

  // --- Document IDs --------------------------------------------------------------------------

  type DocId = seq<string>

  // The string for a document ID; no segments stand for the virtual root above the libraries.
  function IdString(id: DocId): string {
    if id == [] then VIRTUAL_ROOT_ID else SCHEME + Join(id)
  }

  function Located(s: string): Option<DocId> {
    if s == VIRTUAL_ROOT_ID then Some([])
    else if SCHEME <= s then Some(Split(s[|SCHEME|..]))
    else None
  }

  lemma LocatedIdString(id: DocId)
    requires Parts(id)
    ensures Located(IdString(id)) == Some(id)
    ensures (IdString(id) == VIRTUAL_ROOT_ID) <==> (id == [])
  {
    if id != [] {
      SplitJoin(id);
      assert IdString(id)[0] == 'g' && VIRTUAL_ROOT_ID[0] == 'p';
      assert IdString(id)[|SCHEME|..] == Join(id);
    }
  }

  lemma IdStringLocated(s: string)
    requires Located(s).Some?
    ensures IdString(Located(s).value) == s
  {
    if s != VIRTUAL_ROOT_ID {
      JoinSplit(s[|SCHEME|..]);
      assert s == SCHEME + s[|SCHEME|..];
    }
  }

  function ParentDocID(docID: string): (r: Option<string>) {
    if !(SCHEME <= docID) then None
    else
      var last := LastSlash(docID);
      if last <= |SCHEME| then None else Some(docID[..last])
  }

  // Every entry but a library has its parent's ID one segment up; a library has none.
  lemma ParentOfEntry(id: DocId)
    requires Parts(id) && id != []
    ensures ParentDocID(IdString(id)) == if |id| >= 2 then Some(IdString(id[..|id| - 1])) else None
  {
    var n := |id| - 1;
    assert Part(id[n]);
    if n == 0 {
      LastSlashOf("gns:/", id[0]);
      assert "gns:/" + "/" + id[0] == IdString(id);
    } else {
      hide LastSlash;
      var above := IdString(id[..n]);
      LastSlashOf(above, id[n]);
      assert SCHEME + (Join(id[..n]) + "/" + id[n]) == above + "/" + id[n];
      assert Join(id[..n]) != "" by { hide Join; CompsOfJoin(id[..n]); }
      assert IdString(id) == above + "/" + id[n];
    }
  }

  // Whatever the string: a parent is found exactly when a slash follows the scheme and at
  // least one character, and the string is then the parent, a slash and a piece without one.
  lemma ParentExactly(docID: string)
    ensures ParentDocID(docID).Some? <==>
      exists i :: |SCHEME| < i < |docID| && docID[i] == '/' && SCHEME <= docID
    ensures ParentDocID(docID).Some? ==>
      (exists leaf :: '/' !in leaf && docID == ParentDocID(docID).value + "/" + leaf)
  {
    var last := LastSlash(docID);
    if ParentDocID(docID).Some? {
      assert docID[last] == '/';
      var leaf := docID[last + 1..];
      assert docID == docID[..last] + "/" + leaf;
    }
  }
}
