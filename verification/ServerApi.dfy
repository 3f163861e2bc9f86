/**
 The server as the backend calls it.  Any call may fail, and `faults` counts the calls that
 failed for no reason the call gave them.  A listing or a lookup that succeeds tells the truth.
 A change that the server refuses leaves the tree alone, and a change it made may still be
 reported as a failure when the reply is lost.  Which segment a new entry gets is the server's
 choice.
 */
module ServerApi {
  import opened Basics
  import opened Paths
  import opened ServerTree

  datatype Item = Item(docID: string, node: Node)

  datatype Listing = Listing(dirs: seq<Item>, files: seq<Item>)

  datatype Reply<T> = Done(value: T) | Refused | Lost

  ghost predicate Describes(t: Tree, dir: DocId, it: Item) {
    exists x :: x in t && x != [] && Above(x) == dir && it == Item(IdString(x), t[x])
  }

  // A listing names every child of the directory once or more, and nothing else.
  ghost predicate Lists(t: Tree, dir: DocId, l: Listing) {
    && (forall it :: it in l.dirs ==> Describes(t, dir, it) && IsDir(it.node))
    && (forall it :: it in l.files ==> Describes(t, dir, it) && !IsDir(it.node))
    && (forall x :: x in t && x != [] && Above(x) == dir ==>
          Item(IdString(x), t[x]) in (if IsDir(t[x]) then l.dirs else l.files))
  }

  // Going down by stored names.
  predicate StoredAt(t: Tree, names: seq<string>, id: DocId) {
    && |names| == |id|
    && (id != [] ==> id in t && t[id].name == Last(names) && StoredAt(t, Above(names), Above(id)))
  }

  datatype Lookup = Present(item: Item) | Absent | Unknown

  lemma StoredIsStorable(t: Tree, e: Encoder, id: DocId)
    requires WellFormed(t, e) && id in t && |id| >= 2
    ensures Storable(e, t[id].name)
  {
  }

  lemma ChildParts(t: Tree, e: Encoder, dir: DocId, segment: string)
    requires WellFormed(t, e) && dir in t && Part(segment)
    ensures Parts(dir + [segment]) && Above(dir + [segment]) == dir
  {
  }

  // A move the server does not refuse: of an entry of that kind below a library, to a directory
  // below the root and not inside the entry, where the name is free.
  ghost predicate Acceptable(t: Tree, id: Option<DocId>, dir: Option<DocId>, newName: string, isDir: bool) {
    && id.Some? && id.value in t && |id.value| >= 2 && (isDir <==> IsDir(t[id.value]))
    && dir.Some? && dir.value != [] && Folder(t, dir.value) && !(id.value <= dir.value)
    && NameFree(t, dir.value, if newName == "" then t[id.value].name else newName)
  }

  class Server {
    var tree: Tree
    var faults: nat

    method ListDir(docID: string) returns (r: Option<Listing>)
      modifies this`faults
      ensures faults >= old(faults)
      ensures r.None? && faults == old(faults) ==> Located(docID).None? || !Folder(tree, Located(docID).value)
      ensures r.Some? ==> faults == old(faults)
      ensures r.Some? ==>
        Located(docID).Some? && Folder(tree, Located(docID).value) && Lists(tree, Located(docID).value, r.value)
    {
      var dir := Located(docID);
      if * {
        faults := faults + 1;
        return None;
      }
      if dir.None? || !Folder(tree, dir.value) {
        return None;
      }
      var todo, l := tree.Keys, Listing([], []);
      while todo != {}
        invariant todo <= tree.Keys
        invariant forall it :: it in l.dirs ==> Describes(tree, dir.value, it) && IsDir(it.node)
        invariant forall it :: it in l.files ==> Describes(tree, dir.value, it) && !IsDir(it.node)
        invariant forall x :: x in tree && x !in todo && x != [] && Above(x) == dir.value ==>
          Item(IdString(x), tree[x]) in (if IsDir(tree[x]) then l.dirs else l.files)
        decreases todo
      {
        hide IdString;
        var x :| x in todo;
        todo := todo - {x};
        if x != [] && Above(x) == dir.value {
          var it := Item(IdString(x), tree[x]);
          assert Describes(tree, dir.value, it);
          l := if IsDir(tree[x]) then l.(dirs := l.dirs + [it]) else l.(files := l.files + [it]);
        }
      }
      r := Some(l);
    }

    // Resolves a path of stored names.
    method GetInfoByPath(namePath: string) returns (r: Lookup)
      modifies this`faults
      ensures faults == if r.Unknown? then old(faults) + 1 else old(faults)
      ensures r.Present? ==> exists id ::
        id != [] && id in tree && StoredAt(tree, Split(namePath), id) && r.item == Item(IdString(id), tree[id])
      ensures r.Absent? ==> forall id :: id != [] ==> !StoredAt(tree, Split(namePath), id)
    {
      r := Unknown;
      if * {
        faults := faults + 1;
      } else {
        var found := set id | id in tree && StoredAt(tree, Split(namePath), id);
        assert forall id :: id != [] && StoredAt(tree, Split(namePath), id) ==> id in found;
        if found == {} {
          r := Absent;
        } else {
          var id :| id in found;
          assert id != [];
          r := Present(Item(IdString(id), tree[id]));
        }
      }
    }

    method CreateDir(parentID: string, name: string, ghost e: Encoder) returns (r: Option<string>, ghost made: DocId)
      requires WellFormed(tree, e) && Storable(e, name)
      modifies this
      ensures WellFormed(tree, e)
      ensures faults >= old(faults) && (r.Some? ==> faults == old(faults))
      ensures r.None? && faults == old(faults) ==>
        Located(parentID).None? || Located(parentID).value == [] || !Folder(old(tree), Located(parentID).value)
        || !NameFree(old(tree), Located(parentID).value, name)
      ensures made == [] ==> tree == old(tree) && r.None?
      ensures made != [] ==>
        && Located(parentID) == Some(Above(made)) && made !in old(tree) && NameFree(old(tree), Above(made), name)
        && Parts(made) && |made| >= 2 && tree == WithDir(old(tree), made, name)
        && (r.Some? ==> r.value == IdString(made))
    {
      r, made := None, [];
      var dir := Located(parentID);
      var segment: string := *;
      if dir.None? || dir.value == [] || !Folder(tree, dir.value) {
        return;
      }
      var id := dir.value + [segment];
      var taken := set x | x in tree && x != [] && Above(x) == dir.value && tree[x].name == name;
      if taken != {} {
        var x :| x in taken;
        return;
      }
      if id in tree || !Part(segment) {
        faults := faults + 1;
        return;
      }
      assert NameFree(tree, Above(id), name) by {
        assert forall x :: x in tree && x != [] && Above(x) == dir.value && tree[x].name == name ==> x in taken;
      }
      assert Parts(dir.value);
      WithDirWellFormed(tree, e, id, name);
      tree := WithDir(tree, id, name);
      made := id;
      if * {
        r := Some(IdString(id));
      } else {
        faults := faults + 1;
      }
    }

    method DeleteEntry(docID: string, isDir: bool, ghost e: Encoder) returns (r: Reply<()>)
      requires WellFormed(tree, e)
      modifies this
      ensures WellFormed(tree, e)
      ensures faults >= old(faults) && (r.Done? ==> faults == old(faults)) && (r.Lost? ==> faults > old(faults))
      ensures r.Refused? && faults == old(faults) ==>
        Located(docID).None? || Located(docID).value !in tree || isDir != IsDir(tree[Located(docID).value])
      ensures r.Refused? ==> tree == old(tree)
      ensures !r.Refused? ==>
        && Located(docID).Some? && Located(docID).value in old(tree)
        && (isDir <==> IsDir(old(tree)[Located(docID).value]))
        && tree == Without(old(tree), Located(docID).value)
    {
      var id := Located(docID);
      r := Refused;
      if id.None? || id.value !in tree || isDir != IsDir(tree[id.value]) {
        return;
      }
      if * {
        faults := faults + 1;
        return;
      }
      WithoutWellFormed(tree, e, id.value);
      tree := Without(tree, id.value);
      r := Done(());
      if * {
        faults := faults + 1;
        r := Lost;
      }
    }

    method RenameEntry(docID: string, name: string, isDir: bool, ghost e: Encoder) returns (r: Reply<()>)
      requires WellFormed(tree, e) && Storable(e, name)
      modifies this
      ensures WellFormed(tree, e)
      ensures faults >= old(faults) && (r.Done? ==> faults == old(faults)) && (r.Lost? ==> faults > old(faults))
      ensures r.Refused? && faults == old(faults) ==>
        || Located(docID).None? || Located(docID).value !in tree || |Located(docID).value| < 2
        || isDir != IsDir(tree[Located(docID).value])
        || (!NameFree(tree, Above(Located(docID).value), name) && tree[Located(docID).value].name != name)
      ensures r.Refused? ==> tree == old(tree)
      ensures !r.Refused? ==>
        && Located(docID).Some?
        && var id := Located(docID).value;
          && id in old(tree) && |id| >= 2 && (isDir <==> IsDir(old(tree)[id]))
          && (NameFree(old(tree), Above(id), name) || old(tree)[id].name == name)
          && tree == Renamed(old(tree), id, name)
    {
      var found := Located(docID);
      r := Refused;
      if found.None? || found.value !in tree || |found.value| < 2 || isDir != IsDir(tree[found.value]) {
        return;
      }
      var id := found.value;
      var taken := set x | x in tree && x != [] && Above(x) == Above(id) && tree[x].name == name;
      if taken != {} && tree[id].name != name {
        var x :| x in taken;
        return;
      }
      if * {
        faults := faults + 1;
        return;
      }
      assert taken == {} ==> NameFree(tree, Above(id), name) by {
        assert forall x :: x in tree && x != [] && Above(x) == Above(id) && tree[x].name == name ==> x in taken;
      }
      RenamedWellFormed(tree, e, id, name);
      tree := Renamed(tree, id, name);
      r := Done(());
      if * {
        faults := faults + 1;
        r := Lost;
      }
    }

    // An empty new name keeps the name.  The entry and all below it get new IDs.
    method MoveEntry(docID: string, parentID: string, newName: string, isDir: bool, ghost e: Encoder)
      returns (r: Reply<string>, ghost moved: DocId)
      requires WellFormed(tree, e) && (newName != "" ==> Storable(e, newName))
      modifies this
      ensures WellFormed(tree, e)
      ensures faults >= old(faults) && (r.Done? ==> faults == old(faults)) && (r.Lost? ==> faults > old(faults))
      ensures r.Refused? && faults == old(faults) ==>
        !Acceptable(tree, Located(docID), Located(parentID), newName, isDir)
      ensures r.Refused? ==> tree == old(tree)
      ensures !r.Refused? ==>
        && Located(docID).Some? && Located(docID).value in old(tree)
        && var id := Located(docID).value;
          var name := if newName == "" then old(tree)[id].name else newName;
          && (isDir <==> IsDir(old(tree)[id])) && Relocatable(old(tree), id, moved, name)
          && Located(parentID) == Some(Above(moved))
          && tree == Relocated(old(tree), id, moved, name)
          && (r.Done? ==> r.value == IdString(moved))
    {
      hide WellFormed, Relocated, Located, IdString, Storable;
      var found, dir := Located(docID), Located(parentID);
      var segment: string := *;
      r, moved := Refused, [];
      if found.None? || found.value !in tree || |found.value| < 2 || isDir != IsDir(tree[found.value])
         || dir.None? || dir.value == [] || !Folder(tree, dir.value) || found.value <= dir.value {
        return;
      }
      var id, to := found.value, dir.value + [segment];
      var name := if newName == "" then tree[id].name else newName;
      var taken := set x | x in tree && x != [] && Above(x) == dir.value && tree[x].name == name;
      if taken != {} {
        var x :| x in taken;
        return;
      }
      assert NameFree(tree, dir.value, name) by {
        assert forall x :: x in tree && x != [] && Above(x) == dir.value && tree[x].name == name ==> x in taken;
      }
      if to in tree || !Part(segment) {
        faults := faults + 1;
        return;
      }
      if * {
        faults := faults + 1;
        return;
      }
      StoredIsStorable(tree, e, id);
      ChildParts(tree, e, dir.value, segment);
      RelocatedWellFormed(tree, e, id, to, name);
      tree, moved := Relocated(tree, id, to, name), to;
      r := Done(IdString(to));
      if * {
        faults := faults + 1;
        r := Lost;
      }
    }
  }
}
