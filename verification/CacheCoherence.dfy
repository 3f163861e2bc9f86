/**
 The directory cache, and when it agrees with the tree: every cached path is mapped to the ID of
 the directory that plain traversal finds there.
 */
module CacheCoherence {
  import opened Basics
  import opened Paths
  import opened ServerTree

  type Cache = map<string, string>

  class DirCache {
    var cache: Cache

    constructor ()
      ensures cache == map[]
    {
      cache := map[];
    }

    method Put(path: string, id: string)
      modifies this
      ensures cache == old(cache)[path := id]
    {
      cache := cache[path := id];
    }

    method Get(path: string) returns (id: Option<string>)
      ensures id == if path in cache then Some(cache[path]) else None
    {
      id := if path in cache then Some(cache[path]) else None;
    }

    method Flush()
      modifies this
      ensures cache == map[]
    {
      cache := map[];
    }

    method FlushDir(dir: string)
      modifies this
      ensures cache == Flushed(old(cache), dir)
      ensures forall p :: p in cache <==> p in old(cache) && p != dir && !(dir + "/" <= p)
      ensures forall p :: p in cache ==> cache[p] == old(cache)[p]
    {
      cache := map p | p in cache && !Under(dir, p) :: cache[p];
    }
  }

  function Flushed(cache: Cache, dir: string): Cache {
    map p | p in cache && !Under(dir, p) :: cache[p]
  }

  // The string is the ID of the live directory at the path.
  ghost predicate FoundAt(t: Tree, e: Encoder, path: string, s: string) {
    Located(s).Some? && LiveDir(t, e, Comps(path), Located(s).value)
  }

  ghost predicate Coherent(t: Tree, e: Encoder, cache: Cache) {
    forall p :: p in cache ==> p != "" && FoundAt(t, e, p, cache[p])
  }

  ghost predicate Grew(t: Tree, u: Tree) {
    forall x :: x in t ==> x in u && u[x] == t[x]
  }

  lemma FoundAtClean(t: Tree, e: Encoder, path: string, s: string)
    requires WellFormed(t, e) && FoundAt(t, e, path, s)
    ensures Clean(path) && Parts(Located(s).value) && IdString(Located(s).value) == s
    ensures (path == "") <==> (Located(s).value == [])
  {
    hide Leads, Folder, Located, IdString, Comps;
    LeadsClean(t, e, Comps(path), Located(s).value);
    LeadsLength(t, e, Comps(path), Located(s).value);
    IdStringLocated(s);
    EmptyComps(path);
  }

  lemma LedIsFound(t: Tree, e: Encoder, path: string, id: DocId)
    requires LiveDir(t, e, Comps(path), id) && Parts(id)
    ensures FoundAt(t, e, path, IdString(id))
  {
    hide LiveDir, IdString, Located;
    LocatedIdString(id);
  }

  // The tree only grew, as when directories are made.
  lemma {:induction false} GrewLeads(t: Tree, u: Tree, e: Encoder, path: seq<string>, id: DocId)
    requires Grew(t, u) && Leads(t, e, path, id)
    ensures Leads(u, e, path, id) && (Folder(t, id) ==> Folder(u, id))
  {
    if id != [] {
      GrewLeads(t, u, e, Above(path), Above(id));
    }
  }

  lemma GrewKeeps(t: Tree, u: Tree, e: Encoder, cache: Cache)
    requires Grew(t, u) && Coherent(t, e, cache)
    ensures Coherent(u, e, cache)
  {
    hide Grew, Leads, Folder;
    forall p | p in cache
      ensures FoundAt(u, e, p, cache[p])
    {
      GrewLeads(t, u, e, Comps(p), Located(cache[p]).value);
    }
  }

  // A cached path is at or below `src` exactly when its entry is at or below the one at `src`.
  lemma UnderMatches(t: Tree, e: Encoder, src: string, id: DocId, p: string, s: string)
    requires WellFormed(t, e) && Leads(t, e, Comps(src), id) && id != [] && FoundAt(t, e, p, s)
    ensures Under(src, p) <==> id <= Located(s).value
  {
    LeadsLength(t, e, Comps(src), id);
    hide Leads, Folder, Located, Comps, Under, WellFormed;
    LeadsClean(t, e, Comps(src), id);
    EmptyComps(src);
    FoundAtClean(t, e, p, s);
    UnderExactly(src, p);
    BelowMatches(t, e, Comps(src), id, Comps(p), Located(s).value);
  }

  // Deleting, renaming or moving the directory at `src`, then dropping it and everything
  // below it, leaves the cache right.
  lemma FlushKeeps(t: Tree, u: Tree, e: Encoder, cache: Cache, src: string, id: DocId)
    requires WellFormed(t, e) && Coherent(t, e, cache)
    requires Leads(t, e, Comps(src), id) && id != [] && KeptOutside(t, u, id)
    ensures Coherent(u, e, Flushed(cache, src))
  {
    hide WellFormed, Leads, Folder, Located, Comps, Under, KeptOutside;
    var rest := Flushed(cache, src);
    forall p | p in rest
      ensures FoundAt(u, e, p, rest[p])
    {
      UnderMatches(t, e, src, id, p, rest[p]);
      LeadsKept(t, u, e, id, Comps(p), Located(rest[p]).value);
    }
  }

  // Something at or below the entry is cached.
  ghost predicate Caches(cache: Cache, id: DocId) {
    exists p :: p in cache && Located(cache[p]).Some? && id <= Located(cache[p]).value
  }

  // Without that, the cache is right exactly when it held nothing at or below the directory.
  lemma StaleExactly(t: Tree, u: Tree, e: Encoder, cache: Cache, id: DocId)
    requires Coherent(t, e, cache) && id != [] && KeptOutside(t, u, id) && Uprooted(t, u, e, id)
    ensures Coherent(u, e, cache) <==> !Caches(cache, id)
  {
    hide Leads, Folder, Located, Comps, KeptOutside, Uprooted;
    forall p | p in cache
      ensures FoundAt(u, e, p, cache[p]) <==> !(id <= Located(cache[p]).value)
    {
      var x := Located(cache[p]).value;
      if id <= x {
        UprootedIsLost(t, u, e, id, Comps(p), x);
      } else {
        LeadsKept(t, u, e, id, Comps(p), x);
      }
    }
  }

  lemma FlushAgain(t: Tree, e: Encoder, cache: Cache, dir: string)
    requires Coherent(t, e, cache)
    ensures Coherent(t, e, Flushed(cache, dir))
  {
    hide FoundAt, Under;
  }
}
