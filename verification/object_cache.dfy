/**
 * Push de-duplication: a content hash per cache key, stored in one small
 * file per key under a cache folder that is found by walking up from the
 * package's install directory.
 */
module ObjectCache {
  import opened Wrappers
  import opened Json

  const PACKAGE_NAME := "orbiting"
  const MAX_WALK_COUNT := 10
  const NODE_MODULES := "node_modules"
  const CACHE_DIR := ".cache"

  // ---------------------------------------------------------------------------
  // Paths and the upward walk for node_modules
  // ---------------------------------------------------------------------------

  /**
   * An absolute, normalised directory: a filesystem root ("/" on POSIX,
   * a drive root elsewhere) and the names below it.
   */
  datatype Dir = Dir(root: string, segments: seq<string>)

  /** The directory the walk refuses to look in: `/`. */
  predicate IsSlash(d: Dir) {
    d.root == "/" && d.segments == []
  }

  /** `path.resolve(d, '..')`: a root is its own parent. */
  function Parent(d: Dir): Dir {
    if d.segments == [] then d else Dir(d.root, d.segments[..|d.segments| - 1])
  }

  function Join(d: Dir, names: seq<string>): Dir {
    Dir(d.root, d.segments + names)
  }

  /** A path as the walk returns it: an absolute directory, or one relative to the working directory. */
  datatype Location = Absolute(dir: Dir) | CwdRelative(segments: seq<string>)

  function Extend(l: Location, names: seq<string>): Location {
    match l
    case Absolute(d) => Absolute(Join(d, names))
    case CwdRelative(s) => CwdRelative(s + names)
  }

  /** The directory a location names once the working directory `cwd` is known. */
  function Resolve(l: Location, cwd: Dir): Dir {
    match l
    case Absolute(d) => d
    case CwdRelative(s) => Join(cwd, s)
  }

  /** `./node_modules`, the fallback when the walk finds nothing. */
  const DEFAULT_NODE_MODULES: Location := CwdRelative([NODE_MODULES])

  /** The cache folder below a `node_modules` directory: `.cache/orbiting`. */
  const CACHE_SUBPATH: seq<string> := [CACHE_DIR, PACKAGE_NAME]

  /**
   * Reference definition of the walk from `dir` with `budget` steps left,
   * where `fs` is the set of directories that exist.
   */
  function FindNodeModules(dir: Dir, fs: set<Dir>, budget: nat): Location
    decreases budget
  {
    if IsSlash(dir) || budget == 0 then DEFAULT_NODE_MODULES
    else if Join(dir, [NODE_MODULES]) in fs then Absolute(Join(dir, [NODE_MODULES]))
    else if Parent(dir) == dir then DEFAULT_NODE_MODULES
    else FindNodeModules(Parent(dir), fs, budget - 1)
  }

  /** The directories the walk looks in for a `node_modules`, in order. */
  function Probes(dir: Dir, fs: set<Dir>, budget: nat): seq<Dir>
    decreases budget
  {
    if IsSlash(dir) || budget == 0 then []
    else if Join(dir, [NODE_MODULES]) in fs || Parent(dir) == dir then [dir]
    else [dir] + Probes(Parent(dir), fs, budget - 1)
  }

  /**
   * `getNodeModules`: climb from the install directory while not at `/` and
   * fewer than MAX_WALK_COUNT directories have been looked at.
   */
  method GetNodeModules(start: Dir, fs: set<Dir>) returns (nodeModules: Location)
    ensures nodeModules == FindNodeModules(start, fs, MAX_WALK_COUNT)
    ensures nodeModules.Absolute? ==> nodeModules.dir in fs
  {
    var currentDir := start;
    var walkCount := 0;
    while !IsSlash(currentDir) && walkCount < MAX_WALK_COUNT
      invariant 0 <= walkCount <= MAX_WALK_COUNT
      invariant FindNodeModules(start, fs, MAX_WALK_COUNT)
                == FindNodeModules(currentDir, fs, MAX_WALK_COUNT - walkCount)
      decreases MAX_WALK_COUNT - walkCount
    {
      walkCount := walkCount + 1;
      var nodeModulesPath := Join(currentDir, [NODE_MODULES]);
      if nodeModulesPath in fs {
        return Absolute(nodeModulesPath);
      }
      var parent := Parent(currentDir);
      if parent == currentDir {
        break;
      }
      currentDir := parent;
    }
    return DEFAULT_NODE_MODULES;
  }

  /** The walk looks in at most `budget` directories, each the parent of the one before, never in `/`. */
  lemma {:induction false} ProbesClimb(dir: Dir, fs: set<Dir>, budget: nat)
    ensures |Probes(dir, fs, budget)| <= budget && |Probes(dir, fs, budget)| <= |dir.segments| + 1
    ensures forall k :: 0 <= k < |Probes(dir, fs, budget)| ==>
              Probes(dir, fs, budget)[k] == Dir(dir.root, dir.segments[..|dir.segments| - k])
              && !IsSlash(Probes(dir, fs, budget)[k])
    decreases budget
  {
    var p := Probes(dir, fs, budget);
    if !(IsSlash(dir) || budget == 0 || Join(dir, [NODE_MODULES]) in fs || Parent(dir) == dir) {
      var up := Parent(dir);
      ProbesClimb(up, fs, budget - 1);
      forall k | 0 <= k < |p| ensures p[k] == Dir(dir.root, dir.segments[..|dir.segments| - k]) && !IsSlash(p[k])
      {
        if k > 0 {
          assert p[k] == Probes(up, fs, budget - 1)[k - 1];
          assert up.segments[..|up.segments| - (k - 1)] == dir.segments[..|dir.segments| - k];
        } else {
          assert dir.segments[..|dir.segments|] == dir.segments;
        }
      }
    } else if p != [] {
      assert dir.segments[..|dir.segments|] == dir.segments;
    }
  }

  /**
   * The walk returns the `node_modules` of the first directory it looks in
   * that has one; when none of them has one, it returns `./node_modules`.
   */
  lemma {:induction false} FindReturnsFirstHit(dir: Dir, fs: set<Dir>, budget: nat)
    ensures FindNodeModules(dir, fs, budget).Absolute? <==>
              |Probes(dir, fs, budget)| > 0
              && Join(Probes(dir, fs, budget)[|Probes(dir, fs, budget)| - 1], [NODE_MODULES]) in fs
    ensures FindNodeModules(dir, fs, budget).Absolute? ==>
              FindNodeModules(dir, fs, budget).dir
              == Join(Probes(dir, fs, budget)[|Probes(dir, fs, budget)| - 1], [NODE_MODULES])
    ensures forall k :: 0 <= k < |Probes(dir, fs, budget)| - 1 ==>
              Join(Probes(dir, fs, budget)[k], [NODE_MODULES]) !in fs
    ensures FindNodeModules(dir, fs, budget).CwdRelative? ==>
              FindNodeModules(dir, fs, budget) == DEFAULT_NODE_MODULES
    decreases budget
  {
    if !(IsSlash(dir) || budget == 0 || Join(dir, [NODE_MODULES]) in fs || Parent(dir) == dir) {
      var up := Parent(dir);
      FindReturnsFirstHit(up, fs, budget - 1);
      var p := Probes(dir, fs, budget);
      var q := Probes(up, fs, budget - 1);
      assert p == [dir] + q;
      forall k | 0 <= k < |p| - 1 ensures Join(p[k], [NODE_MODULES]) !in fs {
        if k > 0 { assert p[k] == q[k - 1]; }
      }
    }
  }

  /** The directory `k` levels above `d`. */
  function Up(d: Dir, k: nat): Dir
    requires k <= |d.segments|
  {
    Dir(d.root, d.segments[..|d.segments| - k])
  }

  /**
   * The walk misses no `node_modules` within reach: when the directory `k`
   * levels up has one, `k` is below the budget and none of the directories
   * from `dir` up to it is `/`, the walk returns the `node_modules` of a
   * directory at most `k` levels up.
   */
  lemma {:induction false} FindSeesEveryAncestor(dir: Dir, fs: set<Dir>, budget: nat, k: nat)
    requires k < budget && k <= |dir.segments|
    requires forall j :: 0 <= j <= k ==> !IsSlash(Up(dir, j))
    requires Join(Up(dir, k), [NODE_MODULES]) in fs
    ensures exists j :: 0 <= j <= k && FindNodeModules(dir, fs, budget) == Absolute(Join(Up(dir, j), [NODE_MODULES]))
    decreases k
  {
    assert Up(dir, 0) == dir by { assert dir.segments[..|dir.segments|] == dir.segments; }
    if k > 0 && Join(dir, [NODE_MODULES]) !in fs {
      var up := Parent(dir);
      forall j | 0 <= j <= k - 1 ensures Up(up, j) == Up(dir, j + 1) {
        assert up.segments[..|up.segments| - j] == dir.segments[..|dir.segments| - (j + 1)];
      }
      FindSeesEveryAncestor(up, fs, budget - 1, k - 1);
      var j :| 0 <= j <= k - 1 && FindNodeModules(up, fs, budget - 1) == Absolute(Join(Up(up, j), [NODE_MODULES]));
      assert Up(up, j) == Up(dir, j + 1);
    }
  }

  /** Two filesystems that agree on every directory the walk inspects give the same walk. */
  lemma {:induction false} FindAgrees(dir: Dir, fs: set<Dir>, fs': set<Dir>, budget: nat)
    requires forall k :: 0 <= k < |Probes(dir, fs, budget)| ==>
               (Join(Probes(dir, fs, budget)[k], [NODE_MODULES]) in fs
                <==> Join(Probes(dir, fs, budget)[k], [NODE_MODULES]) in fs')
    ensures FindNodeModules(dir, fs', budget) == FindNodeModules(dir, fs, budget)
    decreases budget
  {
    var p := Probes(dir, fs, budget);
    if !(IsSlash(dir) || budget == 0) {
      assert p[0] == dir;
      if !(Join(dir, [NODE_MODULES]) in fs || Parent(dir) == dir) {
        var q := Probes(Parent(dir), fs, budget - 1);
        forall k | 0 <= k < |q|
          ensures Join(q[k], [NODE_MODULES]) in fs <==> Join(q[k], [NODE_MODULES]) in fs'
        {
          assert q[k] == p[k + 1];
        }
        FindAgrees(Parent(dir), fs, fs', budget - 1);
      }
    }
  }

  /**
   * A walk that found nothing, repeated after only `c`'s node_modules may have
   * appeared, finds nothing or finds exactly that one.
   */
  lemma {:induction false} FindAfterOneNew(dir: Dir, fs: set<Dir>, fs': set<Dir>, c: Dir, budget: nat)
    requires FindNodeModules(dir, fs, budget) == DEFAULT_NODE_MODULES
    requires forall k :: 0 <= k < |Probes(dir, fs, budget)| ==>
               Join(Probes(dir, fs, budget)[k], [NODE_MODULES]) in fs'
               ==> Join(Probes(dir, fs, budget)[k], [NODE_MODULES]) in fs || Probes(dir, fs, budget)[k] == c
    ensures FindNodeModules(dir, fs', budget) in {DEFAULT_NODE_MODULES, Absolute(Join(c, [NODE_MODULES]))}
    decreases budget
  {
    var p := Probes(dir, fs, budget);
    if !(IsSlash(dir) || budget == 0) {
      assert p[0] == dir;
      if !(Join(dir, [NODE_MODULES]) in fs' || Parent(dir) == dir) {
        var q := Probes(Parent(dir), fs, budget - 1);
        forall k | 0 <= k < |q|
          ensures Join(q[k], [NODE_MODULES]) in fs' ==> Join(q[k], [NODE_MODULES]) in fs || q[k] == c
        {
          assert q[k] == p[k + 1];
        }
        FindAfterOneNew(Parent(dir), fs, fs', c, budget - 1);
      }
    }
  }

  /** Every directory on the way from a root down to `d`, `d` included (`mkdir -p`). */
  function Ancestors(d: Dir): set<Dir> {
    set i | 0 <= i <= |d.segments| :: Dir(d.root, d.segments[..i])
  }

  /** No directory a walk inspects gets a new node_modules from creating `.cache/orbiting` under `base`. */
  lemma CreatedHasNoOtherNodeModules(base: Dir, q: Dir)
    requires |q.segments| > |base.segments|
    ensures Join(q, [NODE_MODULES]) !in Ancestors(Join(base, [NODE_MODULES] + CACHE_SUBPATH))
  {
    var x := Join(base, [NODE_MODULES] + CACHE_SUBPATH);
    forall i | 0 <= i <= |x.segments| ensures Dir(x.root, x.segments[..i]) != Join(q, [NODE_MODULES]) {
      if i == |q.segments| + 1 {
        assert x.segments[..i][i - 1] != NODE_MODULES;
      }
    }
  }

  /**
   * `getCacheFolder`: find node_modules, create `.cache/orbiting` below it
   * (with every missing directory above), then walk again and return that
   * walk's `.cache/orbiting`. The second walk names the folder the first one
   * created, provided the working directory and the directories above it exist.
   */
  method GetCacheFolder(start: Dir, cwd: Dir, fs: set<Dir>) returns (folder: Location, fs': set<Dir>)
    ensures var created := Resolve(Extend(FindNodeModules(start, fs, MAX_WALK_COUNT), CACHE_SUBPATH), cwd);
            fs' == fs + Ancestors(created)
            && (Ancestors(cwd) <= fs ==> Resolve(folder, cwd) == created && created in fs')
  {
    var first := GetNodeModules(start, fs);
    var cacheFolder := Resolve(Extend(first, CACHE_SUBPATH), cwd);
    fs' := fs + Ancestors(cacheFolder);
    var second := GetNodeModules(start, fs');
    folder := Extend(second, CACHE_SUBPATH);
    assert cacheFolder.segments[..|cacheFolder.segments|] == cacheFolder.segments;
    if Ancestors(cwd) <= fs {
      SecondWalkSameFolder(start, cwd, fs, MAX_WALK_COUNT);
      assert Join(cwd, [NODE_MODULES] + CACHE_SUBPATH) == Join(Join(cwd, [NODE_MODULES]), CACHE_SUBPATH);
    }
  }

  lemma SecondWalkSameFolder(start: Dir, cwd: Dir, fs: set<Dir>, budget: nat)
    requires Ancestors(cwd) <= fs
    ensures var first := FindNodeModules(start, fs, budget);
            var fs' := fs + Ancestors(Resolve(Extend(first, CACHE_SUBPATH), cwd));
            Resolve(Extend(FindNodeModules(start, fs', budget), CACHE_SUBPATH), cwd)
            == Resolve(Extend(first, CACHE_SUBPATH), cwd)
  {
    if FindNodeModules(start, fs, budget).Absolute? {
      SecondWalkAfterHit(start, fs, budget);
    } else {
      FindReturnsFirstHit(start, fs, budget);
      assert Join(cwd, [NODE_MODULES] + CACHE_SUBPATH) == Join(Join(cwd, [NODE_MODULES]), CACHE_SUBPATH);
      SecondWalkAfterFallback(start, cwd, fs, budget);
    }
  }

  /** When the walk found a node_modules, creating the cache folder below it changes nothing the walk sees. */
  lemma SecondWalkAfterHit(start: Dir, fs: set<Dir>, budget: nat)
    requires FindNodeModules(start, fs, budget).Absolute?
    ensures var fs' := fs + Ancestors(Join(FindNodeModules(start, fs, budget).dir, CACHE_SUBPATH));
            FindNodeModules(start, fs', budget) == FindNodeModules(start, fs, budget)
  {
    var p := Probes(start, fs, budget);
    ProbesClimb(start, fs, budget);
    FindReturnsFirstHit(start, fs, budget);
    var base := p[|p| - 1];
    var created := Join(base, [NODE_MODULES] + CACHE_SUBPATH);
    assert Join(FindNodeModules(start, fs, budget).dir, CACHE_SUBPATH) == created;
    var fs' := fs + Ancestors(created);
    forall k | 0 <= k < |p|
      ensures Join(p[k], [NODE_MODULES]) in fs <==> Join(p[k], [NODE_MODULES]) in fs'
    {
      if k < |p| - 1 {
        CreatedHasNoOtherNodeModules(base, p[k]);
      }
    }
    FindAgrees(start, fs, fs', budget);
  }

  /**
   * When the walk fell back to `./node_modules`, creating the cache folder in
   * the working directory can only make the next walk find that same folder.
   */
  lemma SecondWalkAfterFallback(start: Dir, cwd: Dir, fs: set<Dir>, budget: nat)
    requires Ancestors(cwd) <= fs
    requires FindNodeModules(start, fs, budget).CwdRelative?
    ensures var fs' := fs + Ancestors(Join(cwd, [NODE_MODULES] + CACHE_SUBPATH));
            FindNodeModules(start, fs', budget) in {DEFAULT_NODE_MODULES, Absolute(Join(cwd, [NODE_MODULES]))}
  {
    var p := Probes(start, fs, budget);
    ProbesClimb(start, fs, budget);
    var created := Join(cwd, [NODE_MODULES] + CACHE_SUBPATH);
    var fs' := fs + Ancestors(created);
    forall k | 0 <= k < |p|
      ensures Join(p[k], [NODE_MODULES]) in fs' ==> Join(p[k], [NODE_MODULES]) in fs || p[k] == cwd
    {
      var nm := Join(p[k], [NODE_MODULES]);
      if |p[k].segments| > |cwd.segments| {
        CreatedHasNoOtherNodeModules(cwd, p[k]);
      } else if nm in Ancestors(created) {
        var i :| 0 <= i <= |created.segments| && Dir(created.root, created.segments[..i]) == nm;
        if i <= |cwd.segments| {
          assert created.segments[..i] == cwd.segments[..i];
          assert nm in Ancestors(cwd);
        } else {
          assert p[k].segments == nm.segments[..i - 1] == cwd.segments;
        }
      }
    }
    FindReturnsFirstHit(start, fs, budget);
    FindAfterOneNew(start, fs, fs', cwd, budget);
  }

  // ---------------------------------------------------------------------------
  // The hash store
  // ---------------------------------------------------------------------------

  /** A content hash as `object-hash` renders it. */
  type Hash = string

  /** `latest-<key>-hash.txt`, the file that holds the stored hash for `key`. */
  function CacheFileName(key: string): string {
    "latest-" + key + "-hash.txt"
  }

  /**
   * Whether `latest-<key>-hash.txt` is a file directly in the cache folder.
   * `path.join` reads a `/` in the key as a separator, which puts the file in
   * a subdirectory `latest-...` that nothing ever creates, so reading it and
   * writing it both fail.
   */
  predicate InFolder(key: string) {
    '/' !in key
  }

  /** Distinct keys never share a cache file. */
  lemma CacheFileNameInjective(k1: string, k2: string)
    requires CacheFileName(k1) == CacheFileName(k2)
    ensures k1 == k2
  {
    var f := CacheFileName(k1);
    assert k1 == f[7..|f| - 9];
    assert k2 == CacheFileName(k2)[7..|f| - 9];
  }

  /**
   * Reference definition of one `isNewCacheObject(key, obj)` call: whether
   * `obj` counts as new, and the stored hashes afterwards. `hashFn` is None
   * when the hashing library could not be loaded; `writable` says whether
   * writing the cache file succeeds.
   */
  function Consult(hashFn: Option<Value -> Hash>, writable: bool, entries: map<string, Hash>,
                   key: string, obj: Value): (bool, map<string, Hash>)
  {
    match hashFn
    case None => (true, entries)
    case Some(hash) =>
      var file := CacheFileName(key);
      if InFolder(key) && file in entries && entries[file] == hash(obj) then (false, entries)
      else (true, if writable && InFolder(key) then entries[file := hash(obj)] else entries)
  }

  /** The stored hashes, one file per cache key, in the cache folder. */
  class Store {
    /** `object-hash`, or None when its import failed. */
    const hashFn: Option<Value -> Hash>
    /** Whether writing a cache file succeeds. */
    const writable: bool
    /** The cache folder's files: file name to content (an unreadable file is absent). */
    var entries: map<string, Hash>

    constructor(hashFn: Option<Value -> Hash>, writable: bool, entries: map<string, Hash>)
      ensures this.hashFn == hashFn && this.writable == writable && this.entries == entries
    {
      this.hashFn := hashFn;
      this.writable := writable;
      this.entries := entries;
    }

    /** `isNewCacheObject`: is `obj` new since the last call for `key`? Records its hash if so. */
    method IsNewCacheObject(key: string, obj: Value) returns (isNew: bool)
      modifies this
      ensures (isNew, entries) == Consult(hashFn, writable, old(entries), key, obj)
    {
      if hashFn.None? {
        return true;
      }
      var hash := hashFn.value(obj);
      var cacheFile := CacheFileName(key);
      // A key with a `/` names a file in a missing subdirectory: both the read and the write fail.
      if InFolder(key) && cacheFile in entries {
        var savedHash := entries[cacheFile];
        if savedHash == hash {
          return false;
        }
      }
      if writable && InFolder(key) {
        entries := entries[cacheFile := hash];
      }
      return true;
    }
  }

  /** Without the hashing library every object is new and nothing is read or written. */
  lemma ConsultFailsOpen(writable: bool, entries: map<string, Hash>, key: string, obj: Value)
    ensures Consult(None, writable, entries, key, obj) == (true, entries)
  {
  }

  /**
   * With the hashing library: the object is new exactly when no readable hash
   * equal to its own is stored for `key`; an unchanged object leaves the store
   * alone, a new one is recorded unless the write fails, and a failed write
   * still answers "new". A key with a `/` is always new and never recorded.
   */
  lemma ConsultCompares(hash: Value -> Hash, writable: bool, entries: map<string, Hash>, key: string, obj: Value)
    ensures var (isNew, after) := Consult(Some(hash), writable, entries, key, obj);
            var file := CacheFileName(key);
            (isNew <==> !(InFolder(key) && file in entries && entries[file] == hash(obj)))
            && (!isNew ==> after == entries)
            && (isNew && writable && InFolder(key) ==> after == entries[file := hash(obj)])
            && (!writable || !InFolder(key) ==> after == entries)
  {
  }

  /** Only the file of `key` may change; every other key's stored hash stays as it was. */
  lemma ConsultTouchesOnlyKey(hashFn: Option<Value -> Hash>, writable: bool, entries: map<string, Hash>,
                              key: string, obj: Value, other: string)
    requires other != key
    ensures var after := Consult(hashFn, writable, entries, key, obj).1;
            (CacheFileName(other) in after <==> CacheFileName(other) in entries)
            && (CacheFileName(other) in entries ==> after[CacheFileName(other)] == entries[CacheFileName(other)])
  {
    if CacheFileName(other) == CacheFileName(key) {
      CacheFileNameInjective(other, key);
    }
  }

  /**
   * Two calls in a row for the same key: the first answers "new" (on an empty
   * slot) and records the hash, so the second answers "unchanged" for the same
   * object, unless the key holds a `/`, and "new" for one whose hash differs.
   */
  lemma ConsultTwice(hash: Value -> Hash, entries: map<string, Hash>, key: string, obj: Value, obj2: Value)
    requires CacheFileName(key) !in entries
    ensures var (first, after) := Consult(Some(hash), true, entries, key, obj);
            first
            && (Consult(Some(hash), true, after, key, obj).0 <==> !InFolder(key))
            && (hash(obj2) != hash(obj) ==> Consult(Some(hash), true, after, key, obj2).0)
  {
  }

  /** When the cache file cannot be written, every call answers "new". */
  lemma ConsultUnwritableAlwaysNew(hash: Value -> Hash, entries: map<string, Hash>, key: string, obj: Value)
    requires CacheFileName(key) !in entries
    ensures var (first, after) := Consult(Some(hash), false, entries, key, obj);
            first && after == entries && Consult(Some(hash), false, after, key, obj).0
  {
  }
}
