/**
 The cache in front of the file-existence check. The file systems are functions of time; clock
 readings are parameters.
 */
module StaticFileCache {
  import opened Basics

  datatype Finding = Finding(present: bool, isExternal: bool)

  /** What stat answers for one path. */
  datatype Place = Missing | Directory | File

  /** The external directory changes with time, the embedded files do not; each may be absent. */
  datatype Files = Files(hasExternal: bool, external: (string, int) -> Place, hasEmbedded: bool, embedded: string -> Place)

  function Direct(files: Files, path: string, t: int): Finding {
    if files.hasExternal && files.external(path, t) == File then Finding(true, true)
    else Finding(files.hasEmbedded && files.embedded(path) == File, false)
  }

  /** `f` is what the file systems answer at `t`: files only, and the external one first. */
  predicate IsAnswer(files: Files, path: string, t: int, f: Finding) {
    && (f.present <==>
          || (files.hasExternal && files.external(path, t) == File)
          || (files.hasEmbedded && files.embedded(path) == File))
    && (f.isExternal <==> files.hasExternal && files.external(path, t) == File)
  }

  lemma DirectAnswers(files: Files, path: string, t: int, f: Finding)
    ensures f == Direct(files, path, t) <==> IsAnswer(files, path, t, f)
  {}

  datatype Entry = Entry(finding: Finding, lastCheck: int)

  type Cache = map<string, Entry>

  // ------------------------------------------------------------------ eviction

  ghost predicate Within(order: seq<string>, cache: Cache) {
    forall p :: p in order ==> p in cache
  }

  lemma WithinFront(order: seq<string>, cache: Cache)
    requires Within(order, cache) && order != []
    ensures Within(order[..|order| - 1], cache) && order[|order| - 1] in cache
  {}

  /** The path in hand after a scan of the cache in this order; "" stands for none yet. */
  ghost function Scan(cache: Cache, order: seq<string>): (held: string)
    requires Within(order, cache)
    ensures held == "" || held in cache
  {
    if order == [] then ""
    else
      WithinFront(order, cache);
      var p, held := order[|order| - 1], Scan(cache, order[..|order| - 1]);
      if held == "" || cache[p].lastCheck < cache[held].lastCheck then p else held
  }

  /** `order` visits every path of the cache once. */
  ghost predicate Visits(order: seq<string>, cache: Cache) {
    && Within(order, cache)
    && (forall p :: p in cache ==> p in order)
    && |order| == |cache|
  }

  ghost function Evicted(cache: Cache, order: seq<string>): Cache
    requires Visits(order, cache)
  {
    if Scan(cache, order) == "" then cache else cache - {Scan(cache, order)}
  }

  ghost predicate IsOldest(cache: Cache, path: string) {
    path in cache && forall p :: p in cache ==> cache[path].lastCheck <= cache[p].lastCheck
  }

  /** The entry for the empty path is older than every other. */
  ghost predicate EmptyPathOldest(cache: Cache) {
    "" in cache && forall p :: p in cache && p != "" ==> cache[""].lastCheck < cache[p].lastCheck
  }

  lemma {:induction false} ScanNamed(cache: Cache, order: seq<string>)
    requires Within(order, cache) && "" !in order
    ensures order != [] ==> Scan(cache, order) != ""
  {
    if order != [] {
      WithinFront(order, cache);
      ScanNamed(cache, order[..|order| - 1]);
    }
  }

  /** Once an oldest path with a name has been met, the scan holds one. */
  lemma {:induction false} ScanOldest(cache: Cache, order: seq<string>, best: string)
    requires Within(order, cache)
    requires best in order && best != "" && IsOldest(cache, best)
    ensures IsOldest(cache, Scan(cache, order)) && Scan(cache, order) != ""
  {
    var rest, p := order[..|order| - 1], order[|order| - 1];
    assert order == rest + [p];
    if best in rest {
      ScanOldest(cache, rest, best);
    }
  }

  lemma {:induction false} SomeOrder(paths: set<string>) returns (order: seq<string>)
    ensures |order| == |paths| && forall p :: p in order <==> p in paths
    decreases |paths|
  {
    order := [];
    if paths != {} {
      var p :| p in paths;
      var rest := SomeOrder(paths - {p});
      order := rest + [p];
    }
  }

  lemma {:induction false} SomeOldest(cache: Cache, paths: set<string>) returns (best: string)
    requires paths != {} && paths <= cache.Keys
    ensures best in paths && forall p :: p in paths ==> cache[best].lastCheck <= cache[p].lastCheck
    decreases |paths|
  {
    var p :| p in paths;
    best := p;
    if paths != {p} {
      var other := SomeOldest(cache, paths - {p});
      best := if cache[other].lastCheck < cache[p].lastCheck then other else p;
    }
  }

  /** In whatever order the map is visited, exactly one oldest entry goes, ... */
  ghost predicate EvictsOldest(cache: Cache, order: seq<string>)
    requires Visits(order, cache)
  {
    exists p :: IsOldest(cache, p) && Evicted(cache, order) == cache - {p}
  }

  /** ... unless the empty path is cached and is the oldest: then an order exists in which none goes. */
  lemma EvictsOldestIff(cache: Cache)
    requires cache != map[]
    ensures (forall order :: Visits(order, cache) ==> EvictsOldest(cache, order)) <==> !EmptyPathOldest(cache)
    ensures EmptyPathOldest(cache) ==> exists order :: Visits(order, cache) && Evicted(cache, order) == cache
  {
    if EmptyPathOldest(cache) {
      EmptyPathStops(cache);
    } else {
      forall order | Visits(order, cache) ensures EvictsOldest(cache, order) {
        OldestGoes(cache, order);
      }
    }
  }

  /** A named path that is at least as old as the empty one. */
  lemma NamedAsOld(cache: Cache) returns (q: string)
    requires cache != map[] && !EmptyPathOldest(cache)
    ensures q in cache && q != "" && ("" in cache ==> cache[q].lastCheck <= cache[""].lastCheck)
  {
    if "" in cache {
      q :| q in cache && q != "" && cache[q].lastCheck <= cache[""].lastCheck;
    } else {
      q :| q in cache.Keys;
    }
  }

  lemma OldestGoes(cache: Cache, order: seq<string>)
    requires cache != map[] && !EmptyPathOldest(cache) && Visits(order, cache)
    ensures EvictsOldest(cache, order)
    ensures Scan(cache, order) != "" && IsOldest(cache, Scan(cache, order))
    ensures |Evicted(cache, order)| == |cache| - 1
  {
    assert cache.Keys != {};
    var named := cache.Keys - {""};
    var q := NamedAsOld(cache);
    assert q in named;
    var best := SomeOldest(cache, named);
    assert IsOldest(cache, best);
    ScanOldest(cache, order, best);
    var gone := Scan(cache, order);
    assert Evicted(cache, order) == cache - {gone};
    assert Evicted(cache, order).Keys == cache.Keys - {gone};
    Sizes(cache);
    Sizes(Evicted(cache, order));
  }

  lemma {:induction false} Sizes(cache: Cache)
    ensures |cache| == |cache.Keys|
  {}

  lemma EmptyPathStops(cache: Cache)
    requires EmptyPathOldest(cache)
    ensures exists order :: Visits(order, cache) && Evicted(cache, order) == cache && !EvictsOldest(cache, order)
  {
    var front := SomeOrder(cache.Keys - {""});
    VisitsWithEmpty(cache, front);
    ScanNamed(cache, front);
    EmptyComesLast(cache, front);
    NoneGoes(cache, front + [""]);
  }

  lemma EmptyComesLast(cache: Cache, front: seq<string>)
    requires EmptyPathOldest(cache) && Within(front, cache) && Within(front + [""], cache) && "" !in front
    requires front != [] ==> Scan(cache, front) != ""
    ensures Scan(cache, front + [""]) == ""
  {
    assert (front + [""])[..|front|] == front;
  }

  lemma NoneGoes(cache: Cache, order: seq<string>)
    requires Visits(order, cache) && Scan(cache, order) == ""
    ensures Evicted(cache, order) == cache && !EvictsOldest(cache, order)
  {
    forall p ensures IsOldest(cache, p) ==> p in cache && p !in cache - {p} {}
  }

  lemma VisitsWithEmpty(cache: Cache, front: seq<string>)
    requires "" in cache && |front| == |cache.Keys - {""}|
    requires forall p :: p in front <==> p in cache && p != ""
    ensures Visits(front + [""], cache) && Within(front, cache)
  {
    assert |cache.Keys| == |cache.Keys - {""}| + 1;
    Sizes(cache);
  }

  // ------------------------------------------------------------------ storing

  /** Storing an entry: a full cache first evicts, even when the path is already there. */
  ghost function Stored(cache: Cache, path: string, e: Entry, maxSize: int, order: seq<string>): Cache
    requires Visits(order, cache)
  {
    (if |cache| >= maxSize then Evicted(cache, order) else cache)[path := e]
  }

  /** The entry's answer is what a direct check gave at some instant from its `lastCheck` to `now`. */
  ghost predicate Honest(files: Files, path: string, e: Entry, now: int) {
    exists t :: e.lastCheck <= t <= now && e.finding == Direct(files, path, t)
  }

  ghost predicate AllHonest(files: Files, cache: Cache, now: int) {
    forall p :: p in cache ==> Honest(files, p, cache[p], now)
  }

  lemma HonestLater(files: Files, path: string, e: Entry, now: int, later: int)
    requires Honest(files, path, e, now) && now <= later
    ensures Honest(files, path, e, later)
  {}

  lemma StoredSize(cache: Cache, path: string, e: Entry, maxSize: int, order: seq<string>)
    requires Visits(order, cache) && "" !in cache && path != "" && |cache| <= Max(1, maxSize)
    ensures "" !in Stored(cache, path, e, maxSize, order)
    ensures |Stored(cache, path, e, maxSize, order)| <= Max(1, maxSize)
  {
    var left := if |cache| >= maxSize then Evicted(cache, order) else cache;
    if |cache| >= maxSize && cache != map[] {
      OldestGoes(cache, order);
    }
    Sizes(left);
    Sizes(left[path := e]);
    assert left[path := e].Keys == left.Keys + {path};
  }

  /** Storing removes at most one other entry, and none that is newer than an entry it keeps. */
  lemma StoredKeepsNewer(cache: Cache, path: string, e: Entry, maxSize: int, order: seq<string>)
    requires Visits(order, cache) && "" !in cache
    ensures var after := Stored(cache, path, e, maxSize, order);
            && after[path] == e
            && (forall p :: p in after && p != path ==> p in cache && after[p] == cache[p])
            && (forall p, q :: p in cache && p !in after && q in cache ==> cache[p].lastCheck <= cache[q].lastCheck)
            && |cache.Keys - after.Keys| <= 1
  {
    if cache != map[] {
      OldestGoes(cache, order);
    }
    var gone := cache.Keys - Stored(cache, path, e, maxSize, order).Keys;
    assert gone <= {Scan(cache, order)};
    SubsetSize(gone, {Scan(cache, order)});
  }

  /** The entry that storing evicts, if any. */
  ghost function Victim(cache: Cache, maxSize: int, order: seq<string>): string
    requires Visits(order, cache)
  {
    if |cache| >= maxSize then Scan(cache, order) else ""
  }

  /** No evicted fact is newer than a fact that is kept, the one just stored included. */
  ghost predicate KeepsNewer(cache: Cache, path: string, e: Entry, maxSize: int, order: seq<string>)
    requires Visits(order, cache)
  {
    var gone, after := Victim(cache, maxSize, order), Stored(cache, path, e, maxSize, order);
    gone != "" ==> forall q :: q in after ==> cache[gone].lastCheck <= after[q].lastCheck
  }

  /**
   That holds of a store exactly if nothing is evicted, or the new fact is at least as new as the
   evicted one and no empty path is the oldest.
   */
  lemma KeepsNewerIff(cache: Cache, path: string, e: Entry, maxSize: int, order: seq<string>)
    requires Visits(order, cache) && path != ""
    ensures var gone := Victim(cache, maxSize, order);
            KeepsNewer(cache, path, e, maxSize, order) <==>
            gone == "" || (!EmptyPathOldest(cache) && cache[gone].lastCheck <= e.lastCheck)
  {
    var gone, after := Victim(cache, maxSize, order), Stored(cache, path, e, maxSize, order);
    if gone != "" {
      assert after[path] == e;
      if EmptyPathOldest(cache) {
        assert "" in after && after[""] == cache[""];
      } else {
        OldestGoes(cache, order);
        assert forall q :: q in after && q != path ==> q in cache && after[q] == cache[q];
      }
    }
  }

  // ------------------------------------------------------------------ the router

  class StaticFileRouter {
    var existenceCache: Cache
    var cacheTimeout: int
    const maxCacheSize: int
    const files: Files

    constructor (files: Files, cacheTimeout: int, maxCacheSize: int)
      ensures existenceCache == map[] && this.cacheTimeout == cacheTimeout
      ensures this.maxCacheSize == maxCacheSize && this.files == files
    {
      existenceCache := map[];
      this.files, this.cacheTimeout, this.maxCacheSize := files, cacheTimeout, maxCacheSize;
    }

    method GetCachedFileInfo(path: string, now: int) returns (cached: Entry, found: bool)
      ensures found <==> path in existenceCache && now - existenceCache[path].lastCheck <= cacheTimeout
      ensures found ==> cached == existenceCache[path]
    {
      cached, found := Entry(Finding(false, false), now), false;
      if path in existenceCache {
        if now - existenceCache[path].lastCheck > cacheTimeout {
          return;
        }
        return existenceCache[path], true;
      }
    }

    method CheckFileExistence(path: string, start: int, statAt: int) returns (e: Entry)
      requires start <= statAt
      ensures e == Entry(Direct(files, path, statAt), start)
      ensures e.finding.present <==>
              || (files.hasExternal && files.external(path, statAt) == File)
              || (files.hasEmbedded && files.embedded(path) == File)
      ensures e.finding.isExternal <==> files.hasExternal && files.external(path, statAt) == File
    {
      if files.hasExternal {
        if files.external(path, statAt) == File {
          return Entry(Finding(true, true), start);
        }
      }
      if files.hasEmbedded {
        if files.embedded(path) == File {
          return Entry(Finding(true, false), start);
        }
      }
      e := Entry(Finding(false, false), start);
    }

    /** Visits the map in some order. */
    method EvictOldestCacheEntry() returns (ghost order: seq<string>)
      modifies this`existenceCache
      ensures Visits(order, old(existenceCache))
      ensures existenceCache == Evicted(old(existenceCache), order)
    {
      var oldestPath, oldestTime := "", 0;
      var rest := existenceCache.Keys;
      order := [];
      while rest != {}
        invariant rest <= existenceCache.Keys && existenceCache == old(existenceCache)
        invariant forall p :: p in order <==> p in existenceCache && p !in rest
        invariant |order| + |rest| == |existenceCache.Keys|
        invariant oldestPath == Scan(existenceCache, order)
        invariant oldestPath != "" ==> oldestTime == existenceCache[oldestPath].lastCheck
        decreases |rest|
      {
        var path :| path in rest;
        assert (order + [path])[..|order|] == order;
        order, rest := order + [path], rest - {path};
        if oldestPath == "" || existenceCache[path].lastCheck < oldestTime {
          oldestPath, oldestTime := path, existenceCache[path].lastCheck;
        }
      }
      Sizes(existenceCache);
      if oldestPath != "" {
        existenceCache := existenceCache - {oldestPath};
      }
    }

    method SetCachedFileInfo(path: string, info: Entry) returns (ghost order: seq<string>)
      modifies this`existenceCache
      ensures Visits(order, old(existenceCache))
      ensures existenceCache == Stored(old(existenceCache), path, info, maxCacheSize, order)
    {
      if |existenceCache| >= maxCacheSize {
        order := EvictOldestCacheEntry();
      } else {
        order := SomeOrder(existenceCache.Keys);
        Sizes(existenceCache);
      }
      existenceCache := existenceCache[path := info];
    }

    /**
     The answer is what a direct check gives at some instant at most `cacheTimeout` before the call,
     or during the call.
     */
    method FileExists(path: string, now: int, start: int, statAt: int) returns (r: Finding)
      requires now <= start <= statAt
      requires AllHonest(files, existenceCache, now)
      modifies this`existenceCache
      ensures exists t :: (now - cacheTimeout <= t || now <= t) && t <= statAt && IsAnswer(files, path, t, r)
      ensures var hit := path in old(existenceCache) && now - old(existenceCache)[path].lastCheck <= cacheTimeout;
              if hit then r == old(existenceCache)[path].finding && existenceCache == old(existenceCache)
              else IsAnswer(files, path, statAt, r) && path in existenceCache && existenceCache[path] == Entry(r, start)
      ensures AllHonest(files, existenceCache, statAt)
      ensures path != "" && "" !in old(existenceCache) && |old(existenceCache)| <= Max(1, maxCacheSize) ==>
                "" !in existenceCache && |existenceCache| <= Max(1, maxCacheSize)
    {
      var cached, found := GetCachedFileInfo(path, now);
      if found {
        assert Honest(files, path, cached, now);
        ghost var t :| cached.lastCheck <= t <= now && cached.finding == Direct(files, path, t);
        DirectAnswers(files, path, t, cached.finding);
        return cached.finding;
      }
      var e := CheckFileExistence(path, start, statAt);
      ghost var before := existenceCache;
      ghost var order := SetCachedFileInfo(path, e);
      assert Honest(files, path, e, statAt);
      DirectAnswers(files, path, statAt, e.finding);
      if path != "" && "" !in before && |before| <= Max(1, maxCacheSize) {
        StoredSize(before, path, e, maxCacheSize, order);
      }
      r := e.finding;
    }

    method ClearCache()
      modifies this`existenceCache
      ensures existenceCache == map[]
    {
      existenceCache := map[];
    }

    method SetCacheTimeout(timeout: int)
      modifies this`cacheTimeout
      ensures cacheTimeout == timeout
    {
      cacheTimeout := timeout;
    }
  }
}
