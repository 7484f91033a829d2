/**
 Concurrent lookups as a transition system. A lookup takes the lock to read the cache, and after a
 miss reads the clock, checks the file systems and takes the lock again to store what it found;
 other lookups, clears and changes of the timeout may come between any two of these steps.
 */
module StaticLookups {
  import opened Basics
  import opened StaticFileCache

  type Id = nat

  /** Where a lookup is; an answer came from the cache, under some timeout, or from a direct check. */
  datatype Pc =
    | Starting
    | Missed
    | Clocked(start: int)
    | Checked(entry: Entry)
    | Answered(finding: Finding, fromCache: bool, timeout: int)

  datatype Lookup = Lookup(path: string, began: int, pc: Pc)

  datatype State = State(clock: int, cache: Cache, timeout: int, lookups: map<Id, Lookup>)

  datatype Action =
    | Begin(id: Id, path: string)
    | Read(id: Id)
    | ReadClock(id: Id)
    | Stat(id: Id)
    | Store(id: Id, order: seq<string>)
    | Clear
    | SetTimeout(timeout: int)

  /** An action and the time at which it is taken. */
  datatype Label = Label(action: Action, at: int)

  datatype Config = Config(files: Files, maxSize: int, timeout: int, start: int)

  function Init(cfg: Config): State {
    State(cfg.start, map[], cfg.timeout, map[])
  }

  predicate IsAt(s: State, id: Id, pc: Pc) {
    id in s.lookups && s.lookups[id].pc == pc
  }

  ghost predicate Guard(s: State, a: Action) {
    match a
    case Begin(id, _) => id !in s.lookups
    case Read(id) => IsAt(s, id, Starting)
    case ReadClock(id) => IsAt(s, id, Missed)
    case Stat(id) => id in s.lookups && s.lookups[id].pc.Clocked?
    case Store(id, order) => id in s.lookups && s.lookups[id].pc.Checked? && Visits(order, s.cache)
    case Clear => true
    case SetTimeout(_) => true
  }

  /** The clock never runs backwards. */
  ghost predicate Enabled(s: State, l: Label) {
    s.clock <= l.at && Guard(s, l.action)
  }

  function Move(s: State, id: Id, pc: Pc): State
    requires id in s.lookups
  {
    s.(lookups := s.lookups[id := s.lookups[id].(pc := pc)])
  }

  /** A hit if there is an entry and it is not older than the timeout. */
  function AfterRead(s: State, path: string, now: int): Pc {
    if path in s.cache && now - s.cache[path].lastCheck <= s.timeout
    then Answered(s.cache[path].finding, true, s.timeout)
    else Missed
  }

  ghost function Do(cfg: Config, s: State, l: Label): State
    requires Enabled(s, l)
  {
    var s := s.(clock := l.at);
    match l.action
    case Begin(id, path) => s.(lookups := s.lookups[id := Lookup(path, l.at, Starting)])
    case Read(id) => Move(s, id, AfterRead(s, s.lookups[id].path, l.at))
    case ReadClock(id) => Move(s, id, Clocked(l.at))
    case Stat(id) =>
      Move(s, id, Checked(Entry(Direct(cfg.files, s.lookups[id].path, l.at), s.lookups[id].pc.start)))
    case Store(id, order) =>
      var e := s.lookups[id].pc.entry;
      Move(s, id, Answered(e.finding, false, s.timeout))
        .(cache := Stored(s.cache, s.lookups[id].path, e, cfg.maxSize, order))
    case Clear => s.(cache := map[])
    case SetTimeout(timeout) => s.(timeout := timeout)
  }

  datatype Run = Run(states: seq<State>, actions: seq<Label>)

  ghost predicate Step(cfg: Config, s: State, l: Label, s': State) {
    Enabled(s, l) && s' == Do(cfg, s, l)
  }

  ghost predicate IsRun(cfg: Config, run: Run) {
    && |run.states| == |run.actions| + 1
    && run.states[0] == Init(cfg)
    && forall i {:trigger run.actions[i]} :: 0 <= i < |run.actions| ==>
         Step(cfg, run.states[i], run.actions[i], run.states[i + 1])
  }

  /** `s` is the `n`-th state of the run. */
  ghost predicate StateOf(cfg: Config, run: Run, n: nat, s: State) {
    IsRun(cfg, run) && n < |run.states| && s == run.states[n]
  }

  // ------------------------------------------------------------------ answers are true

  /** The earliest instant an answer may be about. */
  function Earliest(l: Lookup): int
    requires l.pc.Answered?
  {
    if l.pc.fromCache then l.began - l.pc.timeout else l.began
  }

  /** The answer is that of a direct check made no earlier than that. */
  ghost predicate Recent(files: Files, l: Lookup, now: int)
    requires l.pc.Answered?
  {
    exists t :: Earliest(l) <= t <= now && l.pc.finding == Direct(files, l.path, t)
  }

  ghost predicate TrueSoFar(files: Files, l: Lookup, now: int) {
    && l.began <= now
    && match l.pc
       case Starting => true
       case Missed => true
       case Clocked(start) => l.began <= start <= now
       case Checked(e) => l.began <= e.lastCheck && Honest(files, l.path, e, now)
       case Answered(_, _, _) => Recent(files, l, now)
  }

  ghost predicate LookupsTrue(files: Files, s: State) {
    forall id :: id in s.lookups ==> TrueSoFar(files, s.lookups[id], s.clock)
  }

  lemma TrueLater(files: Files, l: Lookup, now: int, later: int)
    requires TrueSoFar(files, l, now) && now <= later
    ensures TrueSoFar(files, l, later)
  {}

  lemma HonestAllLater(files: Files, cache: Cache, now: int, later: int)
    requires AllHonest(files, cache, now) && now <= later
    ensures AllHonest(files, cache, later)
  {
    forall p | p in cache ensures Honest(files, p, cache[p], later) {
      HonestLater(files, p, cache[p], now, later);
    }
  }

  /** Each step carries one lookup on: what that lookup is then is true as well. */
  lemma MovedIsTrue(cfg: Config, s: State, l: Label, id: Id)
    requires Enabled(s, l) && AllHonest(cfg.files, s.cache, s.clock) && LookupsTrue(cfg.files, s)
    requires id in Do(cfg, s, l).lookups
    ensures TrueSoFar(cfg.files, Do(cfg, s, l).lookups[id], l.at)
  {
    if id in s.lookups {
      TrueLater(cfg.files, s.lookups[id], s.clock, l.at);
    }
    if id in s.lookups && l.action == Read(id) {
      HitIsTrue(cfg.files, s, s.lookups[id], l.at);
    }
    if id in s.lookups && l.action == Stat(id) {
      StatIsHonest(cfg.files, s.lookups[id].path, s.lookups[id].pc.start, l.at);
    }
  }

  lemma StatIsHonest(files: Files, path: string, start: int, at: int)
    requires start <= at
    ensures Honest(files, path, Entry(Direct(files, path, at), start), at)
  {}

  lemma HitIsTrue(files: Files, s: State, l: Lookup, at: int)
    requires AllHonest(files, s.cache, s.clock) && s.clock <= at && l.began <= at
    ensures TrueSoFar(files, l.(pc := AfterRead(s, l.path, at)), at)
  {
    if AfterRead(s, l.path, at).Answered? {
      var e := s.cache[l.path];
      assert Honest(files, l.path, e, s.clock);
      var t :| e.lastCheck <= t <= s.clock && e.finding == Direct(files, l.path, t);
      assert l.began - s.timeout <= t <= at;
    }
  }

  lemma CacheStep(cfg: Config, s: State, l: Label)
    requires Enabled(s, l) && AllHonest(cfg.files, s.cache, s.clock) && LookupsTrue(cfg.files, s)
    ensures AllHonest(cfg.files, Do(cfg, s, l).cache, l.at)
  {
    HonestAllLater(cfg.files, s.cache, s.clock, l.at);
    if l.action.Store? {
      var lookup := s.lookups[l.action.id];
      assert TrueSoFar(cfg.files, lookup, s.clock);
      HonestLater(cfg.files, lookup.path, lookup.pc.entry, s.clock, l.at);
    }
  }

  /** Every cached answer is that of a direct check made since its lastCheck. */
  lemma {:induction false} RunIsHonest(cfg: Config, run: Run, n: nat, s: State)
    requires StateOf(cfg, run, n, s)
    ensures AllHonest(cfg.files, s.cache, s.clock) && LookupsTrue(cfg.files, s)
  {
    if n > 0 {
      var p, l := run.states[n - 1], run.actions[n - 1];
      RunIsHonest(cfg, run, n - 1, p);
      assert Step(cfg, p, l, s);
      CacheStep(cfg, p, l);
      forall id | id in s.lookups ensures TrueSoFar(cfg.files, s.lookups[id], s.clock) {
        MovedIsTrue(cfg, p, l, id);
      }
    }
  }

  /**
   Whatever else runs in between, the answer of a lookup is that of a direct check at an instant
   during the lookup, or, if it came from the cache, at most the timeout before it began.
   */
  lemma AnswerIsRecent(cfg: Config, run: Run, n: nat, s: State, id: Id)
    requires StateOf(cfg, run, n, s) && id in s.lookups && s.lookups[id].pc.Answered?
    ensures var l := s.lookups[id];
            exists t :: (if l.pc.fromCache then l.began - l.pc.timeout else l.began) <= t <= s.clock
                        && IsAnswer(cfg.files, l.path, t, l.pc.finding)
  {
    RunIsHonest(cfg, run, n, s);
    var l := s.lookups[id];
    assert Recent(cfg.files, l, s.clock);
    var t :| Earliest(l) <= t <= s.clock && l.pc.finding == Direct(cfg.files, l.path, t);
    DirectAnswers(cfg.files, l.path, t, l.pc.finding);
  }

  /** A hit is tested by its age at the read: its answer is at most the timeout older than that instant. */
  lemma HitIsRecent(cfg: Config, run: Run, n: nat, id: Id)
    requires IsRun(cfg, run) && n < |run.actions| && run.actions[n].action == Read(id)
    requires id in run.states[n + 1].lookups && run.states[n + 1].lookups[id].pc.Answered?
    ensures var s, l, readAt := run.states[n], run.states[n + 1].lookups[id], run.actions[n].at;
            && l.pc.fromCache && l.pc.timeout == s.timeout
            && exists t :: readAt - s.timeout <= t <= readAt && IsAnswer(cfg.files, l.path, t, l.pc.finding)
  {
    var s, a := run.states[n], run.actions[n];
    assert Step(cfg, s, a, run.states[n + 1]);
    RunIsHonest(cfg, run, n, s);
    var path := s.lookups[id].path;
    var e := s.cache[path];
    assert Honest(cfg.files, path, e, s.clock);
    var t :| e.lastCheck <= t <= s.clock && e.finding == Direct(cfg.files, path, t);
    DirectAnswers(cfg.files, path, t, e.finding);
    assert IsAnswer(cfg.files, path, t, run.states[n + 1].lookups[id].pc.finding);
  }

  /** A read is answered from the cache exactly if there is an entry that is not older than the timeout. */
  lemma ReadHitsIff(cfg: Config, run: Run, n: nat, id: Id)
    requires IsRun(cfg, run) && n < |run.actions| && run.actions[n].action == Read(id)
    ensures id in run.states[n].lookups && id in run.states[n + 1].lookups
    ensures var s, l := run.states[n], run.states[n + 1].lookups[id];
            var young := l.path in s.cache && run.actions[n].at <= s.cache[l.path].lastCheck + s.timeout;
            && l.path == s.lookups[id].path
            && (if young then l.pc.Answered? && l.pc.finding == s.cache[l.path].finding else l.pc.Missed?)
  {
    assert Step(cfg, run.states[n], run.actions[n], run.states[n + 1]);
  }

  /** The timeout in force: the last one set, or the one at the start. */
  function LastTimeout(cfg: Config, actions: seq<Label>): int {
    if actions == [] then cfg.timeout
    else
      var a := actions[|actions| - 1].action;
      if a.SetTimeout? then a.timeout else LastTimeout(cfg, actions[..|actions| - 1])
  }

  lemma {:induction false} TimeoutInForce(cfg: Config, run: Run, n: nat)
    requires IsRun(cfg, run) && n < |run.states|
    ensures run.states[n].timeout == LastTimeout(cfg, run.actions[..n])
  {
    if n > 0 {
      TimeoutInForce(cfg, run, n - 1);
      assert Step(cfg, run.states[n - 1], run.actions[n - 1], run.states[n]);
      assert run.actions[..n][..n - 1] == run.actions[..n - 1];
    }
  }

  /** The step stores this entry for the path. */
  predicate Stores(s: State, l: Label, path: string, e: Entry) {
    && l.action.Store? && l.action.id in s.lookups
    && s.lookups[l.action.id].path == path && s.lookups[l.action.id].pc == Checked(e)
  }

  /** What is cached was stored by a lookup of that path, after the last clear. */
  lemma {:induction false} CachedWasStored(cfg: Config, run: Run, n: nat, path: string) returns (i: nat)
    requires IsRun(cfg, run) && n < |run.states| && path in run.states[n].cache
    ensures i < n && Stores(run.states[i], run.actions[i], path, run.states[n].cache[path])
    ensures forall j :: i < j < n ==> run.actions[j].action != Clear
  {
    assert n > 0;
    var s, l := run.states[n - 1], run.actions[n - 1];
    assert Step(cfg, s, l, run.states[n]);
    if Stores(s, l, path, run.states[n].cache[path]) {
      i := n - 1;
    } else {
      i := CachedWasStored(cfg, run, n - 1, path);
    }
  }

  // ------------------------------------------------------------------ the cache is bounded

  predicate Named(l: Label) {
    l.action.Begin? ==> l.action.path != ""
  }

  ghost predicate Bounded(cfg: Config, s: State) {
    && (forall id :: id in s.lookups ==> s.lookups[id].path != "")
    && "" !in s.cache && |s.cache| <= Max(1, cfg.maxSize)
  }

  lemma BoundedStep(cfg: Config, s: State, l: Label)
    requires Enabled(s, l) && Bounded(cfg, s) && Named(l)
    ensures Bounded(cfg, Do(cfg, s, l))
  {
    if l.action.Store? {
      var lookup := s.lookups[l.action.id];
      StoredSize(s.cache, lookup.path, lookup.pc.entry, cfg.maxSize, l.action.order);
    }
  }

  /** With named paths only, the cache never holds more than max(1, maxCacheSize) entries. */
  lemma {:induction false} RunIsBounded(cfg: Config, run: Run, n: nat, s: State)
    requires StateOf(cfg, run, n, s) && forall i :: 0 <= i < |run.actions| ==> Named(run.actions[i])
    ensures Bounded(cfg, s)
  {
    if n > 0 {
      var p, l := run.states[n - 1], run.actions[n - 1];
      RunIsBounded(cfg, run, n - 1, p);
      assert Step(cfg, p, l, s);
      BoundedStep(cfg, p, l);
    }
  }

  // ------------------------------------------------------------------ eviction by age

  /** Not begun a second time before the first is answered. */
  ghost predicate OneAtATime(s: State) {
    forall a, b :: a in s.lookups && b in s.lookups && !s.lookups[a].pc.Answered? && !s.lookups[b].pc.Answered? ==> a == b
  }

  /** Facts in the cache are at most as new as `now`. */
  ghost predicate AllBy(cache: Cache, now: int) {
    forall p :: p in cache ==> cache[p].lastCheck <= now
  }

  /** The time that a lookup under way has read for its own fact. */
  function OwnTime(l: Lookup): Option<int> {
    match l.pc
    case Clocked(start) => Some(start)
    case Checked(e) => Some(e.lastCheck)
    case _ => None
  }

  /** Nothing in the cache is newer than the fact of a lookup under way. */
  ghost predicate InOrder(s: State) {
    && AllBy(s.cache, s.clock)
    && forall id :: id in s.lookups && OwnTime(s.lookups[id]).Some? ==>
         OwnTime(s.lookups[id]).value <= s.clock && AllBy(s.cache, OwnTime(s.lookups[id]).value)
  }

  lemma StoredBy(cache: Cache, path: string, e: Entry, maxSize: int, order: seq<string>, now: int)
    requires Visits(order, cache) && AllBy(cache, now) && e.lastCheck <= now
    ensures AllBy(Stored(cache, path, e, maxSize, order), now)
  {}

  lemma InOrderStep(cfg: Config, s: State, l: Label)
    requires Enabled(s, l) && InOrder(s) && OneAtATime(s)
    ensures InOrder(Do(cfg, s, l))
  {
    var t := Do(cfg, s, l);
    assert AllBy(s.cache, l.at);
    if l.action.Store? {
      var id := l.action.id;
      StoredBy(s.cache, s.lookups[id].path, s.lookups[id].pc.entry, cfg.maxSize, l.action.order, l.at);
    }
    forall id | id in t.lookups && OwnTime(t.lookups[id]).Some?
      ensures OwnTime(t.lookups[id]).value <= t.clock && AllBy(t.cache, OwnTime(t.lookups[id]).value)
    {
      assert l.action.Store? ==> id != l.action.id && !s.lookups[id].pc.Answered?;
    }
  }

  lemma {:induction false} RunInOrder(cfg: Config, run: Run, n: nat, s: State)
    requires StateOf(cfg, run, n, s) && forall i :: 0 <= i < n ==> OneAtATime(run.states[i])
    ensures InOrder(s)
  {
    if n > 0 {
      var p, l := run.states[n - 1], run.actions[n - 1];
      RunInOrder(cfg, run, n - 1, p);
      assert Step(cfg, p, l, s);
      InOrderStep(cfg, p, l);
    }
  }

  /** The store that a lookup makes keeps the newer facts. */
  ghost predicate StoreKeepsNewer(cfg: Config, s: State, l: Label)
    requires Enabled(s, l) && l.action.Store?
  {
    var lookup := s.lookups[l.action.id];
    KeepsNewer(s.cache, lookup.path, lookup.pc.entry, cfg.maxSize, l.action.order)
  }

  /** Lookups of named paths that do not overlap never evict a fact that is newer than one they keep. */
  lemma OneAtATimeKeepsNewer(cfg: Config, run: Run, n: nat)
    requires IsRun(cfg, run) && n < |run.actions| && run.actions[n].action.Store?
    requires forall i :: 0 <= i <= n ==> OneAtATime(run.states[i])
    requires forall i :: 0 <= i < |run.actions| ==> Named(run.actions[i])
    ensures Enabled(run.states[n], run.actions[n]) && StoreKeepsNewer(cfg, run.states[n], run.actions[n])
  {
    var s, l := run.states[n], run.actions[n];
    assert Step(cfg, s, l, run.states[n + 1]);
    RunInOrder(cfg, run, n, s);
    RunIsBounded(cfg, run, n, s);
    var lookup := s.lookups[l.action.id];
    assert OwnTime(lookup) == Some(lookup.pc.entry.lastCheck);
    KeepsNewerIff(s.cache, lookup.path, lookup.pc.entry, cfg.maxSize, l.action.order);
  }

  // ------------------------------------------------------------------ lookups that overlap

  function End(run: Run): State
    requires run.states != []
  {
    run.states[|run.states| - 1]
  }

  /** One more step at the end of a run. */
  lemma Extend(cfg: Config, run: Run, a: Action, at: int, s: State) returns (longer: Run)
    requires IsRun(cfg, run) && Step(cfg, End(run), Label(a, at), s)
    ensures longer == Run(run.states + [s], run.actions + [Label(a, at)])
    ensures IsRun(cfg, longer) && End(longer) == s
  {
    longer := Run(run.states + [s], run.actions + [Label(a, at)]);
  }

  /** A path of its own for each lookup from 1 on. */
  function Path(i: nat): string {
    seq(i, _ => 'x')
  }

  const STALLED: string := "y"

  /** Lookup 0 has read its clock at 1 and stalled; since then, at 2, lookups 1 to `k` have filled the cache. */
  ghost predicate Filled(s: State, k: nat) {
    && s.clock == 2
    && IsAt(s, 0, Clocked(1)) && s.lookups[0].path == STALLED
    && (forall id :: id in s.lookups ==> id <= k)
    && |s.cache| == k
    && (forall p :: p in s.cache ==> 1 <= |p| <= k && p == Path(|p|) && s.cache[p].lastCheck == 2)
  }

  lemma Stall(cfg: Config) returns (run: Run)
    requires cfg.start == 0
    ensures IsRun(cfg, run) && Filled(End(run).(clock := 2), 0) && End(run).clock == 1
  {
    var s, l := Init(cfg), Lookup(STALLED, 0, Starting);
    run := Run([s], []);
    run := Extend(cfg, run, Begin(0, STALLED), 0, s.(lookups := map[0 := l]));
    run := Extend(cfg, run, Read(0), 0, s.(lookups := map[0 := l.(pc := Missed)]));
    run := Extend(cfg, run, ReadClock(0), 1, s.(clock := 1, lookups := map[0 := l.(pc := Clocked(1))]));
  }

  /** The state after a whole lookup that misses, taken at one instant. */
  ghost function AfterMiss(cfg: Config, s: State, id: Id, path: string, at: int, order: seq<string>): State
    requires Visits(order, s.cache)
  {
    var e := Entry(Direct(cfg.files, path, at), at);
    s.(clock := at, cache := Stored(s.cache, path, e, cfg.maxSize, order),
       lookups := s.lookups[id := Lookup(path, at, Answered(e.finding, false, s.timeout))])
  }

  lemma OneLookup(cfg: Config, run: Run, id: Id, path: string, at: int, order: seq<string>) returns (longer: Run)
    requires IsRun(cfg, run) && End(run).clock <= at
    requires id !in End(run).lookups && path !in End(run).cache && Visits(order, End(run).cache)
    ensures IsRun(cfg, longer) && End(longer) == AfterMiss(cfg, End(run), id, path, at, order)
  {
    var s, l, e := End(run).(clock := at), Lookup(path, at, Starting), Entry(Direct(cfg.files, path, at), at);
    longer := Extend(cfg, run, Begin(id, path), at, s.(lookups := s.lookups[id := l]));
    longer := Extend(cfg, longer, Read(id), at, s.(lookups := s.lookups[id := l.(pc := Missed)]));
    longer := Extend(cfg, longer, ReadClock(id), at, s.(lookups := s.lookups[id := l.(pc := Clocked(at))]));
    longer := Extend(cfg, longer, Stat(id), at, s.(lookups := s.lookups[id := l.(pc := Checked(e))]));
    var last := AfterMiss(cfg, End(run), id, path, at, order);
    longer := Extend(cfg, longer, Store(id, order), at, last);
  }

  lemma {:induction false} Fill(cfg: Config, k: nat) returns (run: Run)
    requires cfg.start == 0 && k <= cfg.maxSize
    ensures IsRun(cfg, run) && End(run).clock <= 2 && Filled(End(run).(clock := 2), k)
  {
    if k == 0 {
      run := Stall(cfg);
    } else {
      var before := Fill(cfg, k - 1);
      assert Path(k) !in End(before).cache;
      var order := SomeOrder(End(before).cache.Keys);
      Sizes(End(before).cache);
      run := OneLookup(cfg, before, k, Path(k), 2, order);
      FilledNext(End(before), k, End(run), cfg.files);
    }
  }

  lemma FilledNext(s: State, k: nat, t: State, files: Files)
    requires k > 0 && Filled(s.(clock := 2), k - 1) && Path(k) !in s.cache
    requires var e := Entry(Direct(files, Path(k), 2), 2);
             t == s.(clock := 2, cache := s.cache[Path(k) := e],
                     lookups := s.lookups[k := Lookup(Path(k), 2, Answered(e.finding, false, s.timeout))])
    ensures Filled(t, k)
  {
    Sizes(s.cache);
    Sizes(t.cache);
    assert t.cache.Keys == s.cache.Keys + {Path(k)};
  }

  /**
   For a cache of any size: a lookup reads its clock and stalls, as many others as there is room for
   finish after it, and then its store evicts a newer fact than the one it keeps.
   */
  lemma OverlapEvictsNewer(files: Files, maxSize: nat, timeout: int) returns (run: Run, l: Label, gone: string)
    requires maxSize >= 1
    ensures var cfg := Config(files, maxSize, timeout, 0);
            && IsRun(cfg, run) && Enabled(End(run), l) && l.action.Store?
            && !StoreKeepsNewer(cfg, End(run), l)
            && gone in End(run).cache && gone !in Do(cfg, End(run), l).cache
            && End(run).cache[gone].lastCheck == 2
            && STALLED in Do(cfg, End(run), l).cache && Do(cfg, End(run), l).cache[STALLED].lastCheck == 1
  {
    var cfg := Config(files, maxSize, timeout, 0);
    run := Fill(cfg, maxSize);
    var s := End(run);
    var e := Entry(Direct(files, STALLED, 3), 1);
    var t := s.(clock := 3, lookups := s.lookups[0 := s.lookups[0].(pc := Checked(e))]);
    run := Extend(cfg, run, Stat(0), 3, t);
    var order := SomeOrder(t.cache.Keys);
    Sizes(t.cache);
    l := Label(Store(0, order), 4);
    gone := Scan(t.cache, order);
    FullEvicts(t.cache, order, maxSize, e);
  }

  lemma FullEvicts(cache: Cache, order: seq<string>, maxSize: nat, e: Entry)
    requires Visits(order, cache) && |cache| == maxSize >= 1 && e.lastCheck < 2
    requires forall p :: p in cache ==> 1 <= |p| && p == Path(|p|) && cache[p].lastCheck == 2
    ensures var gone := Scan(cache, order);
            && gone in cache && gone !in Stored(cache, STALLED, e, maxSize, order)
            && !KeepsNewer(cache, STALLED, e, maxSize, order)
  {
    assert forall i: nat :: i >= 1 ==> Path(i)[0] == 'x';
    assert STALLED !in cache && "" !in cache;
    assert cache != map[];
    OldestGoes(cache, order);
    KeepsNewerIff(cache, STALLED, e, maxSize, order);
  }

  // ------------------------------------------------------------------ the empty path

  /** The empty path was looked up at 1, and since then, at 2, the paths of lookups 1 to `k`. */
  ghost predicate EmptyFirst(s: State, k: nat) {
    && s.clock <= 2 && (forall id :: id in s.lookups ==> id <= k)
    && |s.cache| == k + 1 && "" in s.cache && s.cache[""].lastCheck == 1
    && forall p :: p in s.cache && p != "" ==> |p| <= k && s.cache[p].lastCheck == 2
  }

  /**
   If the empty path is looked up as well, the cache can grow without bound: it is the oldest, and
   when the map is visited so that it comes last, nothing is ever evicted.
   */
  lemma {:induction false} EmptyPathOverflows(cfg: Config, k: nat) returns (run: Run)
    requires cfg.start == 0
    ensures IsRun(cfg, run) && EmptyFirst(End(run), k)
  {
    if k == 0 {
      run := Run([Init(cfg)], []);
      run := OneLookup(cfg, run, 0, "", 1, []);
    } else {
      var before := EmptyPathOverflows(cfg, k - 1);
      var s := End(before);
      EvictsOldestIff(s.cache);
      var order :| Visits(order, s.cache) && Evicted(s.cache, order) == s.cache;
      run := OneLookup(cfg, before, k, Path(k), 2, order);
      Sizes(s.cache);
      Sizes(End(run).cache);
      assert End(run).cache.Keys == s.cache.Keys + {Path(k)};
    }
  }
}
