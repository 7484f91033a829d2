/**
 What the in-memory session manager stores, as a value: sessions by id, and each user's list
 of session ids. Every operation is described by the set of sessions it removes or adds.
 */
module SessionStore {
  import opened Sequences

  datatype Status = Active | Expired | Revoked

  datatype Details = Details(tokenID: string, ipAddress: string, userAgent: string, permissions: seq<string>)

  datatype Record = Record(
    userID: string, details: Details, status: Status, createdAt: int, lastAccess: int, expiresAt: int)

  datatype Store = Store(sessions: map<string, Record>, lists: map<string, seq<string>>)

  datatype Config = Config(ttl: int, maxSessions: int)

  const EMPTY: Store := Store(map[], map[])

  // ------------------------------------------------------------------ invariant

  /** One user's list: not empty, no duplicates, that user's sessions, oldest first. */
  ghost predicate ListOk(st: Store, u: string, ids: seq<string>) {
    && ids != [] && NoDup(ids)
    && (forall id :: id in ids ==> id in st.sessions && st.sessions[id].userID == u)
    && OldestFirst(st.sessions, ids)
  }

  ghost predicate OldestFirst(sessions: map<string, Record>, ids: seq<string>) {
    forall i, j :: 0 <= i < j < |ids| && ids[i] in sessions && ids[j] in sessions ==>
      sessions[ids[i]].createdAt <= sessions[ids[j]].createdAt
  }

  /** Session `id` is active and in its user's list. */
  ghost predicate Indexed(st: Store, id: string) {
    && id in st.sessions && st.sessions[id].status == Active
    && st.sessions[id].userID in st.lists
    && id in st.lists[st.sessions[id].userID]
  }

  /** The two maps index each other. */
  ghost predicate Consistent(st: Store) {
    && (forall u {:trigger ListOk(st, u, st.lists[u])} :: u in st.lists ==> ListOk(st, u, st.lists[u]))
    && (forall id {:trigger Indexed(st, id)} :: id in st.sessions ==> Indexed(st, id))
  }

  function Cap(maxSessions: int): nat {
    if maxSessions < 1 then 1 else maxSessions
  }

  ghost predicate Capped(st: Store, maxSessions: int) {
    forall u :: u in st.lists ==> |st.lists[u]| <= Cap(maxSessions)
  }

  // ------------------------------------------------------------------ removal

  /** `ids` without the members of `dead`, in the same order. */
  function Keep(ids: seq<string>, dead: set<string>): seq<string> {
    if ids == [] then []
    else Keep(ids[..|ids| - 1], dead) + if ids[|ids| - 1] in dead then [] else [ids[|ids| - 1]]
  }

  function Without(st: Store, dead: set<string>): Store {
    Store(st.sessions - dead,
          map u | u in st.lists && Keep(st.lists[u], dead) != [] :: Keep(st.lists[u], dead))
  }

  lemma {:induction false} KeepMember(ids: seq<string>, dead: set<string>)
    ensures forall id :: id in Keep(ids, dead) <==> id in ids && id !in dead
    ensures |Keep(ids, dead)| <= |ids|
  {
    if ids != [] {
      KeepMember(ids[..|ids| - 1], dead);
      assert ids == ids[..|ids| - 1] + [ids[|ids| - 1]];
    }
  }

  lemma {:induction false} KeepNoDup(ids: seq<string>, dead: set<string>)
    requires NoDup(ids)
    ensures NoDup(Keep(ids, dead))
  {
    if ids != [] {
      var front, last := ids[..|ids| - 1], ids[|ids| - 1];
      KeepNoDup(front, dead);
      KeepMember(front, dead);
    }
  }

  lemma {:induction false} KeepOldestFirst(sessions: map<string, Record>, ids: seq<string>, dead: set<string>)
    requires OldestFirst(sessions, ids) && forall id :: id in ids ==> id in sessions
    ensures OldestFirst(sessions, Keep(ids, dead))
  {
    if ids != [] {
      var front, last := ids[..|ids| - 1], ids[|ids| - 1];
      KeepOldestFirst(sessions, front, dead);
      KeepMember(front, dead);
      var kept := Keep(front, dead);
      forall i | 0 <= i < |kept| ensures sessions[kept[i]].createdAt <= sessions[last].createdAt {
        assert kept[i] in kept;
        var k :| 0 <= k < |front| && front[k] == kept[i];
        assert ids[k] == kept[i];
      }
    }
  }

  lemma KeepListOk(st: Store, u: string, ids: seq<string>, dead: set<string>)
    requires ListOk(st, u, ids) && Keep(ids, dead) != []
    ensures ListOk(Without(st, dead), u, Keep(ids, dead))
  {
    KeepMember(ids, dead);
    KeepNoDup(ids, dead);
    KeepOldestFirst(st.sessions, ids, dead);
  }

  /** Removing any set of sessions keeps the store consistent and within its cap. */
  lemma WithoutConsistent(st: Store, dead: set<string>, max: int)
    requires Consistent(st)
    ensures Consistent(Without(st, dead))
    ensures Capped(st, max) ==> Capped(Without(st, dead), max)
  {
    var st' := Without(st, dead);
    forall u | u in st'.lists ensures ListOk(st', u, st'.lists[u]) && |st'.lists[u]| <= |st.lists[u]| {
      KeepListOk(st, u, st.lists[u], dead);
      KeepMember(st.lists[u], dead);
    }
    forall id | id in st'.sessions ensures Indexed(st', id) {
      assert Indexed(st, id);
      KeepMember(st.lists[st.sessions[id].userID], dead);
    }
  }

  lemma {:induction false} KeepTwice(ids: seq<string>, a: set<string>, b: set<string>)
    ensures Keep(Keep(ids, a), b) == Keep(ids, a + b)
  {
    if ids != [] {
      var front, last := ids[..|ids| - 1], ids[|ids| - 1];
      KeepTwice(front, a, b);
      if last !in a {
        var k := Keep(front, a);
        assert (k + [last])[..|k|] == k;
        assert Keep(k + [last], b) == Keep(k, b) + if last in b then [] else [last];
      } else {
        assert Keep(ids, a) == Keep(front, a);
        assert Keep(ids, a + b) == Keep(front, a + b);
      }
    }
  }

  /** Removals add up, so their order does not matter. */
  lemma WithoutTwice(st: Store, a: set<string>, b: set<string>)
    ensures Without(Without(st, a), b) == Without(st, a + b)
  {
    forall u | u in st.lists ensures Keep(Keep(st.lists[u], a), b) == Keep(st.lists[u], a + b) {
      KeepTwice(st.lists[u], a, b);
    }
    forall u | u in st.lists && Keep(st.lists[u], a) == [] ensures Keep(st.lists[u], a + b) == [] {
      assert Keep(Keep(st.lists[u], a), b) == [];
    }
  }

  lemma {:induction false} KeepAll(ids: seq<string>, dead: set<string>)
    requires forall id :: id in ids ==> id !in dead
    ensures Keep(ids, dead) == ids
  {
    if ids != [] {
      assert ids == ids[..|ids| - 1] + [ids[|ids| - 1]];
      KeepAll(ids[..|ids| - 1], dead);
    }
  }

  lemma {:induction false} KeepNone(ids: seq<string>, dead: set<string>)
    requires forall id :: id in ids ==> id in dead
    ensures Keep(ids, dead) == []
  {
    if ids != [] {
      KeepNone(ids[..|ids| - 1], dead);
    }
  }

  lemma {:induction false} KeepAllButOne(ids: seq<string>, i: nat)
    requires i < |ids| && NoDup(ids)
    ensures Keep(ids, {ids[i]}) == ids[..i] + ids[i + 1..]
  {
    var front, last := ids[..|ids| - 1], ids[|ids| - 1];
    assert ids == front + [last];
    if i == |ids| - 1 {
      KeepAll(front, {last});
    } else {
      KeepAllButOne(front, i);
      assert front[..i] == ids[..i];
      assert front[i + 1..] + [last] == ids[i + 1..];
    }
  }

  /** A list is untouched by removals that name none of its members. */
  lemma ListKept(st: Store, v: string, dead: set<string>)
    requires Consistent(st) && v in st.lists
    requires forall id :: id in dead && id in st.sessions ==> st.sessions[id].userID != v
    ensures Keep(st.lists[v], dead) == st.lists[v] && st.lists[v] != []
  {
    assert ListOk(st, v, st.lists[v]);
    KeepAll(st.lists[v], dead);
  }

  lemma WithoutNone(st: Store)
    requires Consistent(st)
    ensures Without(st, {}) == st
  {
    forall u | u in st.lists ensures Keep(st.lists[u], {}) == st.lists[u] && st.lists[u] != [] {
      ListKept(st, u, {});
    }
  }

  /** User `u`'s list becomes `rest`; an empty list is not kept. */
  function WithList(lists: map<string, seq<string>>, u: string, rest: seq<string>): map<string, seq<string>> {
    if rest == [] then lists - {u} else lists[u := rest]
  }

  /** The lists after removing `dead`, when only user `u`'s list loses members. */
  lemma WithoutOfUser(st: Store, u: string, dead: set<string>, rest: seq<string>)
    requires u in st.lists && Keep(st.lists[u], dead) == rest
    requires forall v :: v in st.lists && v != u ==> Keep(st.lists[v], dead) == st.lists[v] && st.lists[v] != []
    ensures Without(st, dead).lists == WithList(st.lists, u, rest)
  {
  }

  /** Removing one session takes it out of its user's list and leaves every other list alone. */
  lemma WithoutOne(st: Store, u: string, i: nat)
    requires Consistent(st) && u in st.lists && i < |st.lists[u]|
    ensures var rest := st.lists[u][..i] + st.lists[u][i + 1..];
            Without(st, {st.lists[u][i]}).lists == WithList(st.lists, u, rest)
  {
    var ids := st.lists[u];
    var rest := ids[..i] + ids[i + 1..];
    assert NoDup(ids) && st.sessions[ids[i]].userID == u by {
      assert ListOk(st, u, ids) && ids[i] in ids;
    }
    KeepAllButOne(ids, i);
    forall v | v in st.lists && v != u ensures Keep(st.lists[v], {ids[i]}) == st.lists[v] && st.lists[v] != [] {
      ListKept(st, v, {ids[i]});
    }
    WithoutOfUser(st, u, {ids[i]}, rest);
  }

  lemma WithoutNothing(st: Store, dead: set<string>)
    requires dead !! st.sessions.Keys
    requires forall v :: v in st.lists ==> Keep(st.lists[v], dead) == st.lists[v] && st.lists[v] != []
    ensures Without(st, dead) == st
  {
  }

  /** Removing an unknown id changes nothing. */
  lemma WithoutStranger(st: Store, id: string)
    requires Consistent(st) && id !in st.sessions
    ensures Without(st, {id}) == st
  {
    forall v | v in st.lists ensures Keep(st.lists[v], {id}) == st.lists[v] && st.lists[v] != [] {
      ListKept(st, v, {id});
    }
    WithoutNothing(st, {id});
  }

  lemma IndexedIn(st: Store, id: string)
    requires Consistent(st) && id in st.sessions
    ensures Indexed(st, id)
  {
  }

  // ------------------------------------------------------------------ creation

  function Added(st: Store, id: string, r: Record): Store {
    var others := if r.userID in st.lists then st.lists[r.userID] else [];
    Store(st.sessions[id := r], st.lists[r.userID := others + [id]])
  }

  /** What CreateSession evicts first. */
  function Evicted(st: Store, u: string, max: int): set<string> {
    if u in st.lists && |st.lists[u]| >= max && st.lists[u] != [] then {st.lists[u][0]} else {}
  }

  function Create(st: Store, max: int, id: string, r: Record): Store {
    Added(Without(st, Evicted(st, r.userID, max)), id, r)
  }

  ghost predicate NotAfter(st: Store, now: int) {
    forall id :: id in st.sessions ==> st.sessions[id].createdAt <= now
  }

  lemma AddedConsistent(st: Store, id: string, r: Record)
    requires Consistent(st) && id !in st.sessions && NotAfter(st, r.createdAt) && r.status == Active
    ensures Consistent(Added(st, id, r))
  {
    var st', u := Added(st, id, r), r.userID;
    forall v | v in st'.lists ensures ListOk(st', v, st'.lists[v]) {
      if v in st.lists {
        assert ListOk(st, v, st.lists[v]);
        assert id !in st.lists[v];
      }
    }
    forall x | x in st'.sessions ensures Indexed(st', x) {
      assert x != id ==> Indexed(st, x);
    }
  }

  /** Creation keeps the invariant and the cap. */
  lemma CreateConsistent(st: Store, max: int, id: string, r: Record)
    requires Consistent(st) && id !in st.sessions && NotAfter(st, r.createdAt) && r.status == Active
    ensures Consistent(Create(st, max, id, r))
    ensures Capped(st, max) ==> Capped(Create(st, max, id, r), max)
  {
    var u := r.userID;
    var dead := Evicted(st, u, max);
    var st1 := Without(st, dead);
    WithoutConsistent(st, dead, max);
    AddedConsistent(st1, id, r);
    if Capped(st, max) && u in st.lists {
      assert ListOk(st, u, st.lists[u]);
      if dead == {} {
        WithoutNone(st);
      } else {
        KeepAllButOne(st.lists[u], 0);
      }
    }
  }

  /** The first session of a list is one of that user's, and none of that user's is older. */
  lemma HeadIsOldest(st: Store, u: string, x: string)
    requires Consistent(st) && u in st.lists
    ensures st.lists[u] != [] && st.lists[u][0] in st.sessions && st.sessions[st.lists[u][0]].userID == u
    ensures x in st.sessions && st.sessions[x].userID == u ==>
              st.sessions[st.lists[u][0]].createdAt <= st.sessions[x].createdAt
  {
    var ids := st.lists[u];
    assert ListOk(st, u, ids) && ids[0] in ids;
    if x in st.sessions && st.sessions[x].userID == u {
      assert Indexed(st, x);
      var k :| 0 <= k < |ids| && ids[k] == x;
    }
  }

  /** The store with the oldest session of the new session's user exchanged for the new one. */
  function Exchanged(st: Store, id: string, r: Record): Store
    requires r.userID in st.lists && st.lists[r.userID] != []
  {
    var ids := st.lists[r.userID];
    Store((st.sessions - {ids[0]})[id := r], st.lists[r.userID := ids[1..] + [id]])
  }

  predicate FullList(st: Store, u: string, max: int) {
    u in st.lists && |st.lists[u]| >= max && st.lists[u] != []
  }

  /**
   Creation at the cap removes the first session of that user's list, and nothing else: all
   others, of whatever user, stay as they were.
   */
  lemma CreateAtCap(st: Store, max: int, id: string, r: Record)
    requires Consistent(st) && FullList(st, r.userID, max)
    ensures Create(st, max, id, r) == Exchanged(st, id, r)
  {
    WithoutHead(st, r.userID);
    CreateShape(st, max, id, r);
  }

  lemma DropFirst(ids: seq<string>)
    requires ids != []
    ensures ids[..0] + ids[0 + 1..] == ids[1..]
  {
  }

  lemma WithoutHead(st: Store, u: string)
    requires Consistent(st) && u in st.lists && st.lists[u] != []
    ensures HeadRemoved(st, u)
  {
    DropFirst(st.lists[u]);
    WithoutOne(st, u, 0);
  }

  predicate HeadRemoved(st: Store, u: string)
    requires u in st.lists && st.lists[u] != []
  {
    var ids := st.lists[u];
    Without(st, {ids[0]}).lists == WithList(st.lists, u, ids[1..])
  }

  lemma CreateShape(st: Store, max: int, id: string, r: Record)
    requires FullList(st, r.userID, max) && HeadRemoved(st, r.userID)
    ensures Create(st, max, id, r) == Exchanged(st, id, r)
  {
    var ids := st.lists[r.userID];
    AddedLists(st.lists, Without(st, {ids[0]}).lists, r.userID, ids[1..], id);
  }

  lemma AddedLists(lists: map<string, seq<string>>, lists1: map<string, seq<string>>, u: string,
                   rest: seq<string>, id: string)
    requires u in lists && lists1 == WithList(lists, u, rest)
    ensures lists1[u := (if u in lists1 then lists1[u] else []) + [id]] == lists[u := rest + [id]]
  {
  }

  /** Below the cap creation removes nothing. */
  lemma CreateBelowCap(st: Store, max: int, id: string, r: Record)
    requires Consistent(st) && (r.userID in st.lists ==> |st.lists[r.userID]| < max)
    ensures Create(st, max, id, r) == Added(st, id, r)
  {
    WithoutNone(st);
  }

  // ------------------------------------------------------------------ revoking all of a user

  function Members(ids: seq<string>): set<string> {
    set id | id in ids
  }

  function IdsOf(st: Store, u: string): seq<string> {
    if u in st.lists then st.lists[u] else []
  }

  /** The loop's `k`-th read, as an index into the list as it was at the start. */
  function ReadAt(k: nat, n: nat): (i: nat)
    requires n > 0
    ensures i < n
  {
    if 2 * k < n then 2 * k else n - 1
  }

  /** What the first `k` turns of the loop over the shared backing array revoke. */
  function Doomed(ids: seq<string>, k: nat): set<string> {
    set m | 0 <= m < k && ids != [] :: ids[ReadAt(m, |ids|)]
  }

  function RevokeUser(st: Store, u: string): Store {
    var ids := IdsOf(st, u);
    Without(st, Doomed(ids, |ids|))
  }

  /** Of `n` listed sessions those at odd positions below `n - 1`. */
  function Survivors(ids: seq<string>): seq<string> {
    seq(if ids == [] then 0 else (|ids| - 1) / 2, k requires 0 <= k < (|ids| - 1) / 2 => ids[2 * k + 1])
  }

  lemma DoomedPosition(ids: seq<string>, j: nat)
    requires j < |ids| && NoDup(ids)
    ensures ids[j] in Doomed(ids, |ids|) <==> j % 2 == 0 || j == |ids| - 1
  {
    var n := |ids|;
    if j % 2 == 0 {
      assert ReadAt(j / 2, n) == j;
    } else if j == n - 1 {
      assert ReadAt(n - 1, n) == j;
    }
  }

  lemma {:induction false} KeepSurvivors(ids: seq<string>, k: nat)
    requires ids != [] && NoDup(ids) && k <= |ids|
    ensures Keep(ids[..k], Doomed(ids, |ids|)) ==
            seq(if k == |ids| then (k - 1) / 2 else k / 2, m requires 0 <= m < |ids| / 2 => ids[2 * m + 1])
  {
    if k > 0 {
      KeepSurvivors(ids, k - 1);
      DoomedPosition(ids, k - 1);
      assert ids[..k][..k - 1] == ids[..k - 1];
    }
  }

  lemma DoomedOwned(st: Store, u: string, k: nat)
    requires Consistent(st)
    ensures forall id :: id in Doomed(IdsOf(st, u), k) ==> id in st.sessions && st.sessions[id].userID == u
  {
    if u in st.lists {
      assert ListOk(st, u, st.lists[u]);
    }
  }

  /** A loop over a copy of the list would leave the user with no session. */
  lemma SnapshotRevokesAll(st: Store, u: string)
    requires Consistent(st)
    ensures var st' := Without(st, Members(IdsOf(st, u)));
            u !in st'.lists && forall id :: id in st'.sessions ==> st'.sessions[id].userID != u
  {
    var dead := Members(IdsOf(st, u));
    WithoutConsistent(st, dead, 0);
    KeepNone(IdsOf(st, u), dead);
    forall id | id in Without(st, dead).sessions ensures st.sessions[id].userID != u {
      assert Indexed(st, id);
    }
  }

  /**
   The loop as written: exactly the sessions listed at odd positions below `n - 1` survive,
   in their order, and no other user is touched.
   */
  lemma RevokeUserOutcome(st: Store, u: string)
    requires Consistent(st)
    ensures IdsOf(RevokeUser(st, u), u) == Survivors(IdsOf(st, u))
    ensures forall v :: v != u ==> IdsOf(RevokeUser(st, u), v) == IdsOf(st, v)
    ensures Consistent(RevokeUser(st, u))
  {
    var ids := IdsOf(st, u);
    var dead := Doomed(ids, |ids|);
    WithoutConsistent(st, dead, 0);
    if ids != [] {
      assert ListOk(st, u, ids);
      KeepSurvivors(ids, |ids|);
      assert ids[..|ids|] == ids;
    }
    forall v | v != u && v in st.lists ensures Keep(st.lists[v], dead) == st.lists[v] && st.lists[v] != [] {
      DoomedOwned(st, u, |ids|);
      ListKept(st, v, dead);
    }
  }

  /** So revoking a user's sessions leaves none exactly when at most two were listed. */
  lemma RevokeUserCompleteIff(st: Store, u: string)
    requires Consistent(st)
    ensures u !in RevokeUser(st, u).lists <==> |IdsOf(st, u)| <= 2
  {
    RevokeUserOutcome(st, u);
    var st' := RevokeUser(st, u);
    assert u in st'.lists ==> ListOk(st', u, st'.lists[u]);
  }

  // ------------------------------------------------------------------ whole runs

  function ExpiredAt(st: Store, now: int): set<string> {
    set id | id in st.sessions && now > st.sessions[id].expiresAt
  }

  function Touch(st: Store, id: string, now: int, ttl: int): Store {
    if id in st.sessions then
      st.(sessions := st.sessions[id := st.sessions[id].(lastAccess := now, expiresAt := now + ttl)])
    else st
  }

  datatype Operation =
    | CreateOp(id: string, userID: string, details: Details)
    | TouchOp(id: string)
    | RevokeOp(id: string)
    | RevokeUserOp(userID: string)
    | CleanupOp

  function NewRecord(u: string, d: Details, now: int, ttl: int): Record {
    Record(u, d, Active, now, now, now + ttl)
  }

  function Apply(cfg: Config, st: Store, op: Operation, now: int): Store {
    match op
    case CreateOp(id, u, d) => Create(st, cfg.maxSessions, id, NewRecord(u, d, now, cfg.ttl))
    case TouchOp(id) => Touch(st, id, now, cfg.ttl)
    case RevokeOp(id) => Without(st, {id})
    case RevokeUserOp(u) => RevokeUser(st, u)
    case CleanupOp => Without(st, ExpiredAt(st, now))
  }

  /** Operations with the times they happen at. */
  datatype Event = Event(op: Operation, now: int)

  function Replay(cfg: Config, events: seq<Event>): Store {
    if events == [] then EMPTY
    else
      var e := events[|events| - 1];
      Apply(cfg, Replay(cfg, events[..|events| - 1]), e.op, e.now)
  }

  /** Ids are fresh when generated and the clock does not run backwards. */
  ghost predicate FreshIdsAndClock(cfg: Config, events: seq<Event>) {
    && (forall i, j :: 0 <= i < j < |events| ==> events[i].now <= events[j].now)
    && (forall i :: 0 <= i < |events| && events[i].op.CreateOp? ==>
          events[i].op.id !in Replay(cfg, events[..i]).sessions)
  }

  lemma TouchConsistent(st: Store, id: string, now: int, cfg: Config)
    requires Consistent(st)
    ensures Consistent(Touch(st, id, now, cfg.ttl))
    ensures Capped(st, cfg.maxSessions) ==> Capped(Touch(st, id, now, cfg.ttl), cfg.maxSessions)
  {
    var st' := Touch(st, id, now, cfg.ttl);
    forall u | u in st'.lists ensures ListOk(st', u, st'.lists[u]) {
      assert ListOk(st, u, st.lists[u]);
    }
    forall x | x in st'.sessions ensures Indexed(st', x) {
      assert Indexed(st, x);
    }
  }

  lemma ApplyConsistent(cfg: Config, st: Store, op: Operation, now: int)
    requires Consistent(st) && Capped(st, cfg.maxSessions) && NotAfter(st, now)
    requires op.CreateOp? ==> op.id !in st.sessions
    ensures var st' := Apply(cfg, st, op, now);
            Consistent(st') && Capped(st', cfg.maxSessions) && NotAfter(st', now)
  {
    match op
    case CreateOp(id, u, d) => CreateConsistent(st, cfg.maxSessions, id, NewRecord(u, d, now, cfg.ttl));
    case TouchOp(id) => TouchConsistent(st, id, now, cfg);
    case RevokeOp(id) => WithoutConsistent(st, {id}, cfg.maxSessions);
    case RevokeUserOp(u) => WithoutConsistent(st, Doomed(IdsOf(st, u), |IdsOf(st, u)|), cfg.maxSessions);
    case CleanupOp => WithoutConsistent(st, ExpiredAt(st, now), cfg.maxSessions);
  }

  /**
   After any run of session operations each user's list is non-empty, free of duplicates, in
   creation order, holds exactly the ids of that user's sessions, and respects the cap.
   */
  lemma {:induction false} RunConsistent(cfg: Config, events: seq<Event>)
    requires FreshIdsAndClock(cfg, events)
    ensures Consistent(Replay(cfg, events)) && Capped(Replay(cfg, events), cfg.maxSessions)
    ensures events != [] ==> NotAfter(Replay(cfg, events), events[|events| - 1].now)
  {
    if events != [] {
      var front, e := events[..|events| - 1], events[|events| - 1];
      forall i | 0 <= i < |front| ensures front[..i] == events[..i] {}
      RunConsistent(cfg, front);
      assert front == events[..|events| - 1];
      ApplyConsistent(cfg, Replay(cfg, front), e.op, e.now);
    }
  }
}
