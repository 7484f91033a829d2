/**
 The session manager with its maps and slices updated in place. A user's list is a Go slice: a
 backing array, possibly with spare room, and a length. Clock readings and generated ids are
 parameters. Each method is the body of the source's method under the manager's lock.
 */
module SessionManager {
  import opened Basics
  import opened Sequences
  import opened SessionStore

  datatype Error = ErrSessionNotFound | ErrSessionExpired | ErrInvalidSession
  datatype Result<T> = Ok(value: T) | Err(error: Error)

  datatype Slice = Slice(arr: array<string>, len: nat)

  /** A backing array before and after element `at` of its first `len` has been deleted in place. */
  predicate Compacted(was: seq<string>, now: seq<string>, len: nat, at: nat) {
    && at < len <= |was| && |now| == |was|
    && (forall j :: 0 <= j < len - 1 ==> now[j] == was[if j < at then j else j + 1])
    && (forall j :: len - 1 <= j < |was| ==> now[j] == was[j])
  }

  /** The slices after user `u`'s has lost one element; an emptied one is not kept. */
  ghost function Shortened(slices: map<string, Slice>, u: string): map<string, Slice>
    requires u in slices && slices[u].len > 0
  {
    if slices[u].len == 1 then slices - {u} else slices[u := Slice(slices[u].arr, slices[u].len - 1)]
  }

  lemma ShortenedByDrop(slices: map<string, Slice>, slices': map<string, Slice>, u: string)
    requires u in slices && slices[u].len > 0
    requires var one := slices[u := Slice(slices[u].arr, slices[u].len - 1)];
             slices' == if one[u].len == 0 then one - {u} else one
    ensures slices' == Shortened(slices, u)
  {
  }

  ghost predicate Fits(slices: map<string, Slice>, cells: map<string, seq<string>>) {
    forall u :: u in slices ==> u in cells && slices[u].len <= |cells[u]|
  }

  /** The lists that slices stand for, given what their backing arrays hold. */
  ghost function ListsOf(slices: map<string, Slice>, cells: map<string, seq<string>>): map<string, seq<string>>
    requires Fits(slices, cells)
  {
    map u | u in slices :: cells[u][..slices[u].len]
  }

  lemma CompactedList(was: seq<string>, now: seq<string>, len: nat, at: nat)
    requires Compacted(was, now, len, at)
    ensures now[..len - 1] == was[..len][..at] + was[..len][at + 1..]
  {
  }

  /** Deleting from the backing array and shortening the slice deletes from the list. */
  lemma ListsShortened(slices: map<string, Slice>, cells: map<string, seq<string>>, u: string,
                       now: seq<string>, at: nat)
    requires Fits(slices, cells) && u in slices && Compacted(cells[u], now, slices[u].len, at)
    ensures var ids := ListsOf(slices, cells)[u];
            var cells' := cells[u := now];
            && Fits(Shortened(slices, u), cells')
            && ListsOf(Shortened(slices, u), cells') ==
               WithList(ListsOf(slices, cells), u, ids[..at] + ids[at + 1..])
  {
    CompactedList(cells[u], now, slices[u].len, at);
  }

  /** Element `at` of user `u`'s list, which is `id`, has gone from the slice and from its array. */
  ghost predicate Unlisted(slices: map<string, Slice>, cells: map<string, seq<string>>,
                           slices': map<string, Slice>, cells': map<string, seq<string>>,
                           u: string, id: string, at: nat)
  {
    && u in slices && u in cells && u in cells' && cells' == cells[u := cells'[u]]
    && Compacted(cells[u], cells'[u], slices[u].len, at) && cells[u][at] == id
    && slices' == Shortened(slices, u)
  }

  /** Removing a session this way is removing it from the store, and nothing else. */
  lemma RevokeOutcome(st: Store, slices: map<string, Slice>, cells: map<string, seq<string>>,
                      slices': map<string, Slice>, cells': map<string, seq<string>>,
                      u: string, id: string, at: nat)
    requires Fits(slices, cells) && st.lists == ListsOf(slices, cells) && Consistent(st)
    requires Unlisted(slices, cells, slices', cells', u, id, at)
    ensures Fits(slices', cells')
    ensures Store(st.sessions - {id}, ListsOf(slices', cells')) == Without(st, {id})
    ensures Consistent(Without(st, {id}))
  {
    ListsShortened(slices, cells, u, cells'[u], at);
    WithoutOne(st, u, at);
    WithoutConsistent(st, {id}, 0);
  }

  // ------------------------------------------------------------------ the loop of RevokeUserSessions

  /** After `k` turns cell `j` of the backing array holds the id first listed at this position. */
  function Source(j: nat, k: nat, n: nat): int {
    Min(if j < k then 2 * j + 1 else j + k, n - 1)
  }

  ghost predicate Shifted(ids: seq<string>, cell: seq<string>, k: nat) {
    && |ids| <= |cell|
    && forall j :: 0 <= j < |ids| ==> cell[j] == ids[Source(j, k, |ids|)]
  }

  /** The length of the user's list after `k` turns. */
  function LengthAt(k: nat, n: nat): nat
    requires 0 < n
  {
    if 2 * k <= n then n - k else (n - 1) / 2
  }

  /** Appending to a list made empty when missing. */
  lemma EnsuredAppend(lists: map<string, seq<string>>, u: string, id: string)
    ensures var one := if u in lists then lists else lists[u := []];
            one[u := one[u] + [id]] == lists[u := (if u in lists then lists[u] else []) + [id]]
  {
  }

  lemma AppendedList(slices: map<string, Slice>, cells: map<string, seq<string>>, u: string,
                     t: Slice, now: seq<string>, id: string)
    requires Fits(slices, cells) && u in slices && t.len <= |now|
    requires now[..t.len] == cells[u][..slices[u].len] + [id]
    ensures Fits(slices[u := t], cells[u := now])
    ensures ListsOf(slices[u := t], cells[u := now]) == ListsOf(slices, cells)[u := ListsOf(slices, cells)[u] + [id]]
  {
  }

  lemma WithoutNext(st: Store, ids: seq<string>, i: nat)
    requires i < |ids|
    ensures Without(Without(st, Members(ids[..i])), {ids[i]}) == Without(st, Members(ids[..i + 1]))
  {
    WithoutTwice(st, Members(ids[..i]), {ids[i]});
    assert ids[..i + 1] == ids[..i] + [ids[i]];
    assert Members(ids[..i + 1]) == Members(ids[..i]) + {ids[i]};
  }

  lemma ListFacts(st: Store, u: string)
    requires Consistent(st) && u in st.lists
    ensures st.lists[u] != [] && NoDup(st.lists[u])
    ensures forall id :: id in st.lists[u] ==> id in st.sessions && st.sessions[id].userID == u
  {
    assert ListOk(st, u, st.lists[u]);
  }

  /** The first half of the turns reads ids not read before, the second half one read already. */
  lemma ReadTwice(ids: seq<string>, k: nat)
    requires NoDup(ids) && k < |ids|
    ensures ids[ReadAt(k, |ids|)] in Doomed(ids, k) <==> 2 * k > |ids|
  {
    var n := |ids|;
    if 2 * k > n {
      var m := if n % 2 == 0 then n / 2 else (n - 1) / 2;
      assert ReadAt(m, n) == n - 1;
    }
  }

  lemma DoomedGrows(st: Store, ids: seq<string>, k: nat)
    requires k < |ids|
    ensures Without(Without(st, Doomed(ids, k)), {ids[ReadAt(k, |ids|)]}) == Without(st, Doomed(ids, k + 1))
  {
    WithoutTwice(st, Doomed(ids, k), {ids[ReadAt(k, |ids|)]});
    assert Doomed(ids, k + 1) == Doomed(ids, k) + {ids[ReadAt(k, |ids|)]};
  }

  lemma TurnFacts(st: Store, u: string, k: nat)
    requires Consistent(st) && u in st.lists && k < |st.lists[u]|
    ensures var ids := st.lists[u];
            var dead := Doomed(ids, k);
            && NoDup(ids)
            && Without(Without(st, dead), {ids[ReadAt(k, |ids|)]}) == Without(st, Doomed(ids, k + 1))
            && (ids[ReadAt(k, |ids|)] in Without(st, dead).sessions <==> 2 * k <= |ids|)
            && (2 * k <= |ids| ==> Without(st, dead).sessions[ids[ReadAt(k, |ids|)]].userID == u)
  {
    ListFacts(st, u);
    ReadTwice(st.lists[u], k);
    DoomedGrows(st, st.lists[u], k);
  }

  lemma FirstTurn(st: Store, u: string, cell: seq<string>)
    requires Consistent(st) && u in st.lists && |st.lists[u]| <= |cell| && st.lists[u] == cell[..|st.lists[u]|]
    ensures st.lists[u] != [] && Doomed(st.lists[u], 0) == {} && Shifted(st.lists[u], cell, 0)
    ensures Without(st, Doomed(st.lists[u], 0)) == st
  {
    ListFacts(st, u);
    WithoutNone(st);
    assert Doomed(st.lists[u], 0) == {};
  }

  lemma RevokeNobody(st: Store, u: string)
    requires Consistent(st) && u !in st.lists
    ensures RevokeUser(st, u) == st
  {
    WithoutNone(st);
    assert Doomed([], 0) == {};
  }

  /** A turn that revokes shifts the array on by one; it does not empty the list before the last turn. */
  lemma Shift(ids: seq<string>, was: seq<string>, now: seq<string>, k: nat, at: nat)
    requires NoDup(ids) && k + 1 < |ids| && 2 * k <= |ids|
    requires Shifted(ids, was, k) && Compacted(was, now, LengthAt(k, |ids|), at)
    requires was[at] == ids[ReadAt(k, |ids|)]
    ensures Shifted(ids, now, k + 1)
    ensures LengthAt(k, |ids|) > 1 && LengthAt(k + 1, |ids|) == LengthAt(k, |ids|) - 1
  {
    var n := |ids|;
    assert Source(at, k, n) == ReadAt(k, n);
    assert at == if 2 * k < n then k else LengthAt(k, n) - 1;
    forall j | 0 <= j < n ensures now[j] == ids[Source(j, k + 1, n)] {
      assert was[j] == ids[Source(j, k, n)];
      if j < LengthAt(k, n) - 1 {
        assert was[j + 1] == ids[Source(j + 1, k, n)];
      }
    }
  }

  /** A turn that finds its session gone leaves the array as the next turn expects it. */
  lemma Settled(ids: seq<string>, cell: seq<string>, k: nat)
    requires k + 1 < |ids| && 2 * k > |ids| && Shifted(ids, cell, k)
    ensures Shifted(ids, cell, k + 1) && LengthAt(k + 1, |ids|) == LengthAt(k, |ids|)
  {
  }

  class InMemorySessionManager {
    const config: Config
    var sessions: map<string, Record>
    var userSessions: map<string, Slice>
    /** What the backing arrays hold, spare room included. */
    ghost var cells: map<string, seq<string>>
    /** Backing arrays are not shared: the user each belongs to. */
    ghost var owner: map<array<string>, string>
    ghost var Repr: set<array<string>>

    ghost predicate Shape()
      reads this, Repr
    {
      && Fits(userSessions, cells)
      && (forall u :: u in userSessions ==>
            && userSessions[u].arr in Repr && userSessions[u].arr in owner && owner[userSessions[u].arr] == u
            && userSessions[u].arr[..] == cells[u])
    }

    ghost function View(): Store
      reads this
      requires Fits(userSessions, cells)
    {
      Store(sessions, ListsOf(userSessions, cells))
    }

    ghost predicate Valid()
      reads this, Repr
    {
      Shape() && Consistent(View())
    }

    constructor (config: Config)
      ensures Valid() && fresh(Repr) && View() == EMPTY && this.config == config
    {
      this.config := config;
      sessions, userSessions, cells, owner, Repr := map[], map[], map[], map[], {};
    }

    /** Go's append of one element: in place while there is capacity, else into a larger array. */
    static method Append(s: Slice, x: string) returns (t: Slice)
      requires s.len <= s.arr.Length
      modifies s.arr
      ensures t.len == s.len + 1 <= t.arr.Length
      ensures t.arr[..t.len] == old(s.arr[..s.len]) + [x]
      ensures t.arr == s.arr || fresh(t.arr)
    {
      var arr := s.arr;
      if s.len == s.arr.Length {
        arr := new string[2 * s.len + 1];
        forall j | 0 <= j < s.len { arr[j] := s.arr[j]; }
      }
      arr[s.len] := x;
      t := Slice(arr, s.len + 1);
    }

    /** Delete element `i`: append(s[:i], s[i+1:]...), which shifts the rest down in place. */
    static method DeleteAt(s: Slice, i: nat) returns (t: Slice)
      requires i < s.len <= s.arr.Length
      modifies s.arr
      ensures t == Slice(s.arr, s.len - 1)
      ensures Compacted(old(s.arr[..]), s.arr[..], s.len, i)
    {
      forall j | i <= j < s.len - 1 { s.arr[j] := s.arr[j + 1]; }
      t := Slice(s.arr, s.len - 1);
    }

    /** The search of revokeSessionLocked. */
    method FindInList(userID: string, sessionID: string) returns (at: nat)
      requires Shape() && userID in userSessions && sessionID in View().lists[userID]
      ensures at < userSessions[userID].len && cells[userID][at] == sessionID
    {
      var us := userSessions[userID];
      at := 0;
      while at < us.len && us.arr[at] != sessionID
        invariant at <= us.len
        invariant forall j :: 0 <= j < at ==> us.arr[j] != sessionID
      {
        at := at + 1;
      }
    }

    /** Its deletion from the list. */
    method RemoveFromList(userID: string, at: nat)
      requires Shape() && userID in userSessions && at < userSessions[userID].len
      modifies this`userSessions, this`cells, userSessions[userID].arr
      ensures Shape() && userID in cells
      ensures userSessions ==
              old(userSessions)[userID := Slice(old(userSessions[userID]).arr, old(userSessions[userID]).len - 1)]
      ensures cells == old(cells)[userID := cells[userID]]
      ensures Compacted(old(cells)[userID], cells[userID], old(userSessions[userID]).len, at)
    {
      var us := userSessions[userID];
      var t := DeleteAt(us, at);
      cells := cells[userID := us.arr[..]];
      userSessions := userSessions[userID := t];
    }

    /** Both steps: the session leaves its user's list, and an emptied list is dropped. */
    method Unlist(u: string, at: nat)
      requires Shape() && u in userSessions && at < userSessions[u].len
      modifies this`userSessions, this`cells, userSessions[u].arr
      ensures Shape()
      ensures Unlisted(old(userSessions), old(cells), userSessions, cells, u, old(cells[u][at]), at)
    {
      ghost var slices := userSessions;
      RemoveFromList(u, at);
      if userSessions[u].len == 0 {
        userSessions := userSessions - {u};
      }
      ShortenedByDrop(slices, userSessions, u);
    }

    /** revokeSessionLocked for a session that exists. */
    method Detach(sessionID: string) returns (ghost at: nat)
      requires Shape() && Indexed(View(), sessionID)
      modifies this, Repr
      ensures Shape() && Repr == old(Repr) && sessions == old(sessions) - {sessionID}
      ensures Unlisted(old(userSessions), old(cells), userSessions, cells,
                       old(sessions[sessionID]).userID, sessionID, at)
    {
      at := 0;
      var u := sessions[sessionID].userID;
      assert u in View().lists && sessionID in View().lists[u];
      sessions := sessions[sessionID := sessions[sessionID].(status := Revoked)];
      if u in userSessions {
        var i := FindInList(u, sessionID);
        at := i;
        Unlist(u, i);
      }
      sessions := sessions - {sessionID};
      assert sessions == old(sessions) - {sessionID};
    }

    method RevokeSessionLocked(sessionID: string) returns (err: Result<()>, ghost at: nat)
      requires Valid()
      modifies this, Repr
      ensures Valid() && Repr == old(Repr)
      ensures err == if sessionID in old(sessions) then Ok(()) else Err(ErrSessionNotFound)
      ensures View() == Without(old(View()), {sessionID})
      ensures sessionID !in old(sessions) ==> userSessions == old(userSessions) && cells == old(cells)
      ensures sessionID in old(sessions) ==>
                Unlisted(old(userSessions), old(cells), userSessions, cells,
                         old(sessions[sessionID]).userID, sessionID, at)
    {
      ghost var before := View();
      if sessionID !in sessions {
        WithoutStranger(before, sessionID);
        return Err(ErrSessionNotFound), 0;
      }
      IndexedIn(before, sessionID);
      ghost var u := sessions[sessionID].userID;
      at := Detach(sessionID);
      err := Ok(());
      RevokeOutcome(before, old(userSessions), old(cells), userSessions, cells, u, sessionID, at);
    }

    method RevokeSession(sessionID: string) returns (err: Result<()>)
      requires Valid()
      modifies this, Repr
      ensures Valid() && Repr == old(Repr)
      ensures err == if sessionID in old(View()).sessions then Ok(()) else Err(ErrSessionNotFound)
      ensures View() == Without(old(View()), {sessionID})
    {
      ghost var at;
      err, at := RevokeSessionLocked(sessionID);
    }

    /** The state after `k` turns of the loop of RevokeUserSessions. */
    ghost predicate AfterTurns(before: Store, userID: string, arr: array<string>, k: nat)
      reads this, Repr
    {
      && userID in before.lists && k <= |before.lists[userID]|
      && var ids := before.lists[userID];
         && Valid() && View() == Without(before, Doomed(ids, k))
         && (k < |ids| ==>
               && userID in userSessions
               && userSessions[userID] == Slice(arr, LengthAt(k, |ids|))
               && Shifted(ids, cells[userID], k))
    }

    /** One turn: read the backing array as it is now, and revoke what is found there. */
    method RevokeTurn(ghost before: Store, userID: string, arr: array<string>, k: nat)
      requires Consistent(before) && AfterTurns(before, userID, arr, k) && k < |before.lists[userID]| <= arr.Length
      modifies this, Repr
      ensures Repr == old(Repr) && AfterTurns(before, userID, arr, k + 1)
    {
      ghost var ids, was := before.lists[userID], cells[userID];
      var sessionID := arr[k];
      assert sessionID == cells[userID][k] == ids[ReadAt(k, |ids|)];
      TurnFacts(before, userID, k);
      var _, at := RevokeSessionLocked(sessionID);
      if k + 1 < |ids| {
        if 2 * k <= |ids| {
          Shift(ids, was, cells[userID], k, at);
        } else {
          Settled(ids, cells[userID], k);
        }
      }
    }

    /** The loop, over the slice as it was at the start. */
    method RevokeTurns(ghost before: Store, userID: string, us: Slice)
      requires Consistent(before) && AfterTurns(before, userID, us.arr, 0)
      requires us.len == |before.lists[userID]| <= us.arr.Length
      modifies this, Repr
      ensures Repr == old(Repr) && AfterTurns(before, userID, us.arr, us.len)
    {
      var k := 0;
      while k < us.len
        invariant k <= us.len && Repr == old(Repr)
        invariant AfterTurns(before, userID, us.arr, k)
      {
        RevokeTurn(before, userID, us.arr, k);
        k := k + 1;
      }
    }

    /**
     The loop ranges over the slice as it was, whose backing array every turn compacts: the
     turns read a moving list.
     */
    method RevokeUserSessions(userID: string)
      requires Valid()
      modifies this, Repr
      ensures Valid() && Repr == old(Repr)
      ensures View() == RevokeUser(old(View()), userID)
    {
      ghost var before := View();
      if userID !in userSessions {
        RevokeNobody(before, userID);
        return;
      }
      FirstTurn(before, userID, cells[userID]);
      RevokeTurns(before, userID, userSessions[userID]);
    }

    /** An empty list for a user who has none. */
    method EnsureList(userID: string)
      requires Shape()
      modifies this`userSessions, this`cells, this`owner, this`Repr
      ensures Shape() && fresh(Repr - old(Repr))
      ensures userID in userSessions
      ensures ListsOf(userSessions, cells) ==
              if userID in old(userSessions) then ListsOf(old(userSessions), old(cells))
              else ListsOf(old(userSessions), old(cells))[userID := []]
    {
      if userID !in userSessions {
        var none := new string[0];
        userSessions := userSessions[userID := Slice(none, 0)];
        cells, owner, Repr := cells[userID := []], owner[none := userID], Repr + {none};
      }
    }

    method AppendToList(userID: string, sessionID: string)
      requires Shape() && userID in userSessions
      modifies this`userSessions, this`cells, this`owner, this`Repr, userSessions[userID].arr
      ensures Shape() && fresh(Repr - old(Repr))
      ensures ListsOf(userSessions, cells) ==
              ListsOf(old(userSessions), old(cells))[userID := ListsOf(old(userSessions), old(cells))[userID] + [sessionID]]
    {
      ghost var slices, was := userSessions, cells;
      var t := Append(userSessions[userID], sessionID);
      userSessions := userSessions[userID := t];
      cells := cells[userID := t.arr[..]];
      owner, Repr := owner[t.arr := userID], Repr + {t.arr};
      AppendedList(slices, was, userID, t, t.arr[..], sessionID);
    }

    /** The last part of CreateSession: store the session and append its id to the user's list. */
    method AddSession(sessionID: string, r: Record)
      requires Shape()
      modifies this, Repr
      ensures Shape() && fresh(Repr - old(Repr))
      ensures View() == Added(old(View()), sessionID, r)
    {
      ghost var lists := ListsOf(userSessions, cells);
      sessions := sessions[sessionID := r];
      EnsureList(r.userID);
      AppendToList(r.userID, sessionID);
      EnsuredAppend(lists, r.userID, sessionID);
    }

    method CreateSession(userID: string, details: Details, sessionID: string, now: int) returns (session: Record)
      requires Valid() && sessionID !in sessions && NotAfter(View(), now)
      modifies this, Repr
      ensures Valid() && fresh(Repr - old(Repr))
      ensures session == Record(userID, details, Active, now, now, now + config.ttl)
      ensures View() == Create(old(View()), config.maxSessions, sessionID, session)
    {
      ghost var before := View();
      session := NewRecord(userID, details, now, config.ttl);
      CreateConsistent(before, config.maxSessions, sessionID, session);
      if userID in userSessions && userSessions[userID].len >= config.maxSessions {
        ListFacts(before, userID);
        var oldestSessionID := userSessions[userID].arr[0];
        var _, _ := RevokeSessionLocked(oldestSessionID);
      } else {
        WithoutNone(before);
      }
      AddSession(sessionID, session);
    }

    method UpdateLastAccess(sessionID: string, now: int) returns (err: Result<()>)
      requires Valid()
      modifies this
      ensures Valid() && Repr == old(Repr)
      ensures err == if sessionID in old(sessions) then Ok(()) else Err(ErrSessionNotFound)
      ensures View() == Touch(old(View()), sessionID, now, config.ttl)
    {
      TouchConsistent(View(), sessionID, now, config);
      if sessionID !in sessions {
        return Err(ErrSessionNotFound);
      }
      sessions := sessions[sessionID := sessions[sessionID].(lastAccess := now, expiresAt := now + config.ttl)];
      err := Ok(());
    }

    /** No stored session is ever other than active, so the source's invalid-session error cannot occur. */
    method GetSession(sessionID: string, now: int) returns (r: Result<Record>)
      requires Valid()
      ensures r == if sessionID !in View().sessions then Err(ErrSessionNotFound)
                   else if now > View().sessions[sessionID].expiresAt then Err(ErrSessionExpired)
                   else Ok(View().sessions[sessionID])
    {
      if sessionID !in sessions {
        return Err(ErrSessionNotFound);
      }
      IndexedIn(View(), sessionID);
      var session := sessions[sessionID];
      if session.status != Active {
        return Err(ErrInvalidSession);
      }
      if now > session.expiresAt {
        return Err(ErrSessionExpired);
      }
      r := Ok(session);
    }

    /** The first loop of CleanupExpiredSessions; it visits the sessions in an arbitrary order. */
    method CollectExpired(now: int) returns (expired: seq<string>)
      ensures forall id :: id in expired <==> id in sessions && now > sessions[id].expiresAt
    {
      expired := [];
      var unseen := sessions.Keys;
      while unseen != {}
        invariant unseen <= sessions.Keys
        invariant forall id :: id in expired <==>
                    id in sessions && id !in unseen && now > sessions[id].expiresAt
        decreases unseen
      {
        var sessionID :| sessionID in unseen;
        unseen := unseen - {sessionID};
        if now > sessions[sessionID].expiresAt {
          expired := expired + [sessionID];
        }
      }
    }

    /** Its second loop, over a list of its own. */
    method RevokeAll(ids: seq<string>)
      requires Valid()
      modifies this, Repr
      ensures Valid() && Repr == old(Repr)
      ensures View() == Without(old(View()), Members(ids))
    {
      ghost var before := View();
      WithoutNone(before);
      assert Members(ids[..0]) == {};
      var i := 0;
      while i < |ids|
        invariant i <= |ids| && Valid() && Repr == old(Repr)
        invariant View() == Without(before, Members(ids[..i]))
      {
        WithoutNext(before, ids, i);
        var _, _ := RevokeSessionLocked(ids[i]);
        i := i + 1;
      }
      assert ids[..i] == ids;
    }

    method CleanupExpiredSessions(now: int)
      requires Valid()
      modifies this, Repr
      ensures Valid() && Repr == old(Repr)
      ensures View() == Without(old(View()), ExpiredAt(old(View()), now))
    {
      var expired := CollectExpired(now);
      assert Members(expired) == ExpiredAt(View(), now);
      RevokeAll(expired);
    }
  }
}
