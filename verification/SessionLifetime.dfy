/** How long a session lives: which operations end it, and until when it can be found. */
module SessionLifetime {
  import opened Sequences
  import opened SessionStore

  /** The event ends session `id`. */
  predicate Ends(cfg: Config, st: Store, e: Event, id: string) {
    match e.op
    case CreateOp(_, u, _) =>
      u in st.lists && |st.lists[u]| >= cfg.maxSessions && st.lists[u] != [] && st.lists[u][0] == id
    case TouchOp(_) => false
    case RevokeOp(x) => x == id
    case RevokeUserOp(u) =>
      exists j :: 0 <= j < |IdsOf(st, u)| && IdsOf(st, u)[j] == id && (j % 2 == 0 || j == |IdsOf(st, u)| - 1)
    case CleanupOp => id in st.sessions && st.sessions[id].expiresAt < e.now
  }

  predicate Creates(e: Event, id: string) {
    e.op.CreateOp? && e.op.id == id
  }

  /** Sessions are there from their creation to the first event that ends them. */
  lemma PresenceStep(cfg: Config, st: Store, e: Event, id: string)
    requires Consistent(st)
    ensures id in Apply(cfg, st, e.op, e.now).sessions <==>
            Creates(e, id) || (id in st.sessions && !Ends(cfg, st, e, id))
  {
    match e.op
    case RevokeUserOp(u) =>
      var ids := IdsOf(st, u);
      if u in st.lists {
        assert ListOk(st, u, ids);
      }
      forall j | 0 <= j < |ids| ensures ids[j] in Doomed(ids, |ids|) <==> j % 2 == 0 || j == |ids| - 1 {
        DoomedPosition(ids, j);
      }
      DoomedMembers(ids, id);
    case _ =>
  }

  lemma DoomedMembers(ids: seq<string>, id: string)
    requires forall j :: 0 <= j < |ids| ==> (ids[j] in Doomed(ids, |ids|) <==> j % 2 == 0 || j == |ids| - 1)
    ensures id in Doomed(ids, |ids|) <==> exists j :: 0 <= j < |ids| && ids[j] == id && (j % 2 == 0 || j == |ids| - 1)
  {
    if id in Doomed(ids, |ids|) {
      var m :| 0 <= m < |ids| && ids != [] && ids[ReadAt(m, |ids|)] == id;
      assert ids[ReadAt(m, |ids|)] in Doomed(ids, |ids|);
    }
  }

  /** When the session was last created or accessed. */
  function LastUse(events: seq<Event>, id: string): int {
    if events == [] then 0
    else
      var e := events[|events| - 1];
      if Creates(e, id) || e.op == TouchOp(id) then e.now else LastUse(events[..|events| - 1], id)
  }

  /** The record is that of the creating event, with the times of the last use. */
  predicate RecordOf(cfg: Config, events: seq<Event>, c: nat, id: string, r: Record)
    requires c < |events| && Creates(events[c], id)
  {
    && r.userID == events[c].op.userID && r.details == events[c].op.details && r.status == Active
    && r.createdAt == events[c].now
    && r.lastAccess == LastUse(events, id) && r.expiresAt == LastUse(events, id) + cfg.ttl
  }

  /** What an event leaves of a session that it neither creates nor ends. */
  lemma RecordStep(cfg: Config, st: Store, e: Event, id: string)
    requires Consistent(st) && id in Apply(cfg, st, e.op, e.now).sessions && !Creates(e, id)
    ensures id in st.sessions
    ensures var r := st.sessions[id];
            Apply(cfg, st, e.op, e.now).sessions[id] ==
            if e.op == TouchOp(id) then r.(lastAccess := e.now, expiresAt := e.now + cfg.ttl) else r
  {
    PresenceStep(cfg, st, e, id);
  }

  /** Each session in store is as it was created, and expires the time to live after its last use. */
  lemma {:induction false} SessionIsAsCreated(cfg: Config, events: seq<Event>, id: string) returns (c: nat)
    requires FreshIdsAndClock(cfg, events) && id in Replay(cfg, events).sessions
    ensures c < |events| && Creates(events[c], id) && RecordOf(cfg, events, c, id, Replay(cfg, events).sessions[id])
  {
    var n := |events| - 1;
    var front, e := events[..n], events[n];
    forall i | 0 <= i < n ensures front[..i] == events[..i] {}
    RunConsistent(cfg, front);
    if Creates(e, id) {
      c := n;
    } else {
      RecordStep(cfg, Replay(cfg, front), e, id);
      c := SessionIsAsCreated(cfg, front, id);
    }
  }

  /** What GetSession answers. */
  predicate Found(st: Store, id: string, now: int) {
    id in st.sessions && st.sessions[id].status == Active && now <= st.sessions[id].expiresAt
  }

  /** A session that no event has ended is found until exactly the time to live after its last use. */
  lemma FoundUntil(cfg: Config, events: seq<Event>, id: string, now: int)
    requires FreshIdsAndClock(cfg, events) && id in Replay(cfg, events).sessions
    ensures Found(Replay(cfg, events), id, now) <==> now <= LastUse(events, id) + cfg.ttl
  {
    var c := SessionIsAsCreated(cfg, events, id);
  }
}
