/**
 The pool of peer connections under its cleanup routine, reconnect goroutines and callbacks, as a
 transition system. Entries are shared objects, so they live in a heap and are named by reference:
 a callback or a goroutine may hold the reference of an entry that is no longer in the pool. The
 pool's lock is held from the start of a cleanup scan to its last decision; every other step is one
 critical section of the program.
 */
module PeerPool {
  import opened Basics

  datatype PeerState = NewPeer | ConnectingPeer | ConnectedPeer | DisconnectedPeer | FailedPeer | ClosedPeer
  datatype IceState = NewIce | CheckingIce | ConnectedIce | CompletedIce | DisconnectedIce | FailedIce | ClosedIce

  datatype Info = Info(attempts: int, healthy: bool, lastActive: int, peer: PeerState, ice: IceState)

  type Ref = nat

  /** What a callback reports about a connection. */
  datatype Event = PeerChanged(peer: PeerState) | IceChanged(ice: IceState) | Gathered

  datatype Config = Config(maxConnections: int, reconnectAttempts: int, connectionTimeout: int)

  /** Where the cleanup routine is; it holds the lock while Scanning and Deciding. */
  datatype Routine =
    | Waiting
    | Checking(todo: set<Ref>, now: int)
    | Scanning(rest: set<string>, found: set<string>)
    | Deciding(left: set<string>)

  datatype Job = Job(client: string, ref: Ref)
  datatype Callback = Callback(ref: Ref, event: Event)

  datatype State = State(
    connections: map<string, Ref>,
    heap: seq<Info>,
    jobs: multiset<Job>,
    callbacks: multiset<Callback>,
    routine: Routine)

  datatype Label =
    | Create(client: string, created: bool, now: int)
    | Remove(client: string)
    | RemoveInactive(timeout: int, now: int)
    | Lookup(client: string, event: Event)
    | Handle(callback: Callback, now: int)
    | StartCheck(now: int)
    | Check(ref: Ref)
    | StartScan
    | Scan(client: string)
    | EndScan
    | Decide(client: string)
    | EndPass
    | JobFails(job: Job)
    | JobSucceeds(job: Job, now: int)

  predicate Unlocked(s: State) {
    !s.routine.Scanning? && !s.routine.Deciding?
  }

  const INIT: State := State(map[], [], multiset{}, multiset{}, Waiting)

  // ------------------------------------------------------------------ the effect on one entry

  function AfterEvent(i: Info, event: Event, now: int): Info {
    match event
    case PeerChanged(p) =>
      var j := i.(peer := p, lastActive := now);
      (match p
       case ConnectedPeer => j.(healthy := true, attempts := 0)
       case FailedPeer => j.(healthy := false)
       case ClosedPeer => j.(healthy := false)
       case _ => j)
    case IceChanged(c) =>
      var j := i.(ice := c, lastActive := now);
      (match c
       case ConnectedIce => j.(healthy := true)
       case CompletedIce => j.(healthy := true)
       case FailedIce => j.(healthy := false)
       case DisconnectedIce => j.(healthy := false)
       case _ => j)
    case Gathered => i.(lastActive := now)
  }

  predicate LooksDead(i: Info, timeout: int, now: int) {
    || now - i.lastActive > timeout
    || i.peer == FailedPeer || i.peer == ClosedPeer
    || i.ice == FailedIce || i.ice == DisconnectedIce
  }

  function Checked(i: Info, timeout: int, now: int): Info {
    if LooksDead(i, timeout, now) then i.(healthy := false) else i
  }

  function Reconnected(i: Info, now: int): Info {
    i.(lastActive := now, healthy := true, peer := NewPeer, ice := NewIce)
  }

  // ------------------------------------------------------------------ steps

  /** References point into the heap, and a scan is about clients of the pool. */
  ghost predicate Closed(s: State) {
    && (forall c :: c in s.connections ==> s.connections[c] < |s.heap|)
    && (forall j :: j in s.jobs ==> j.ref < |s.heap|)
    && (forall c :: c in s.callbacks ==> c.ref < |s.heap|)
    && RoutineClosed(s.routine, s.connections, |s.heap|)
  }

  predicate RoutineClosed(r: Routine, connections: map<string, Ref>, size: nat) {
    match r
    case Waiting => true
    case Checking(todo, _) => forall x :: x in todo ==> x < size
    case Scanning(rest, found) => rest <= connections.Keys && found <= connections.Keys
    case Deciding(left) => left <= connections.Keys
  }

  predicate Guard(s: State, l: Label) {
    match l
    case Create(_, _, _) => Unlocked(s)
    case Remove(_) => Unlocked(s)
    case RemoveInactive(_, _) => Unlocked(s)
    case Lookup(_, _) => Unlocked(s)
    case Handle(c, _) => c in s.callbacks
    case StartCheck(_) => s.routine.Waiting?
    case Check(r) => s.routine.Checking? && r in s.routine.todo
    case StartScan => s.routine.Checking? && s.routine.todo == {}
    case Scan(c) => s.routine.Scanning? && c in s.routine.rest
    case EndScan => s.routine.Scanning? && s.routine.rest == {}
    case Decide(c) => s.routine.Deciding? && c in s.routine.left
    case EndPass => s.routine.Deciding? && s.routine.left == {}
    case JobFails(j) => j in s.jobs
    case JobSucceeds(j, _) => j in s.jobs && Unlocked(s)
  }

  ghost predicate Enabled(s: State, l: Label) {
    Closed(s) && Guard(s, l)
  }

  function NewInfo(now: int): Info {
    Info(0, true, now, NewPeer, NewIce)
  }

  /** At the limit the call fails, even for a client whose connection it would replace. */
  function AfterCreate(cfg: Config, s: State, client: string, created: bool, now: int): State {
    if |s.connections| >= cfg.maxConnections then s
    else
      var rest := s.connections - {client};
      if created then s.(connections := rest[client := |s.heap|], heap := s.heap + [NewInfo(now)])
      else s.(connections := rest)
  }

  function Active(s: State, timeout: int, now: int): map<string, Ref>
    requires forall c :: c in s.connections ==> s.connections[c] < |s.heap|
  {
    map c | c in s.connections && now - s.heap[s.connections[c]].lastActive <= timeout :: s.connections[c]
  }

  function Update(s: State, r: Ref, i: Info): State
    requires r < |s.heap|
  {
    s.(heap := s.heap[r := i])
  }

  /** An unhealthy entry is reconnected while it has attempts left, and dropped otherwise. */
  function AfterDecide(cfg: Config, s: State, client: string): State
    requires client in s.connections && s.connections[client] < |s.heap| && s.routine.Deciding?
  {
    var r, t := s.connections[client], s.(routine := Deciding(s.routine.left - {client}));
    var i := s.heap[r];
    if i.attempts < cfg.reconnectAttempts
    then Update(t, r, i.(attempts := i.attempts + 1)).(jobs := s.jobs + multiset{Job(client, r)})
    else t.(connections := s.connections - {client})
  }

  /** The new connection goes to whatever entry the client has by now. */
  function AfterSuccess(s: State, j: Job, now: int): State
    requires forall c :: c in s.connections ==> s.connections[c] < |s.heap|
  {
    var t := s.(jobs := s.jobs - multiset{j});
    if j.client in s.connections
    then Update(t, s.connections[j.client], Reconnected(s.heap[s.connections[j.client]], now))
    else t
  }

  /** Steps that take the pool's lock. */
  predicate OnPool(l: Label) {
    l.Create? || l.Remove? || l.RemoveInactive? || l.Lookup? || l.JobSucceeds?
  }

  /** Steps that take an entry's lock only. */
  predicate OnEntry(l: Label) {
    l.Handle? || l.Check? || l.JobFails?
  }

  ghost function PoolDo(cfg: Config, s: State, l: Label): State
    requires Enabled(s, l) && OnPool(l)
  {
    match l
    case Create(client, created, now) => AfterCreate(cfg, s, client, created, now)
    case Remove(client) => s.(connections := s.connections - {client})
    case RemoveInactive(timeout, now) => s.(connections := Active(s, timeout, now))
    case Lookup(client, event) =>
      if client in s.connections then s.(callbacks := s.callbacks + multiset{Callback(s.connections[client], event)}) else s
    case JobSucceeds(j, now) => AfterSuccess(s, j, now)
  }

  ghost function EntryDo(cfg: Config, s: State, l: Label): State
    requires Enabled(s, l) && OnEntry(l)
  {
    match l
    case Handle(c, now) =>
      Update(s, c.ref, AfterEvent(s.heap[c.ref], c.event, now)).(callbacks := s.callbacks - multiset{c})
    case Check(r) =>
      Update(s, r, Checked(s.heap[r], cfg.connectionTimeout, s.routine.now))
        .(routine := s.routine.(todo := s.routine.todo - {r}))
    case JobFails(j) => Update(s, j.ref, s.heap[j.ref].(healthy := false)).(jobs := s.jobs - multiset{j})
  }

  /** The steps of the cleanup routine from one phase to the next, and its decisions. */
  ghost function RoutineDo(cfg: Config, s: State, l: Label): State
    requires Enabled(s, l) && !OnPool(l) && !OnEntry(l)
  {
    match l
    case StartCheck(now) => s.(routine := Checking(s.connections.Values, now))
    case StartScan => s.(routine := Scanning(s.connections.Keys, {}))
    case Scan(c) =>
      var found := if s.heap[s.connections[c]].healthy then s.routine.found else s.routine.found + {c};
      s.(routine := Scanning(s.routine.rest - {c}, found))
    case EndScan => s.(routine := Deciding(s.routine.found))
    case Decide(c) => AfterDecide(cfg, s, c)
    case EndPass => s.(routine := Waiting)
  }

  ghost function Do(cfg: Config, s: State, l: Label): State
    requires Enabled(s, l)
  {
    if OnPool(l) then PoolDo(cfg, s, l) else if OnEntry(l) then EntryDo(cfg, s, l) else RoutineDo(cfg, s, l)
  }

  datatype Run = Run(states: seq<State>, actions: seq<Label>)

  ghost predicate Step(cfg: Config, s: State, l: Label, s': State) {
    Enabled(s, l) && s' == Do(cfg, s, l)
  }

  ghost predicate IsRun(cfg: Config, run: Run) {
    && |run.states| == |run.actions| + 1
    && run.states[0] == INIT
    && forall i {:trigger StepAt(cfg, run, i)} :: 0 <= i < |run.actions| ==> StepAt(cfg, run, i)
  }

  ghost predicate StepAt(cfg: Config, run: Run, i: nat) {
    i < |run.actions| && i + 1 < |run.states| && Step(cfg, run.states[i], run.actions[i], run.states[i + 1])
  }

  // ------------------------------------------------------------------ what every state keeps

  /** No two clients share an entry. */
  ghost predicate Unshared(s: State) {
    forall c, d :: c in s.connections && d in s.connections && s.connections[c] == s.connections[d] ==> c == d
  }

  ghost predicate InPool(s: State, r: Ref) {
    exists c :: c in s.connections && s.connections[c] == r
  }

  lemma PoolStepClosed(cfg: Config, s: State, l: Label)
    requires Enabled(s, l) && OnPool(l)
    ensures Closed(PoolDo(cfg, s, l))
  {
    match l
    case Create(client, created, now) => CreateClosed(cfg, s, client, created, now);
    case JobSucceeds(j, now) => SuccessClosed(s, j, now);
    case _ => LeavingClosed(cfg, s, l);
  }

  lemma CreateClosed(cfg: Config, s: State, client: string, created: bool, now: int)
    requires Closed(s) && Unlocked(s)
    ensures Closed(AfterCreate(cfg, s, client, created, now))
  {}

  lemma SuccessClosed(s: State, j: Job, now: int)
    requires Closed(s) && Unlocked(s)
    ensures Closed(AfterSuccess(s, j, now))
  {}

  lemma LeavingClosed(cfg: Config, s: State, l: Label)
    requires Enabled(s, l) && (l.Remove? || l.RemoveInactive? || l.Lookup?)
    ensures Closed(PoolDo(cfg, s, l))
  {}

  lemma CheckClosed(cfg: Config, s: State, l: Label)
    requires Enabled(s, l) && l.Check?
    ensures Closed(EntryDo(cfg, s, l))
  {}

  lemma EntryStepClosed(cfg: Config, s: State, l: Label)
    requires Enabled(s, l) && (l.Handle? || l.JobFails?)
    ensures Closed(EntryDo(cfg, s, l))
  {}

  lemma RoutineStepClosed(cfg: Config, s: State, l: Label)
    requires Enabled(s, l) && !OnPool(l) && !OnEntry(l)
    ensures Closed(RoutineDo(cfg, s, l))
  {}

  lemma ClosedStep(cfg: Config, s: State, l: Label)
    requires Enabled(s, l)
    ensures Closed(Do(cfg, s, l))
  {
    if OnPool(l) {
      PoolStepClosed(cfg, s, l);
    } else if l.Check? {
      CheckClosed(cfg, s, l);
    } else if OnEntry(l) {
      EntryStepClosed(cfg, s, l);
    } else {
      RoutineStepClosed(cfg, s, l);
    }
  }

  predicate Submap(a: map<string, Ref>, b: map<string, Ref>) {
    forall c :: c in a ==> c in b && a[c] == b[c]
  }

  /** Every step but Create leaves the pool or takes from it. */
  lemma OthersShrink(cfg: Config, s: State, l: Label)
    requires Enabled(s, l) && !l.Create?
    ensures Submap(Do(cfg, s, l).connections, s.connections)
  {}

  lemma UnsharedStep(cfg: Config, s: State, l: Label)
    requires Enabled(s, l) && Unshared(s)
    ensures Unshared(Do(cfg, s, l))
  {
    if l.Create? {
      CreateUnshared(cfg, s, l.client, l.created, l.now);
    } else {
      OthersShrink(cfg, s, l);
    }
  }

  lemma CreateUnshared(cfg: Config, s: State, client: string, created: bool, now: int)
    requires Closed(s) && Unshared(s)
    ensures Unshared(AfterCreate(cfg, s, client, created, now))
  {}

  /** The steps that a reference can come into the pool by make a new entry. */
  lemma NoReturn(cfg: Config, s: State, l: Label, r: Ref)
    requires Enabled(s, l) && r < |s.heap| && InPool(Do(cfg, s, l), r)
    ensures InPool(s, r)
  {
    var s' := Do(cfg, s, l);
    var c :| c in s'.connections && s'.connections[c] == r;
    assert c in s.connections && s.connections[c] == r;
  }

  /** `s` is the `n`-th state of the run. */
  ghost predicate StateOf(cfg: Config, run: Run, n: nat, s: State) {
    IsRun(cfg, run) && n < |run.states| && s == run.states[n]
  }

  lemma {:induction false} RunInvariants(cfg: Config, run: Run, n: nat, s: State)
    requires StateOf(cfg, run, n, s)
    ensures Closed(s) && Unshared(s)
  {
    if n > 0 {
      var p, l := run.states[n - 1], run.actions[n - 1];
      RunInvariants(cfg, run, n - 1, p);
      assert StepAt(cfg, run, n - 1);
      ClosedStep(cfg, p, l);
      UnsharedStep(cfg, p, l);
    }
  }

  /** The pool never holds more than `maxConnections` entries. */
  lemma {:induction false} PoolIsBounded(cfg: Config, run: Run, n: nat, s: State)
    requires StateOf(cfg, run, n, s)
    ensures |s.connections| <= Max(0, cfg.maxConnections)
  {
    if n > 0 {
      var p, l := run.states[n - 1], run.actions[n - 1];
      PoolIsBounded(cfg, run, n - 1, p);
      assert StepAt(cfg, run, n - 1);
      SizeStep(cfg, p, l);
    }
  }

  lemma CreateSize(cfg: Config, s: State, client: string, created: bool, now: int)
    ensures |AfterCreate(cfg, s, client, created, now).connections| <= Max(|s.connections|, cfg.maxConnections)
  {
    var rest := s.connections - {client};
    var t := AfterCreate(cfg, s, client, created, now).connections;
    KeysSmaller(rest, s.connections);
    if |s.connections| < cfg.maxConnections && created {
      assert t.Keys == rest.Keys + {client};
      assert |t| == |t.Keys| && |rest| == |rest.Keys|;
    }
  }

  /** The pool grows only by Create, and only below the limit. */
  lemma SizeStep(cfg: Config, s: State, l: Label)
    requires Enabled(s, l)
    ensures |Do(cfg, s, l).connections| <= Max(|s.connections|, cfg.maxConnections)
  {
    if l.Create? {
      CreateSize(cfg, s, l.client, l.created, l.now);
    } else {
      OthersShrink(cfg, s, l);
      KeysSmaller(Do(cfg, s, l).connections, s.connections);
    }
  }

  lemma KeysSmaller(a: map<string, Ref>, b: map<string, Ref>)
    requires a.Keys <= b.Keys
    ensures |a| <= |b|
  {
    SubsetSize(a.Keys, b.Keys);
    assert |a| == |a.Keys| && |b| == |b.Keys|;
  }

  // ------------------------------------------------------------------ the retry budget

  /** The step decides about entry `r`: a cleanup pass found it unhealthy. */
  ghost predicate FoundBy(s: State, l: Label, r: Ref) {
    l.Decide? && l.client in s.connections && s.connections[l.client] == r
  }

  predicate ConnectedTo(l: Label, r: Ref) {
    l.Handle? && l.callback.ref == r && l.callback.event == PeerChanged(ConnectedPeer)
  }

  /** How many passes found the entry unhealthy between two states of the run. */
  ghost function Finds(run: Run, r: Ref, m: nat, n: nat): nat
    requires m <= n < |run.states| && |run.states| == |run.actions| + 1
    decreases n
  {
    if m == n then 0
    else Finds(run, r, m, n - 1) + if FoundBy(run.states[n - 1], run.actions[n - 1], r) then 1 else 0
  }

  /** No callback reports the entry connected between the two states. */
  ghost predicate Quiet(run: Run, r: Ref, m: nat, n: nat) {
    forall i :: m <= i < n && i < |run.actions| ==> !ConnectedTo(run.actions[i], r)
  }

  lemma PoolStepAttempts(cfg: Config, s: State, l: Label, r: Ref)
    requires Enabled(s, l) && OnPool(l) && r < |s.heap|
    ensures r < |PoolDo(cfg, s, l).heap| && PoolDo(cfg, s, l).heap[r].attempts == s.heap[r].attempts
  {}

  lemma EntryStepAttempts(cfg: Config, s: State, l: Label, r: Ref)
    requires Enabled(s, l) && OnEntry(l) && r < |s.heap| && !ConnectedTo(l, r)
    ensures r < |EntryDo(cfg, s, l).heap| && EntryDo(cfg, s, l).heap[r].attempts == s.heap[r].attempts
  {}

  lemma DecideAttempts(cfg: Config, s: State, l: Label, r: Ref)
    requires Enabled(s, l) && l.Decide? && Unshared(s) && r < |s.heap|
    ensures r < |RoutineDo(cfg, s, l).heap|
    ensures !FoundBy(s, l, r) ==> RoutineDo(cfg, s, l).heap[r].attempts == s.heap[r].attempts
    ensures FoundBy(s, l, r) && s.heap[r].attempts < cfg.reconnectAttempts ==>
              RoutineDo(cfg, s, l).heap[r].attempts == s.heap[r].attempts + 1
    ensures FoundBy(s, l, r) && s.heap[r].attempts >= cfg.reconnectAttempts ==> !InPool(RoutineDo(cfg, s, l), r)
  {}

  /** Nothing but a pass that finds the entry counts an attempt. */
  lemma AttemptsStep(cfg: Config, s: State, l: Label, r: Ref)
    requires Enabled(s, l) && Unshared(s) && r < |s.heap| && !ConnectedTo(l, r)
    ensures r < |Do(cfg, s, l).heap|
    ensures !FoundBy(s, l, r) ==> Do(cfg, s, l).heap[r].attempts == s.heap[r].attempts
    ensures FoundBy(s, l, r) && s.heap[r].attempts < cfg.reconnectAttempts ==>
              Do(cfg, s, l).heap[r].attempts == s.heap[r].attempts + 1
    ensures FoundBy(s, l, r) && s.heap[r].attempts >= cfg.reconnectAttempts ==> !InPool(Do(cfg, s, l), r)
  {
    if OnPool(l) {
      PoolStepAttempts(cfg, s, l, r);
    } else if OnEntry(l) {
      EntryStepAttempts(cfg, s, l, r);
    } else if l.Decide? {
      DecideAttempts(cfg, s, l, r);
    } else {
      assert Do(cfg, s, l).heap == s.heap;
    }
  }

  /**
   However the goroutines interleave, an entry with `a` attempts that nobody reports connected has
   `a` plus one attempt per finding while it is in the pool, and it is out of the pool at the latest
   after max(0, limit - a) + 1 findings.
   */
  lemma {:induction false} RetryBudget(cfg: Config, run: Run, r: Ref, m: nat, n: nat)
    requires IsRun(cfg, run) && m <= n < |run.states|
    requires r < |run.states[m].heap| && Quiet(run, r, m, n)
    ensures r < |run.states[n].heap|
    ensures var a, finds := run.states[m].heap[r].attempts, Finds(run, r, m, n);
            && (InPool(run.states[n], r) ==>
                  run.states[n].heap[r].attempts == a + finds && finds <= Max(0, cfg.reconnectAttempts - a))
            && finds <= Max(0, cfg.reconnectAttempts - a) + 1
    decreases n
  {
    if m < n {
      RetryBudget(cfg, run, r, m, n - 1);
      var s, l := run.states[n - 1], run.actions[n - 1];
      assert StepAt(cfg, run, n - 1);
      RunInvariants(cfg, run, n - 1, s);
      AttemptsStep(cfg, s, l, r);
      if InPool(run.states[n], r) {
        NoReturn(cfg, s, l, r);
      }
    }
  }

  /** A new entry starts without attempts, so it has the whole budget. */
  lemma FreshEntryBudget(cfg: Config, run: Run, m: nat, n: nat, client: string, now: int)
    requires IsRun(cfg, run) && m < n < |run.states| && run.actions[m] == Create(client, true, now)
    requires |run.states[m].connections| < cfg.maxConnections
    requires Quiet(run, |run.states[m].heap|, m + 1, n)
    ensures var r := |run.states[m].heap|;
            && InPool(run.states[m + 1], r) && r < |run.states[m + 1].heap|
            && (Finds(run, r, m + 1, n) >= Max(0, cfg.reconnectAttempts) + 1 ==> !InPool(run.states[n], r))
            && Finds(run, r, m + 1, n) <= Max(0, cfg.reconnectAttempts) + 1
  {
    var s, r := run.states[m], |run.states[m].heap|;
    assert StepAt(cfg, run, m);
    assert run.states[m + 1].connections[client] == r;
    RetryBudget(cfg, run, r, m + 1, n);
  }

  // ------------------------------------------------------------------ what a finding is

  /** The pass under way holds the client for unhealthy and has not decided about it yet. */
  predicate Held(s: State, client: string) {
    match s.routine
    case Scanning(_, found) => client in found
    case Deciding(left) => client in left
    case _ => false
  }

  lemma HeldStep(cfg: Config, s: State, l: Label, client: string)
    requires Enabled(s, l) && Held(Do(cfg, s, l), client)
    ensures client in s.connections && client in Do(cfg, s, l).connections
    ensures Do(cfg, s, l).connections[client] == s.connections[client]
    ensures Held(s, client) || (l == Scan(client) && !s.heap[s.connections[client]].healthy)
  {}

  /** A decision is about an entry that was scanned as unhealthy, in the same pass and still in the pool. */
  lemma {:induction false} FindingWasScanned(cfg: Config, run: Run, n: nat, s: State, client: string) returns (i: nat)
    requires StateOf(cfg, run, n, s) && Held(s, client)
    ensures i < n && run.actions[i] == Scan(client)
    ensures client in s.connections && client in run.states[i].connections
    ensures run.states[i].connections[client] == s.connections[client]
    ensures s.connections[client] < |run.states[i].heap| && !run.states[i].heap[s.connections[client]].healthy
    ensures forall j :: i < j < n ==> !run.actions[j].StartScan?
  {
    var p, l := run.states[n - 1], run.actions[n - 1];
    assert StepAt(cfg, run, n - 1);
    HeldStep(cfg, p, l, client);
    if Held(p, client) {
      i := FindingWasScanned(cfg, run, n - 1, p, client);
    } else {
      i := n - 1;
    }
  }

  /** A pass decides about a client at most once. */
  lemma {:induction false} OncePerPass(cfg: Config, run: Run, client: string, m: nat, n: nat)
    requires IsRun(cfg, run) && m < n < |run.states| && run.actions[m] == Decide(client)
    requires forall j :: m < j < n ==> !run.actions[j].EndPass?
    ensures run.states[n].routine.Deciding? && client !in run.states[n].routine.left
    decreases n
  {
    var s, l := run.states[n - 1], run.actions[n - 1];
    assert StepAt(cfg, run, n - 1);
    if m < n - 1 {
      OncePerPass(cfg, run, client, m, n - 1);
    }
  }

  // ------------------------------------------------------------------ a pass finds what there is to find

  /** From here to `n` no pass ends. */
  ghost predicate SamePass(run: Run, m: nat, n: nat) {
    forall j :: m <= j < n && j < |run.actions| ==> !run.actions[j].EndPass?
  }

  ghost predicate ScannedBy(run: Run, m: nat, n: nat, client: string)
    requires n <= |run.actions|
  {
    exists i :: m < i < n && run.actions[i] == Scan(client)
  }

  lemma ScanStep(cfg: Config, s: State, l: Label, client: string)
    requires Enabled(s, l) && !l.EndPass?
    ensures s.routine.Scanning? && client in s.routine.rest && l != Scan(client) ==>
              Do(cfg, s, l).routine.Scanning? && client in Do(cfg, s, l).routine.rest
    ensures s.routine.Scanning? || s.routine.Deciding? ==>
              Do(cfg, s, l).routine.Scanning? || Do(cfg, s, l).routine.Deciding?
    ensures l.StartScan? ==> Do(cfg, s, l).routine == Scanning(s.connections.Keys, {})
  {}

  /** While a pass is under way each client of the pool at its start is still to be scanned or was scanned. */
  lemma {:induction false} ScansGoOn(cfg: Config, run: Run, m: nat, n: nat, client: string)
    requires IsRun(cfg, run) && m < n <= |run.actions| && run.actions[m] == StartScan
    requires client in run.states[m].connections && SamePass(run, m, n)
    ensures var r := run.states[n].routine;
            && (r.Scanning? || r.Deciding?)
            && (ScannedBy(run, m, n, client) || (r.Scanning? && client in r.rest))
    decreases n
  {
    var s, l := run.states[n - 1], run.actions[n - 1];
    assert StepAt(cfg, run, n - 1);
    ScanStep(cfg, s, l, client);
    if m < n - 1 {
      ScansGoOn(cfg, run, m, n - 1, client);
      if i :| m < i < n - 1 && run.actions[i] == Scan(client) {
        assert ScannedBy(run, m, n, client);
      } else if l == Scan(client) {
        assert run.actions[n - 1] == Scan(client);
      }
    }
  }

  /** A pass scans every client that is in the pool when it starts. */
  lemma PassScansAll(cfg: Config, run: Run, m: nat, e: nat, client: string)
    requires IsRun(cfg, run) && m < e < |run.actions| && run.actions[m] == StartScan && run.actions[e] == EndPass
    requires SamePass(run, m, e) && client in run.states[m].connections
    ensures ScannedBy(run, m, e, client)
  {
    ScansGoOn(cfg, run, m, e, client);
    assert StepAt(cfg, run, e);
  }

  /** The scan finds the client's entry `r` unhealthy. */
  ghost predicate ScansUnhealthy(s: State, l: Label, r: Ref) {
    l.Scan? && l.client in s.connections && s.connections[l.client] == r && r < |s.heap| && !s.heap[r].healthy
  }

  ghost predicate DecidedBy(run: Run, i: nat, n: nat, r: Ref)
    requires n <= |run.actions| < |run.states|
  {
    exists j {:trigger run.actions[j]} :: i < j < n && FoundBy(run.states[j], run.actions[j], r)
  }

  lemma HeldKeeps(cfg: Config, s: State, l: Label, client: string)
    requires Enabled(s, l) && Held(s, client) && l != Decide(client)
    ensures Held(Do(cfg, s, l), client)
    ensures client in s.connections && client in Do(cfg, s, l).connections
    ensures Do(cfg, s, l).connections[client] == s.connections[client]
    ensures !l.EndPass?
  {}

  lemma ScanHolds(cfg: Config, s: State, l: Label, r: Ref)
    requires Enabled(s, l) && ScansUnhealthy(s, l, r)
    ensures Held(Do(cfg, s, l), l.client) && l.client in Do(cfg, s, l).connections
    ensures Do(cfg, s, l).connections[l.client] == r
  {}

  /** The pass holds the client, whose entry is `r`. */
  predicate HeldAs(s: State, client: string, r: Ref) {
    Held(s, client) && client in s.connections && s.connections[client] == r
  }

  lemma HeldNext(cfg: Config, run: Run, n: nat, client: string, r: Ref)
    requires IsRun(cfg, run) && n < |run.actions| && HeldAs(run.states[n], client, r)
    ensures HeldAs(run.states[n + 1], client, r) || FoundBy(run.states[n], run.actions[n], r)
  {
    assert StepAt(cfg, run, n);
    if run.actions[n] != Decide(client) {
      HeldKeeps(cfg, run.states[n], run.actions[n], client);
    }
  }

  lemma HeldFirst(cfg: Config, run: Run, n: nat, r: Ref)
    requires IsRun(cfg, run) && n < |run.actions| && ScansUnhealthy(run.states[n], run.actions[n], r)
    ensures HeldAs(run.states[n + 1], run.actions[n].client, r)
  {
    assert StepAt(cfg, run, n);
    ScanHolds(cfg, run.states[n], run.actions[n], r);
  }

  lemma DecidedNext(run: Run, i: nat, n: nat, r: Ref)
    requires i < n < |run.actions| < |run.states|
    ensures DecidedBy(run, i, n, r) || FoundBy(run.states[n], run.actions[n], r) ==> DecidedBy(run, i, n + 1, r)
  {
    if j {:trigger run.actions[j]} :| i < j < n && FoundBy(run.states[j], run.actions[j], r) {
      assert i < j < n + 1 && FoundBy(run.states[j], run.actions[j], r);
    }
  }

  /** What a scan finds unhealthy the pass holds until it decides about it. */
  lemma {:induction false} FindingIsHeld(cfg: Config, run: Run, i: nat, n: nat, r: Ref)
    requires IsRun(cfg, run) && i < n <= |run.actions| && ScansUnhealthy(run.states[i], run.actions[i], r)
    ensures DecidedBy(run, i, n, r) || HeldAs(run.states[n], run.actions[i].client, r)
    decreases n
  {
    if i == n - 1 {
      HeldFirst(cfg, run, i, r);
    } else {
      FindingIsHeld(cfg, run, i, n - 1, r);
      DecidedNext(run, i, n - 1, r);
      if HeldAs(run.states[n - 1], run.actions[i].client, r) {
        HeldNext(cfg, run, n - 1, run.actions[i].client, r);
      }
    }
  }

  /** Every entry that a scan finds unhealthy is reconnected or dropped before its pass ends. */
  lemma UnhealthyIsDecided(cfg: Config, run: Run, i: nat, e: nat, r: Ref)
    requires IsRun(cfg, run) && i < e < |run.actions| && run.actions[e] == EndPass
    requires ScansUnhealthy(run.states[i], run.actions[i], r)
    ensures DecidedBy(run, i, e, r)
  {
    FindingIsHeld(cfg, run, i, e, r);
    assert StepAt(cfg, run, e);
  }

  // ------------------------------------------------------------------ scans and findings are the same in number

  /** How many scans found the entry unhealthy between two states of the run. */
  ghost function UnhealthyScans(run: Run, r: Ref, m: nat, n: nat): nat
    requires m <= n < |run.states| && |run.states| == |run.actions| + 1
    decreases n
  {
    if m == n then 0
    else UnhealthyScans(run, r, m, n - 1) + if ScansUnhealthy(run.states[n - 1], run.actions[n - 1], r) then 1 else 0
  }

  ghost predicate HeldEntry(s: State, r: Ref) {
    exists c :: Held(s, c) && c in s.connections && s.connections[c] == r
  }

  /** Nothing is still to be scanned that was found already. */
  predicate Apart(s: State) {
    s.routine.Scanning? ==> s.routine.rest !! s.routine.found
  }

  lemma ApartStep(cfg: Config, s: State, l: Label)
    requires Enabled(s, l) && Apart(s)
    ensures Apart(Do(cfg, s, l))
  {}

  lemma {:induction false} ApartAlways(cfg: Config, run: Run, n: nat)
    requires IsRun(cfg, run) && n < |run.states|
    ensures Apart(run.states[n])
  {
    if n > 0 {
      ApartAlways(cfg, run, n - 1);
      assert StepAt(cfg, run, n - 1);
      ApartStep(cfg, run.states[n - 1], run.actions[n - 1]);
    }
  }

  function Count(b: bool): nat {
    if b then 1 else 0
  }

  /** A scan that finds the entry makes the pass hold it, and a decision about it lets it go. */
  lemma HeldEntryStep(cfg: Config, s: State, l: Label, r: Ref)
    requires Enabled(s, l) && Unshared(s) && Apart(s) && r < |s.heap|
    ensures Count(HeldEntry(Do(cfg, s, l), r)) + Count(FoundBy(s, l, r)) == Count(HeldEntry(s, r)) + Count(ScansUnhealthy(s, l, r))
  {
    var t := Do(cfg, s, l);
    if c :| Held(s, c) && c in s.connections && s.connections[c] == r {
      if l != Decide(c) {
        HeldKeeps(cfg, s, l, c);
        assert HeldEntry(t, r);
      } else {
        forall d ensures !(Held(t, d) && d in t.connections && t.connections[d] == r) {
          if Held(t, d) { HeldStep(cfg, s, l, d); }
        }
      }
    } else if ScansUnhealthy(s, l, r) {
      ScanHolds(cfg, s, l, r);
      assert HeldEntry(t, r);
    } else {
      forall d ensures !(Held(t, d) && d in t.connections && t.connections[d] == r) {
        if Held(t, d) { HeldStep(cfg, s, l, d); }
      }
    }
  }

  /** Every scan that finds the entry unhealthy leads to exactly one decision about it. */
  lemma {:induction false} ScansAreFindings(cfg: Config, run: Run, r: Ref, m: nat, n: nat)
    requires IsRun(cfg, run) && m <= n < |run.states| && r < |run.states[m].heap| && !HeldEntry(run.states[m], r)
    ensures r < |run.states[n].heap|
    ensures UnhealthyScans(run, r, m, n) == Finds(run, r, m, n) + Count(HeldEntry(run.states[n], r))
    decreases n
  {
    if m < n {
      ScansAreFindings(cfg, run, r, m, n - 1);
      HeldEntryNext(cfg, run, n - 1, r);
    }
  }

  lemma HeldEntryNext(cfg: Config, run: Run, n: nat, r: Ref)
    requires IsRun(cfg, run) && n < |run.actions| && r < |run.states[n].heap|
    ensures r < |run.states[n + 1].heap|
    ensures var s, l := run.states[n], run.actions[n];
            Count(HeldEntry(run.states[n + 1], r)) + Count(FoundBy(s, l, r)) == Count(HeldEntry(s, r)) + Count(ScansUnhealthy(s, l, r))
  {
    var s, l := run.states[n], run.actions[n];
    assert StepAt(cfg, run, n);
    RunInvariants(cfg, run, n, s);
    ApartAlways(cfg, run, n);
    HeldEntryStep(cfg, s, l, r);
    HeapGrows(cfg, s, l);
  }

  lemma HeapGrows(cfg: Config, s: State, l: Label)
    requires Enabled(s, l)
    ensures |s.heap| <= |Do(cfg, s, l).heap|
  {}

  /**
   So an entry that nobody reports connected is out of the pool at the latest when the pass is over
   whose scan is the (limit - attempts + 1)-th to see it unhealthy.
   */
  lemma DroppedAfterPasses(cfg: Config, run: Run, r: Ref, m: nat, n: nat)
    requires IsRun(cfg, run) && m <= n < |run.states| && r < |run.states[m].heap|
    requires !HeldEntry(run.states[m], r) && !HeldEntry(run.states[n], r) && Quiet(run, r, m, n)
    requires UnhealthyScans(run, r, m, n) >= Max(0, cfg.reconnectAttempts - run.states[m].heap[r].attempts) + 1
    ensures !InPool(run.states[n], r)
  {
    ScansAreFindings(cfg, run, r, m, n);
    RetryBudget(cfg, run, r, m, n);
  }

  // ------------------------------------------------------------------ what makes an entry unhealthy, and healthy again

  /** A callback for entry `r` with this event. */
  predicate Reports(l: Label, r: Ref, event: Event) {
    l.Handle? && l.callback == Callback(r, event)
  }

  /** A new connection is put into entry `r`. */
  predicate Renews(s: State, l: Label, r: Ref) {
    l.JobSucceeds? && l.job.client in s.connections && s.connections[l.job.client] == r
  }

  predicate Heals(s: State, l: Label, r: Ref) {
    || Reports(l, r, PeerChanged(ConnectedPeer)) || Reports(l, r, IceChanged(ConnectedIce))
    || Reports(l, r, IceChanged(CompletedIce)) || Renews(s, l, r)
  }

  /** A check finds entry `r` silent for too long, or in a dead state. */
  predicate FailsCheck(cfg: Config, s: State, l: Label, r: Ref) {
    && l == Check(r) && s.routine.Checking? && r < |s.heap|
    && var i := s.heap[r];
       || s.routine.now > i.lastActive + cfg.connectionTimeout
       || i.peer in {FailedPeer, ClosedPeer} || i.ice in {FailedIce, DisconnectedIce}
  }

  predicate Hurts(cfg: Config, s: State, l: Label, r: Ref) {
    || Reports(l, r, PeerChanged(FailedPeer)) || Reports(l, r, PeerChanged(ClosedPeer))
    || Reports(l, r, IceChanged(FailedIce)) || Reports(l, r, IceChanged(DisconnectedIce))
    || (l.JobFails? && l.job.ref == r) || FailsCheck(cfg, s, l, r)
  }

  lemma HealthOfCallback(i: Info, event: Event, now: int)
    ensures var j := AfterEvent(i, event, now);
            && (j.healthy <==>
                  || event == PeerChanged(ConnectedPeer) || event == IceChanged(ConnectedIce) || event == IceChanged(CompletedIce)
                  || (i.healthy && event != PeerChanged(FailedPeer) && event != PeerChanged(ClosedPeer)
                      && event != IceChanged(FailedIce) && event != IceChanged(DisconnectedIce)))
            && j.attempts == (if event == PeerChanged(ConnectedPeer) then 0 else i.attempts)
            && j.lastActive == now
            && j.peer == (if event.PeerChanged? then event.peer else i.peer)
            && j.ice == (if event.IceChanged? then event.ice else i.ice)
  {}

  /** Nothing else changes the health of an entry. */
  lemma HealthStep(cfg: Config, s: State, l: Label, r: Ref)
    requires Enabled(s, l) && r < |s.heap|
    ensures r < |Do(cfg, s, l).heap|
    ensures Do(cfg, s, l).heap[r].healthy <==> Heals(s, l, r) || (s.heap[r].healthy && !Hurts(cfg, s, l, r))
  {
    if l.Handle? {
      HandleHealth(cfg, s, l, r);
    } else if l.Check? || l.JobFails? || l.JobSucceeds? {
      OtherHealth(cfg, s, l, r);
    } else {
      SameHealth(cfg, s, l, r);
    }
  }

  lemma HandleHealth(cfg: Config, s: State, l: Label, r: Ref)
    requires Enabled(s, l) && r < |s.heap| && l.Handle?
    ensures r < |Do(cfg, s, l).heap|
    ensures Do(cfg, s, l).heap[r].healthy <==> Heals(s, l, r) || (s.heap[r].healthy && !Hurts(cfg, s, l, r))
  {
    HandleEffect(cfg, s, l, r);
    HealthOfCallback(s.heap[r], l.callback.event, l.now);
  }

  lemma HandleEffect(cfg: Config, s: State, l: Label, r: Ref)
    requires Enabled(s, l) && r < |s.heap| && l.Handle?
    ensures r < |EntryDo(cfg, s, l).heap|
    ensures EntryDo(cfg, s, l).heap[r] ==
            if l.callback.ref == r then AfterEvent(s.heap[r], l.callback.event, l.now) else s.heap[r]
  {}

  lemma OtherHealth(cfg: Config, s: State, l: Label, r: Ref)
    requires Enabled(s, l) && r < |s.heap| && (l.Check? || l.JobFails? || l.JobSucceeds?)
    ensures r < |Do(cfg, s, l).heap|
    ensures Do(cfg, s, l).heap[r].healthy <==> Heals(s, l, r) || (s.heap[r].healthy && !Hurts(cfg, s, l, r))
  {
    if l.JobSucceeds? {
      SuccessHealth(cfg, s, l, r);
    } else {
      EntryHealth(cfg, s, l, r);
    }
  }

  lemma SuccessHealth(cfg: Config, s: State, l: Label, r: Ref)
    requires Enabled(s, l) && r < |s.heap| && l.JobSucceeds?
    ensures r < |PoolDo(cfg, s, l).heap|
    ensures PoolDo(cfg, s, l).heap[r].healthy <==> Heals(s, l, r) || (s.heap[r].healthy && !Hurts(cfg, s, l, r))
  {}

  lemma EntryHealth(cfg: Config, s: State, l: Label, r: Ref)
    requires Enabled(s, l) && r < |s.heap| && (l.Check? || l.JobFails?)
    ensures r < |EntryDo(cfg, s, l).heap|
    ensures EntryDo(cfg, s, l).heap[r].healthy <==> Heals(s, l, r) || (s.heap[r].healthy && !Hurts(cfg, s, l, r))
  {}

  lemma SameHealth(cfg: Config, s: State, l: Label, r: Ref)
    requires Enabled(s, l) && r < |s.heap| && !l.Handle? && !l.Check? && !l.JobFails? && !l.JobSucceeds?
    ensures r < |Do(cfg, s, l).heap|
    ensures Do(cfg, s, l).heap[r].healthy <==> Heals(s, l, r) || (s.heap[r].healthy && !Hurts(cfg, s, l, r))
  {
    SameEntryHealth(cfg, s, l, r);
    NeitherHealsNorHurts(cfg, s, l, r);
  }

  lemma SameEntryHealth(cfg: Config, s: State, l: Label, r: Ref)
    requires Enabled(s, l) && r < |s.heap| && !l.Handle? && !l.Check? && !l.JobFails? && !l.JobSucceeds?
    ensures r < |Do(cfg, s, l).heap| && Do(cfg, s, l).heap[r].healthy == s.heap[r].healthy
  {}

  lemma NeitherHealsNorHurts(cfg: Config, s: State, l: Label, r: Ref)
    requires !l.Handle? && !l.Check? && !l.JobFails? && !l.JobSucceeds?
    ensures !Heals(s, l, r) && !Hurts(cfg, s, l, r)
  {}

  lemma HealthNext(cfg: Config, run: Run, n: nat, r: Ref)
    requires IsRun(cfg, run) && n < |run.actions| && r < |run.states[n].heap|
    ensures r < |run.states[n + 1].heap|
    ensures run.states[n + 1].heap[r].healthy <==>
            Heals(run.states[n], run.actions[n], r) ||
            (run.states[n].heap[r].healthy && !Hurts(cfg, run.states[n], run.actions[n], r))
  {
    assert StepAt(cfg, run, n);
    HealthStep(cfg, run.states[n], run.actions[n], r);
  }

  /** What made an entry unhealthy lasts until something heals it, so a scan in between finds it. */
  lemma {:induction false} StaysUnhealthy(cfg: Config, run: Run, r: Ref, m: nat, n: nat)
    requires IsRun(cfg, run) && m < n < |run.states| && r < |run.states[m].heap|
    requires Hurts(cfg, run.states[m], run.actions[m], r) && !Heals(run.states[m], run.actions[m], r)
    requires forall j :: m < j < n ==> !Heals(run.states[j], run.actions[j], r)
    ensures r < |run.states[n].heap| && !run.states[n].heap[r].healthy
    decreases n
  {
    if m == n - 1 {
      HealthNext(cfg, run, m, r);
    } else {
      StaysUnhealthy(cfg, run, r, m, n - 1);
      HealthNext(cfg, run, n - 1, r);
    }
  }

  ghost predicate CheckedBy(run: Run, m: nat, n: nat, r: Ref)
    requires n <= |run.actions|
  {
    exists i :: m < i < n && run.actions[i] == Check(r)
  }

  /** From the start of a health check to the scan every entry of the pool is still to be checked or was. */
  lemma {:induction false} ChecksGoOn(cfg: Config, run: Run, m: nat, n: nat, r: Ref)
    requires IsRun(cfg, run) && m < n <= |run.actions| && run.actions[m].StartCheck?
    requires InPool(run.states[m], r) && forall j :: m <= j < n ==> !run.actions[j].StartScan?
    ensures var t := run.states[n].routine;
            t.Checking? && t.now == run.actions[m].now && (r in t.todo || CheckedBy(run, m, n, r))
    decreases n
  {
    var s, l := run.states[n - 1], run.actions[n - 1];
    assert StepAt(cfg, run, n - 1);
    if m < n - 1 {
      ChecksGoOn(cfg, run, m, n - 1, r);
      if i :| m < i < n - 1 && run.actions[i] == Check(r) {
        assert CheckedBy(run, m, n, r);
      } else if l == Check(r) {
        assert run.actions[n - 1] == Check(r);
      }
    }
  }

  /** A pass checks every entry that is in the pool when it starts. */
  lemma PassChecksAll(cfg: Config, run: Run, m: nat, e: nat, r: Ref)
    requires IsRun(cfg, run) && m < e < |run.actions| && run.actions[m].StartCheck? && run.actions[e].StartScan?
    requires InPool(run.states[m], r) && forall j :: m <= j < e ==> !run.actions[j].StartScan?
    ensures CheckedBy(run, m, e, r)
  {
    ChecksGoOn(cfg, run, m, e, r);
    assert StepAt(cfg, run, e);
  }

  // ------------------------------------------------------------------ who is in the pool, and who reconnects

  /** The step takes the client out of the pool. */
  predicate Drops(cfg: Config, s: State, l: Label, client: string)
    requires client in s.connections && s.connections[client] < |s.heap|
  {
    var i := s.heap[s.connections[client]];
    || l == Remove(client)
    || (l.RemoveInactive? && l.now > i.lastActive + l.timeout)
    || (l == Decide(client) && i.attempts >= cfg.reconnectAttempts)
    || (l.Create? && l.client == client && !l.created && |s.connections| < cfg.maxConnections)
  }

  /** The step gives the client a new entry. */
  predicate Admits(cfg: Config, s: State, l: Label, client: string) {
    l.Create? && l.client == client && l.created && |s.connections| < cfg.maxConnections
  }

  /** Exactly those clients enter and leave; the others keep their entries. */
  lemma PoolStep(cfg: Config, s: State, l: Label, client: string)
    requires Enabled(s, l)
    ensures var t := Do(cfg, s, l);
            && (client in t.connections <==>
                  Admits(cfg, s, l, client) || (client in s.connections && !Drops(cfg, s, l, client)))
            && (client in t.connections && client in s.connections && !Admits(cfg, s, l, client) ==>
                  t.connections[client] == s.connections[client])
            && (Admits(cfg, s, l, client) ==>
                  t.connections[client] == |s.heap| && t.heap == s.heap + [Info(0, true, l.now, NewPeer, NewIce)])
  {
    if l.Create? {
      CreateStep(cfg, s, l, client);
    } else {
      LeaveStep(cfg, s, l, client);
    }
  }

  lemma CreateStep(cfg: Config, s: State, l: Label, client: string)
    requires Enabled(s, l) && l.Create?
    ensures var t := Do(cfg, s, l);
            && (client in t.connections <==>
                  Admits(cfg, s, l, client) || (client in s.connections && !Drops(cfg, s, l, client)))
            && (client in t.connections && client in s.connections && !Admits(cfg, s, l, client) ==>
                  t.connections[client] == s.connections[client])
            && (Admits(cfg, s, l, client) ==>
                  t.connections[client] == |s.heap| && t.heap == s.heap + [Info(0, true, l.now, NewPeer, NewIce)])
  {}

  lemma LeaveStep(cfg: Config, s: State, l: Label, client: string)
    requires Enabled(s, l) && !l.Create?
    ensures var t := Do(cfg, s, l);
            && (client in t.connections <==> client in s.connections && !Drops(cfg, s, l, client))
            && (client in t.connections ==> t.connections[client] == s.connections[client])
  {
    if l.Decide? {
      DecideLeaves(cfg, s, l, client);
    } else if l.Remove? || l.RemoveInactive? {
      RemoveLeaves(cfg, s, l, client);
    } else {
      NobodyLeaves(cfg, s, l);
    }
  }

  lemma DecideLeaves(cfg: Config, s: State, l: Label, client: string)
    requires Enabled(s, l) && l.Decide?
    ensures var t := Do(cfg, s, l);
            && (client in t.connections <==> client in s.connections && !Drops(cfg, s, l, client))
            && (client in t.connections ==> t.connections[client] == s.connections[client])
  {}

  lemma RemoveLeaves(cfg: Config, s: State, l: Label, client: string)
    requires Enabled(s, l) && (l.Remove? || l.RemoveInactive?)
    ensures var t := Do(cfg, s, l);
            && (client in t.connections <==> client in s.connections && !Drops(cfg, s, l, client))
            && (client in t.connections ==> t.connections[client] == s.connections[client])
  {}

  lemma NobodyLeaves(cfg: Config, s: State, l: Label)
    requires Enabled(s, l) && !l.Create? && !l.Decide? && !l.Remove? && !l.RemoveInactive?
    ensures Do(cfg, s, l).connections == s.connections
  {
    if OnPool(l) {
      PoolStays(cfg, s, l);
    } else if OnEntry(l) {
      EntryStays(cfg, s, l);
    } else {
      RoutineStays(cfg, s, l);
    }
  }

  lemma PoolStays(cfg: Config, s: State, l: Label)
    requires Enabled(s, l) && (l.Lookup? || l.JobSucceeds?)
    ensures PoolDo(cfg, s, l).connections == s.connections
  {}

  lemma EntryStays(cfg: Config, s: State, l: Label)
    requires Enabled(s, l) && OnEntry(l)
    ensures EntryDo(cfg, s, l).connections == s.connections
  {}

  lemma RoutineStays(cfg: Config, s: State, l: Label)
    requires Enabled(s, l) && !OnPool(l) && !OnEntry(l) && !l.Decide?
    ensures RoutineDo(cfg, s, l).connections == s.connections
  {}

  /** A finding below the limit starts a reconnection of the entry. */
  predicate Starts(cfg: Config, s: State, l: Label, j: Job) {
    && l == Decide(j.client) && j.client in s.connections && s.connections[j.client] == j.ref
    && j.ref < |s.heap| && s.heap[j.ref].attempts < cfg.reconnectAttempts
  }

  predicate Finishes(l: Label, j: Job) {
    l == JobFails(j) || (l.JobSucceeds? && l.job == j)
  }

  lemma JobsStep(cfg: Config, s: State, l: Label, j: Job)
    requires Enabled(s, l)
    ensures Do(cfg, s, l).jobs[j] + Count(Finishes(l, j)) == s.jobs[j] + Count(Starts(cfg, s, l, j))
  {}

  ghost function Started(cfg: Config, run: Run, n: nat, j: Job): nat
    requires n < |run.states| && |run.states| == |run.actions| + 1
  {
    if n == 0 then 0
    else Started(cfg, run, n - 1, j) + Count(Starts(cfg, run.states[n - 1], run.actions[n - 1], j))
  }

  ghost function Finished(run: Run, n: nat, j: Job): nat
    requires n < |run.states| && |run.states| == |run.actions| + 1
  {
    if n == 0 then 0 else Finished(run, n - 1, j) + Count(Finishes(run.actions[n - 1], j))
  }

  /** Reconnections under way are those that findings started and that did not finish. */
  lemma {:induction false} JobsBalance(cfg: Config, run: Run, n: nat, j: Job)
    requires IsRun(cfg, run) && n < |run.states|
    ensures run.states[n].jobs[j] + Finished(run, n, j) == Started(cfg, run, n, j)
  {
    if n > 0 {
      JobsBalance(cfg, run, n - 1, j);
      JobsNext(cfg, run, n - 1, j);
    }
  }

  lemma JobsNext(cfg: Config, run: Run, n: nat, j: Job)
    requires IsRun(cfg, run) && n < |run.actions|
    ensures run.states[n + 1].jobs[j] + Count(Finishes(run.actions[n], j)) ==
            run.states[n].jobs[j] + Count(Starts(cfg, run.states[n], run.actions[n], j))
  {
    assert StepAt(cfg, run, n);
    JobsStep(cfg, run.states[n], run.actions[n], j);
  }

  // ------------------------------------------------------------------ what an entry knows, and who calls back

  /** A callback or a new connection sets the states and the time of an entry, and nothing else does. */
  lemma KnowledgeStep(cfg: Config, s: State, l: Label, r: Ref)
    requires Enabled(s, l) && r < |s.heap|
    ensures r < |Do(cfg, s, l).heap|
    ensures var i, j := s.heap[r], Do(cfg, s, l).heap[r];
            if l.Handle? && l.callback.ref == r then
              && j.lastActive == l.now
              && j.peer == (if l.callback.event.PeerChanged? then l.callback.event.peer else i.peer)
              && j.ice == (if l.callback.event.IceChanged? then l.callback.event.ice else i.ice)
            else if Renews(s, l, r) then j.lastActive == l.now && j.peer == NewPeer && j.ice == NewIce
            else j.lastActive == i.lastActive && j.peer == i.peer && j.ice == i.ice
  {
    if OnPool(l) {
      PoolKnowledge(cfg, s, l, r);
    } else if l.Handle? {
      HandleEffect(cfg, s, l, r);
      HealthOfCallback(s.heap[r], l.callback.event, l.now);
    } else if OnEntry(l) {
      EntryKnowledge(cfg, s, l, r);
    } else {
      RoutineKnowledge(cfg, s, l, r);
    }
  }

  lemma PoolKnowledge(cfg: Config, s: State, l: Label, r: Ref)
    requires Enabled(s, l) && OnPool(l) && r < |s.heap|
    ensures r < |PoolDo(cfg, s, l).heap|
    ensures var i, j := s.heap[r], PoolDo(cfg, s, l).heap[r];
            if Renews(s, l, r) then j.lastActive == l.now && j.peer == NewPeer && j.ice == NewIce
            else j.lastActive == i.lastActive && j.peer == i.peer && j.ice == i.ice
  {}

  lemma EntryKnowledge(cfg: Config, s: State, l: Label, r: Ref)
    requires Enabled(s, l) && (l.Check? || l.JobFails?) && r < |s.heap|
    ensures r < |EntryDo(cfg, s, l).heap|
    ensures var i, j := s.heap[r], EntryDo(cfg, s, l).heap[r];
            j.lastActive == i.lastActive && j.peer == i.peer && j.ice == i.ice
  {}

  lemma RoutineKnowledge(cfg: Config, s: State, l: Label, r: Ref)
    requires Enabled(s, l) && !OnPool(l) && !OnEntry(l) && r < |s.heap|
    ensures r < |RoutineDo(cfg, s, l).heap|
    ensures var i, j := s.heap[r], RoutineDo(cfg, s, l).heap[r];
            j.lastActive == i.lastActive && j.peer == i.peer && j.ice == i.ice
  {}

  /** The callback finds entry `c.ref` in the pool. */
  predicate FindsEntry(s: State, l: Label, c: Callback) {
    l.Lookup? && l.event == c.event && l.client in s.connections && s.connections[l.client] == c.ref
  }

  predicate Handles(l: Label, c: Callback) {
    l.Handle? && l.callback == c
  }

  lemma CallbacksStep(cfg: Config, s: State, l: Label, c: Callback)
    requires Enabled(s, l)
    ensures Do(cfg, s, l).callbacks[c] + Count(Handles(l, c)) == s.callbacks[c] + Count(FindsEntry(s, l, c))
  {
    if OnPool(l) {
      assert PoolDo(cfg, s, l).callbacks[c] == s.callbacks[c] + Count(FindsEntry(s, l, c));
    } else if OnEntry(l) {
      assert EntryDo(cfg, s, l).callbacks[c] + Count(Handles(l, c)) == s.callbacks[c];
    } else {
      assert RoutineDo(cfg, s, l).callbacks == s.callbacks;
    }
  }

  ghost function LookedUp(run: Run, n: nat, c: Callback): nat
    requires n < |run.states| && |run.states| == |run.actions| + 1
  {
    if n == 0 then 0 else LookedUp(run, n - 1, c) + Count(FindsEntry(run.states[n - 1], run.actions[n - 1], c))
  }

  ghost function Handled(run: Run, n: nat, c: Callback): nat
    requires n < |run.states| && |run.states| == |run.actions| + 1
  {
    if n == 0 then 0 else Handled(run, n - 1, c) + Count(Handles(run.actions[n - 1], c))
  }

  /** Every callback that finds its entry in the pool is applied to that entry, once. */
  lemma {:induction false} CallbacksBalance(cfg: Config, run: Run, n: nat, c: Callback)
    requires IsRun(cfg, run) && n < |run.states|
    ensures run.states[n].callbacks[c] + Handled(run, n, c) == LookedUp(run, n, c)
  {
    if n > 0 {
      CallbacksBalance(cfg, run, n - 1, c);
      CallbacksNext(cfg, run, n - 1, c);
    }
  }

  lemma CallbacksNext(cfg: Config, run: Run, n: nat, c: Callback)
    requires IsRun(cfg, run) && n < |run.actions|
    ensures run.states[n + 1].callbacks[c] + Count(Handles(run.actions[n], c)) ==
            run.states[n].callbacks[c] + Count(FindsEntry(run.states[n], run.actions[n], c))
  {
    assert StepAt(cfg, run, n);
    CallbacksStep(cfg, run.states[n], run.actions[n], c);
  }
}
