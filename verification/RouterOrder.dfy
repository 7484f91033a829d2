/**
 Order of processing. The queue and the channels are first-in first-out, so each worker starts
 its tasks in the order they were queued; under the hash balancer all tasks of a client go to
 one worker, so each client's tasks start in the order that client's tasks were queued.
 */
module RouterOrder {
  import opened Sequences
  import opened MessageRouter
  import Balancers

  function TasksOf(routed: seq<Routing>): seq<CallId> {
    if routed == [] then [] else TasksOf(routed[..|routed| - 1]) + [routed[|routed| - 1].task]
  }

  /** The tasks put in worker `w`'s channel, in order. */
  function AcceptedBy(routed: seq<Routing>, w: nat): seq<CallId> {
    if routed == [] then []
    else
      var r := routed[|routed| - 1];
      AcceptedBy(routed[..|routed| - 1], w) + if r.worker == w && r.accepted then [r.task] else []
  }

  function Undecided(d: Dispatcher): seq<CallId> {
    if d.Holding? || d.Targeting? then [d.task] else []
  }

  /** Nothing overtakes: the logs are the containers' contents laid end to end. */
  ghost predicate Fifo(s: State) {
    && s.enqueued == TasksOf(s.routed) + Undecided(s.dispatcher) + s.queue
    && forall w :: 0 <= w < |s.workers| ==>
         s.workers[w].started + s.workers[w].channel == AcceptedBy(s.routed, w)
  }

  lemma RoutedAppend(routed: seq<Routing>, r: Routing)
    ensures TasksOf(routed + [r]) == TasksOf(routed) + [r.task]
    ensures forall w :: AcceptedBy(routed + [r], w) ==
                        AcceptedBy(routed, w) + if r.worker == w && r.accepted then [r.task] else []
  {
    assert (routed + [r])[..|routed|] == routed;
  }

  /** A step that appends `more` to both the log and the tasks not yet decided on. */
  ghost predicate Appends(s: State, s': State, more: seq<CallId>) {
    && s'.routed == s.routed && |s'.workers| == |s.workers|
    && s'.enqueued == s.enqueued + more
    && Undecided(s'.dispatcher) + s'.queue == Undecided(s.dispatcher) + s.queue + more
    && forall w :: 0 <= w < |s.workers| ==>
         s'.workers[w].started + s'.workers[w].channel == s.workers[w].started + s.workers[w].channel
  }

  lemma FifoAppend(s: State, s': State, more: seq<CallId>)
    requires Fifo(s) && Appends(s, s', more)
    ensures Fifo(s')
  {
    assert s'.enqueued == TasksOf(s.routed) + (Undecided(s.dispatcher) + s.queue + more);
    assert s'.enqueued == TasksOf(s.routed) + Undecided(s'.dispatcher) + s'.queue;
  }

  lemma FifoCaller(cfg: Config, s: State, t: CallId, a: CallerAction)
    requires Fifo(s) && CallerEnabled(cfg, s, t, a)
    ensures Fifo(CallerDo(cfg, s, t, a))
  {
    var s' := CallerDo(cfg, s, t, a);
    var more := if a.Submit? || a.HandOff? then [t] else [];
    assert Undecided(s'.dispatcher) + s'.queue == Undecided(s.dispatcher) + s.queue + more;
    FifoAppend(s, s', more);
  }

  /** The task the dispatcher holds is decided on: put in a channel, or refused. */
  ghost predicate Decides(s: State, s': State, r: Routing) {
    && s'.routed == s.routed + [r] && s'.enqueued == s.enqueued && s'.queue == s.queue
    && Undecided(s.dispatcher) == [r.task] && Undecided(s'.dispatcher) == []
    && |s'.workers| == |s.workers|
    && forall w :: 0 <= w < |s.workers| ==>
         s'.workers[w].started + s'.workers[w].channel ==
         s.workers[w].started + s.workers[w].channel + if r.worker == w && r.accepted then [r.task] else []
  }

  lemma FifoDecide(s: State, s': State, r: Routing)
    requires Fifo(s) && Decides(s, s', r)
    ensures Fifo(s')
  {
    RoutedAppend(s.routed, r);
    assert s'.enqueued == TasksOf(s'.routed) + Undecided(s'.dispatcher) + s'.queue;
  }

  lemma DeliverDecides(cfg: Config, s: State)
    requires DispatcherEnabled(cfg, s, Deliver)
    ensures Decides(s, DispatcherDo(cfg, s, Deliver), Routing(s.dispatcher.task, s.dispatcher.worker, true))
  {
    var s', w := DispatcherDo(cfg, s, Deliver), s.dispatcher.worker;
    var x, y := s.workers[w], s'.workers[w];
    assert y.started + y.channel == x.started + x.channel + [s.dispatcher.task];
  }

  lemma TimeoutDecides(cfg: Config, s: State)
    requires DispatcherEnabled(cfg, s, DeliverTimeout)
    ensures Decides(s, DispatcherDo(cfg, s, DeliverTimeout), Routing(s.dispatcher.task, s.dispatcher.worker, false))
  {
  }

  lemma FifoDispatcher(cfg: Config, s: State, a: DispatcherAction)
    requires Fifo(s) && DispatcherEnabled(cfg, s, a)
    ensures Fifo(DispatcherDo(cfg, s, a))
  {
    var s' := DispatcherDo(cfg, s, a);
    if a.Deliver? {
      DeliverDecides(cfg, s);
      FifoDecide(s, s', Routing(s.dispatcher.task, s.dispatcher.worker, true));
    } else if a.DeliverTimeout? {
      TimeoutDecides(cfg, s);
      FifoDecide(s, s', Routing(s.dispatcher.task, s.dispatcher.worker, false));
    } else {
      assert a.TakeTask? ==> s.queue == [s.queue[0]] + s'.queue;
      FifoAppend(s, s', []);
    }
  }

  lemma FifoWorker(s: State, w: nat, a: WorkerAction)
    requires Fifo(s) && WorkerEnabled(s, w, a)
    ensures Fifo(WorkerDo(s, w, a))
  {
    var s' := WorkerDo(s, w, a);
    var x, y := s.workers[w], s'.workers[w];
    assert a.TakeFromChannel? ==> x.channel == [x.channel[0]] + y.channel;
    assert x.started + x.channel == y.started + y.channel;
    FifoAppend(s, s', []);
  }

  lemma FifoStep(cfg: Config, s: State, l: Label)
    requires Fifo(s) && Enabled(cfg, s, l)
    ensures Fifo(Do(cfg, s, l))
  {
    match l
    case Start => FifoAppend(s, s.(running := true), []);
    case ByCaller(t, a) => FifoCaller(cfg, s, t, a);
    case ByDispatcher(a) => FifoDispatcher(cfg, s, a);
    case ByWorker(w, a) => FifoWorker(s, w, a);
  }

  /** In hash mode the worker chosen for a task is a function of its client. */
  ghost predicate BoundByHash(s: State, t: CallId, w: nat) {
    w < |s.workers| && t in s.calls && w == Balancers.HashIndex(s.calls[t].client, |s.workers|)
  }

  ghost predicate HashRouted(s: State) {
    && (forall i :: 0 <= i < |s.routed| ==> BoundByHash(s, s.routed[i].task, s.routed[i].worker))
    && (s.dispatcher.Targeting? || s.dispatcher.Refusing? ==>
          BoundByHash(s, s.dispatcher.task, s.dispatcher.worker))
  }

  lemma HashRoutedFrame(s: State, s': State)
    requires HashRouted(s) && |s'.workers| == |s.workers|
    requires forall t :: t in s.calls ==> t in s'.calls && s'.calls[t].client == s.calls[t].client
    requires forall i :: 0 <= i < |s'.routed| ==>
               || (i < |s.routed| && s'.routed[i] == s.routed[i])
               || BoundByHash(s, s'.routed[i].task, s'.routed[i].worker)
    requires s'.dispatcher.Targeting? || s'.dispatcher.Refusing? ==>
               BoundByHash(s, s'.dispatcher.task, s'.dispatcher.worker)
    ensures HashRouted(s')
  {
    forall t, w | BoundByHash(s, t, w) ensures BoundByHash(s', t, w) {}
  }

  lemma HashRoutedDispatcher(cfg: Config, s: State, a: DispatcherAction)
    requires cfg.hashMode && HashRouted(s) && DispatcherEnabled(cfg, s, a)
    ensures HashRouted(DispatcherDo(cfg, s, a))
  {
    var s' := DispatcherDo(cfg, s, a);
    if s.dispatcher.Targeting? {
      assert BoundByHash(s, s.dispatcher.task, s.dispatcher.worker);
    }
    HashRoutedFrame(s, s');
  }

  lemma HashRoutedStep(cfg: Config, s: State, l: Label)
    requires cfg.hashMode && HashRouted(s) && Enabled(cfg, s, l)
    ensures HashRouted(Do(cfg, s, l))
  {
    match l
    case Start => HashRoutedFrame(s, s.(running := true));
    case ByCaller(t, a) => HashRoutedFrame(s, CallerDo(cfg, s, t, a));
    case ByDispatcher(a) => HashRoutedDispatcher(cfg, s, a);
    case ByWorker(w, a) => HashRoutedFrame(s, WorkerDo(s, w, a));
  }

  lemma {:induction false} FifoAlways(cfg: Config, run: Run, n: nat)
    requires IsRun(cfg, run) && n < |run.states|
    ensures Fifo(run.states[n])
  {
    if n > 0 {
      FifoAlways(cfg, run, n - 1);
      FifoStep(cfg, run.states[n - 1], run.actions[n - 1]);
    }
  }

  lemma {:induction false} HashRoutedAlways(cfg: Config, run: Run, n: nat)
    requires IsRun(cfg, run) && n < |run.states| && cfg.hashMode
    ensures HashRouted(run.states[n])
  {
    if n > 0 {
      HashRoutedAlways(cfg, run, n - 1);
      HashRoutedStep(cfg, run.states[n - 1], run.actions[n - 1]);
    }
  }

  // ------------------------------------------------------------------ main results

  function OfClient(calls: map<CallId, Call>, ts: seq<CallId>, c: ClientId): seq<CallId> {
    if ts == [] then []
    else
      var t := ts[|ts| - 1];
      OfClient(calls, ts[..|ts| - 1], c) + if t in calls && calls[t].client == c then [t] else []
  }

  lemma {:induction false} OfClientSubseq(calls: map<CallId, Call>, a: seq<CallId>, b: seq<CallId>, c: ClientId)
    requires Subseq(a, b)
    ensures Subseq(OfClient(calls, a, c), OfClient(calls, b, c))
    decreases |b|
  {
    if a != [] {
      var a', b', t := a[..|a| - 1], b[..|b| - 1], b[|b| - 1];
      var keep := t in calls && calls[t].client == c;
      if Subseq(a, b') {
        OfClientSubseq(calls, a, b', c);
        assert !keep ==> OfClient(calls, b, c) == OfClient(calls, b', c);
        SubseqAppendRight(OfClient(calls, a, c), OfClient(calls, b', c), t);
      } else {
        OfClientSubseq(calls, a', b', c);
        SubseqAppendBoth(OfClient(calls, a', c), OfClient(calls, b', c), t);
        assert !keep ==> OfClient(calls, b, c) == OfClient(calls, b', c) && OfClient(calls, a, c) == OfClient(calls, a', c);
      }
    }
  }

  lemma {:induction false} AcceptedSubseq(routed: seq<Routing>, w: nat)
    ensures Subseq(AcceptedBy(routed, w), TasksOf(routed))
  {
    if routed != [] {
      var r := routed[..|routed| - 1];
      AcceptedSubseq(r, w);
      var x := routed[|routed| - 1];
      if x.worker == w && x.accepted {
        SubseqAppendBoth(AcceptedBy(r, w), TasksOf(r), x.task);
      } else {
        SubseqAppendRight(AcceptedBy(r, w), TasksOf(r), x.task);
        assert AcceptedBy(routed, w) == AcceptedBy(r, w);
      }
    }
  }

  lemma {:induction false} AcceptedIsRouted(routed: seq<Routing>, w: nat, t: CallId)
    requires t in AcceptedBy(routed, w)
    ensures exists i :: 0 <= i < |routed| && routed[i] == Routing(t, w, true)
  {
    var r := routed[..|routed| - 1];
    if t in AcceptedBy(r, w) {
      AcceptedIsRouted(r, w, t);
    } else {
      assert routed[|routed| - 1] == Routing(t, w, true);
    }
  }

  lemma StartedSubseq(s: State, w: nat)
    requires Fifo(s) && w < |s.workers|
    ensures Subseq(s.workers[w].started, s.enqueued)
  {
    var x := s.workers[w];
    var rest := Undecided(s.dispatcher) + s.queue;
    AcceptedSubseq(s.routed, w);
    assert (x.started + x.channel)[..|x.started|] == x.started;
    SubseqPrefix(AcceptedBy(s.routed, w), |x.started|, TasksOf(s.routed));
    SubseqExtend(x.started, TasksOf(s.routed), rest);
    assert s.enqueued == TasksOf(s.routed) + rest;
  }

  lemma StartedIsBound(s: State, w: nat, t: CallId)
    requires Fifo(s) && HashRouted(s) && w < |s.workers| && t in s.workers[w].started
    ensures BoundByHash(s, t, w)
  {
    assert t in s.workers[w].started + s.workers[w].channel;
    AcceptedIsRouted(s.routed, w, t);
  }

  /** With any balancer, each worker starts tasks in the order they were queued. */
  lemma WorkerStartsInOrder(cfg: Config, run: Run, n: nat, s: State, w: nat)
    requires StateOf(cfg, run, n, s) && w < |s.workers|
    ensures Subseq(s.workers[w].started, s.enqueued)
  {
    FifoAlways(cfg, run, n);
    StartedSubseq(s, w);
  }

  /**
   With the hash balancer, in every interleaving: a client's tasks are started by one worker
   only, fixed by the client id, and in the order in which that client's tasks were queued.
   */
  lemma ClientOrderUnderHash(cfg: Config, run: Run, n: nat, s: State, c: ClientId)
    requires StateOf(cfg, run, n, s) && cfg.hashMode && |s.workers| > 0
    ensures var w := Balancers.HashIndex(c, |s.workers|);
            && (forall v, t :: 0 <= v < |s.workers| && t in s.workers[v].started ==>
                  t in s.calls && (s.calls[t].client == c ==> v == w))
            && Subseq(OfClient(s.calls, s.workers[w].started, c), OfClient(s.calls, s.enqueued, c))
  {
    FifoAlways(cfg, run, n);
    HashRoutedAlways(cfg, run, n);
    var w := Balancers.HashIndex(c, |s.workers|);
    StartedSubseq(s, w);
    OfClientSubseq(s.calls, s.workers[w].started, s.enqueued, c);
    forall v, t | 0 <= v < |s.workers| && t in s.workers[v].started ensures BoundByHash(s, t, v) {
      StartedIsBound(s, v, t);
    }
  }

  /** The pool keeps its size. */
  lemma {:induction false} PoolFixed(cfg: Config, run: Run, n: nat)
    requires IsRun(cfg, run) && n < |run.states|
    ensures |run.states[n].workers| == cfg.workerCount
  {
    if n > 0 {
      PoolFixed(cfg, run, n - 1);
      assert Step(cfg, run.states[n - 1], run.actions[n - 1], run.states[n]);
    }
  }
}
