/**
 What a call returns with. A fate of a task is told from the actions of a run alone; a state shows
 which fates its tasks have met, and so the outcome of a call is the one its task has met.
 */
module RouterOutcome {
  import opened MessageRouter
  import opened RouterLocation

  /** What can happen to a task. */
  datatype Fate = Succeeds | Fails | Expires | Overflows | Rejected

  /** The action of `l` in state `s` is what brings fate `f` on task `t`. */
  predicate Causes(s: State, l: Label, t: CallId, f: Fate) {
    match f
    case Succeeds => Processes(s, l, t, true)
    case Fails => Processes(s, l, t, false) || GivesUp(s, l, t)
    case Expires => l == ByCaller(t, ProcessingTimeout)
    case Overflows => l == ByCaller(t, SubmitTimeout)
    case Rejected => l.ByCaller? && l.call == t && l.caller.Arrive? && !s.running
  }

  /** The worker that has task `t` in hand processes it, with this success. */
  predicate Processes(s: State, l: Label, t: CallId, success: bool) {
    l.ByWorker? && l.worker == Process(success) && l.index < |s.workers| && s.workers[l.index].pc == Counted(t)
  }

  /** The dispatcher cannot deliver task `t` to the worker it chose. */
  predicate GivesUp(s: State, l: Label, t: CallId) {
    l == ByDispatcher(DeliverTimeout) && s.dispatcher.Targeting? && s.dispatcher.task == t
  }

  ghost predicate Happened(run: Run, n: nat, t: CallId, f: Fate)
    requires n <= |run.actions| < |run.states|
  {
    exists i {:trigger run.actions[i]} :: 0 <= i < n && Causes(run.states[i], run.actions[i], t, f)
  }

  // ------------------------------------------------------------------ what a state shows

  predicate HasOutcome(pc: CallPc, o: Outcome) {
    pc == CountingDequeued(o) || pc == CountingOutcome(o) || pc == Returned(o)
  }

  function OutcomeOf(success: bool): Outcome {
    if success then Completed else Failed
  }

  ghost predicate Sends(s: State, t: CallId, success: bool) {
    || (exists w :: 0 <= w < |s.workers| && s.workers[w].pc == Sending(t, success))
    || (!success && s.dispatcher.Refusing? && s.dispatcher.task == t)
  }

  predicate Answers(c: Call, success: bool) {
    c.response == [success] || HasOutcome(c.pc, OutcomeOf(success))
  }

  ghost predicate Shows(s: State, t: CallId, f: Fate) {
    match f
    case Succeeds => Sends(s, t, true) || (t in s.calls && Answers(s.calls[t], true))
    case Fails => Sends(s, t, false) || (t in s.calls && Answers(s.calls[t], false))
    case Expires => t in s.calls && HasOutcome(s.calls[t].pc, TimedOut)
    case Overflows => t in s.calls && (s.calls[t].pc == CountingOverflow || HasOutcome(s.calls[t].pc, Overflowed))
    case Rejected => t in s.calls && HasOutcome(s.calls[t].pc, NotRunning)
  }

  /** A call that took its result emptied its channel, and its task is nowhere else. */
  predicate TookResult(c: Call) {
    HasOutcome(c.pc, Completed) || HasOutcome(c.pc, Failed) ==> c.place == Answered && c.response == []
  }

  ghost predicate ResultsTaken(s: State) {
    forall t :: t in s.calls ==> TookResult(s.calls[t])
  }

  ghost predicate Good(s: State) {
    Located(s) && Outcomes(s) && ResultsTaken(s)
  }

  // ------------------------------------------------------------------ one step

  predicate SamePcs(s: State, s': State) {
    |s'.workers| == |s.workers| && forall w :: 0 <= w < |s.workers| ==> s'.workers[w].pc == s.workers[w].pc
  }

  lemma SameSends(s: State, s': State, t: CallId, success: bool)
    requires SamePcs(s, s') && (s'.dispatcher == s.dispatcher || (!s.dispatcher.Refusing? && !s'.dispatcher.Refusing?))
    ensures Sends(s', t, success) <==> Sends(s, t, success)
  {
    if w :| 0 <= w < |s.workers| && s.workers[w].pc == Sending(t, success) {
      assert s'.workers[w].pc == Sending(t, success);
    }
  }

  /** What a call's own record shows. */
  predicate Tells(c: Call, f: Fate) {
    match f
    case Succeeds => Answers(c, true)
    case Fails => Answers(c, false)
    case Expires => HasOutcome(c.pc, TimedOut)
    case Overflows => c.pc == CountingOverflow || HasOutcome(c.pc, Overflowed)
    case Rejected => HasOutcome(c.pc, NotRunning)
  }

  /** The two fates that are a caller's own doing. */
  predicate OwnFate(a: CallerAction, running: bool, f: Fate) {
    match f
    case Expires => a == ProcessingTimeout
    case Overflows => a == SubmitTimeout
    case Rejected => a.Arrive? && !running
    case _ => false
  }

  predicate ChangesFate(a: CallerAction) {
    a.Arrive? || a.SubmitTimeout? || a.ReceiveResult? || a.ProcessingTimeout?
  }

  lemma ArriveTells(cfg: Config, s: State, t: CallId, a: CallerAction, f: Fate)
    requires CallerEnabled(cfg, s, t, a) && a.Arrive?
    ensures t in CallerDo(cfg, s, t, a).calls
    ensures Tells(CallerDo(cfg, s, t, a).calls[t], f) <==> OwnFate(a, s.running, f)
  {}

  lemma FateTells(cfg: Config, s: State, t: CallId, a: CallerAction, f: Fate)
    requires CallerEnabled(cfg, s, t, a) && ChangesFate(a) && !a.Arrive? && CallConsistent(s.calls[t])
    ensures t in CallerDo(cfg, s, t, a).calls
    ensures Tells(CallerDo(cfg, s, t, a).calls[t], f) <==> Tells(s.calls[t], f) || OwnFate(a, s.running, f)
  {}

  lemma QueueingTells(cfg: Config, s: State, t: CallId, a: CallerAction, f: Fate)
    requires CallerEnabled(cfg, s, t, a) && (a.Submit? || a.HandOff? || a.CountTotal? || a.CountQueued?)
    ensures t in CallerDo(cfg, s, t, a).calls
    ensures Tells(CallerDo(cfg, s, t, a).calls[t], f) <==> Tells(s.calls[t], f)
  {}

  lemma CountingTells(cfg: Config, s: State, t: CallId, a: CallerAction, f: Fate)
    requires CallerEnabled(cfg, s, t, a) && (a.CountOverflow? || a.CountDequeued? || a.CountOutcome?)
    ensures t in CallerDo(cfg, s, t, a).calls
    ensures Tells(CallerDo(cfg, s, t, a).calls[t], f) <==> Tells(s.calls[t], f)
  {}

  /** A caller's action changes what its own record tells by that fate only. */
  lemma CallerTells(cfg: Config, s: State, t: CallId, a: CallerAction, f: Fate)
    requires CallerEnabled(cfg, s, t, a) && (t in s.calls ==> CallConsistent(s.calls[t]))
    ensures t in CallerDo(cfg, s, t, a).calls
    ensures Tells(CallerDo(cfg, s, t, a).calls[t], f) <==>
            (t in s.calls && Tells(s.calls[t], f)) || OwnFate(a, s.running, f)
  {
    if a.Arrive? {
      ArriveTells(cfg, s, t, a, f);
    } else if ChangesFate(a) {
      FateTells(cfg, s, t, a, f);
    } else if a.CountOverflow? || a.CountDequeued? || a.CountOutcome? {
      CountingTells(cfg, s, t, a, f);
    } else {
      QueueingTells(cfg, s, t, a, f);
    }
  }

  lemma CallerFrame(cfg: Config, s: State, u: CallId, a: CallerAction)
    requires CallerEnabled(cfg, s, u, a)
    ensures var s' := CallerDo(cfg, s, u, a);
            && s'.workers == s.workers
            && (s'.dispatcher == s.dispatcher || (!s.dispatcher.Refusing? && !s'.dispatcher.Refusing?))
            && forall t :: t != u ==> (t in s'.calls <==> t in s.calls) && (t in s.calls ==> s'.calls[t] == s.calls[t])
  {}

  /** Seen by the record and by the senders, a state shows a fate. */
  lemma ShowsIs(s: State, t: CallId, f: Fate)
    ensures Shows(s, t, f) <==>
            (f == Succeeds && Sends(s, t, true)) || (f == Fails && Sends(s, t, false)) || (t in s.calls && Tells(s.calls[t], f))
  {}

  lemma CallerShows(cfg: Config, s: State, u: CallId, a: CallerAction, t: CallId, f: Fate)
    requires Located(s) && CallerEnabled(cfg, s, u, a)
    ensures Shows(CallerDo(cfg, s, u, a), t, f) <==> Shows(s, t, f) || Causes(s, ByCaller(u, a), t, f)
  {
    var s' := CallerDo(cfg, s, u, a);
    CallerFrame(cfg, s, u, a);
    SameSends(s, s', t, true);
    SameSends(s, s', t, false);
    ShowsIs(s, t, f);
    ShowsIs(s', t, f);
    if t == u {
      CallerTells(cfg, s, t, a, f);
    }
    assert Causes(s, ByCaller(u, a), t, f) <==> t == u && OwnFate(a, s.running, f);
  }

  // ------------------------------------------------------------------ the other actors

  lemma SameCalls(s: State, s': State, t: CallId, f: Fate)
    requires s'.calls == s.calls && (Sends(s', t, true) <==> Sends(s, t, true)) && (Sends(s', t, false) <==> Sends(s, t, false))
    ensures Shows(s', t, f) <==> Shows(s, t, f)
  {}

  lemma DispatcherShows(cfg: Config, s: State, a: DispatcherAction, t: CallId, f: Fate)
    requires Located(s) && DispatcherEnabled(cfg, s, a)
    ensures Shows(DispatcherDo(cfg, s, a), t, f) <==> Shows(s, t, f) || Causes(s, ByDispatcher(a), t, f)
  {
    var s' := DispatcherDo(cfg, s, a);
    ShowsIs(s, t, f);
    ShowsIs(s', t, f);
    DispatcherFrame(cfg, s, a);
    if a.SendRefusal? {
      RefusalSends(cfg, s, t);
    } else if a.DeliverTimeout? {
      SenderNow(s, s', t);
    } else {
      SameSends(s, s', t, true);
      SameSends(s, s', t, false);
    }
    if t in s.calls {
      DispatcherTells(cfg, s, a, t, f);
    }
  }

  lemma DispatcherFrame(cfg: Config, s: State, a: DispatcherAction)
    requires DispatcherEnabled(cfg, s, a)
    ensures var s' := DispatcherDo(cfg, s, a);
            && SamePcs(s, s') && (forall t :: t in s'.calls <==> t in s.calls)
            && (!a.SendRefusal? && !a.DeliverTimeout? ==> !s.dispatcher.Refusing? && !s'.dispatcher.Refusing?)
  {}

  /** Only a refusal that is sent changes what a record tells. */
  lemma DispatcherTells(cfg: Config, s: State, a: DispatcherAction, t: CallId, f: Fate)
    requires DispatcherEnabled(cfg, s, a) && t in s.calls && CallConsistent(s.calls[t])
    ensures t in DispatcherDo(cfg, s, a).calls
    ensures Tells(DispatcherDo(cfg, s, a).calls[t], f) <==>
            Tells(s.calls[t], f) || (f == Fails && a.SendRefusal? && s.dispatcher.task == t)
  {
    if a.SendRefusal? && s.dispatcher.task == t {
      AnswerTells(s, t, false, f);
    }
  }

  /** A result put in an empty channel is what the record tells from then on. */
  lemma AnswerTells(s: State, t: CallId, success: bool, f: Fate)
    requires t in s.calls && s.calls[t].response == []
    ensures var c, d := s.calls[t], Answer(s, t, success).calls[t];
            Tells(d, f) <==> Tells(c, f) || f == if success then Succeeds else Fails
  {
    assert Answer(s, t, success).calls[t].response == [success];
  }

  lemma SenderNow(s: State, s': State, t: CallId)
    requires SamePcs(s, s') && s.dispatcher.Targeting? && s'.dispatcher == Refusing(s.dispatcher.task, s.dispatcher.worker)
    ensures Sends(s', t, true) <==> Sends(s, t, true)
    ensures Sends(s', t, false) <==> Sends(s, t, false) || s.dispatcher.task == t
  {
    var s0 := s.(dispatcher := Idle);
    SameSends(s0, s'.(dispatcher := Idle), t, true);
    SameSends(s0, s'.(dispatcher := Idle), t, false);
    assert forall b :: Sends(s0, t, b) <==> Sends(s, t, b);
    assert Sends(s'.(dispatcher := Idle), t, true) <==> Sends(s', t, true);
    assert Sends(s', t, false) <==> Sends(s'.(dispatcher := Idle), t, false) || s.dispatcher.task == t;
  }

  lemma RefusalSends(cfg: Config, s: State, t: CallId)
    requires DispatcherEnabled(cfg, s, SendRefusal)
    ensures var s' := DispatcherDo(cfg, s, SendRefusal);
            && (Sends(s', t, true) <==> Sends(s, t, true))
            && (Sends(s', t, false) || s.dispatcher.task == t <==> Sends(s, t, false))
  {
    var s' := DispatcherDo(cfg, s, SendRefusal);
    assert s'.workers == s.workers;
  }

  lemma WorkerShows(s: State, w: nat, a: WorkerAction, t: CallId, f: Fate)
    requires Located(s) && WorkerEnabled(s, w, a)
    ensures Shows(WorkerDo(s, w, a), t, f) <==> Shows(s, t, f) || Causes(s, ByWorker(w, a), t, f)
  {
    var s' := WorkerDo(s, w, a);
    ShowsIs(s, t, f);
    ShowsIs(s', t, f);
    WorkerFrame(s, w, a);
    SendTimeoutImpossible(s, w);
    WorkerSends(s, w, a, t, true);
    WorkerSends(s, w, a, t, false);
    if t in s.calls {
      WorkerTells(s, w, a, t, f);
    }
  }

  lemma WorkerFrame(s: State, w: nat, a: WorkerAction)
    requires WorkerEnabled(s, w, a)
    ensures var s' := WorkerDo(s, w, a);
            && s'.dispatcher == s.dispatcher && |s'.workers| == |s.workers|
            && (forall v :: 0 <= v < |s.workers| && v != w ==> s'.workers[v] == s.workers[v])
            && (forall t :: t in s'.calls <==> t in s.calls)
  {}

  /** Only a result that is sent changes what a record tells. */
  lemma WorkerTells(s: State, w: nat, a: WorkerAction, t: CallId, f: Fate)
    requires WorkerEnabled(s, w, a) && t in s.calls && CallConsistent(s.calls[t])
    ensures t in WorkerDo(s, w, a).calls
    ensures var pc := s.workers[w].pc;
            Tells(WorkerDo(s, w, a).calls[t], f) <==>
            Tells(s.calls[t], f) ||
            (a.SendResult? && pc.task == t && f == if pc.success then Succeeds else Fails)
  {
    if a.SendResult? && s.workers[w].pc.task == t {
      AnswerTells(s, t, s.workers[w].pc.success, f);
    }
  }

  /** Who sends what before and after a worker's action. */
  lemma WorkerSends(s: State, w: nat, a: WorkerAction, t: CallId, ok: bool)
    requires WorkerEnabled(s, w, a) && !a.SendTimeout?
    ensures var s', mine := WorkerDo(s, w, a), s.workers[w].pc == Sending(t, ok);
            && (Sends(s', t, ok) ==> Sends(s, t, ok) || (a == Process(ok) && s.workers[w].pc == Counted(t)))
            && (Sends(s, t, ok) ==> Sends(s', t, ok) || (a.SendResult? && mine))
            && (a == Process(ok) && s.workers[w].pc == Counted(t) ==> Sends(s', t, ok))
  {
    var s' := WorkerDo(s, w, a);
    WorkerFrame(s, w, a);
    assert a == Process(ok) && s.workers[w].pc == Counted(t) ==> s'.workers[w].pc == Sending(t, ok);
    if v :| 0 <= v < |s.workers| && s.workers[v].pc == Sending(t, ok) {
      if v != w {
        assert s'.workers[v].pc == Sending(t, ok);
      }
    }
    if v :| 0 <= v < |s'.workers| && s'.workers[v].pc == Sending(t, ok) {
      if v != w {
        assert s.workers[v].pc == Sending(t, ok);
      }
    }
  }

  // ------------------------------------------------------------------ results are taken once

  lemma CallerTakes(cfg: Config, s: State, u: CallId, a: CallerAction)
    requires Good(s) && CallerEnabled(cfg, s, u, a)
    ensures ResultsTaken(CallerDo(cfg, s, u, a))
  {
    var s' := CallerDo(cfg, s, u, a);
    CallerFrame(cfg, s, u, a);
    if u in s.calls {
      assert CallConsistent(s.calls[u]) && TookResult(s.calls[u]);
      OwnRecordTakes(cfg, s, u, a);
    }
    forall t | t in s'.calls ensures TookResult(s'.calls[t]) {
      assert t != u ==> TookResult(s.calls[t]);
    }
  }

  lemma OwnRecordTakes(cfg: Config, s: State, u: CallId, a: CallerAction)
    requires CallerEnabled(cfg, s, u, a) && u in s.calls && CallConsistent(s.calls[u]) && TookResult(s.calls[u])
    ensures u in CallerDo(cfg, s, u, a).calls && TookResult(CallerDo(cfg, s, u, a).calls[u])
  {}

  lemma DispatcherTakes(cfg: Config, s: State, a: DispatcherAction)
    requires Good(s) && DispatcherEnabled(cfg, s, a)
    ensures ResultsTaken(DispatcherDo(cfg, s, a))
  {
    var s' := DispatcherDo(cfg, s, a);
    assert a.TakeTask? ==> Holds(s, s.queue[0], InQueue);
    assert s.dispatcher != Idle ==> Holds(s, s.dispatcher.task, WithDispatcher);
    forall t | t in s'.calls ensures TookResult(s'.calls[t]) {
      assert TookResult(s.calls[t]);
    }
  }

  lemma WorkerTakes(s: State, w: nat, a: WorkerAction)
    requires Good(s) && WorkerEnabled(s, w, a)
    ensures ResultsTaken(WorkerDo(s, w, a))
  {
    var s' := WorkerDo(s, w, a);
    assert a.TakeFromChannel? ==> Holds(s, s.workers[w].channel[0], InChannel(w));
    assert a.SendResult? ==> Holds(s, s.workers[w].pc.task, InHands(w));
    forall t | t in s'.calls ensures TookResult(s'.calls[t]) {
      assert TookResult(s.calls[t]);
    }
  }

  // ------------------------------------------------------------------ whole runs

  lemma StepShows(cfg: Config, s: State, l: Label, t: CallId, f: Fate)
    requires Good(s) && Enabled(cfg, s, l)
    ensures Shows(Do(cfg, s, l), t, f) <==> Shows(s, t, f) || Causes(s, l, t, f)
  {
    match l
    case Start =>
      SameSends(s, s.(running := true), t, true);
      SameSends(s, s.(running := true), t, false);
    case ByCaller(u, a) => CallerShows(cfg, s, u, a, t, f);
    case ByDispatcher(a) => DispatcherShows(cfg, s, a, t, f);
    case ByWorker(w, a) => WorkerShows(s, w, a, t, f);
  }

  lemma {:induction false} GoodAlways(cfg: Config, run: Run, n: nat)
    requires IsRun(cfg, run) && n < |run.states|
    ensures Good(run.states[n])
  {
    LocatedAlways(cfg, run, n);
    if n > 0 {
      GoodAlways(cfg, run, n - 1);
      var s, l := run.states[n - 1], run.actions[n - 1];
      assert Step(cfg, s, l, run.states[n]);
      match l {
        case Start =>
        case ByCaller(u, a) => CallerTakes(cfg, s, u, a);
        case ByDispatcher(a) => DispatcherTakes(cfg, s, a);
        case ByWorker(w, a) => WorkerTakes(s, w, a);
      }
    }
  }

  /** In every reachable state exactly those fates show that the actions so far have brought. */
  lemma {:induction false} FatesShow(cfg: Config, run: Run, n: nat, t: CallId, f: Fate)
    requires IsRun(cfg, run) && n < |run.states|
    ensures Shows(run.states[n], t, f) <==> Happened(run, n, t, f)
  {
    if n > 0 {
      FatesShow(cfg, run, n - 1, t, f);
      GoodAlways(cfg, run, n - 1);
      HappenedNext(run, n - 1, t, f);
      assert Step(cfg, run.states[n - 1], run.actions[n - 1], run.states[n]);
      StepShows(cfg, run.states[n - 1], run.actions[n - 1], t, f);
    }
  }

  lemma HappenedNext(run: Run, n: nat, t: CallId, f: Fate)
    requires n < |run.actions| < |run.states|
    ensures Happened(run, n + 1, t, f) <==> Happened(run, n, t, f) || Causes(run.states[n], run.actions[n], t, f)
  {
    if Causes(run.states[n], run.actions[n], t, f) {
      assert run.actions[n] == run.actions[n];
    }
  }

  /** A task that is processed is processed once, and not refused. */
  lemma OneResult(s: State, t: CallId)
    requires Good(s)
    ensures !(Shows(s, t, Succeeds) && Shows(s, t, Fails))
  {
    if Sends(s, t, true) {
      SenderHolds(s, t, true);
    }
    if Sends(s, t, false) {
      SenderHolds(s, t, false);
    }
  }

  /** A task whose result is about to be sent is with its sender alone. */
  lemma SenderHolds(s: State, t: CallId, ok: bool)
    requires Good(s) && Sends(s, t, ok)
    ensures t in s.calls && Contained(s.calls[t].place) && s.calls[t].response == []
    ensures !HasOutcome(s.calls[t].pc, Completed) && !HasOutcome(s.calls[t].pc, Failed)
    ensures !Sends(s, t, !ok) && !BeforeQueue(s.calls[t].pc)
  {
    if w :| 0 <= w < |s.workers| && s.workers[w].pc == Sending(t, ok) {
      assert Holds(s, t, InHands(w));
    } else {
      assert Holds(s, t, WithDispatcher);
    }
    if v :| 0 <= v < |s.workers| && s.workers[v].pc == Sending(t, !ok) {
      assert Holds(s, t, InHands(v));
    }
    if s.dispatcher.Refusing? && s.dispatcher.task == t {
      assert Holds(s, t, WithDispatcher);
    }
    assert CallConsistent(s.calls[t]) && TookResult(s.calls[t]);
  }

  /**
   What a call returns with, from the actions alone: an error of its own if it was rejected, timed
   out in the queue or while waiting; otherwise success exactly if the worker that had its task
   processed it successfully, and failure exactly if that failed or the dispatcher gave up on it.
   */
  lemma OutcomeIff(cfg: Config, run: Run, n: nat, t: CallId, o: Outcome)
    requires IsRun(cfg, run) && n < |run.states|
    requires t in run.states[n].calls && run.states[n].calls[t].pc == Returned(o)
    ensures o == NotRunning <==> Happened(run, n, t, Rejected)
    ensures o == Overflowed <==> Happened(run, n, t, Overflows)
    ensures o == TimedOut <==> Happened(run, n, t, Expires)
    ensures o == Completed <==> Happened(run, n, t, Succeeds) && !Happened(run, n, t, Expires)
    ensures o == Failed <==> Happened(run, n, t, Fails) && !Happened(run, n, t, Expires)
  {
    var s := run.states[n];
    GoodAlways(cfg, run, n);
    FatesShow(cfg, run, n, t, Rejected);
    FatesShow(cfg, run, n, t, Overflows);
    FatesShow(cfg, run, n, t, Expires);
    FatesShow(cfg, run, n, t, Succeeds);
    FatesShow(cfg, run, n, t, Fails);
    OneResult(s, t);
    ReturnedShows(s, t, o);
  }

  lemma ReturnedShows(s: State, t: CallId, o: Outcome)
    requires Good(s) && t in s.calls && s.calls[t].pc == Returned(o) && !(Shows(s, t, Succeeds) && Shows(s, t, Fails))
    ensures o == Completed <==> Shows(s, t, Succeeds) && o != TimedOut
    ensures o == Failed <==> Shows(s, t, Fails) && o != TimedOut
  {
    assert CallConsistent(s.calls[t]);
    if Sends(s, t, true) {
      ReturnedSender(s, t, true, o);
    }
    if Sends(s, t, false) {
      ReturnedSender(s, t, false, o);
    }
  }

  lemma ReturnedSender(s: State, t: CallId, ok: bool, o: Outcome)
    requires Good(s) && Sends(s, t, ok) && t in s.calls && s.calls[t].pc == Returned(o)
    ensures o == TimedOut
  {
    SenderHolds(s, t, ok);
  }

  // ------------------------------------------------------------------ the workers' own books, and the buffers

  /** How many tasks a worker has failed to process. */
  ghost function Failures(run: Run, n: nat, w: nat): nat
    requires n <= |run.actions|
  {
    if n == 0 then 0
    else Failures(run, n - 1, w) + if run.actions[n - 1] == ByWorker(w, Process(false)) then 1 else 0
  }

  /** A worker has counted every task it has started, except one that it has only just taken; it is idle without one. */
  predicate BooksBalance(x: Worker) {
    && x.processedTasks == |x.started| - (if x.pc.Received? || x.pc.MarkedBusy? then 1 else 0)
    && (x.isIdle <==> x.pc == Listening || x.pc.Received?)
  }

  ghost predicate Fits(cfg: Config, s: State) {
    && |s.queue| <= cfg.queueSize
    && forall w :: 0 <= w < |s.workers| ==> |s.workers[w].channel| <= 10 && BooksBalance(s.workers[w])
  }

  lemma FitsStep(cfg: Config, s: State, l: Label)
    requires Enabled(cfg, s, l) && Fits(cfg, s)
    ensures Fits(cfg, Do(cfg, s, l))
  {
    match l
    case Start =>
    case ByCaller(t, a) => CallerFits(cfg, s, t, a);
    case ByDispatcher(a) => DispatcherFits(cfg, s, a);
    case ByWorker(w, a) => WorkerFits(cfg, s, w, a);
  }

  lemma CallerFits(cfg: Config, s: State, t: CallId, a: CallerAction)
    requires CallerEnabled(cfg, s, t, a) && Fits(cfg, s)
    ensures Fits(cfg, CallerDo(cfg, s, t, a))
  {
    var s' := CallerDo(cfg, s, t, a);
    assert s'.workers == s.workers;
    assert s'.queue == if a.Submit? then s.queue + [t] else s.queue;
  }

  lemma DispatcherFits(cfg: Config, s: State, a: DispatcherAction)
    requires DispatcherEnabled(cfg, s, a) && Fits(cfg, s)
    ensures Fits(cfg, DispatcherDo(cfg, s, a))
  {}

  lemma WorkerFits(cfg: Config, s: State, w: nat, a: WorkerAction)
    requires WorkerEnabled(s, w, a) && Fits(cfg, s)
    ensures Fits(cfg, WorkerDo(s, w, a))
  {
    WorkerFrame(s, w, a);
    OwnBooks(s, w, a);
    var s' := WorkerDo(s, w, a);
    assert s'.queue == s.queue;
    forall v | 0 <= v < |s'.workers| ensures |s'.workers[v].channel| <= 10 && BooksBalance(s'.workers[v]) {
      assert v != w ==> s'.workers[v] == s.workers[v];
    }
  }

  lemma OwnBooks(s: State, w: nat, a: WorkerAction)
    requires WorkerEnabled(s, w, a) && BooksBalance(s.workers[w])
    ensures w < |WorkerDo(s, w, a).workers| && BooksBalance(WorkerDo(s, w, a).workers[w])
    ensures |WorkerDo(s, w, a).workers[w].channel| <= |s.workers[w].channel|
    ensures WorkerDo(s, w, a).workers[w].failedTasks ==
            s.workers[w].failedTasks + if a == Process(false) then 1 else 0
  {}

  /** In every run queue and channels keep within their capacity, and each worker's books balance. */
  lemma {:induction false} BuffersAndBooks(cfg: Config, run: Run, n: nat, w: nat)
    requires IsRun(cfg, run) && n < |run.states|
    ensures Fits(cfg, run.states[n])
    ensures w < |run.states[n].workers| ==> run.states[n].workers[w].failedTasks == Failures(run, n, w)
    ensures |run.states[n].workers| == cfg.workerCount
  {
    if n > 0 {
      BuffersAndBooks(cfg, run, n - 1, w);
      var s, l := run.states[n - 1], run.actions[n - 1];
      assert Step(cfg, s, l, run.states[n]);
      FitsStep(cfg, s, l);
      SameCount(cfg, s, l);
      if w < |s.workers| {
        FailedTasksStep(cfg, s, l, w);
      }
    }
  }

  lemma SameCount(cfg: Config, s: State, l: Label)
    requires Enabled(cfg, s, l)
    ensures |Do(cfg, s, l).workers| == |s.workers|
  {}

  lemma FailedTasksStep(cfg: Config, s: State, l: Label, w: nat)
    requires Enabled(cfg, s, l) && Fits(cfg, s) && w < |s.workers|
    ensures w < |Do(cfg, s, l).workers|
    ensures Do(cfg, s, l).workers[w].failedTasks ==
            s.workers[w].failedTasks + if l == ByWorker(w, Process(false)) then 1 else 0
  {
    match l
    case Start =>
    case ByCaller(t, a) => CallerFrame(cfg, s, t, a);
    case ByDispatcher(a) =>
    case ByWorker(v, a) =>
      WorkerFrame(s, v, a);
      OwnBooks(s, v, a);
  }

  // ------------------------------------------------------------------ where a call comes from

  lemma OriginStep(cfg: Config, s: State, l: Label, t: CallId)
    requires Enabled(cfg, s, l)
    ensures var s' := Do(cfg, s, l);
            && (s'.running <==> s.running || l == Start)
            && (t in s'.calls ==>
                  if t in s.calls then s'.calls[t].client == s.calls[t].client
                  else l == ByCaller(t, Arrive(s'.calls[t].client)))
  {
    match l
    case Start =>
    case ByCaller(u, a) =>
      CallerFrame(cfg, s, u, a);
      CallerOrigin(cfg, s, u, a);
    case ByDispatcher(a) => DispatcherOrigin(cfg, s, a, t);
    case ByWorker(w, a) => WorkerOrigin(s, w, a, t);
  }

  lemma CallerOrigin(cfg: Config, s: State, u: CallId, a: CallerAction)
    requires CallerEnabled(cfg, s, u, a)
    ensures var s' := CallerDo(cfg, s, u, a);
            && s'.running == s.running && u in s'.calls
            && (if u in s.calls then s'.calls[u].client == s.calls[u].client else a == Arrive(s'.calls[u].client))
  {}

  lemma DispatcherOrigin(cfg: Config, s: State, a: DispatcherAction, t: CallId)
    requires DispatcherEnabled(cfg, s, a)
    ensures var s' := DispatcherDo(cfg, s, a);
            && s'.running == s.running && (t in s'.calls <==> t in s.calls)
            && (t in s.calls ==> s'.calls[t].client == s.calls[t].client)
  {}

  lemma WorkerOrigin(s: State, w: nat, a: WorkerAction, t: CallId)
    requires WorkerEnabled(s, w, a)
    ensures var s' := WorkerDo(s, w, a);
            && s'.running == s.running && (t in s'.calls <==> t in s.calls)
            && (t in s.calls ==> s'.calls[t].client == s.calls[t].client)
  {}

  /** A call is the client's that made it, and the router runs exactly since it was started. */
  lemma {:induction false} OriginOfCalls(cfg: Config, run: Run, n: nat, t: CallId)
    requires IsRun(cfg, run) && n < |run.states|
    ensures run.states[n].running <==> exists i :: 0 <= i < n && run.actions[i] == Start
    ensures t in run.states[n].calls ==>
              exists i :: 0 <= i < n && run.actions[i] == ByCaller(t, Arrive(run.states[n].calls[t].client))
  {
    if n > 0 {
      OriginOfCalls(cfg, run, n - 1, t);
      assert Step(cfg, run.states[n - 1], run.actions[n - 1], run.states[n]);
      OriginStep(cfg, run.states[n - 1], run.actions[n - 1], t);
    }
  }
}
