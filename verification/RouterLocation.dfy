/**
 Location of tasks: every queued task is in exactly one place, at most one result is ever
 sent for it, and no sender of a result can block.
 */
module RouterLocation {
  import opened Sequences
  import opened MessageRouter

  predicate Busy(pc: WorkerPc) {
    pc.Received? || pc.MarkedBusy? || pc.Counted? || pc.Sending?
  }

  predicate BeforeQueue(pc: CallPc) {
    pc == Submitting || pc == CountingOverflow || pc == Returned(NotRunning) || pc == Returned(Overflowed)
  }

  /** The container named by `p` really contains the task of call `t`. */
  predicate Holds(s: State, t: CallId, p: Place) {
    match p
    case InQueue => t in s.queue
    case WithDispatcher => s.dispatcher != Idle && s.dispatcher.task == t
    case InChannel(w) => w < |s.workers| && t in s.workers[w].channel
    case InHands(w) => w < |s.workers| && Busy(s.workers[w].pc) && s.workers[w].pc.task == t
    case Nowhere => false
    case Answered => false
  }

  predicate Contained(p: Place) {
    p != Nowhere && p != Answered
  }

  predicate CallConsistent(c: Call) {
    && c.sends == (if c.place == Answered then 1 else 0)
    && |c.response| <= c.sends
    && (c.place == Nowhere <==> BeforeQueue(c.pc))
  }

  ghost predicate ChannelsDistinct(s: State) {
    NoDup(s.queue) && forall w :: 0 <= w < |s.workers| ==> NoDup(s.workers[w].channel)
  }

  ghost predicate Located(s: State) {
    && ChannelsDistinct(s)
    && (forall t, p :: Holds(s, t, p) ==> t in s.calls && s.calls[t].place == p)
    && (forall t :: t in s.calls && Contained(s.calls[t].place) ==> Holds(s, t, s.calls[t].place))
    && (forall t :: t in s.calls ==> CallConsistent(s.calls[t]))
    && NoDup(s.enqueued)
    && (forall t :: t in s.enqueued <==> t in s.calls && s.calls[t].place != Nowhere)
  }

  /** A step that moves the task of call `t` to place `p` and moves no other task. */
  lemma LocatedMove(s: State, s': State, t: CallId, p: Place)
    requires Located(s) && ChannelsDistinct(s')
    requires t in s.calls && t in s'.calls && s'.calls == s.calls[t := s'.calls[t]]
    requires s'.calls[t].place == p && CallConsistent(s'.calls[t])
    requires forall u, q :: Holds(s', u, q) <==> if u == t then q == p && Contained(p) else Holds(s, u, q)
    requires s.calls[t].place != Nowhere ==> p != Nowhere
    requires s'.enqueued ==
             if s.calls[t].place == Nowhere && p != Nowhere then s.enqueued + [t] else s.enqueued
    ensures Located(s')
  {
  }

  lemma LocatedFrame(s: State, s': State)
    requires Located(s) && ChannelsDistinct(s')
    requires s'.enqueued == s.enqueued && s'.calls == s.calls
    requires forall u, q :: Holds(s', u, q) <==> Holds(s, u, q)
    ensures Located(s')
  {
  }

  /** Only a result, or the lack of one, is counted after a call has been queued. */
  predicate OutcomeKnown(pc: CallPc) {
    match pc
    case CountingDequeued(o) => o in {Completed, Failed, TimedOut}
    case CountingOutcome(o) => o in {Completed, Failed, TimedOut}
    case _ => true
  }

  ghost predicate Outcomes(s: State) {
    forall t :: t in s.calls ==> OutcomeKnown(s.calls[t].pc)
  }

  /** The caller's own steps after submission change its call record and the counters only. */
  lemma CallerEffect(cfg: Config, s: State, t: CallId, a: CallerAction)
    requires CallerEnabled(cfg, s, t, a) && !a.Arrive? && !a.Submit? && !a.HandOff?
    requires CallConsistent(s.calls[t]) && OutcomeKnown(s.calls[t].pc)
    ensures var s' := CallerDo(cfg, s, t, a);
            && t in s'.calls && s' == s.(calls := s.calls[t := s'.calls[t]], stats := s'.stats)
            && CallConsistent(s'.calls[t]) && s'.calls[t].place == s.calls[t].place
  {
  }

  lemma LocatedCallRecord(s: State, s': State, t: CallId)
    requires Located(s) && t in s.calls && t in s'.calls
    requires s' == s.(calls := s.calls[t := s'.calls[t]], stats := s'.stats)
    requires CallConsistent(s'.calls[t]) && s'.calls[t].place == s.calls[t].place
    ensures Located(s')
  {
    forall u, q ensures Holds(s', u, q) <==> Holds(s, u, q) {}
    LocatedMove(s, s', t, s.calls[t].place);
  }

  lemma LocatedCaller(cfg: Config, s: State, t: CallId, a: CallerAction)
    requires Located(s) && Outcomes(s) && CallerEnabled(cfg, s, t, a)
    requires !a.Arrive? && !a.Submit? && !a.HandOff?
    ensures Located(CallerDo(cfg, s, t, a))
  {
    CallerEffect(cfg, s, t, a);
    LocatedCallRecord(s, CallerDo(cfg, s, t, a), t);
  }

  lemma LocatedSubmit(cfg: Config, s: State, t: CallId, a: CallerAction)
    requires Located(s) && CallerEnabled(cfg, s, t, a) && (a.Submit? || a.HandOff?)
    ensures Located(CallerDo(cfg, s, t, a))
  {
    var s' := CallerDo(cfg, s, t, a);
    assert CallConsistent(s.calls[t]);
    assert !Holds(s, t, InQueue);
    forall u, q ensures Holds(s', u, q) <==> if u == t then q == s'.calls[t].place else Holds(s, u, q) {
      assert !Holds(s, t, q);
    }
    LocatedMove(s, s', t, s'.calls[t].place);
  }

  lemma LocatedArrive(cfg: Config, s: State, t: CallId, a: CallerAction)
    requires Located(s) && CallerEnabled(cfg, s, t, a) && a.Arrive?
    ensures Located(CallerDo(cfg, s, t, a))
  {
    var s' := CallerDo(cfg, s, t, a);
    forall u, q ensures Holds(s', u, q) <==> Holds(s, u, q) {}
  }

  lemma LocatedTakeTask(cfg: Config, s: State)
    requires Located(s) && DispatcherEnabled(cfg, s, TakeTask)
    ensures Located(DispatcherDo(cfg, s, TakeTask))
  {
    var s', t := DispatcherDo(cfg, s, TakeTask), s.queue[0];
    assert s.queue == [t] + s'.queue;
    assert Holds(s, t, InQueue);
    forall u, q ensures Holds(s', u, q) <==> if u == t then q == WithDispatcher else Holds(s, u, q) {
      assert u == t && Holds(s, u, q) ==> q == InQueue;
    }
    LocatedMove(s, s', t, WithDispatcher);
  }

  lemma LocatedDeliver(cfg: Config, s: State)
    requires Located(s) && DispatcherEnabled(cfg, s, Deliver)
    ensures Located(DispatcherDo(cfg, s, Deliver))
  {
    var s', t, w := DispatcherDo(cfg, s, Deliver), s.dispatcher.task, s.dispatcher.worker;
    assert Holds(s, t, WithDispatcher);
    assert !Holds(s, t, InChannel(w));
    forall u, q ensures Holds(s', u, q) <==> if u == t then q == InChannel(w) else Holds(s, u, q) {
      assert u == t && Holds(s, u, q) ==> q == WithDispatcher;
    }
    LocatedMove(s, s', t, InChannel(w));
  }

  lemma LocatedSendRefusal(cfg: Config, s: State)
    requires Located(s) && DispatcherEnabled(cfg, s, SendRefusal)
    ensures Located(DispatcherDo(cfg, s, SendRefusal))
  {
    var s', t := DispatcherDo(cfg, s, SendRefusal), s.dispatcher.task;
    assert Holds(s, t, WithDispatcher);
    forall u, q ensures Holds(s', u, q) <==> u != t && Holds(s, u, q) {
      assert u == t && Holds(s, u, q) ==> q == WithDispatcher;
    }
    LocatedMove(s, s', t, Answered);
  }

  lemma LocatedRetarget(cfg: Config, s: State, a: DispatcherAction)
    requires Located(s) && DispatcherEnabled(cfg, s, a) && (a.SelectWorker? || a.DeliverTimeout?)
    ensures Located(DispatcherDo(cfg, s, a))
  {
    var s' := DispatcherDo(cfg, s, a);
    forall u, q ensures Holds(s', u, q) <==> Holds(s, u, q) {}
    LocatedFrame(s, s');
  }

  lemma LocatedTakeFromChannel(s: State, w: nat)
    requires Located(s) && WorkerEnabled(s, w, TakeFromChannel)
    ensures Located(WorkerDo(s, w, TakeFromChannel))
  {
    var s', t := WorkerDo(s, w, TakeFromChannel), s.workers[w].channel[0];
    assert s.workers[w].channel == [t] + s'.workers[w].channel;
    assert Holds(s, t, InChannel(w));
    forall u, q ensures Holds(s', u, q) <==> if u == t then q == InHands(w) else Holds(s, u, q) {
      assert u == t && Holds(s, u, q) ==> q == InChannel(w);
    }
    LocatedMove(s, s', t, InHands(w));
  }

  lemma LocatedSendResult(s: State, w: nat)
    requires Located(s) && WorkerEnabled(s, w, SendResult)
    ensures Located(WorkerDo(s, w, SendResult))
  {
    var s', t := WorkerDo(s, w, SendResult), s.workers[w].pc.task;
    assert Holds(s, t, InHands(w));
    forall u, q ensures Holds(s', u, q) <==> u != t && Holds(s, u, q) {
      assert u == t && Holds(s, u, q) ==> q == InHands(w);
    }
    LocatedMove(s, s', t, Answered);
  }

  /** A worker that still holds its task has not filled the response channel. */
  lemma SendTimeoutImpossible(s: State, w: nat)
    requires Located(s)
    ensures !WorkerEnabled(s, w, SendTimeout)
  {
    if WorkerEnabled(s, w, SendTimeout) {
      assert Holds(s, s.workers[w].pc.task, InHands(w));
      assert false;
    }
  }

  lemma LocatedWorkerSilent(s: State, w: nat, a: WorkerAction)
    requires Located(s) && WorkerEnabled(s, w, a)
    requires a.MarkBusy? || a.CountProcessed? || a.Process? || a.MarkIdle?
    ensures Located(WorkerDo(s, w, a))
  {
    var s' := WorkerDo(s, w, a);
    forall u, q ensures Holds(s', u, q) <==> Holds(s, u, q) {}
    LocatedFrame(s, s');
  }

  lemma LocatedStart(s: State)
    requires Located(s)
    ensures Located(s.(running := true))
  {
    forall u, q ensures Holds(s.(running := true), u, q) <==> Holds(s, u, q) {}
    LocatedFrame(s, s.(running := true));
  }

  lemma LocatedStep(cfg: Config, s: State, l: Label)
    requires Located(s) && Outcomes(s) && Enabled(cfg, s, l)
    ensures Located(Do(cfg, s, l))
  {
    match l
    case Start => LocatedStart(s);
    case ByCaller(t, a) =>
      if a.Arrive? { LocatedArrive(cfg, s, t, a); }
      else if a.Submit? || a.HandOff? { LocatedSubmit(cfg, s, t, a); }
      else { LocatedCaller(cfg, s, t, a); }
    case ByDispatcher(a) =>
      match a {
        case TakeTask => LocatedTakeTask(cfg, s);
        case Deliver => LocatedDeliver(cfg, s);
        case SendRefusal => LocatedSendRefusal(cfg, s);
        case _ => LocatedRetarget(cfg, s, a);
      }
    case ByWorker(w, a) =>
      match a {
        case TakeFromChannel => LocatedTakeFromChannel(s, w);
        case SendResult => LocatedSendResult(s, w);
        case SendTimeout => SendTimeoutImpossible(s, w);
        case _ => LocatedWorkerSilent(s, w, a);
      }
  }

  lemma OutcomesStep(cfg: Config, s: State, l: Label)
    requires Outcomes(s) && Enabled(cfg, s, l)
    ensures Outcomes(Do(cfg, s, l))
  {
    match l
    case Start =>
    case ByCaller(t, a) => OutcomesCaller(cfg, s, t, a);
    case ByDispatcher(a) =>
    case ByWorker(w, a) =>
  }

  lemma OutcomesCaller(cfg: Config, s: State, t: CallId, a: CallerAction)
    requires Outcomes(s) && CallerEnabled(cfg, s, t, a)
    ensures Outcomes(CallerDo(cfg, s, t, a))
  {
    var s' := CallerDo(cfg, s, t, a);
    assert t in s.calls ==> OutcomeKnown(s.calls[t].pc);
    assert OutcomeKnown(s'.calls[t].pc);
  }

  lemma {:induction false} LocatedAlways(cfg: Config, run: Run, n: nat)
    requires IsRun(cfg, run) && n < |run.states|
    ensures Located(run.states[n]) && Outcomes(run.states[n])
  {
    if n > 0 {
      LocatedAlways(cfg, run, n - 1);
      var s, l := run.states[n - 1], run.actions[n - 1];
      LocatedStep(cfg, s, l);
      OutcomesStep(cfg, s, l);
    }
  }

  // ------------------------------------------------------------------ main results

  /** A single position of the system at which a task can be. */
  datatype Spot =
    | QueueSlot(i: nat)
    | DispatcherHands
    | ChannelSlot(worker: nat, i: nat)
    | WorkerHands(worker: nat)
    | ResultSent

  predicate At(s: State, t: CallId, spot: Spot) {
    match spot
    case QueueSlot(i) => i < |s.queue| && s.queue[i] == t
    case DispatcherHands => s.dispatcher != Idle && s.dispatcher.task == t
    case ChannelSlot(w, i) =>
      w < |s.workers| && i < |s.workers[w].channel| && s.workers[w].channel[i] == t
    case WorkerHands(w) => w < |s.workers| && Busy(s.workers[w].pc) && s.workers[w].pc.task == t
    case ResultSent => t in s.calls && s.calls[t].sends > 0
  }

  function PlaceOfSpot(spot: Spot): Place {
    match spot
    case QueueSlot(i) => InQueue
    case DispatcherHands => WithDispatcher
    case ChannelSlot(w, i) => InChannel(w)
    case WorkerHands(w) => InHands(w)
    case ResultSent => Answered
  }

  lemma SpotIsPlace(s: State, t: CallId, spot: Spot)
    requires Located(s) && At(s, t, spot)
    ensures t in s.calls && s.calls[t].place == PlaceOfSpot(spot)
  {
    if spot != ResultSent {
      assert Holds(s, t, PlaceOfSpot(spot));
    }
  }

  lemma SpotExists(s: State, t: CallId)
    requires Located(s) && t in s.enqueued
    ensures exists spot :: At(s, t, spot)
  {
    var place := s.calls[t].place;
    assert Contained(place) ==> Holds(s, t, place);
    match place
    case InQueue => var i :| 0 <= i < |s.queue| && s.queue[i] == t; assert At(s, t, QueueSlot(i));
    case WithDispatcher => assert At(s, t, DispatcherHands);
    case InChannel(w) =>
      var i :| 0 <= i < |s.workers[w].channel| && s.workers[w].channel[i] == t;
      assert At(s, t, ChannelSlot(w, i));
    case InHands(w) => assert At(s, t, WorkerHands(w));
    case Answered => assert At(s, t, ResultSent);
  }

  /** Conservation: a queued task is at exactly one spot, a task never queued is at none. */
  lemma ExactlyOneSpot(cfg: Config, run: Run, n: nat, s: State, t: CallId)
    requires StateOf(cfg, run, n, s)
    ensures t in s.enqueued <==> exists spot :: At(s, t, spot)
    ensures forall p, q :: At(s, t, p) && At(s, t, q) ==> p == q
  {
    LocatedAlways(cfg, run, n);
    forall p | At(s, t, p) ensures t in s.enqueued && s.calls[t].place == PlaceOfSpot(p) {
      SpotIsPlace(s, t, p);
    }
    if t in s.enqueued {
      SpotExists(s, t);
    }
  }

  /** At most one result is ever sent for a task, and the one-slot channel never overflows. */
  lemma AtMostOneResult(cfg: Config, run: Run, n: nat, s: State, t: CallId)
    requires StateOf(cfg, run, n, s) && t in s.calls
    ensures s.calls[t].sends <= 1 && |s.calls[t].response| <= s.calls[t].sends
    ensures s.calls[t].sends == 1 ==> t in s.enqueued
  {
    LocatedAlways(cfg, run, n);
  }

  /**
   Neither sender of a result can block, whatever has become of the caller; and the worker's
   one-second branch, which would drop the result, is never taken.
   */
  lemma SendersNeverBlock(cfg: Config, run: Run, n: nat, s: State, w: nat)
    requires StateOf(cfg, run, n, s)
    ensures s.dispatcher.Refusing? ==> DispatcherEnabled(cfg, s, SendRefusal)
    ensures w < |s.workers| && s.workers[w].pc.Sending? ==> WorkerEnabled(s, w, SendResult)
    ensures !WorkerEnabled(s, w, SendTimeout)
  {
    LocatedAlways(cfg, run, n);
    if s.dispatcher.Refusing? {
      assert Holds(s, s.dispatcher.task, WithDispatcher);
    }
    if w < |s.workers| && s.workers[w].pc.Sending? {
      assert Holds(s, s.workers[w].pc.task, InHands(w));
    }
    SendTimeoutImpossible(s, w);
  }
}
