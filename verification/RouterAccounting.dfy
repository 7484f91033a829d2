/** The router's counters: each is the number of calls at certain points of RouteMessage. */
module RouterAccounting {
  import opened MessageRouter
  import RouterLocation

  ghost function CallsAt(calls: map<CallId, Call>, p: CallPc -> bool): set<CallId> {
    set t | t in calls && p(calls[t].pc)
  }

  ghost function Tally(calls: map<CallId, Call>, p: CallPc -> bool): nat {
    |CallsAt(calls, p)|
  }

  predicate TotalCounted(pc: CallPc) {
    || pc.CountingQueued? || pc.Waiting? || pc.CountingDequeued? || pc.CountingOutcome?
    || (pc.Returned? && pc.outcome != NotRunning && pc.outcome != Overflowed)
  }

  predicate QueuedCounted(pc: CallPc) {
    pc.Waiting? || pc.CountingDequeued?
  }

  predicate CompletedCounted(pc: CallPc) {
    pc == Returned(Completed)
  }

  predicate FailedCounted(pc: CallPc) {
    pc == Returned(Failed) || pc == Returned(TimedOut)
  }

  predicate OverflowCounted(pc: CallPc) {
    pc == Returned(Overflowed)
  }

  /** Between the first and the second counter update, or between the last two. */
  predicate BetweenUpdates(pc: CallPc) {
    pc.CountingQueued? || pc.CountingOutcome?
  }

  predicate ReturnedAccepted(pc: CallPc) {
    pc.Returned? && pc.outcome != NotRunning
  }

  ghost predicate Accounted(s: State) {
    && s.stats.total == Tally(s.calls, TotalCounted)
    && s.stats.queued == Tally(s.calls, QueuedCounted)
    && s.stats.completed == Tally(s.calls, CompletedCounted)
    && s.stats.failed == Tally(s.calls, FailedCounted)
    && s.stats.overflows == Tally(s.calls, OverflowCounted)
  }

  function Ind(b: bool): int {
    if b then 1 else 0
  }

  lemma TallyUpdate(calls: map<CallId, Call>, calls': map<CallId, Call>, t: CallId, p: CallPc -> bool)
    requires t in calls' && calls' == calls[t := calls'[t]]
    ensures Tally(calls', p) ==
            Tally(calls, p) - Ind(t in calls && p(calls[t].pc)) + Ind(p(calls'[t].pc))
  {
    var a, b := CallsAt(calls, p), CallsAt(calls', p);
    assert a - {t} == b - {t};
    assert |a - {t}| == |a| - Ind(t in a);
    assert |b - {t}| == |b| - Ind(t in b);
  }

  lemma TallySame(calls: map<CallId, Call>, calls': map<CallId, Call>, p: CallPc -> bool)
    requires calls.Keys == calls'.Keys
    requires forall t :: t in calls ==> calls'[t].pc == calls[t].pc
    ensures Tally(calls', p) == Tally(calls, p)
  {
    assert CallsAt(calls, p) == CallsAt(calls', p);
  }

  /** The five counters change by exactly what their five tallies change by. */
  predicate CountersFollow(st: Stats, st': Stats, was: CallPc, now: CallPc) {
    && st'.total - st.total == Ind(TotalCounted(now)) - Ind(TotalCounted(was))
    && st'.queued - st.queued == Ind(QueuedCounted(now)) - Ind(QueuedCounted(was))
    && st'.completed - st.completed == Ind(CompletedCounted(now)) - Ind(CompletedCounted(was))
    && st'.failed - st.failed == Ind(FailedCounted(now)) - Ind(FailedCounted(was))
    && st'.overflows - st.overflows == Ind(OverflowCounted(now)) - Ind(OverflowCounted(was))
  }

  lemma AccountedMove(s: State, s': State, t: CallId)
    requires Accounted(s)
    requires Follows(s, s', t)
    ensures Accounted(s')
  {
    TallyUpdate(s.calls, s'.calls, t, TotalCounted);
    TallyUpdate(s.calls, s'.calls, t, QueuedCounted);
    TallyUpdate(s.calls, s'.calls, t, CompletedCounted);
    TallyUpdate(s.calls, s'.calls, t, FailedCounted);
    TallyUpdate(s.calls, s'.calls, t, OverflowCounted);
  }

  lemma AccountedFrame(s: State, s': State)
    requires Accounted(s) && s'.stats == s.stats && s'.calls.Keys == s.calls.Keys
    requires forall t :: t in s.calls ==> s'.calls[t].pc == s.calls[t].pc
    ensures Accounted(s')
  {
    TallySame(s.calls, s'.calls, TotalCounted);
    TallySame(s.calls, s'.calls, QueuedCounted);
    TallySame(s.calls, s'.calls, CompletedCounted);
    TallySame(s.calls, s'.calls, FailedCounted);
    TallySame(s.calls, s'.calls, OverflowCounted);
  }

  function PcOf(s: State, t: CallId): CallPc {
    if t in s.calls then s.calls[t].pc else Submitting
  }

  ghost predicate Follows(s: State, s': State, t: CallId) {
    && t in s'.calls && s'.calls == s.calls[t := s'.calls[t]]
    && CountersFollow(s.stats, s'.stats, PcOf(s, t), PcOf(s', t))
  }

  predicate CountsNothing(a: CallerAction) {
    || a.Arrive? || a.Submit? || a.HandOff? || a.SubmitTimeout? || a.ReceiveResult? || a.ProcessingTimeout?
  }

  lemma SilentCallerFollows(cfg: Config, s: State, t: CallId, a: CallerAction)
    requires CallerEnabled(cfg, s, t, a) && CountsNothing(a)
    ensures Follows(s, CallerDo(cfg, s, t, a), t)
  {
  }

  lemma CountingCallerFollows(cfg: Config, s: State, t: CallId, a: CallerAction)
    requires RouterLocation.Outcomes(s) && CallerEnabled(cfg, s, t, a) && !CountsNothing(a)
    ensures Follows(s, CallerDo(cfg, s, t, a), t)
  {
    assert RouterLocation.OutcomeKnown(s.calls[t].pc);
  }

  lemma AccountedStep(cfg: Config, s: State, l: Label)
    requires Accounted(s) && RouterLocation.Outcomes(s) && Enabled(cfg, s, l)
    ensures Accounted(Do(cfg, s, l))
  {
    match l
    case Start => AccountedFrame(s, s.(running := true));
    case ByCaller(t, a) =>
      if CountsNothing(a) {
        SilentCallerFollows(cfg, s, t, a);
      } else {
        CountingCallerFollows(cfg, s, t, a);
      }
      AccountedMove(s, CallerDo(cfg, s, t, a), t);
    case ByDispatcher(a) => AccountedFrame(s, DispatcherDo(cfg, s, a));
    case ByWorker(w, a) => AccountedFrame(s, WorkerDo(s, w, a));
  }

  lemma AccountedInit(cfg: Config)
    ensures Accounted(Init(cfg))
  {
    var none: map<CallId, Call> := map[];
    assert CallsAt(none, TotalCounted) == CallsAt(none, QueuedCounted) == {};
    assert CallsAt(none, CompletedCounted) == CallsAt(none, FailedCounted) == {};
    assert CallsAt(none, OverflowCounted) == {};
  }

  lemma {:induction false} AccountedAlways(cfg: Config, run: Run, n: nat)
    requires IsRun(cfg, run) && n < |run.states|
    ensures Accounted(run.states[n])
  {
    if n == 0 {
      AccountedInit(cfg);
    } else {
      AccountedAlways(cfg, run, n - 1);
      RouterLocation.LocatedAlways(cfg, run, n - 1);
      AccountedStep(cfg, run.states[n - 1], run.actions[n - 1]);
    }
  }

  lemma TallySplit(calls: map<CallId, Call>, whole: CallPc -> bool, p: CallPc -> bool, q: CallPc -> bool)
    requires forall pc :: whole(pc) <==> p(pc) || q(pc)
    requires forall pc :: !(p(pc) && q(pc))
    ensures Tally(calls, whole) == Tally(calls, p) + Tally(calls, q)
  {
    assert CallsAt(calls, whole) == CallsAt(calls, p) + CallsAt(calls, q);
    assert CallsAt(calls, p) !! CallsAt(calls, q);
  }

  predicate FinishedCounted(pc: CallPc) {
    CompletedCounted(pc) || FailedCounted(pc)
  }

  predicate QueuedOrFinished(pc: CallPc) {
    QueuedCounted(pc) || FinishedCounted(pc)
  }

  lemma TotalSplit(calls: map<CallId, Call>)
    ensures Tally(calls, TotalCounted) == Tally(calls, QueuedCounted) + Tally(calls, CompletedCounted)
                                          + Tally(calls, FailedCounted) + Tally(calls, BetweenUpdates)
  {
    TallySplit(calls, TotalCounted, QueuedOrFinished, BetweenUpdates);
    TallySplit(calls, QueuedOrFinished, QueuedCounted, FinishedCounted);
    TallySplit(calls, FinishedCounted, CompletedCounted, FailedCounted);
  }

  lemma ReturnedSplit(calls: map<CallId, Call>)
    ensures Tally(calls, ReturnedAccepted) == Tally(calls, CompletedCounted) + Tally(calls, FailedCounted)
                                              + Tally(calls, OverflowCounted)
  {
    TallySplit(calls, ReturnedAccepted, FinishedCounted, OverflowCounted);
    TallySplit(calls, FinishedCounted, CompletedCounted, FailedCounted);
  }

  // ------------------------------------------------------------------ main results

  /** Conservation, in every reachable state, up to the calls between two counter updates. */
  lemma TotalIsConserved(cfg: Config, run: Run, n: nat, s: State)
    requires StateOf(cfg, run, n, s)
    ensures s.stats.total ==
            s.stats.queued + s.stats.completed + s.stats.failed + Tally(s.calls, BetweenUpdates)
    ensures s.stats.queued >= 0
  {
    AccountedAlways(cfg, run, n);
    TotalSplit(s.calls);
  }

  /** A call accepted while running that has returned was counted once, in one counter. */
  lemma ReturnedCountedOnce(cfg: Config, run: Run, n: nat, s: State)
    requires StateOf(cfg, run, n, s)
    ensures s.stats.completed == Tally(s.calls, CompletedCounted)
    ensures s.stats.failed == Tally(s.calls, FailedCounted)
    ensures s.stats.overflows == Tally(s.calls, OverflowCounted)
    ensures s.stats.completed + s.stats.failed + s.stats.overflows == Tally(s.calls, ReturnedAccepted)
  {
    AccountedAlways(cfg, run, n);
    ReturnedSplit(s.calls);
  }

  /** Once every call has returned the queue gauge is back at zero and the books balance. */
  lemma QuiescentBooks(cfg: Config, run: Run, n: nat, s: State)
    requires StateOf(cfg, run, n, s)
    requires forall t :: t in s.calls ==> s.calls[t].pc.Returned?
    ensures s.stats.queued == 0 && s.stats.total == s.stats.completed + s.stats.failed
  {
    TotalIsConserved(cfg, run, n, s);
    AccountedAlways(cfg, run, n);
    assert CallsAt(s.calls, QueuedCounted) == {};
    assert CallsAt(s.calls, BetweenUpdates) == {};
  }
}
