/**
 Sessions on demand: client and ICE callbacks add and remove sessions and start and stop two
 timers, and an idle timer that runs out with no session left asks for the stream to be stopped.
 A timer is a process of its own: a manager field may be overwritten while the timer it named is
 still armed, and a timer that has run out calls back even if it is stopped after that. Every
 callback is one step.
 */
module IdleTimers {
  import opened Basics

  datatype Kind = IdleTimer(lastSession: string) | ReconnectTimer(session: string)

  /** Armed until it runs out, Due until its callback has run; Over also when stopped. */
  datatype Phase = Armed | Due | Over

  datatype Timer = Timer(kind: Kind, phase: Phase)

  datatype Notice =
    | SessionStarted(session: string)
    | SessionReady(session: string)
    | SessionPaused(session: string)
    | SessionFailed(session: string)
    | SessionTimeout(session: string)
    | SessionEnded(session: string, active: nat)
    | NoActiveSessions(lastSession: string)

  datatype IceState = Connected | Disconnected | Failed | IceClosed | OtherIce

  datatype State = State(
    hasBus: bool,
    sessions: set<string>,
    current: string,
    idle: Option<nat>,
    reconnect: Option<nat>,
    timers: seq<Timer>,
    log: seq<Notice>)

  datatype Label =
    | SetCurrent(session: string)
    | Connect(session: string)
    | Disconnect(session: string)
    | Ice(ice: IceState)
    | RunOut(timer: nat)
    | CallBack(timer: nat)

  function Init(hasBus: bool): State {
    State(hasBus, {}, "", None, None, [], [])
  }

  // ------------------------------------------------------------------ the callbacks, on values

  function Publish(s: State, n: Notice): State {
    if s.hasBus then s.(log := s.log + [n]) else s
  }

  /** Stopping has no effect on a timer that has run out. */
  function Stopped(timers: seq<Timer>, t: Option<nat>): seq<Timer> {
    if t.Some? && t.value < |timers| && timers[t.value].phase == Armed
    then timers[t.value := timers[t.value].(phase := Over)] else timers
  }

  function StopIdle(s: State): State {
    s.(timers := Stopped(s.timers, s.idle), idle := None)
  }

  function StopReconnect(s: State): State {
    s.(timers := Stopped(s.timers, s.reconnect), reconnect := None)
  }

  /** The field is overwritten; the timer it named before stays as it is. */
  function StartIdle(s: State, lastSession: string): State {
    s.(timers := s.timers + [Timer(IdleTimer(lastSession), Armed)], idle := Some(|s.timers|))
  }

  function StartReconnect(s: State, session: string): State {
    s.(timers := s.timers + [Timer(ReconnectTimer(session), Armed)], reconnect := Some(|s.timers|))
  }

  function RemoveSession(s: State, session: string): State {
    var left := s.sessions - {session};
    var t := Publish(s.(sessions := left), SessionEnded(session, |left|));
    if left == {} then StartIdle(t, session) else t
  }

  function OnConnect(s: State, session: string): State {
    Publish(StopIdle(s.(sessions := s.sessions + {session})), SessionStarted(session))
  }

  /** ICE callbacks do nothing without an event bus or a current session. */
  predicate IceActs(s: State) {
    s.hasBus && s.current != ""
  }

  function OnIce(s: State, ice: IceState): State {
    if !IceActs(s) then s
    else
      match ice
      case Connected => Publish(StopIdle(StopReconnect(s)), SessionReady(s.current))
      case Disconnected => StartReconnect(Publish(s, SessionPaused(s.current)), s.current)
      case Failed => StartReconnect(Publish(s, SessionFailed(s.current)), s.current)
      case IceClosed => RemoveSession(StopIdle(StopReconnect(s)), s.current)
      case OtherIce => s
  }

  function OnTimer(s: State, t: nat): State
    requires t < |s.timers|
  {
    var r := s.(timers := s.timers[t := s.timers[t].(phase := Over)]);
    match s.timers[t].kind
    case IdleTimer(last) => if s.sessions == {} then Publish(r, NoActiveSessions(last)) else r
    case ReconnectTimer(session) => RemoveSession(Publish(r, SessionTimeout(session)), session)
  }

  predicate Enabled(s: State, l: Label) {
    match l
    case RunOut(t) => t < |s.timers| && s.timers[t].phase == Armed
    case CallBack(t) => t < |s.timers| && s.timers[t].phase == Due
    case _ => true
  }

  function Do(s: State, l: Label): State
    requires Enabled(s, l)
  {
    match l
    case SetCurrent(session) => s.(current := session)
    case Connect(session) => OnConnect(s, session)
    case Disconnect(session) => RemoveSession(s, session)
    case Ice(ice) => OnIce(s, ice)
    case RunOut(t) => s.(timers := s.timers[t := s.timers[t].(phase := Due)])
    case CallBack(t) => OnTimer(s, t)
  }

  datatype Run = Run(states: seq<State>, actions: seq<Label>)

  predicate Step(s: State, l: Label, s': State) {
    Enabled(s, l) && s' == Do(s, l)
  }

  ghost predicate IsRun(run: Run) {
    && |run.states| == |run.actions| + 1
    && run.states[0] == Init(run.states[0].hasBus)
    && forall i {:trigger run.actions[i]} :: 0 <= i < |run.actions| ==>
         Step(run.states[i], run.actions[i], run.states[i + 1])
  }

  // ------------------------------------------------------------------ the stop is only asked for when idle

  function Ended(s: State, session: string): Notice {
    SessionEnded(session, |s.sessions - {session}|)
  }

  function IceNotices(s: State, ice: IceState): seq<Notice> {
    if !IceActs(s) then []
    else
      match ice
      case Connected => [SessionReady(s.current)]
      case Disconnected => [SessionPaused(s.current)]
      case Failed => [SessionFailed(s.current)]
      case IceClosed => [Ended(s, s.current)]
      case OtherIce => []
  }

  function TimerNotices(s: State, t: nat): seq<Notice>
    requires t < |s.timers|
  {
    match s.timers[t].kind
    case IdleTimer(last) => if s.sessions == {} then [NoActiveSessions(last)] else []
    case ReconnectTimer(session) => [SessionTimeout(session), Ended(s, session)]
  }

  /** What a step announces, in order. */
  function Notices(s: State, l: Label): seq<Notice>
    requires Enabled(s, l)
  {
    match l
    case SetCurrent(_) => []
    case Connect(session) => [SessionStarted(session)]
    case Disconnect(session) => [Ended(s, session)]
    case Ice(ice) => IceNotices(s, ice)
    case RunOut(_) => []
    case CallBack(t) => TimerNotices(s, t)
  }

  predicate Logs(s: State, notices: seq<Notice>, t: State) {
    t.hasBus == s.hasBus && t.log == s.log + if s.hasBus then notices else []
  }

  lemma RemoveLogs(s: State, session: string)
    ensures Logs(s, [Ended(s, session)], RemoveSession(s, session))
  {}

  lemma IceLogs(s: State, ice: IceState)
    ensures Logs(s, IceNotices(s, ice), OnIce(s, ice))
  {
    if ice == IceClosed {
      RemoveLogs(StopIdle(StopReconnect(s)), s.current);
    }
  }

  lemma TimerLogs(s: State, t: nat)
    requires t < |s.timers|
    ensures Logs(s, TimerNotices(s, t), OnTimer(s, t))
  {
    if s.timers[t].kind.ReconnectTimer? {
      var session := s.timers[t].kind.session;
      var r := Publish(s.(timers := s.timers[t := s.timers[t].(phase := Over)]), SessionTimeout(session));
      RemoveLogs(r, session);
      assert Ended(r, session) == Ended(s, session);
    }
  }

  lemma StepLogs(s: State, l: Label)
    requires Enabled(s, l)
    ensures Logs(s, Notices(s, l), Do(s, l))
  {
    match l
    case Disconnect(session) => RemoveLogs(s, session);
    case Ice(ice) => IceLogs(s, ice);
    case CallBack(t) => TimerLogs(s, t);
    case _ =>
  }

  /** A step publishes NoActiveSessions exactly when an idle timer calls back with no session left. */
  lemma AsksOnlyWhenIdle(s: State, l: Label, last: string)
    requires Enabled(s, l) && s.hasBus
    ensures s.log <= Do(s, l).log
    ensures NoActiveSessions(last) in Do(s, l).log[|s.log|..] <==>
            l.CallBack? && s.timers[l.timer].kind == IdleTimer(last) && s.sessions == {}
  {
    StepLogs(s, l);
    assert Do(s, l).log[|s.log|..] == Notices(s, l);
  }

  // ------------------------------------------------------------------ once empty, the stop is on its way

  predicate Pending(t: Timer) {
    t.kind.IdleTimer? && t.phase != Over
  }

  ghost predicate IdlePending(s: State) {
    exists i :: 0 <= i < |s.timers| && Pending(s.timers[i])
  }

  predicate IsAsk(n: Notice) {
    n.NoActiveSessions?
  }

  /** NoActiveSessions was published since the log had this length. */
  ghost predicate AskedSince(s: State, n: nat) {
    exists i :: n <= i < |s.log| && IsAsk(s.log[i])
  }

  /** The steps that take a session out of the set. */
  predicate Removes(s: State, l: Label) {
    || l.Disconnect?
    || (l.Ice? && l.ice == IceClosed && IceActs(s))
    || (l.CallBack? && l.timer < |s.timers| && s.timers[l.timer].kind.ReconnectTimer?)
  }

  /** An ICE-Connected callback that takes effect. */
  predicate IceConnects(s: State, l: Label) {
    l == Ice(Connected) && IceActs(s)
  }

  /** No session is left, and the stop is on its way or was asked for since the log had length `since`. */
  ghost predicate Covered(s: State, since: nat) {
    s.sessions == {} && since <= |s.log| && (IdlePending(s) || AskedSince(s, since))
  }

  lemma RemovalArms(s: State, l: Label)
    requires Enabled(s, l) && Removes(s, l) && Do(s, l).sessions == {}
    ensures IdlePending(Do(s, l))
  {
    var t := Do(s, l);
    assert Pending(t.timers[|t.timers| - 1]);
  }

  lemma KeepsCover(s: State, l: Label, since: nat)
    requires Enabled(s, l) && s.hasBus && Covered(s, since)
    requires !l.Connect? && !IceConnects(s, l)
    ensures Covered(Do(s, l), since)
  {
    var t := Do(s, l);
    LogGrows(s, l);
    if AskedSince(s, since) {
      var i :| since <= i < |s.log| && IsAsk(s.log[i]);
      assert t.log[i] == s.log[i];
    } else if Removes(s, l) {
      RemovalArms(s, l);
    } else {
      var i :| 0 <= i < |s.timers| && Pending(s.timers[i]);
      if l == CallBack(i) {
        assert IsAsk(t.log[|t.log| - 1]);
      } else {
        assert Pending(t.timers[i]);
      }
    }
  }

  lemma LogGrows(s: State, l: Label)
    requires Enabled(s, l)
    ensures s.log <= Do(s, l).log && Do(s, l).hasBus == s.hasBus
  {
    StepLogs(s, l);
  }

  /** Step `m` of the run takes out the last session, or one when none was left. */
  ghost predicate EmptiedAt(run: Run, m: nat)
    requires m < |run.actions| && |run.states| == |run.actions| + 1
  {
    Removes(run.states[m], run.actions[m]) && run.states[m + 1].sessions == {}
  }

  ghost predicate ConnectsAt(run: Run, i: nat)
    requires i < |run.actions| && |run.states| == |run.actions| + 1
  {
    run.actions[i].Connect? || IceConnects(run.states[i], run.actions[i])
  }

  /**
   After a removal that leaves no session, and until a client connects or ICE connects, an idle
   timer is pending or the stop has been asked for since, and there is still no session.
   */
  lemma {:induction false} StopIsOnItsWay(run: Run, m: nat, n: nat)
    requires IsRun(run) && run.states[0].hasBus && m < n < |run.states|
    requires EmptiedAt(run, m)
    requires forall i :: m < i < n ==> !ConnectsAt(run, i)
    ensures Covered(run.states[n], |run.states[m + 1].log|)
    decreases n
  {
    if n == m + 1 {
      EmptiedIsCovered(run, m);
    } else {
      StopIsOnItsWay(run, m, n - 1);
      CoverStep(run, n - 1, |run.states[m + 1].log|);
    }
  }

  lemma EmptiedIsCovered(run: Run, m: nat)
    requires IsRun(run) && m < |run.actions| && EmptiedAt(run, m)
    ensures Covered(run.states[m + 1], |run.states[m + 1].log|)
  {
    assert Step(run.states[m], run.actions[m], run.states[m + 1]);
    RemovalArms(run.states[m], run.actions[m]);
  }

  lemma CoverStep(run: Run, i: nat, since: nat)
    requires IsRun(run) && run.states[0].hasBus && i < |run.actions|
    requires Covered(run.states[i], since) && !ConnectsAt(run, i)
    ensures Covered(run.states[i + 1], since)
  {
    HasBus(run, i);
    assert Step(run.states[i], run.actions[i], run.states[i + 1]);
    KeepsCover(run.states[i], run.actions[i], since);
  }

  lemma {:induction false} HasBus(run: Run, n: nat)
    requires IsRun(run) && n < |run.states|
    ensures run.states[n].hasBus == run.states[0].hasBus
  {
    if n > 0 {
      HasBus(run, n - 1);
      assert Step(run.states[n - 1], run.actions[n - 1], run.states[n]);
      LogGrows(run.states[n - 1], run.actions[n - 1]);
    }
  }

  /** The only pending idle timer is the one the manager's field names, and it can still be stopped. */
  ghost predicate LastHope(s: State) {
    && s.idle.Some? && s.idle.value < |s.timers| && s.timers[s.idle.value].phase == Armed
    && forall i :: 0 <= i < |s.timers| && Pending(s.timers[i]) ==> i == s.idle.value
  }

  lemma StoppingLosesIff(s: State)
    requires FieldsNameTheirKind(s) && IceActs(s) && s.sessions == {} && IdlePending(s)
    ensures !IdlePending(Do(s, Ice(Connected))) <==> LastHope(s)
  {
    var t := Do(s, Ice(Connected));
    if LastHope(s) {
      forall i ensures 0 <= i < |t.timers| ==> !Pending(t.timers[i]) {
        assert 0 <= i < |s.timers| ==> (Pending(s.timers[i]) ==> i == s.idle.value);
      }
    } else {
      var i :| 0 <= i < |s.timers| && Pending(s.timers[i]) && (s.idle == Some(i) ==> s.timers[i].phase == Due);
      assert Pending(t.timers[i]);
    }
  }

  /** The two fields name timers of their own kind. */
  predicate FieldsNameTheirKind(s: State) {
    && (s.idle.Some? ==> s.idle.value < |s.timers| && s.timers[s.idle.value].kind.IdleTimer?)
    && (s.reconnect.Some? ==> s.reconnect.value < |s.timers| && s.timers[s.reconnect.value].kind.ReconnectTimer?)
  }

  lemma RemoveFields(s: State, session: string)
    requires FieldsNameTheirKind(s)
    ensures FieldsNameTheirKind(RemoveSession(s, session))
  {}

  lemma StopFields(s: State)
    requires FieldsNameTheirKind(s)
    ensures FieldsNameTheirKind(StopReconnect(s)) && FieldsNameTheirKind(StopIdle(s))
    ensures FieldsNameTheirKind(StopIdle(StopReconnect(s)))
  {}

  lemma IceFields(s: State, ice: IceState)
    requires FieldsNameTheirKind(s)
    ensures FieldsNameTheirKind(OnIce(s, ice))
  {
    StopFields(s);
    if ice == IceClosed {
      RemoveFields(StopIdle(StopReconnect(s)), s.current);
    }
  }

  lemma TimerFields(s: State, t: nat)
    requires FieldsNameTheirKind(s) && t < |s.timers|
    ensures FieldsNameTheirKind(OnTimer(s, t))
  {
    var r := s.(timers := s.timers[t := s.timers[t].(phase := Over)]);
    assert FieldsNameTheirKind(r);
    if s.timers[t].kind.ReconnectTimer? {
      RemoveFields(Publish(r, SessionTimeout(s.timers[t].kind.session)), s.timers[t].kind.session);
    }
  }

  lemma FieldsStep(s: State, l: Label)
    requires Enabled(s, l) && FieldsNameTheirKind(s)
    ensures FieldsNameTheirKind(Do(s, l))
  {
    match l
    case Connect(session) => StopFields(s.(sessions := s.sessions + {session}));
    case Disconnect(session) => RemoveFields(s, session);
    case Ice(ice) => IceFields(s, ice);
    case CallBack(t) => TimerFields(s, t);
    case _ =>
  }

  lemma {:induction false} FieldsAlways(run: Run, n: nat)
    requires IsRun(run) && n < |run.states|
    ensures FieldsNameTheirKind(run.states[n])
  {
    if n > 0 {
      FieldsAlways(run, n - 1);
      assert Step(run.states[n - 1], run.actions[n - 1], run.states[n]);
      FieldsStep(run.states[n - 1], run.actions[n - 1]);
    }
  }

  predicate AwaitsReconnect(t: Timer) {
    t.kind.ReconnectTimer? && t.phase != Over
  }

  ghost predicate ReconnectPending(s: State) {
    exists i :: 0 <= i < |s.timers| && AwaitsReconnect(s.timers[i])
  }

  /** No reconnect timer but the one that the field names, and that one can still be stopped. */
  ghost predicate OnlyNamedReconnect(s: State) {
    forall i :: 0 <= i < |s.timers| && AwaitsReconnect(s.timers[i]) ==> s.reconnect == Some(i) && s.timers[i].phase == Armed
  }

  lemma StoppingCallsOffIff(s: State)
    requires FieldsNameTheirKind(s) && IceActs(s)
    ensures !ReconnectPending(Do(s, Ice(Connected))) <==> OnlyNamedReconnect(s)
  {
    var t := Do(s, Ice(Connected));
    if OnlyNamedReconnect(s) {
      forall i ensures 0 <= i < |t.timers| ==> !AwaitsReconnect(t.timers[i]) {
        assert 0 <= i < |s.timers| && AwaitsReconnect(s.timers[i]) ==> s.reconnect == Some(i);
      }
    } else {
      var i :| 0 <= i < |s.timers| && AwaitsReconnect(s.timers[i]) && (s.reconnect == Some(i) ==> s.timers[i].phase == Due);
      assert AwaitsReconnect(t.timers[i]);
    }
  }

  /** In a run, with no session, ICE-Connected loses the stop exactly when it stops the last pending timer. */
  lemma IceConnectedLosesIff(run: Run, n: nat)
    requires IsRun(run) && n < |run.states| && IceActs(run.states[n])
    requires run.states[n].sessions == {} && IdlePending(run.states[n])
    ensures !IdlePending(Do(run.states[n], Ice(Connected))) <==> LastHope(run.states[n])
  {
    FieldsAlways(run, n);
    StoppingLosesIff(run.states[n]);
  }

  /** In a run, ICE-Connected calls off every removal exactly when no reconnect timer was overwritten or has run out. */
  lemma ConnectedCallsOffIff(run: Run, n: nat)
    requires IsRun(run) && n < |run.states| && IceActs(run.states[n])
    ensures !ReconnectPending(Do(run.states[n], Ice(Connected))) <==> OnlyNamedReconnect(run.states[n])
  {
    FieldsAlways(run, n);
    StoppingCallsOffIff(run.states[n]);
  }

  /** No idle timer but the one that the field names, and that one can still be stopped. */
  ghost predicate OnlyNamedIdle(s: State) {
    forall i :: 0 <= i < |s.timers| && Pending(s.timers[i]) ==> s.idle == Some(i) && s.timers[i].phase == Armed
  }

  lemma StopIdleIff(s: State)
    requires FieldsNameTheirKind(s)
    ensures IdlePending(StopIdle(s)) <==> !OnlyNamedIdle(s)
    ensures ReconnectPending(StopIdle(s)) <==> ReconnectPending(s)
    ensures OnlyNamedReconnect(StopIdle(s)) <==> OnlyNamedReconnect(s)
  {
    var t := StopIdle(s);
    assert forall i :: 0 <= i < |s.timers| ==> (AwaitsReconnect(t.timers[i]) <==> AwaitsReconnect(s.timers[i]));
    assert forall i :: 0 <= i < |s.timers| && AwaitsReconnect(s.timers[i]) ==> t.timers[i] == s.timers[i];
    if OnlyNamedIdle(s) {
      forall i ensures 0 <= i < |t.timers| ==> !Pending(t.timers[i]) {
        assert 0 <= i < |s.timers| && Pending(s.timers[i]) ==> s.idle == Some(i);
      }
    } else {
      var i :| 0 <= i < |s.timers| && Pending(s.timers[i]) && (s.idle == Some(i) ==> s.timers[i].phase == Due);
      assert Pending(t.timers[i]);
    }
  }

  lemma StopReconnectIff(s: State)
    requires FieldsNameTheirKind(s)
    ensures ReconnectPending(StopReconnect(s)) <==> !OnlyNamedReconnect(s)
    ensures OnlyNamedIdle(StopReconnect(s)) <==> OnlyNamedIdle(s)
  {
    var t := StopReconnect(s);
    assert forall i :: 0 <= i < |s.timers| ==> (Pending(t.timers[i]) <==> Pending(s.timers[i]));
    assert forall i :: 0 <= i < |s.timers| && Pending(s.timers[i]) ==> t.timers[i] == s.timers[i];
    if OnlyNamedReconnect(s) {
      forall i ensures 0 <= i < |t.timers| ==> !AwaitsReconnect(t.timers[i]) {
        assert 0 <= i < |s.timers| && AwaitsReconnect(s.timers[i]) ==> s.reconnect == Some(i);
      }
    } else {
      var i :| 0 <= i < |s.timers| && AwaitsReconnect(s.timers[i]) && (s.reconnect == Some(i) ==> s.timers[i].phase == Due);
      assert AwaitsReconnect(t.timers[i]);
    }
  }

  /** In a run a client that connects calls off every idle timeout exactly when none was overwritten or has run out. */
  lemma ClientConnectStopsIff(run: Run, n: nat, session: string)
    requires IsRun(run) && n < |run.states|
    ensures IdlePending(Do(run.states[n], Connect(session))) <==> !OnlyNamedIdle(run.states[n])
  {
    FieldsAlways(run, n);
    var s := run.states[n].(sessions := run.states[n].sessions + {session});
    StopIdleIff(s);
    assert Do(run.states[n], Connect(session)).timers == StopIdle(s).timers;
    SamePending(Do(run.states[n], Connect(session)), StopIdle(s));
    assert OnlyNamedIdle(s) <==> OnlyNamedIdle(run.states[n]);
  }

  lemma SamePending(s: State, t: State)
    requires s.timers == t.timers
    ensures IdlePending(s) <==> IdlePending(t)
    ensures ReconnectPending(s) <==> ReconnectPending(t)
  {}

  /**
   In a run ICE-Closed calls off every reconnect timeout, and every idle timeout of before, exactly
   when none was overwritten or has run out; with no session left it starts an idle timer of its own.
   */
  lemma IceClosedStopsIff(run: Run, n: nat)
    requires IsRun(run) && n < |run.states| && IceActs(run.states[n])
    ensures var s, t := run.states[n], Do(run.states[n], Ice(IceClosed));
            && (ReconnectPending(t) <==> !OnlyNamedReconnect(s))
            && (IdlePending(t) <==> !OnlyNamedIdle(s) || s.sessions <= {s.current})
  {
    var s := run.states[n];
    FieldsAlways(run, n);
    StopFields(s);
    StopReconnectIff(s);
    var r := StopReconnect(s);
    StopIdleIff(r);
    RemovePending(StopIdle(r), s.current);
    assert s.sessions <= {s.current} <==> s.sessions - {s.current} == {};
  }

  lemma RemovePending(s: State, session: string)
    ensures var t := RemoveSession(s, session);
            && (ReconnectPending(t) <==> ReconnectPending(s))
            && (IdlePending(t) <==> IdlePending(s) || s.sessions - {session} == {})
  {
    var t := RemoveSession(s, session);
    assert forall i :: 0 <= i < |s.timers| ==> t.timers[i] == s.timers[i];
    if s.sessions - {session} == {} {
      assert Pending(t.timers[|s.timers|]);
    }
  }

  /** The step takes this session out of the set. */
  predicate TakesOut(s: State, l: Label, session: string) {
    || l == Disconnect(session)
    || (l == Ice(IceClosed) && s.hasBus && s.current != "" && s.current == session)
    || (l.CallBack? && l.timer < |s.timers| && s.timers[l.timer].kind == ReconnectTimer(session))
  }

  /** A session is active from the connect that adds it to the step that takes it out. */
  lemma SessionsStep(s: State, l: Label, session: string)
    requires Enabled(s, l)
    ensures session in Do(s, l).sessions <==> l == Connect(session) || (session in s.sessions && !TakesOut(s, l, session))
    ensures Do(s, l).current == if l.SetCurrent? then l.session else s.current
  {
    match l
    case Ice(ice) => IceSessions(s, ice, session);
    case CallBack(t) => CallBackSessions(s, t, session);
    case _ =>
  }

  lemma IceSessions(s: State, ice: IceState, session: string)
    ensures var t := OnIce(s, ice);
            && (session in t.sessions <==> session in s.sessions && !(ice == IceClosed && IceActs(s) && s.current == session))
            && t.current == s.current
  {}

  lemma CallBackSessions(s: State, i: nat, session: string)
    requires i < |s.timers|
    ensures var t := OnTimer(s, i);
            && (session in t.sessions <==> session in s.sessions && s.timers[i].kind != ReconnectTimer(session))
            && t.current == s.current
  {}

  // ------------------------------------------------------------------ a lost session times out

  ghost predicate AwaitsFor(s: State, session: string) {
    exists i :: 0 <= i < |s.timers| && s.timers[i].kind == ReconnectTimer(session) && s.timers[i].phase != Over
  }

  ghost predicate TimedOutSince(s: State, n: nat, session: string) {
    exists i :: n <= i < |s.log| && s.log[i] == SessionTimeout(session)
  }

  /** A reconnect timer of the session is pending, or it has timed out since. */
  ghost predicate Watched(s: State, since: nat, session: string) {
    since <= |s.log| && (AwaitsFor(s, session) || TimedOutSince(s, since, session))
  }

  predicate IceEnds(s: State, l: Label) {
    (l == Ice(Connected) || l == Ice(IceClosed)) && IceActs(s)
  }

  lemma KeepsWatch(s: State, l: Label, since: nat, session: string)
    requires Enabled(s, l) && s.hasBus && Watched(s, since, session) && !IceEnds(s, l) && FieldsNameTheirKind(s)
    ensures Watched(Do(s, l), since, session)
  {
    var t := Do(s, l);
    LogGrows(s, l);
    if TimedOutSince(s, since, session) {
      var i :| since <= i < |s.log| && s.log[i] == SessionTimeout(session);
      assert t.log[i] == s.log[i];
    } else {
      var i :| 0 <= i < |s.timers| && s.timers[i].kind == ReconnectTimer(session) && s.timers[i].phase != Over;
      if l == CallBack(i) {
        StepLogs(s, l);
        assert t.log[|s.log|] == SessionTimeout(session);
      } else {
        TimerStays(s, l, i);
      }
    }
  }

  /** A reconnect timer changes only by running out, calling back, or an ICE callback that stops it. */
  lemma TimerStays(s: State, l: Label, i: nat)
    requires Enabled(s, l) && !IceEnds(s, l) && i < |s.timers| && l != CallBack(i)
    requires s.timers[i].kind.ReconnectTimer? && s.timers[i].phase != Over
    requires s.idle != Some(i) || !l.Connect?
    ensures i < |Do(s, l).timers| && Do(s, l).timers[i].kind == s.timers[i].kind && Do(s, l).timers[i].phase != Over
  {}

  /**
   After ICE was lost or has failed, and until it connects again or closes, the session's reconnect
   timer is pending or the session has timed out since.
   */
  lemma {:induction false} TimeoutIsOnItsWay(run: Run, m: nat, n: nat)
    requires IsRun(run) && m < n < |run.states|
    requires IceActs(run.states[m]) && (run.actions[m] == Ice(Disconnected) || run.actions[m] == Ice(Failed))
    requires forall i :: m < i < n ==> !EndsAt(run, i)
    ensures Watched(run.states[n], |run.states[m].log|, run.states[m].current)
    decreases n
  {
    if n == m + 1 {
      IceLossIsWatched(run, m);
    } else {
      TimeoutIsOnItsWay(run, m, n - 1);
      WatchStep(run, m, n - 1);
    }
  }

  ghost predicate EndsAt(run: Run, i: nat)
    requires i < |run.actions| && |run.states| == |run.actions| + 1
  {
    IceEnds(run.states[i], run.actions[i])
  }

  lemma IceLossIsWatched(run: Run, m: nat)
    requires IsRun(run) && m < |run.actions| && IceActs(run.states[m])
    requires run.actions[m] == Ice(Disconnected) || run.actions[m] == Ice(Failed)
    ensures Watched(run.states[m + 1], |run.states[m].log|, run.states[m].current)
  {
    var s, t := run.states[m], run.states[m + 1];
    assert Step(s, run.actions[m], t);
    assert t.timers[|s.timers|] == Timer(ReconnectTimer(s.current), Armed);
  }

  lemma WatchStep(run: Run, m: nat, i: nat)
    requires IsRun(run) && m < i < |run.actions| && IceActs(run.states[m]) && !EndsAt(run, i)
    requires Watched(run.states[i], |run.states[m].log|, run.states[m].current)
    ensures Watched(run.states[i + 1], |run.states[m].log|, run.states[m].current)
  {
    HasBus(run, m);
    HasBus(run, i);
    FieldsAlways(run, i);
    assert Step(run.states[i], run.actions[i], run.states[i + 1]);
    KeepsWatch(run.states[i], run.actions[i], |run.states[m].log|, run.states[m].current);
  }

  function End(run: Run): State
    requires run.states != []
  {
    run.states[|run.states| - 1]
  }

  /** One more step at the end of a run. */
  lemma Extend(run: Run, l: Label, s: State) returns (longer: Run)
    requires IsRun(run) && Step(End(run), l, s)
    ensures longer == Run(run.states + [s], run.actions + [l])
    ensures IsRun(longer) && End(longer) == s
  {
    longer := Run(run.states + [s], run.actions + [l]);
  }

  lemma Begin() returns (run: Run)
    ensures run == Run([Init(true)], []) && IsRun(run)
  {
    run := Run([Init(true)], []);
  }

  /** A run with one session, which is the current one. */
  lemma OneSession(a: string) returns (run: Run)
    requires a != ""
    ensures IsRun(run) && |run.actions| == 2
    ensures End(run) == State(true, {a}, a, None, None, [], [SessionStarted(a)])
  {
    run := Begin();
    run := Extend(run, SetCurrent(a), Init(true).(current := a));
    run := Extend(run, Connect(a), State(true, {a}, a, None, None, [], [SessionStarted(a)]));
  }

  /** ICE can connect after the last session went: then nothing asks for the stop any more. */
  lemma StopCanBeLost(a: string) returns (run: Run)
    requires a != ""
    ensures IsRun(run) && |run.states| == 5
    ensures EmptiedAt(run, 2)
    ensures End(run).sessions == {} && !IdlePending(End(run)) && !AskedSince(End(run), 0)
  {
    run := OneSession(a);
    assert {a} - {a} == {};
    var t, log := Timer(IdleTimer(a), Armed), [SessionStarted(a), SessionEnded(a, 0)];
    run := Extend(run, Disconnect(a), State(true, {}, a, Some(0), None, [t], log));
    run := Extend(run, Ice(Connected), State(true, {}, a, None, None, [t.(phase := Over)], log + [SessionReady(a)]));
  }

  /** ICE that failed twice and connected again: the forgotten timer still removes the session. */
  lemma ReconnectedSessionRemoved(a: string) returns (run: Run, m: nat)
    requires a != ""
    ensures IsRun(run) && |run.states| == m + 4
    ensures run.actions[m..] == [Ice(Connected), RunOut(0), CallBack(0)]
    ensures run.states[m + 1].sessions == {a} && End(run).sessions == {}
  {
    run := OneSession(a);
    var t, log := Timer(ReconnectTimer(a), Armed), [SessionStarted(a), SessionPaused(a)];
    run := Extend(run, Ice(Disconnected), State(true, {a}, a, None, Some(0), [t], log));
    log := log + [SessionFailed(a)];
    run := Extend(run, Ice(Failed), State(true, {a}, a, None, Some(1), [t, t], log));
    m := |run.actions|;
    log := log + [SessionReady(a)];
    run := Extend(run, Ice(Connected), State(true, {a}, a, None, None, [t, t.(phase := Over)], log));
    run := RunsOutAndRemoves(run, a);
  }

  lemma RunsOutAndRemoves(run: Run, a: string) returns (longer: Run)
    requires IsRun(run) && End(run).sessions == {a}
    requires End(run).timers != [] && End(run).timers[0] == Timer(ReconnectTimer(a), Armed)
    ensures IsRun(longer) && longer.actions == run.actions + [RunOut(0), CallBack(0)]
    ensures |longer.states| == |run.states| + 2 && longer.states[..|run.states|] == run.states
    ensures End(longer).sessions == {}
  {
    var due := Do(End(run), RunOut(0));
    longer := Extend(run, RunOut(0), due);
    longer := Extend(longer, CallBack(0), Do(due, CallBack(0)));
    assert {a} - {a} == {};
  }

  // ------------------------------------------------------------------ the manager

  class WebRTCManager {
    const hasBus: bool
    var activeSessions: set<string>
    var currentSessionID: string
    var idleTimer: Option<nat>
    var reconnectTimer: Option<nat>
    /** The program's timers, by number, and what was published. */
    var timers: seq<Timer>
    var log: seq<Notice>

    constructor (hasBus: bool)
      ensures Value() == Init(hasBus)
    {
      this.hasBus := hasBus;
      activeSessions, currentSessionID, idleTimer, reconnectTimer, timers, log := {}, "", None, None, [], [];
    }

    function Value(): State
      reads this
    {
      State(hasBus, activeSessions, currentSessionID, idleTimer, reconnectTimer, timers, log)
    }

    method PublishNotice(n: Notice)
      modifies this`log
      ensures Value() == Publish(old(Value()), n)
    {
      if hasBus {
        log := log + [n];
      }
    }

    method CancelIdleTimer()
      modifies this`timers, this`idleTimer
      ensures Value() == StopIdle(old(Value()))
    {
      if idleTimer.Some? {
        StopTimer(idleTimer.value);
        idleTimer := None;
      }
    }

    method CancelReconnectTimer()
      modifies this`timers, this`reconnectTimer
      ensures Value() == StopReconnect(old(Value()))
    {
      if reconnectTimer.Some? {
        StopTimer(reconnectTimer.value);
        reconnectTimer := None;
      }
    }

    method StopTimer(t: nat)
      modifies this`timers
      ensures timers == Stopped(old(timers), Some(t))
    {
      if t < |timers| && timers[t].phase == Armed {
        timers := timers[t := timers[t].(phase := Over)];
      }
    }

    method StartIdleTimer(lastSession: string)
      modifies this`timers, this`idleTimer
      ensures Value() == StartIdle(old(Value()), lastSession)
    {
      idleTimer := Some(|timers|);
      timers := timers + [Timer(IdleTimer(lastSession), Armed)];
    }

    method StartReconnectTimer(session: string)
      modifies this`timers, this`reconnectTimer
      ensures Value() == StartReconnect(old(Value()), session)
    {
      reconnectTimer := Some(|timers|);
      timers := timers + [Timer(ReconnectTimer(session), Armed)];
    }

    method RemoveActiveSession(session: string)
      modifies this`activeSessions, this`timers, this`idleTimer, this`log
      ensures Value() == RemoveSession(old(Value()), session)
    {
      activeSessions := activeSessions - {session};
      var sessionCount := |activeSessions|;
      PublishNotice(SessionEnded(session, sessionCount));
      if sessionCount == 0 {
        StartIdleTimer(session);
      }
    }

    method SetCurrentSession(session: string)
      modifies this`currentSessionID
      ensures Value() == Do(old(Value()), SetCurrent(session))
    {
      currentSessionID := session;
    }

    method OnClientConnected(session: string)
      modifies this`activeSessions, this`timers, this`idleTimer, this`log
      ensures Value() == Do(old(Value()), Connect(session))
    {
      activeSessions := activeSessions + {session};
      CancelIdleTimer();
      PublishNotice(SessionStarted(session));
    }

    method OnClientDisconnected(session: string)
      modifies this`activeSessions, this`timers, this`idleTimer, this`log
      ensures Value() == Do(old(Value()), Disconnect(session))
    {
      RemoveActiveSession(session);
    }

    method HandleICEConnectionStateChange(ice: IceState)
      modifies this`activeSessions, this`timers, this`idleTimer, this`reconnectTimer, this`log
      ensures Value() == Do(old(Value()), Ice(ice))
    {
      if !hasBus || currentSessionID == "" {
        return;
      }
      match ice
      case Connected =>
        CancelReconnectTimer();
        CancelIdleTimer();
        PublishNotice(SessionReady(currentSessionID));
      case Disconnected =>
        PublishNotice(SessionPaused(currentSessionID));
        StartReconnectTimer(currentSessionID);
      case Failed =>
        PublishNotice(SessionFailed(currentSessionID));
        StartReconnectTimer(currentSessionID);
      case IceClosed =>
        CancelReconnectTimer();
        CancelIdleTimer();
        RemoveActiveSession(currentSessionID);
      case OtherIce =>
    }

    /** The callback of a timer that has run out. */
    method OnTimerCallBack(t: nat)
      requires t < |timers| && timers[t].phase == Due
      modifies this`activeSessions, this`timers, this`idleTimer, this`log
      ensures Value() == Do(old(Value()), CallBack(t))
    {
      var kind := timers[t].kind;
      timers := timers[t := timers[t].(phase := Over)];
      match kind
      case IdleTimer(lastSession) =>
        if |activeSessions| == 0 {
          PublishNotice(NoActiveSessions(lastSession));
        }
      case ReconnectTimer(session) =>
        PublishNotice(SessionTimeout(session));
        RemoveActiveSession(session);
    }
  }
}
