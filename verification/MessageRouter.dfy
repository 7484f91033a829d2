/**
 The concurrent message router as a labelled transition system: any number of client calls,
 one dispatcher and a fixed pool of workers, each interleaving its atomic actions with the
 others'. Timeouts may fire whenever their owner is waiting.

 `enqueued`, `routed`, `started`, `sends` and `place` record history and location for the
 statements below; no action reads them.
 */
module MessageRouter {
  import opened GoInts
  import opened Sequences
  import Balancers

  type CallId = nat
  type ClientId = seq<byte>

  const CHANNEL_CAPACITY: nat := 10

  datatype Config = Config(queueSize: nat, workerCount: nat, hashMode: bool)

  datatype Outcome = NotRunning | Overflowed | Completed | Failed | TimedOut

  /** Where a RouteMessage call stands. */
  datatype CallPc =
    | Submitting
    | CountingOverflow
    | CountingTotal
    | CountingQueued
    | Waiting
    | CountingDequeued(outcome: Outcome)
    | CountingOutcome(outcome: Outcome)
    | Returned(outcome: Outcome)

  /** Where a call's task is; `Answered` once a result has been put in its response channel. */
  datatype Place =
    | Nowhere
    | InQueue
    | WithDispatcher
    | InChannel(worker: nat)
    | InHands(worker: nat)
    | Answered

  datatype Call = Call(client: ClientId, pc: CallPc, response: seq<bool>, sends: nat, place: Place)

  datatype Dispatcher =
    | Idle
    | Holding(task: CallId)
    | Targeting(task: CallId, worker: nat)
    | Refusing(task: CallId, worker: nat)

  datatype WorkerPc =
    | Listening
    | Received(task: CallId)
    | MarkedBusy(task: CallId)
    | Counted(task: CallId)
    | Sending(task: CallId, success: bool)
    | Sent

  datatype Worker = Worker(
    pc: WorkerPc, channel: seq<CallId>, isIdle: bool, processedTasks: nat, failedTasks: nat,
    started: seq<CallId>)

  datatype Stats = Stats(total: int, queued: int, completed: int, failed: int, overflows: int)

  datatype Routing = Routing(task: CallId, worker: nat, accepted: bool)

  datatype State = State(
    running: bool, calls: map<CallId, Call>, queue: seq<CallId>, dispatcher: Dispatcher,
    workers: seq<Worker>, stats: Stats, enqueued: seq<CallId>, routed: seq<Routing>)

  /** Atomic actions of the goroutine inside RouteMessage. */
  datatype CallerAction =
    | Arrive(client: ClientId)
    | Submit
    | HandOff
    | SubmitTimeout
    | CountOverflow
    | CountTotal
    | CountQueued
    | ReceiveResult
    | ProcessingTimeout
    | CountDequeued
    | CountOutcome

  datatype DispatcherAction = TakeTask | SelectWorker(target: nat) | Deliver | DeliverTimeout | SendRefusal

  datatype WorkerAction =
    | TakeFromChannel
    | MarkBusy
    | CountProcessed
    | Process(success: bool)
    | SendResult
    | SendTimeout
    | MarkIdle

  datatype Label =
    | Start
    | ByCaller(call: CallId, caller: CallerAction)
    | ByDispatcher(dispatcher: DispatcherAction)
    | ByWorker(index: nat, worker: WorkerAction)

  function Init(cfg: Config): State {
    State(false, map[], [], Idle, seq(cfg.workerCount, i => Worker(Listening, [], true, 0, 0, [])),
          Stats(0, 0, 0, 0, 0), [], [])
  }

  // ------------------------------------------------------------------ transitions

  predicate CallAt(s: State, t: CallId, pc: CallPc) {
    t in s.calls && s.calls[t].pc == pc
  }

  predicate RoomInResponse(s: State, t: CallId) {
    t in s.calls && |s.calls[t].response| < 1
  }

  predicate CallerEnabled(cfg: Config, s: State, t: CallId, a: CallerAction) {
    match a
    case Arrive(_) => t !in s.calls
    case Submit => CallAt(s, t, Submitting) && |s.queue| < cfg.queueSize
    case HandOff => CallAt(s, t, Submitting) && s.queue == [] && s.dispatcher == Idle
    case SubmitTimeout => CallAt(s, t, Submitting)
    case CountOverflow => CallAt(s, t, CountingOverflow)
    case CountTotal => CallAt(s, t, CountingTotal)
    case CountQueued => CallAt(s, t, CountingQueued)
    case ReceiveResult => CallAt(s, t, Waiting) && s.calls[t].response != []
    case ProcessingTimeout => CallAt(s, t, Waiting)
    case CountDequeued => t in s.calls && s.calls[t].pc.CountingDequeued?
    case CountOutcome => t in s.calls && s.calls[t].pc.CountingOutcome?
  }

  predicate DispatcherEnabled(cfg: Config, s: State, a: DispatcherAction) {
    var d := s.dispatcher;
    match a
    case TakeTask => s.running && d == Idle && s.queue != [] && s.queue[0] in s.calls
    case SelectWorker(w) =>
      && d.Holding? && w < |s.workers| && d.task in s.calls
      && (cfg.hashMode ==> w == Balancers.HashIndex(s.calls[d.task].client, |s.workers|))
    case Deliver =>
      && d.Targeting? && d.task in s.calls && d.worker < |s.workers|
      && |s.workers[d.worker].channel| < CHANNEL_CAPACITY
    case DeliverTimeout => d.Targeting?
    case SendRefusal => d.Refusing? && RoomInResponse(s, d.task)
  }

  predicate WorkerEnabled(s: State, w: nat, a: WorkerAction) {
    && w < |s.workers|
    && var pc := s.workers[w].pc;
       match a
       case TakeFromChannel =>
         && s.running && pc == Listening
         && s.workers[w].channel != [] && s.workers[w].channel[0] in s.calls
       case MarkBusy => pc.Received?
       case CountProcessed => pc.MarkedBusy?
       case Process(_) => pc.Counted?
       case SendResult => pc.Sending? && RoomInResponse(s, pc.task)
       case SendTimeout => pc.Sending? && pc.task in s.calls && |s.calls[pc.task].response| == 1
       case MarkIdle => pc == Sent
  }

  predicate Enabled(cfg: Config, s: State, l: Label) {
    match l
    case Start => !s.running
    case ByCaller(t, a) => CallerEnabled(cfg, s, t, a)
    case ByDispatcher(a) => DispatcherEnabled(cfg, s, a)
    case ByWorker(w, a) => WorkerEnabled(s, w, a)
  }

  function SetPc(s: State, t: CallId, pc: CallPc): State
    requires t in s.calls
  {
    s.(calls := s.calls[t := s.calls[t].(pc := pc)])
  }

  function SetPlace(s: State, t: CallId, p: Place): State
    requires t in s.calls
  {
    s.(calls := s.calls[t := s.calls[t].(place := p)])
  }

  /** Put a result in the response channel. */
  function Answer(s: State, t: CallId, success: bool): State
    requires t in s.calls
  {
    var c := s.calls[t];
    s.(calls := s.calls[t := c.(response := c.response + [success], sends := c.sends + 1, place := Answered)])
  }

  function SetWorker(s: State, w: nat, worker: Worker): State
    requires w < |s.workers|
  {
    s.(workers := s.workers[w := worker])
  }

  function CallerDo(cfg: Config, s: State, t: CallId, a: CallerAction): State
    requires CallerEnabled(cfg, s, t, a)
  {
    match a
    case Arrive(c) =>
      s.(calls := s.calls[t := Call(c, if s.running then Submitting else Returned(NotRunning), [], 0, Nowhere)])
    case Submit =>
      SetPlace(SetPc(s, t, CountingTotal), t, InQueue).(queue := s.queue + [t], enqueued := s.enqueued + [t])
    case HandOff =>
      SetPlace(SetPc(s, t, CountingTotal), t, WithDispatcher)
        .(dispatcher := Holding(t), enqueued := s.enqueued + [t])
    case SubmitTimeout => SetPc(s, t, CountingOverflow)
    case CountOverflow =>
      SetPc(s, t, Returned(Overflowed)).(stats := s.stats.(overflows := s.stats.overflows + 1))
    case CountTotal => SetPc(s, t, CountingQueued).(stats := s.stats.(total := s.stats.total + 1))
    case CountQueued => SetPc(s, t, Waiting).(stats := s.stats.(queued := s.stats.queued + 1))
    case ReceiveResult =>
      var c := s.calls[t];
      var outcome := if c.response[0] then Completed else Failed;
      s.(calls := s.calls[t := c.(pc := CountingDequeued(outcome), response := c.response[1..])])
    case ProcessingTimeout => SetPc(s, t, CountingDequeued(TimedOut))
    case CountDequeued =>
      SetPc(s, t, CountingOutcome(s.calls[t].pc.outcome)).(stats := s.stats.(queued := s.stats.queued - 1))
    case CountOutcome =>
      var o := s.calls[t].pc.outcome;
      SetPc(s, t, Returned(o))
        .(stats := if o == Completed then s.stats.(completed := s.stats.completed + 1)
                   else s.stats.(failed := s.stats.failed + 1))
  }

  function DispatcherDo(cfg: Config, s: State, a: DispatcherAction): State
    requires DispatcherEnabled(cfg, s, a)
  {
    var d := s.dispatcher;
    match a
    case TakeTask =>
      SetPlace(s, s.queue[0], WithDispatcher).(dispatcher := Holding(s.queue[0]), queue := s.queue[1..])
    case SelectWorker(w) => s.(dispatcher := Targeting(d.task, w))
    case Deliver =>
      var worker := s.workers[d.worker];
      SetPlace(SetWorker(s, d.worker, worker.(channel := worker.channel + [d.task])), d.task, InChannel(d.worker))
        .(dispatcher := Idle, routed := s.routed + [Routing(d.task, d.worker, true)])
    case DeliverTimeout =>
      s.(dispatcher := Refusing(d.task, d.worker), routed := s.routed + [Routing(d.task, d.worker, false)])
    case SendRefusal => Answer(s, d.task, false).(dispatcher := Idle)
  }

  function WorkerDo(s: State, w: nat, a: WorkerAction): State
    requires WorkerEnabled(s, w, a)
  {
    var x := s.workers[w];
    match a
    case TakeFromChannel =>
      var t := x.channel[0];
      SetPlace(SetWorker(s, w, x.(pc := Received(t), channel := x.channel[1..], started := x.started + [t])),
               t, InHands(w))
    case MarkBusy => SetWorker(s, w, x.(pc := MarkedBusy(x.pc.task), isIdle := false))
    case CountProcessed => SetWorker(s, w, x.(pc := Counted(x.pc.task), processedTasks := x.processedTasks + 1))
    case Process(ok) =>
      SetWorker(s, w, x.(pc := Sending(x.pc.task, ok), failedTasks := x.failedTasks + if ok then 0 else 1))
    case SendResult => SetWorker(Answer(s, x.pc.task, x.pc.success), w, x.(pc := Sent))
    case SendTimeout => SetWorker(s, w, x.(pc := Sent))
    case MarkIdle => SetWorker(s, w, x.(pc := Listening, isIdle := true))
  }

  function Do(cfg: Config, s: State, l: Label): State
    requires Enabled(cfg, s, l)
  {
    match l
    case Start => s.(running := true)
    case ByCaller(t, a) => CallerDo(cfg, s, t, a)
    case ByDispatcher(a) => DispatcherDo(cfg, s, a)
    case ByWorker(w, a) => WorkerDo(s, w, a)
  }

  predicate Step(cfg: Config, s: State, l: Label, s': State) {
    Enabled(cfg, s, l) && s' == Do(cfg, s, l)
  }

  /** A run: the states passed through from the initial one, and the action taken from each. */
  datatype Run = Run(states: seq<State>, actions: seq<Label>)

  ghost predicate IsRun(cfg: Config, run: Run) {
    && |run.states| == |run.actions| + 1
    && run.states[0] == Init(cfg)
    && forall i {:trigger run.actions[i]} :: 0 <= i < |run.actions| ==>
         Step(cfg, run.states[i], run.actions[i], run.states[i + 1])
  }

  /** `s` is the `n`-th state of the run. */
  ghost predicate StateOf(cfg: Config, run: Run, n: nat, s: State) {
    IsRun(cfg, run) && n < |run.states| && s == run.states[n]
  }
}
