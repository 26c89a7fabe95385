/**
 The consumer as a state machine over its atomic sections: what runs between two suspension
 points of the event loop is one event. Deliveries, reconnects, tasks and the consume loop
 interleave freely; tasks of a dead channel live on beside those of the next one.
 */
module ConsumerProtocol {
  import opened Wrappers
  import opened Messages
  import opened Broker

  datatype Config = Config(prefetch: nat, slots: nat)   // prefetch 0 means no limit

  /** Why control left the `async with connection` scope. */
  datatype Cause = Exhausted | ChannelError | ConnectionError | OtherError | Cancellation

  datatype Loop =
    | Connecting
    | SettingUp                             // channel open, not consuming yet
    | Consuming
    | Leaving(cause: Cause)                 // unwinding out of the connection scope
    | BackingOff
    | Draining(tracked: set<nat>)           // with the tasks tracked when the drain began
    | Stopped(drained: Option<set<nat>>)    // None: cancelled during a back-off sleep

  /** A task is named by the tag of the delivery it was spawned for. */
  datatype Phase =
    | Waiting                               // for a semaphore slot
    | Holding                               // has a slot, body not entered
    | Running(handler: Handler)
    | Answered                              // has sent its settlement, still inside the semaphore
    | Finished                              // done, callback pending
    | Reaped                                // done-callback has run

  datatype State = State(
    broker: Broker,
    loop: Loop,
    channels: nat,                          // channel objects handed to the health checker
    buffer: seq<nat>,                       // deliveries the queue iterator has not yielded yet
    tasks: map<nat, Phase>,
    active: set<nat>,                       // _active_tasks
    cancelSent: set<nat>,
    semaphore: Option<nat>,                 // _semaphore and its counter
    handlers: Registry
  )

  const START := State(EMPTY, Connecting, 0, [], map[], {}, {}, None, map[])

  /** The broker, the network and the modules that register handlers. */
  datatype WorldEvent =
    | Publish(msg: nat, body: Body)
    | Deliver(tag: nat, msg: nat)
    | ChannelLost
    | ChannelRestored
    | Register(key: string, handler: Handler)

  datatype LoopEvent =
    | ChannelOpened
    | ConsumeStarted
    | TaskSpawned
    | LoopRaised(cause: Cause)
    | ScopeClosed
    | BackOffElapsed
    | BackOffCancelled
    | DrainCompleted
    | DrainTimedOut

  datatype Move =
    | MakeSemaphore
    | Acquire
    | Enter
    | HandlerEnds(outcome: Outcome)
    | AbortWaiting
    | AbortHolding
    | Exit
    | Callback

  datatype Event = World(w: WorldEvent) | Loop(l: LoopEvent) | Task(task: nat, move: Move)

  predicate In(s: State, t: nat, p: Phase) {
    t in s.tasks && s.tasks[t] == p
  }

  predicate IsRunning(s: State, t: nat) {
    t in s.tasks && s.tasks[t].Running?
  }

  predicate Done(s: State, t: nat) {
    In(s, t, Finished) || In(s, t, Reaped)
  }

  function FreeSlots(c: Config, s: State): nat {
    match s.semaphore case None => c.slots case Some(v) => v
  }

  function BodyOf(s: State, t: nat): Body {
    if t in s.broker.deliveries && s.broker.deliveries[t].msg in s.broker.bodies
    then s.broker.bodies[s.broker.deliveries[t].msg] else Undecodable
  }

  // ----- the environment

  predicate WorldEnabled(c: Config, s: State, w: WorldEvent) {
    match w
    case Publish(m, _) => m !in s.broker.bodies
    case Deliver(tag, m) =>       // once the queue is consumed, until the channel is gone
      && s.broker.live.Some? && s.loop != SettingUp
      && m in s.broker.ready && tag !in s.broker.deliveries
      && (c.prefetch == 0 || |s.broker.unacked| < c.prefetch)
    case ChannelLost => s.broker.live.Some?
    case ChannelRestored => s.broker.live.None? && (s.loop == SettingUp || s.loop == Consuming)
    case Register(_, _) => true
  }

  function WorldNext(c: Config, s: State, w: WorldEvent): State
    requires WorldEnabled(c, s, w)
  {
    match w
    case Publish(m, body) => s.(broker := Accept(s.broker, m, body))
    case Deliver(tag, m) =>       // while the loop unwinds, nobody reads the iterator any more
      s.(broker := Push(s.broker, tag, m), buffer := if s.loop == Consuming then s.buffer + [tag] else s.buffer)
    case ChannelLost => s.(broker := CloseChannel(s.broker))
    case ChannelRestored => s.(broker := OpenChannel(s.broker))
    case Register(key, h) => s.(handlers := s.handlers[key := h])
  }

  // ----- the consume loop

  predicate LoopEnabled(s: State, l: LoopEvent) {
    match l
    case ChannelOpened => s.loop == Connecting
    case ConsumeStarted => s.loop == SettingUp && s.broker.live.Some?
    case TaskSpawned => s.loop == Consuming && s.buffer != []
    case LoopRaised(cause) =>
      || s.loop == Consuming
      || ((s.loop == Connecting || s.loop == SettingUp) && cause != Exhausted)
      || (s.loop.Leaving? && cause != Exhausted)     // raised while unwinding: replaces the exception under way
    case ScopeClosed => s.loop.Leaving?
    case BackOffElapsed => s.loop == BackingOff
    case BackOffCancelled => s.loop == BackingOff
    case DrainCompleted => s.loop.Draining? && forall t | t in s.loop.tracked :: Done(s, t)
    case DrainTimedOut => s.loop.Draining?
  }

  /** Where the loop goes once the connection scope has closed. */
  function AfterScope(cause: Cause, active: set<nat>): Loop {
    match cause
    case Exhausted => Connecting
    case Cancellation => Draining(active)
    case _ => BackingOff
  }

  function LoopNext(s: State, l: LoopEvent): State
    requires LoopEnabled(s, l)
  {
    match l
    case ChannelOpened => s.(broker := OpenChannel(s.broker), channels := s.channels + 1, loop := SettingUp)
    case ConsumeStarted => s.(loop := Consuming)
    case TaskSpawned =>
      var t := s.buffer[0];
      s.(buffer := s.buffer[1..], tasks := s.tasks[t := Waiting], active := s.active + {t})
    case LoopRaised(cause) => s.(loop := Leaving(cause), buffer := [])
    case ScopeClosed => s.(broker := CloseChannel(s.broker), loop := AfterScope(s.loop.cause, s.active))
    case BackOffElapsed => s.(loop := Connecting)
    case BackOffCancelled => s.(loop := Stopped(None))
    case DrainCompleted => s.(loop := Stopped(Some(s.loop.tracked)))
    case DrainTimedOut => s.(loop := Stopped(Some(s.loop.tracked)), cancelSent := s.cancelSent + s.active)
  }

  // ----- the tasks

  predicate TaskEnabled(c: Config, s: State, t: nat, m: Move) {
    match m
    case MakeSemaphore => In(s, t, Waiting) && s.semaphore.None?
    case Acquire => In(s, t, Waiting) && FreeSlots(c, s) > 0
    case Enter => In(s, t, Holding)
    case HandlerEnds(_) => IsRunning(s, t)
    case AbortWaiting => In(s, t, Waiting) && t in s.cancelSent
    case AbortHolding => In(s, t, Holding) && t in s.cancelSent
    case Exit => In(s, t, Answered)
    case Callback => In(s, t, Finished)
  }

  function PhaseAfter(s: State, t: nat, m: Move): Phase {
    match m
    case MakeSemaphore => Waiting
    case Acquire => Holding
    case Enter =>
      (match RouteOf(s.handlers, BodyOf(s, t))
       case Calls(h) => Running(h)
       case Drops => Answered
       case Faults => Answered)
    case HandlerEnds(_) => Answered
    case AbortWaiting => Finished
    case AbortHolding => Finished
    case Exit => Finished
    case Callback => Reaped
  }

  /** The settlement a move sends, if it sends one. */
  function AnswerOf(s: State, t: nat, m: Move): Option<Settlement> {
    match m
    case Enter => if RouteOf(s.handlers, BodyOf(s, t)).Calls? then None else Some(Final)
    case HandlerEnds(outcome) => Some(SettlementOf(outcome))
    case _ => None
  }

  /** What a delivery comes to when its handler, if it has one, ends with `outcome`. */
  function Disposition(s: State, t: nat, outcome: Outcome): Settlement {
    if RouteOf(s.handlers, BodyOf(s, t)).Calls? then SettlementOf(outcome) else Final
  }

  function SemaphoreAfter(c: Config, s: State, m: Move): Option<nat>
    requires m == Acquire ==> FreeSlots(c, s) > 0
  {
    match m
    case MakeSemaphore => Some(c.slots)
    case Acquire => Some(FreeSlots(c, s) - 1)
    case AbortHolding => Some(FreeSlots(c, s) + 1)
    case Exit => Some(FreeSlots(c, s) + 1)
    case _ => s.semaphore
  }

  function TaskNext(c: Config, s: State, t: nat, m: Move): State
    requires TaskEnabled(c, s, t, m)
  {
    var answer := AnswerOf(s, t, m);
    s.(tasks := s.tasks[t := PhaseAfter(s, t, m)],
       semaphore := SemaphoreAfter(c, s, m),
       broker := if answer.Some? then Settle(s.broker, t, answer.value) else s.broker,
       active := if m == Callback then s.active - {t} else s.active)
  }

  // ----- runs

  predicate Enabled(c: Config, s: State, e: Event) {
    match e
    case World(w) => WorldEnabled(c, s, w)
    case Loop(l) => LoopEnabled(s, l)
    case Task(t, m) => TaskEnabled(c, s, t, m)
  }

  function Next(c: Config, s: State, e: Event): State
    requires Enabled(c, s, e)
  {
    match e
    case World(w) => WorldNext(c, s, w)
    case Loop(l) => LoopNext(s, l)
    case Task(t, m) => TaskNext(c, s, t, m)
  }

  /** Running a list of events from a state; None if one of them was not possible. */
  function Exec(c: Config, s: State, es: seq<Event>): Option<State> {
    if es == [] then Some(s)
    else
      match Exec(c, s, es[..|es| - 1])
      case None => None
      case Some(s') =>
        var e := es[|es| - 1];
        if Enabled(c, s', e) then Some(Next(c, s', e)) else None
  }

  function Run(c: Config, es: seq<Event>): Option<State> {
    Exec(c, START, es)
  }

  ghost predicate Reachable(c: Config, s: State) {
    exists es :: Run(c, es) == Some(s)
  }

  lemma Extend(c: Config, es: seq<Event>, s: State, e: Event) returns (es': seq<Event>, s': State)
    requires Run(c, es) == Some(s) && Enabled(c, s, e)
    ensures es' == es + [e] && s' == Next(c, s, e) && Run(c, es') == Some(s')
  {
    es', s' := es + [e], Next(c, s, e);
    assert es'[..|es|] == es;
  }

  lemma ReachStep(c: Config, s: State, e: Event)
    requires Reachable(c, s) && Enabled(c, s, e)
    ensures Reachable(c, Next(c, s, e))
  {
    var es :| Run(c, es) == Some(s);
    var es', s' := Extend(c, es, s, e);
  }

  /** A run's prefixes are runs. */
  lemma {:induction false} PrefixRuns(c: Config, s: State, es: seq<Event>, i: nat)
    requires i <= |es| && Exec(c, s, es).Some?
    ensures Exec(c, s, es[..i]).Some?
    decreases |es|
  {
    if i == |es| {
      assert es[..i] == es;
    } else {
      var p := es[..|es| - 1];
      PrefixRuns(c, s, p, i);
      assert p[..i] == es[..i];
    }
  }

  // ----- derived sets

  /** Inside the semaphore body. */
  predicate IsHolder(s: State, t: nat) {
    t in s.tasks && (s.tasks[t] == Holding || s.tasks[t].Running? || s.tasks[t] == Answered)
  }

  /** Has a message it has not answered for yet. */
  predicate IsCarrying(s: State, t: nat) {
    t in s.tasks && (s.tasks[t] == Waiting || s.tasks[t] == Holding || s.tasks[t].Running?)
  }

  function Holders(s: State): set<nat> {
    set t | t in s.tasks && IsHolder(s, t)
  }

  function Carrying(s: State): set<nat> {
    set t | t in s.tasks && IsCarrying(s, t)
  }

  function AnsweredHolders(s: State): set<nat> {
    set t | t in s.tasks && s.tasks[t] == Answered
  }

  function RunningTasks(s: State): set<nat> {
    set t | t in s.tasks && s.tasks[t].Running?
  }

  /** Not answered: no task yet, or one that still carries the message. */
  predicate Open(s: State, d: nat) {
    d !in s.tasks || IsCarrying(s, d)
  }

  /** The deliveries of one channel that have not been answered. */
  function OpenIn(s: State, epoch: nat): set<nat> {
    set d | d in s.broker.deliveries && s.broker.deliveries[d].epoch == epoch && Open(s, d)
  }
}
