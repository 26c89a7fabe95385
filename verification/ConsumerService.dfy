/**
 The consumer module itself: its globals as fields, each atomic section as a method that updates
 them in place and is proved to be the corresponding event of the protocol.
 */
module ConsumerService {
  import opened Wrappers
  import opened Messages
  import opened Broker
  import opened ConsumerProtocol
  import opened ConsumerInvariants

  class Consumer {
    const config: Config
    var handlers: Registry
    var semaphore: Option<nat>
    var activeTasks: set<nat>
    var tasks: map<nat, Phase>
    var cancelSent: set<nat>
    var loop: Loop
    var channels: nat
    var buffer: seq<nat>
    var broker: Broker

    function Snapshot(): State
      reads this
    {
      State(broker, loop, channels, buffer, tasks, activeTasks, cancelSent, semaphore, handlers)
    }

    /** The module is in a state that some run of the protocol reaches. */
    ghost predicate Valid()
      reads this
    {
      Reachable(config, Snapshot())
    }

    /** The event happened, and nothing else. */
    twostate predicate Did(e: Event)
      reads this
    {
      && Enabled(config, old(Snapshot()), e)
      && Snapshot() == Next(config, old(Snapshot()), e)
    }

    constructor (config: Config)
      ensures Valid() && Snapshot() == START && this.config == config
    {
      this.config := config;
      handlers, semaphore, activeTasks, tasks, cancelSent := map[], None, {}, map[], {};
      loop, channels, buffer, broker := Connecting, 0, [], EMPTY;
      new;
      assert Run(config, []) == Some(START);
    }

    method RegisterHandler(key: string, handler: Handler)
      requires Valid()
      modifies this`handlers
      ensures Valid() && Did(World(Register(key, handler)))
      ensures handlers == old(handlers)[key := handler]
    {
      ReachStep(config, Snapshot(), World(Register(key, handler)));
      handlers := handlers[key := handler];
    }

    /** What the broker and the network do between two sections. */
    method BrokerActs(w: WorldEvent)
      requires Valid() && WorldEnabled(config, Snapshot(), w) && !w.Register?
      modifies this`broker, this`buffer
      ensures Valid() && Did(World(w))
    {
      ReachStep(config, Snapshot(), World(w));
      var after := WorldNext(config, Snapshot(), w);
      broker, buffer := after.broker, after.buffer;
    }

    // ----- the semaphore

    /** Creates the semaphore on first use, and only then; `t` is the calling task. */
    method GetSemaphore(t: nat) returns (value: nat)
      requires Valid() && In(Snapshot(), t, Waiting)
      modifies this`semaphore
      ensures Valid() && (old(semaphore).None? ==> Did(Task(t, MakeSemaphore)))
      ensures Snapshot() == old(Snapshot()).(semaphore := Some(value))
      ensures value == FreeSlots(config, old(Snapshot()))
    {
      if semaphore.None? {
        ReachStep(config, Snapshot(), Task(t, MakeSemaphore));
        assert tasks[t := Waiting] == tasks;
        semaphore := Some(config.slots);
      }
      value := semaphore.value;
    }

    /** Grants a slot iff one is free; a task that is not granted one stays where it is. */
    method TryAcquire(t: nat) returns (granted: bool)
      requires Valid() && In(Snapshot(), t, Waiting)
      modifies this`semaphore, this`tasks
      ensures Valid() && granted == (FreeSlots(config, old(Snapshot())) > 0)
      ensures granted ==> Did(Task(t, Acquire))
      ensures !granted ==> Snapshot() == old(Snapshot()).(semaphore := Some(0))
    {
      var value := GetSemaphore(t);
      granted := value > 0;
      if granted {
        ReachStep(config, Snapshot(), Task(t, Acquire));
        semaphore := Some(value - 1);
        tasks := tasks[t := Holding];
      }
    }

    method Release()
      requires semaphore.Some?
      modifies this`semaphore
      ensures semaphore == Some(old(semaphore.value) + 1)
    {
      semaphore := Some(semaphore.value + 1);
    }

    // ----- one message

    /** Parse and route: either a handler starts, or the message is answered for on the spot. */
    method EnterMessageBody(t: nat)
      requires Valid() && In(Snapshot(), t, Holding)
      modifies this`tasks, this`broker
      ensures Valid() && Did(Task(t, Enter))
      ensures forall key, h :: KeyOf(BodyOf(old(Snapshot()), t)) == Some(key) && Find(handlers, key) == Some(h) ==>
                                 tasks[t] == Running(h) && broker == old(broker)
      ensures tasks[t].Running? ==> KeyOf(BodyOf(old(Snapshot()), t)).Some?
                                    && KeyOf(BodyOf(old(Snapshot()), t)).value in handlers
      ensures !tasks[t].Running? ==> tasks[t] == Answered && broker == Settle(old(broker), t, Final)
    {
      ReachStep(config, Snapshot(), Task(t, Enter));
      ReachInv(config, Snapshot());
      var body := broker.bodies[broker.deliveries[t].msg];
      if body.Undecodable? || body.NotAnObject? || body.eventType.Unhashable? || body.eventType.OtherKey? {
        broker := Settle(broker, t, Final);
        tasks := tasks[t := Answered];
      } else {
        var key := if body.eventType.Text? then body.eventType.text else "";
        var handler := Find(handlers, key);
        if handler.None? {
          broker := Settle(broker, t, Final);
          tasks := tasks[t := Answered];
        } else {
          tasks := tasks[t := Running(handler.value)];
        }
      }
    }

    method FinishHandler(t: nat, outcome: Outcome)
      requires Valid() && IsRunning(Snapshot(), t)
      modifies this`tasks, this`broker
      ensures Valid() && Did(Task(t, HandlerEnds(outcome)))
      ensures broker == Settle(old(broker), t, if outcome == RaisedException then Requeue else Final)
    {
      ReachStep(config, Snapshot(), Task(t, HandlerEnds(outcome)));
      if outcome == RaisedException {
        broker := Settle(broker, t, Requeue);
        var nacked := broker;
        broker := Settle(broker, t, Final);     // the context manager rejects too: no effect any more
        assert broker == nacked;
      } else {
        broker := Settle(broker, t, Final);
      }
      tasks := tasks[t := Answered];
    }

    method ExitSemaphore(t: nat)
      requires Valid() && In(Snapshot(), t, Answered)
      modifies this`tasks, this`semaphore
      ensures Valid() && Did(Task(t, Exit))
    {
      ReachStep(config, Snapshot(), Task(t, Exit));
      HolderExists(t);
      Release();
      tasks := tasks[t := Finished];
    }

    lemma HolderExists(t: nat)
      requires Valid() && t in Holders(Snapshot())
      ensures semaphore.Some?
    {
      ReachInv(config, Snapshot());
      assert |Holders(Snapshot())| > 0;
    }

    /** The body of `message.process`, run without interruption. */
    method HandleMessage(t: nat, outcome: Outcome)
      requires Valid() && In(Snapshot(), t, Holding)
      modifies this`tasks, this`broker
      ensures Valid() && tasks == old(tasks)[t := Answered]
      ensures broker == Settle(old(broker), t, Disposition(old(Snapshot()), t, outcome))
    {
      EnterMessageBody(t);
      if tasks[t].Running? {
        FinishHandler(t, outcome);
      }
    }

    /** The whole processor, run without interruption on a free slot. */
    method ProcessMessage(t: nat, outcome: Outcome)
      requires Valid() && In(Snapshot(), t, Waiting) && FreeSlots(config, Snapshot()) > 0
      modifies this`tasks, this`broker, this`semaphore
      ensures Valid() && tasks == old(tasks)[t := Finished]
      ensures FreeSlots(config, Snapshot()) == FreeSlots(config, old(Snapshot()))
      ensures broker == Settle(old(broker), t, Disposition(old(Snapshot()), t, outcome))
    {
      var granted := TryAcquire(t);
      HandleMessage(t, outcome);
      ExitSemaphore(t);
    }

    lemma CancelledOnDeadChannel(t: nat)
      requires Valid() && t in cancelSent
      ensures !Effective(broker, t)
    {
      ReachInv(config, Snapshot());
    }

    /** CancelledError delivered to a task, wherever it is suspended. */
    method CancelTask(t: nat)
      requires Valid() && t in cancelSent && t in tasks && !Done(Snapshot(), t)
      modifies this`tasks, this`broker, this`semaphore
      ensures Valid()
      ensures old(tasks[t]) == Waiting ==> Did(Task(t, AbortWaiting))
      ensures old(tasks[t]) == Holding ==> Did(Task(t, AbortHolding))
      ensures old(tasks[t]).Running? ==> Did(Task(t, HandlerEnds(Interrupted)))
      ensures old(tasks[t]) == Answered ==> Did(Task(t, Exit))
      ensures tasks == old(tasks)[t := if old(tasks[t]).Running? then Answered else Finished]
      ensures broker == old(broker)
    {
      CancelledOnDeadChannel(t);
      match tasks[t]
      case Waiting =>
        ReachStep(config, Snapshot(), Task(t, AbortWaiting));
        tasks := tasks[t := Finished];
      case Holding =>
        ReachStep(config, Snapshot(), Task(t, AbortHolding));
        HolderExists(t);
        Release();
        tasks := tasks[t := Finished];
      case Running(h) =>
        FinishHandler(t, Interrupted);
      case Answered =>
        ExitSemaphore(t);
    }

    // ----- the task tracker

    method SpawnTask()
      requires Valid() && loop == Consuming && buffer != []
      modifies this`buffer, this`tasks, this`activeTasks
      ensures Valid() && Did(Loop(TaskSpawned))
      ensures tasks == old(tasks)[old(buffer)[0] := Waiting] && buffer == old(buffer)[1..]
      ensures activeTasks == old(activeTasks) + {old(buffer)[0]}
    {
      ReachStep(config, Snapshot(), Loop(TaskSpawned));
      var message := buffer[0];
      buffer := buffer[1..];
      tasks := tasks[message := Waiting];
      activeTasks := activeTasks + {message};
    }

    method DoneCallback(t: nat)
      requires Valid() && In(Snapshot(), t, Finished)
      modifies this`tasks, this`activeTasks
      ensures Valid() && Did(Task(t, Callback))
      ensures activeTasks == old(activeTasks) - {t}
    {
      ReachStep(config, Snapshot(), Task(t, Callback));
      tasks := tasks[t := Reaped];
      activeTasks := activeTasks - {t};
    }

    /** The drain gave up waiting: every task still tracked is sent a cancel, one by one. */
    method DrainTimeout()
      requires Valid() && loop.Draining?
      modifies this`cancelSent, this`loop
      ensures Valid() && Did(Loop(DrainTimedOut))
      ensures cancelSent == old(cancelSent) + activeTasks
    {
      var remaining := activeTasks;
      while remaining != {}
        invariant remaining <= activeTasks
        invariant cancelSent == old(cancelSent) + (activeTasks - remaining)
        invariant loop == old(loop)
        decreases remaining
      {
        var task :| task in remaining;
        cancelSent := cancelSent + {task};
        remaining := remaining - {task};
      }
      loop := Stopped(Some(loop.tracked));
      ReachStep(config, old(Snapshot()), Loop(DrainTimedOut));
      assert Snapshot() == Next(config, old(Snapshot()), Loop(DrainTimedOut));
    }

    // ----- the consume loop

    /** Connects, opens a channel and hands it to the health checker. */
    method Connect() returns (channel: nat)
      requires Valid() && loop == Connecting
      modifies this`broker, this`channels, this`loop
      ensures Valid() && Did(Loop(ChannelOpened)) && channel == channels == old(channels) + 1
      ensures broker.live == Some(old(broker).epochs + 1)
    {
      ReachStep(config, Snapshot(), Loop(ChannelOpened));
      broker := OpenChannel(broker);
      channels := channels + 1;
      loop := SettingUp;
      channel := channels;
    }

    method BeginConsuming()
      requires Valid() && loop == SettingUp && broker.live.Some?
      modifies this`loop
      ensures Valid() && Did(Loop(ConsumeStarted))
    {
      ReachStep(config, Snapshot(), Loop(ConsumeStarted));
      loop := Consuming;
    }

    /** The back-off sleep ends, by itself or by cancellation; the latter leaves without draining. */
    method EndBackOff(cancelled: bool)
      requires Valid() && loop == BackingOff
      modifies this`loop
      ensures Valid() && Did(Loop(if cancelled then BackOffCancelled else BackOffElapsed))
      ensures if cancelled then loop.Stopped? else loop == Connecting
    {
      ReachStep(config, Snapshot(), Loop(if cancelled then BackOffCancelled else BackOffElapsed));
      loop := if cancelled then Stopped(None) else Connecting;
    }

    method LeaveLoop(cause: Cause)
      requires Valid() && Enabled(config, Snapshot(), Loop(LoopRaised(cause)))
      modifies this`loop, this`buffer
      ensures Valid() && Did(Loop(LoopRaised(cause)))
    {
      ReachStep(config, Snapshot(), Loop(LoopRaised(cause)));
      loop := Leaving(cause);
      buffer := [];
    }

    /** The connection closes first; only then does the exception reach its handler. */
    method CloseScope()
      requires Valid() && loop.Leaving?
      modifies this`broker, this`loop
      ensures Valid() && Did(Loop(ScopeClosed))
      ensures broker.live.None? && broker.unacked == {}
      ensures loop == match old(loop).cause
                      case Exhausted => Connecting
                      case Cancellation => Draining(activeTasks)
                      case _ => BackingOff
    {
      ReachStep(config, Snapshot(), Loop(ScopeClosed));
      broker := CloseChannel(broker);
      loop := AfterScope(loop.cause, activeTasks);
      ReachInv(config, Snapshot());
    }
  }
}
