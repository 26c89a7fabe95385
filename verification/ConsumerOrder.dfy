/**
 What follows what in a run of the consumer, read off its events: the order in which deliveries get
 their tasks, where a task stands, whom a drain cancels, and where the loop goes from an exception.
 */
module ConsumerOrder {
  import opened Wrappers
  import opened Broker
  import opened ConsumerProtocol
  import opened ConsumerInvariants
  import opened ConsumerHistories

  // ----- the order of the tasks

  /** The tags pushed since the loop last began to consume, oldest first. */
  function Pushes(es: seq<Event>): seq<nat> {
    if es == [] then []
    else
      var before := Pushes(es[..|es| - 1]);
      match es[|es| - 1]
      case Loop(ConsumeStarted) => []
      case World(Deliver(tag, _)) => before + [tag]
      case _ => before
  }

  /** The tasks spawned since then. */
  function Spawns(es: seq<Event>): nat {
    if es == [] then 0
    else
      var before := Spawns(es[..|es| - 1]);
      match es[|es| - 1]
      case Loop(ConsumeStarted) => 0
      case Loop(TaskSpawned) => before + 1
      case _ => before
  }

  /** The first `spawned` of the pushed tags have their task, and the rest is buffered in order. */
  ghost predicate InOrder(s: State, pushed: seq<nat>, spawned: nat) {
    && spawned <= |pushed|
    && s.buffer == pushed[spawned..]
    && (forall i | 0 <= i < spawned :: pushed[i] in s.tasks)
    && (forall i | spawned <= i < |pushed| :: pushed[i] !in s.tasks)
  }

  lemma PushInOrder(c: Config, s: State, tag: nat, m: nat, pushed: seq<nat>, spawned: nat)
    requires TrackInv(s) && WorldEnabled(c, s, Deliver(tag, m)) && s.loop == Consuming && InOrder(s, pushed, spawned)
    ensures InOrder(WorldNext(c, s, Deliver(tag, m)), pushed + [tag], spawned)
  {
    assert tag !in s.tasks;
  }

  lemma SpawnInOrder(s: State, pushed: seq<nat>, spawned: nat)
    requires TrackInv(s) && LoopEnabled(s, TaskSpawned) && InOrder(s, pushed, spawned)
    ensures InOrder(LoopNext(s, TaskSpawned), pushed, spawned + 1)
  {
    assert s.buffer[0] == pushed[spawned];
    forall i | spawned < i < |pushed| ensures pushed[i] != pushed[spawned] {
      assert s.buffer[i - spawned] == pushed[i];
    }
  }

  lemma OthersKeepOrder(c: Config, s: State, e: Event, pushed: seq<nat>, spawned: nat)
    requires Enabled(c, s, e) && InOrder(s, pushed, spawned) && s.loop == Next(c, s, e).loop == Consuming
    requires e != Loop(TaskSpawned) && !(e.World? && e.w.Deliver?)
    ensures InOrder(Next(c, s, e), pushed, spawned)
  {
    var s' := Next(c, s, e);
    assert s'.buffer == s.buffer && s'.tasks.Keys == s.tasks.Keys;
  }

  lemma OrderStep(c: Config, s: State, e: Event, es: seq<Event>)
    requires TrackInv(s) && Enabled(c, s, e) && s.loop == Next(c, s, e).loop == Consuming
    requires es != [] && es[|es| - 1] == e && InOrder(s, Pushes(es[..|es| - 1]), Spawns(es[..|es| - 1]))
    ensures InOrder(Next(c, s, e), Pushes(es), Spawns(es))
  {
    var pushed, spawned := Pushes(es[..|es| - 1]), Spawns(es[..|es| - 1]);
    if e.World? && e.w.Deliver? {
      PushInOrder(c, s, e.w.tag, e.w.msg, pushed, spawned);
    } else if e == Loop(TaskSpawned) {
      SpawnInOrder(s, pushed, spawned);
    } else {
      OthersKeepOrder(c, s, e, pushed, spawned);
    }
  }

  /**
   While the loop consumes, the deliveries pushed since it began, in order, are those that have their
   task followed by those that are buffered: the earlier of two deliveries gets its task first.
   */
  lemma {:induction false} FirstInFirstSpawned(c: Config, es: seq<Event>)
    requires Run(c, es).Some? && Run(c, es).value.loop == Consuming
    ensures InOrder(Run(c, es).value, Pushes(es), Spawns(es))
  {
    var p, e := es[..|es| - 1], es[|es| - 1];
    var s := Run(c, p).value;
    RunInv(c, p);
    if s.loop == Consuming && e != Loop(ConsumeStarted) {
      FirstInFirstSpawned(c, p);
      OrderStep(c, s, e, es);
    } else {
      assert e == Loop(ConsumeStarted) && s.buffer == [];
    }
  }

  /** The task that is spawned is that of the oldest delivery without one. */
  lemma SpawnsOldest(c: Config, es: seq<Event>)
    requires Run(c, es).Some? && Enabled(c, Run(c, es).value, Loop(TaskSpawned))
    ensures var s := Run(c, es).value;
            var s' := Next(c, s, Loop(TaskSpawned));
            && Spawns(es) < |Pushes(es)| && Pushes(es)[Spawns(es)] !in s.tasks
            && s'.tasks == s.tasks[Pushes(es)[Spawns(es)] := Waiting]
            && s'.buffer == Pushes(es)[Spawns(es) + 1..]
  {
    FirstInFirstSpawned(c, es);
  }

  // ----- where a task stands

  /** The task has left the semaphore, or was cancelled before it got into it. */
  predicate Ended(es: seq<Event>, t: nat) {
    Task(t, Exit) in es || Task(t, AbortWaiting) in es || Task(t, AbortHolding) in es
  }

  ghost predicate Stands(s: State, t: nat, es: seq<Event>) {
    && (Done(s, t) <==> Ended(es, t))
    && (In(s, t, Reaped) <==> Task(t, Callback) in es)
    && (IsHolder(s, t) <==> Task(t, Acquire) in es && !Ended(es, t))
    && (In(s, t, Holding) <==> Task(t, Acquire) in es && Task(t, Enter) !in es && !Ended(es, t))
    && (Task(t, Enter) in es ==> t in s.tasks && !In(s, t, Waiting))
    && (Task(t, Acquire) in es ==> t in s.tasks && !In(s, t, Waiting))
  }

  lemma StandsStep(c: Config, p: seq<Event>, s: State, e: Event, t: nat)
    requires TrackInv(s) && Enabled(c, s, e) && Stands(s, t, p)
    ensures Stands(Next(c, s, e), t, p + [e])
  {
    var es := p + [e];
    assert forall m :: Task(t, m) in es <==> Task(t, m) in p || e == Task(t, m);
  }

  /** A task holds a slot iff it was granted one and has neither left nor been aborted; those that have are done. */
  lemma {:induction false} PhaseFromEvents(c: Config, es: seq<Event>, t: nat)
    requires Run(c, es).Some?
    ensures Stands(Run(c, es).value, t, es)
  {
    if es != [] {
      var p, e := es[..|es| - 1], es[|es| - 1];
      PhaseFromEvents(c, p, t);
      RunInv(c, p);
      StandsStep(c, p, Run(c, p).value, e, t);
      assert es == p + [e];
    }
  }

  // ----- whom the drain cancels

  /** Event i is the drain giving up while the task is spawned and its callback has not run. */
  ghost predicate GivenUpAt(c: Config, es: seq<Event>, t: nat, i: nat)
    requires Run(c, es).Some?
  {
    && i < |es| && es[i] == Loop(DrainTimedOut)
    && t in Before(c, es, i).tasks && !In(Before(c, es, i), t, Reaped)
  }

  lemma CancelStep(c: Config, s: State, e: Event, t: nat)
    requires TrackInv(s) && Enabled(c, s, e)
    ensures t in Next(c, s, e).cancelSent <==>
              t in s.cancelSent || (e == Loop(DrainTimedOut) && t in s.tasks && !In(s, t, Reaped))
  {
  }

  lemma LastEventCancels(c: Config, es: seq<Event>, t: nat)
    requires es != [] && Run(c, es).Some?
    ensures Run(c, es[..|es| - 1]).Some?
    ensures t in Run(c, es).value.cancelSent <==>
              t in Run(c, es[..|es| - 1]).value.cancelSent || GivenUpAt(c, es, t, |es| - 1)
  {
    var n := |es| - 1;
    RunInv(c, es[..n]);
    CancelStep(c, Run(c, es[..n]).value, es[n], t);
    assert Before(c, es, n) == Run(c, es[..n]).value;
  }

  lemma GivenUpInPrefix(c: Config, es: seq<Event>, t: nat, i: nat)
    requires Run(c, es).Some? && i < |es| - 1
    ensures Run(c, es[..|es| - 1]).Some?
    ensures GivenUpAt(c, es, t, i) <==> GivenUpAt(c, es[..|es| - 1], t, i)
  {
    assert es[..|es| - 1][..i] == es[..i];
  }

  /** A task is sent a cancel iff a drain gave up on it: nothing else in the program cancels tasks. */
  lemma {:induction false} CancelledIffGivenUp(c: Config, es: seq<Event>, t: nat)
    requires Run(c, es).Some?
    ensures t in Run(c, es).value.cancelSent <==> exists i: nat :: GivenUpAt(c, es, t, i)
  {
    if es != [] {
      var n := |es| - 1;
      var p := es[..n];
      CancelledIffGivenUp(c, p, t);
      LastEventCancels(c, es, t);
      forall i: nat | i < n ensures GivenUpAt(c, es, t, i) <==> GivenUpAt(c, p, t, i) {
        GivenUpInPrefix(c, es, t, i);
      }
      if i: nat :| GivenUpAt(c, p, t, i) {
        assert GivenUpAt(c, es, t, i);
      }
    }
  }

  // ----- where the loop goes from an exception

  /** What was raised last, or that the message stream ended. */
  function LastRaised(es: seq<Event>): Option<Cause> {
    if es == [] then None
    else if es[|es| - 1].Loop? && es[|es| - 1].l.LoopRaised? then Some(es[|es| - 1].l.cause)
    else LastRaised(es[..|es| - 1])
  }

  lemma {:induction false} LeavingForLastCause(c: Config, es: seq<Event>)
    requires Run(c, es).Some? && Run(c, es).value.loop.Leaving?
    ensures LastRaised(es) == Some(Run(c, es).value.loop.cause)
  {
    if es != [] && !(es[|es| - 1].Loop? && es[|es| - 1].l.LoopRaised?) {
      LeavingForLastCause(c, es[..|es| - 1]);
    }
  }

  /**
   What was raised last decides: the end of the stream reconnects at once, a cancellation drains
   exactly the tasks whose callback has not run, any other exception backs off.
   */
  lemma LastCauseDecides(c: Config, es: seq<Event>)
    requires Run(c, es).Some? && Enabled(c, Run(c, es).value, Loop(ScopeClosed))
    ensures var s := Run(c, es).value;
            var s' := Next(c, s, Loop(ScopeClosed));
            && LastRaised(es).Some?
            && (s'.loop == Connecting <==> LastRaised(es) == Some(Exhausted))
            && (s'.loop.Draining? <==> LastRaised(es) == Some(Cancellation))
            && (s'.loop == BackingOff <==> LastRaised(es).value in {ChannelError, ConnectionError, OtherError})
            && (s'.loop.Draining? ==>
                  forall t :: t in s'.loop.tracked <==> t in s.tasks && Task(t, Callback) !in es)
  {
    LeavingForLastCause(c, es);
    RunInv(c, es);
    forall t: nat ensures In(Run(c, es).value, t, Reaped) <==> Task(t, Callback) in es {
      PhaseFromEvents(c, es, t);
    }
  }
}
