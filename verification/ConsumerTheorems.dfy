/** Properties of whole runs of the consumer protocol, for every interleaving. */
module ConsumerTheorems {
  import opened Wrappers
  import opened Messages
  import opened Broker
  import opened ConsumerProtocol
  import opened ConsumerInvariants

  // ----- where messages are

  /** The unacknowledged deliveries of a message on the live channel. */
  function LiveTags(b: Broker, m: nat): set<nat> {
    set d | d in b.unacked && Effective(b, d) && b.deliveries[d].msg == m
  }

  /** Every accepted message is in exactly one place, and no other message is anywhere. */
  lemma MessagesConserved(c: Config, es: seq<Event>, m: nat)
    requires Run(c, es).Some?
    ensures var b := Run(c, es).value.broker;
            (if m in b.ready then 1 else 0)
            + |LiveTags(b, m)|
            + (if m in b.final then 1 else 0)
            == if m in b.bodies then 1 else 0
  {
    RunInv(c, es);
    var b := Run(c, es).value.broker;
    if m in UnackedMsgs(b) {
      var d :| d in b.unacked && b.deliveries[d].msg == m;
      assert LiveTags(b, m) == {d};
    } else {
      assert LiveTags(b, m) == {};
    }
  }

  /** Deliveries = handler-failure requeues + returns from closed channels + final + unacked now. */
  lemma DeliveriesAddUp(c: Config, es: seq<Event>, m: nat)
    requires Run(c, es).Some?
    ensures var b := Run(c, es).value.broker;
            Count(b.log, Deliveries, m) == Count(b.log, Requeues, m) + Count(b.log, Returns, m)
                                           + (if m in b.final then 1 else 0)
                                           + (if m in UnackedMsgs(b) then 1 else 0)
  {
    RunInv(c, es);
    assert Balanced(Run(c, es).value.broker, m);
  }

  /** While consuming, every unacknowledged delivery is buffered or carried by its own task: none is forgotten. */
  lemma NoDeliveryForgotten(c: Config, es: seq<Event>, d: nat)
    requires Run(c, es).Some? && Run(c, es).value.loop == Consuming
    ensures var s := Run(c, es).value;
            d in s.broker.unacked <==>
              d in s.broker.deliveries && s.broker.live == Some(s.broker.deliveries[d].epoch)
              && (d in s.buffer || IsCarrying(s, d))
  {
    RunInv(c, es);
  }

  /** The event answers for task t with a final settlement. */
  predicate AnswersFinal(s: State, e: Event, t: nat) {
    || (e == Task(t, Enter) && !RouteOf(s.handlers, BodyOf(s, t)).Calls?)
    || e == Task(t, HandlerEnds(Returned))
    || e == Task(t, HandlerEnds(Interrupted))
  }

  lemma FinalStep(c: Config, s: State, e: Event)
    requires Enabled(c, s, e)
    ensures Next(c, s, e).broker.final ==
              s.broker.final + if e.Task? && AnswersFinal(s, e, e.task) && Effective(s.broker, e.task)
                               then {s.broker.deliveries[e.task].msg} else {}
  {
  }

  /** Final is forever, and only an uncancelled task on the live channel makes a message final. */
  lemma FinalOnlyByLiveAnswer(c: Config, es: seq<Event>, e: Event, m: nat)
    requires Run(c, es).Some? && Enabled(c, Run(c, es).value, e)
    ensures var s := Run(c, es).value;
            m in Next(c, s, e).broker.final <==>
              || m in s.broker.final
              || exists t :: AnswersFinal(s, e, t) && Effective(s.broker, t)
                             && s.broker.deliveries[t].msg == m && t !in s.cancelSent
  {
    RunInv(c, es);
    var s := Run(c, es).value;
    FinalStep(c, s, e);
    if s.broker.live.Some? {
      assert s.cancelSent == {};
    }
    assert forall t | AnswersFinal(s, e, t) :: e.Task? && t == e.task;
  }

  lemma SpawnStep(c: Config, s: State, e: Event)
    requires Enabled(c, s, e) && s.loop != Consuming && e != Loop(ConsumeStarted)
    ensures Next(c, s, e).loop != Consuming && Next(c, s, e).tasks.Keys == s.tasks.Keys
  {
  }

  /** Once the consume loop is left, for whatever cause, no task is spawned until it is entered again. */
  lemma {:induction false} NothingSpawnedOutsideLoop(c: Config, s: State, es: seq<Event>)
    requires s.loop != Consuming && Exec(c, s, es).Some? && Loop(ConsumeStarted) !in es
    ensures Exec(c, s, es).value.loop != Consuming && Exec(c, s, es).value.tasks.Keys == s.tasks.Keys
  {
    if es != [] {
      var p := es[..|es| - 1];
      assert es == p + [es[|es| - 1]];
      NothingSpawnedOutsideLoop(c, s, p);
      SpawnStep(c, Exec(c, s, p).value, es[|es| - 1]);
    }
  }

  /** The drain has begun, or the consumer has stopped. */
  predicate WoundDown(s: State) {
    s.loop.Draining? || s.loop.Stopped?
  }

  lemma WoundDownStep(c: Config, s: State, e: Event)
    requires WoundDown(s) && s.broker.live.None? && Enabled(c, s, e)
    ensures var s' := Next(c, s, e);
            && WoundDown(s')
            && s'.tasks.Keys == s.tasks.Keys
            && s'.broker.deliveries == s.broker.deliveries
            && s'.broker.final == s.broker.final
  {
  }

  /** From the drain on: no task is spawned, nothing is delivered on the closed channel, nothing becomes final. */
  lemma {:induction false} WoundDownForGood(c: Config, s: State, es: seq<Event>)
    requires Inv(c, s) && WoundDown(s) && Exec(c, s, es).Some?
    ensures var s' := Exec(c, s, es).value;
            && WoundDown(s')
            && s'.tasks.Keys == s.tasks.Keys
            && s'.broker.deliveries == s.broker.deliveries
            && s'.broker.final == s.broker.final
  {
    if es != [] {
      var p := es[..|es| - 1];
      WoundDownForGood(c, s, p);
      ExecInv(c, s, p);
      WoundDownStep(c, Exec(c, s, p).value, es[|es| - 1]);
    }
  }

  /**
   Tasks cancelled by the drain lose nothing: from the moment the drain begins, whatever the
   tasks do, no message becomes final and every message that is not final is back in the queue.
   */
  lemma CancellationLosesNothing(c: Config, es: seq<Event>, more: seq<Event>)
    requires Run(c, es).Some? && WoundDown(Run(c, es).value)
    requires Exec(c, Run(c, es).value, more).Some?
    ensures var s := Run(c, es).value;
            var s' := Exec(c, s, more).value;
            && s'.broker.final == s.broker.final
            && s'.broker.ready == s'.broker.bodies.Keys - s.broker.final
            && s'.tasks.Keys == s.tasks.Keys
  {
    RunInv(c, es);
    var s := Run(c, es).value;
    WoundDownForGood(c, s, more);
    ExecInv(c, s, more);
    assert UnackedMsgs(Exec(c, s, more).value.broker) == {};
  }

  // ----- the semaphore and the prefetch cap

  /** Free slots plus tasks inside the semaphore body make the cap; so handlers never exceed it. */
  lemma SlotsConserved(c: Config, es: seq<Event>)
    requires Run(c, es).Some?
    ensures FreeSlots(c, Run(c, es).value) + |Holders(Run(c, es).value)| == c.slots
    ensures |RunningTasks(Run(c, es).value)| <= c.slots
  {
    RunInv(c, es);
    SubsetSize(RunningTasks(Run(c, es).value), Holders(Run(c, es).value));
  }

  function FromChannel(s: State, ts: set<nat>, epoch: nat): set<nat> {
    set t | t in ts && t in s.broker.deliveries && s.broker.deliveries[t].epoch == epoch
  }

  lemma OneChannelBound(c: Config, s: State, ts: set<nat>, epoch: nat)
    requires QuotaInv(c, s) && c.prefetch > 0 && ts <= Carrying(s)
    ensures |FromChannel(s, ts, epoch)| <= c.prefetch
  {
    assert FromChannel(s, ts, epoch) <= OpenIn(s, epoch);
    SubsetSize(FromChannel(s, ts, epoch), OpenIn(s, epoch));
  }

  lemma AddOne(k: nat, k': nat, p: nat)
    requires k' == k + 1
    ensures k * p + p == k' * p
  {
  }

  lemma {:induction false} CarryingBound(c: Config, s: State, ts: set<nat>, epochs: set<nat>)
    requires QuotaInv(c, s) && c.prefetch > 0 && ts <= Carrying(s)
    requires forall t | t in ts :: t in s.broker.deliveries && s.broker.deliveries[t].epoch in epochs
    ensures |ts| <= |epochs| * c.prefetch
  {
    if epochs == {} {
      assert ts == {};
    } else {
      var epoch :| epoch in epochs;
      var here, others := FromChannel(s, ts, epoch), epochs - {epoch};
      CarryingBound(c, s, ts - here, others);
      OneChannelBound(c, s, ts, epoch);
      assert ts == (ts - here) + here;
      AddOne(|others|, |epochs|, c.prefetch);
    }
  }

  /** Across k channels at most k * prefetch tasks carry a message they have not answered for. */
  lemma CarryingAcrossChannels(c: Config, es: seq<Event>, epochs: set<nat>)
    requires Run(c, es).Some? && c.prefetch > 0
    requires var s := Run(c, es).value;
             forall t | t in Carrying(s) && t in s.broker.deliveries :: s.broker.deliveries[t].epoch in epochs
    ensures |Carrying(Run(c, es).value)| <= |epochs| * c.prefetch
  {
    RunInv(c, es);
    CarryingBound(c, Run(c, es).value, Carrying(Run(c, es).value), epochs);
  }

  lemma BlockedBound(c: Config, s: State, t: nat, epochs: set<nat>)
    requires SlotInv(c, s) && QuotaInv(c, s) && TrackInv(s) && c.prefetch > 0
    requires In(s, t, Waiting) && FreeSlots(c, s) == 0
    requires forall u | u in Carrying(s) && u in s.broker.deliveries :: s.broker.deliveries[u].epoch in epochs
    ensures |AnsweredHolders(s)| >= c.slots - |epochs| * c.prefetch + 1
  {
    CarryingBound(c, s, Carrying(s), epochs);
    SubsetSize(Holders(s) - AnsweredHolders(s), Carrying(s) - {t});
    assert Holders(s) == (Holders(s) - AnsweredHolders(s)) + AnsweredHolders(s);
  }

  /**
   A task blocked on a full semaphore: with carried messages from k channels, at least
   slots - k * prefetch + 1 slot holders have already answered for theirs.
   */
  lemma BlockedOnlyBehindAnswered(c: Config, es: seq<Event>, t: nat, epochs: set<nat>)
    requires Run(c, es).Some? && c.prefetch > 0
    requires In(Run(c, es).value, t, Waiting) && FreeSlots(c, Run(c, es).value) == 0
    requires var s := Run(c, es).value;
             forall u | u in Carrying(s) && u in s.broker.deliveries :: s.broker.deliveries[u].epoch in epochs
    ensures |AnsweredHolders(Run(c, es).value)| >= c.slots - |epochs| * c.prefetch + 1
  {
    RunInv(c, es);
    BlockedBound(c, Run(c, es).value, t, epochs);
  }

  /** The single-channel case: every carried message comes from one channel, live or dead. */
  lemma BlockedOnOneChannel(c: Config, es: seq<Event>, t: nat, epoch: nat)
    requires Run(c, es).Some? && 0 < c.prefetch <= c.slots
    requires In(Run(c, es).value, t, Waiting) && FreeSlots(c, Run(c, es).value) == 0
    requires var s := Run(c, es).value;
             forall u | u in Carrying(s) && u in s.broker.deliveries :: s.broker.deliveries[u].epoch == epoch
    ensures |AnsweredHolders(Run(c, es).value)| >= c.slots - c.prefetch + 1
  {
    BlockedOnlyBehindAnswered(c, es, t, {epoch});
  }

  // ----- the task tracker and the drain

  /** `_active_tasks` is exactly the spawned tasks whose done-callback has not run. */
  lemma TrackerExact(c: Config, es: seq<Event>, t: nat)
    requires Run(c, es).Some?
    ensures var s := Run(c, es).value;
            t in s.active <==> t in s.tasks && s.tasks[t] != Reaped
  {
    RunInv(c, es);
  }

  /** After a drain every task ever spawned has finished or has been sent a cancel. */
  lemma DrainCoversEveryTask(c: Config, es: seq<Event>, t: nat)
    requires Run(c, es).Some? && t in Run(c, es).value.tasks
    requires Run(c, es).value.loop.Stopped? && Run(c, es).value.loop.drained.Some?
    ensures Done(Run(c, es).value, t) || t in Run(c, es).value.cancelSent
  {
    RunInv(c, es);
  }

  /** Stopping in a back-off sleep skips the drain: it abandons exactly the unfinished tasks. */
  lemma StopAbandons(c: Config, es: seq<Event>, e: Event, t: nat)
    requires Run(c, es).Some? && Enabled(c, Run(c, es).value, e)
    requires !Run(c, es).value.loop.Stopped? && Next(c, Run(c, es).value, e).loop.Stopped?
    ensures var s := Run(c, es).value;
            var s' := Next(c, s, e);
            (t in s'.tasks && !Done(s', t) && t !in s'.cancelSent) <==>
              (s.loop == BackingOff && t in s.active && !In(s, t, Finished))
  {
    RunInv(c, es);
    InvStep(c, Run(c, es).value, e);
  }

  /** A move of a task other than being cancelled. */
  predicate CanMove(c: Config, s: State, t: nat, m: Move) {
    TaskEnabled(c, s, t, m) && m != AbortWaiting && m != AbortHolding && m != MakeSemaphore
  }

  lemma TrackedCanMove(c: Config, s: State, t: nat) returns (m: Move)
    requires TrackInv(s) && t in s.active && (In(s, t, Waiting) ==> FreeSlots(c, s) > 0)
    ensures CanMove(c, s, t, m)
  {
    match s.tasks[t]
    case Waiting => m := Acquire;
    case Holding => m := Enter;
    case Running(_) => m := HandlerEnds(Returned);
    case Answered => m := Exit;
    case Finished => m := Callback;
  }

  /** No slot leaks: while a task is tracked, some task can always move without being cancelled. */
  lemma TasksNeverStuck(c: Config, es: seq<Event>)
    requires Run(c, es).Some? && c.slots > 0 && Run(c, es).value.active != {}
    ensures exists t, m :: CanMove(c, Run(c, es).value, t, m)
  {
    RunInv(c, es);
    var s := Run(c, es).value;
    var t :| t in s.active && (Holders(s) != {} ==> t in Holders(s)) by {
      if Holders(s) != {} {
        var h :| h in Holders(s);
        assert h in s.active;
      }
    }
    var m := TrackedCanMove(c, s, t);
  }
}
