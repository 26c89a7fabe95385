/**
 What a run's list of events says about one task: how often it was granted a slot, entered the
 body, gave its slot back; which of its answers reached the broker; which handler it ran.
 */
module ConsumerHistories {
  import opened Wrappers
  import opened Messages
  import opened Broker
  import opened ConsumerProtocol
  import opened ConsumerInvariants
  import opened ConsumerTheorems

  // ----- every stage of a task happens at most once

  datatype Mark = Grant | Entry | GiveBack | Reap

  predicate Marks(e: Event, mark: Mark, t: nat) {
    && e.Task? && e.task == t
    && match mark
       case Grant => e.move == Acquire
       case Entry => e.move == Enter
       case GiveBack => GivesBack(e.move)
       case Reap => e.move == Callback
  }

  function Times(es: seq<Event>, mark: Mark, t: nat): nat {
    if es == [] then 0
    else Times(es[..|es| - 1], mark, t) + if Marks(es[|es| - 1], mark, t) then 1 else 0
  }

  /** How far a task has come, in terms of what has happened to it. */
  ghost predicate Progress(s: State, t: nat, grants: nat, entries: nat, backs: nat, callbacks: nat) {
    && grants == backs + (if IsHolder(s, t) then 1 else 0)
    && grants <= 1
    && entries <= grants
    && callbacks == (if In(s, t, Reaped) then 1 else 0)
    && (t !in s.tasks || In(s, t, Waiting) ==> grants == 0)
    && (In(s, t, Holding) ==> entries == 0)
  }

  lemma ProgressStep(c: Config, s: State, e: Event, t: nat, grants: nat, entries: nat, backs: nat, callbacks: nat)
    requires TrackInv(s) && Enabled(c, s, e) && Progress(s, t, grants, entries, backs, callbacks)
    ensures Progress(Next(c, s, e), t,
                     grants + (if Marks(e, Grant, t) then 1 else 0), entries + (if Marks(e, Entry, t) then 1 else 0),
                     backs + (if Marks(e, GiveBack, t) then 1 else 0), callbacks + if Marks(e, Reap, t) then 1 else 0)
  {
  }

  /**
   In any run a task takes at most one slot, gives back exactly the slot it took (none if it was
   cancelled while waiting), enters the body at most once and is reaped at most once.
   */
  lemma {:induction false} EachStageOnce(c: Config, es: seq<Event>, t: nat)
    requires Run(c, es).Some?
    ensures Progress(Run(c, es).value, t, Times(es, Grant, t), Times(es, Entry, t), Times(es, GiveBack, t),
                     Times(es, Reap, t))
  {
    if es != [] {
      var p := es[..|es| - 1];
      EachStageOnce(c, p, t);
      RunInv(c, p);
      ProgressStep(c, Run(c, p).value, es[|es| - 1], t,
                   Times(p, Grant, t), Times(p, Entry, t), Times(p, GiveBack, t), Times(p, Reap, t));
    }
  }

  // ----- which answers reach the broker

  ghost function Before(c: Config, es: seq<Event>, i: nat): State
    requires i <= |es| && Run(c, es).Some?
  {
    PrefixRuns(c, START, es, i);
    Run(c, es[..i]).value
  }

  predicate AnswersAs(s: State, e: Event, t: nat, how: Settlement) {
    if how == Requeue then e == Task(t, HandlerEnds(RaisedException)) else AnswersFinal(s, e, t)
  }

  /** Event i of the run answers for task t in the given way, while the answer can still count. */
  ghost predicate AnsweredAt(c: Config, es: seq<Event>, t: nat, how: Settlement, i: nat)
    requires Run(c, es).Some?
  {
    && i < |es|
    && AnswersAs(Before(c, es, i), es[i], t, how)
    && Effective(Before(c, es, i).broker, t)
  }

  lemma TaskSettlement(c: Config, s: State, u: nat, m: Move, t: nat, how: Settlement)
    requires TaskEnabled(c, s, u, m)
    ensures Settlements(TaskNext(c, s, u, m).broker.log, t, how) ==
              Settlements(s.broker.log, t, how)
              + if AnswersAs(s, Task(u, m), t, how) && Effective(s.broker, t) then 1 else 0
  {
  }

  lemma WorldSettlement(c: Config, s: State, w: WorldEvent, t: nat, how: Settlement)
    requires WorldEnabled(c, s, w)
    ensures Settlements(WorldNext(c, s, w).broker.log, t, how) == Settlements(s.broker.log, t, how)
  {
  }

  lemma LoopSettlement(s: State, l: LoopEvent, t: nat, how: Settlement)
    requires LoopEnabled(s, l)
    ensures Settlements(LoopNext(s, l).broker.log, t, how) == Settlements(s.broker.log, t, how)
  {
  }

  lemma SettlementStep(c: Config, s: State, e: Event, t: nat, how: Settlement)
    requires Enabled(c, s, e)
    ensures Settlements(Next(c, s, e).broker.log, t, how) ==
              Settlements(s.broker.log, t, how)
              + if AnswersAs(s, e, t, how) && Effective(s.broker, t) then 1 else 0
  {
    match e
    case World(w) => WorldSettlement(c, s, w, t, how);
    case Loop(l) => LoopSettlement(s, l, t, how);
    case Task(u, m) => TaskSettlement(c, s, u, m, t, how);
  }

  lemma OneSettlementInRun(c: Config, es: seq<Event>, t: nat)
    requires Run(c, es).Some?
    ensures SettledOnce(Run(c, es).value.broker, t)
  {
    RunInv(c, es);
  }

  lemma AnsweredAtPrefix(c: Config, es: seq<Event>, t: nat, how: Settlement, i: nat)
    requires Run(c, es).Some? && es != [] && i < |es| - 1
    ensures Run(c, es[..|es| - 1]).Some?
    ensures AnsweredAt(c, es, t, how, i) <==> AnsweredAt(c, es[..|es| - 1], t, how, i)
  {
    assert es[..|es| - 1][..i] == es[..i];
  }

  /**
   A delivery is settled as a requeue iff, while it was unacknowledged on the live channel, its
   handler raised an ordinary exception; it is settled as final iff it then ended in any other way.
   Either happens at most once.
   */
  lemma {:induction false} SettledAsAnswered(c: Config, es: seq<Event>, t: nat, how: Settlement)
    requires Run(c, es).Some?
    ensures Settlements(Run(c, es).value.broker.log, t, how) ==
              if exists i: nat :: AnsweredAt(c, es, t, how, i) then 1 else 0
  {
    if es != [] {
      var n := |es| - 1;
      var p := es[..n];
      var s := Run(c, p).value;
      SettledAsAnswered(c, p, t, how);
      SettlementStep(c, s, es[n], t, how);
      OneSettlementInRun(c, p, t);
      assert Before(c, es, n) == s;
      forall i: nat | i < n ensures AnsweredAt(c, es, t, how, i) <==> AnsweredAt(c, p, t, how, i) {
        AnsweredAtPrefix(c, es, t, how, i);
      }
      if AnsweredAt(c, es, t, how, n) {
        assert Settlements(s.broker.log, t, how) == 0;
      } else if i: nat :| AnsweredAt(c, p, t, how, i) {
        assert AnsweredAt(c, es, t, how, i);
      }
    }
  }

  /** On the live channel a delivery has had exactly one settlement iff its task has answered. */
  lemma OneSettlementPerAnswer(c: Config, es: seq<Event>, t: nat)
    requires Run(c, es).Some? && t in Run(c, es).value.broker.deliveries
    requires var b := Run(c, es).value.broker; b.live == Some(b.deliveries[t].epoch)
    ensures var s := Run(c, es).value;
            Settlements(s.broker.log, t, Final) + Settlements(s.broker.log, t, Requeue) == if Open(s, t) then 0 else 1
  {
    OneSettlementInRun(c, es, t);
    RunInv(c, es);
  }

  // ----- which handler runs

  function RegistrationsIn(es: seq<Event>): seq<Registration> {
    if es == [] then []
    else
      var e := es[|es| - 1];
      RegistrationsIn(es[..|es| - 1])
      + if e.World? && e.w.Register? then [Registration(e.w.key, e.w.handler)] else []
  }

  lemma HandlersStep(c: Config, s: State, e: Event)
    requires Enabled(c, s, e)
    ensures Next(c, s, e).handlers ==
              if e.World? && e.w.Register? then s.handlers[e.w.key := e.w.handler] else s.handlers
  {
  }

  lemma {:induction false} HandlersFromHistory(c: Config, es: seq<Event>)
    requires Run(c, es).Some?
    ensures Run(c, es).value.handlers == RegistryAfter(RegistrationsIn(es))
  {
    if es != [] {
      var p := es[..|es| - 1];
      HandlersFromHistory(c, p);
      HandlersStep(c, Run(c, p).value, es[|es| - 1]);
      var rs := RegistrationsIn(es);
      if es[|es| - 1].World? && es[|es| - 1].w.Register? {
        assert rs[..|rs| - 1] == RegistrationsIn(p);
      } else {
        assert rs == RegistrationsIn(p);
      }
    }
  }

  lemma BrokerFromStep(c: Config, s: State, e: Event)
    requires Enabled(c, s, e)
    ensures Next(c, s, e).broker.bodies ==
              if e.World? && e.w.Publish? then s.broker.bodies[e.w.msg := e.w.body] else s.broker.bodies
    ensures Next(c, s, e).broker.deliveries.Keys ==
              s.broker.deliveries.Keys + if e.World? && e.w.Deliver? then {e.w.tag} else {}
    ensures forall t | t in Next(c, s, e).broker.deliveries ::
              if e.World? && e.w.Deliver? && t == e.w.tag then Next(c, s, e).broker.deliveries[t].msg == e.w.msg
              else Next(c, s, e).broker.deliveries[t] == s.broker.deliveries[t]
  {
  }

  /** Messages keep the body they were published with, and deliveries the message they were made of. */
  lemma {:induction false} BrokerFromHistory(c: Config, es: seq<Event>)
    requires Run(c, es).Some?
    ensures var b := Run(c, es).value.broker;
            && (forall m, body :: World(Publish(m, body)) in es <==> m in b.bodies && b.bodies[m] == body)
            && (forall t, m :: World(Deliver(t, m)) in es <==> t in b.deliveries && b.deliveries[t].msg == m)
  {
    if es != [] {
      var p, e := es[..|es| - 1], es[|es| - 1];
      BrokerFromHistory(c, p);
      BrokerFromStep(c, Run(c, p).value, e);
      assert es == p + [e];
      assert forall x :: x in es <==> x in p || x == e;
    }
  }

  /** The handler last registered for the key of a body, in a list of registrations. */
  ghost predicate RegisteredLast(rs: seq<Registration>, body: Body, h: Handler) {
    KeyOf(body).Some? && exists i: nat :: LastFor(rs, KeyOf(body).value, i) && rs[i].handler == h
  }

  lemma BodyIsPublished(c: Config, es: seq<Event>, t: nat)
    requires Run(c, es).Some? && t in Run(c, es).value.tasks
    ensures exists m :: World(Deliver(t, m)) in es && World(Publish(m, BodyOf(Run(c, es).value, t))) in es
  {
    RunInv(c, es);
    BrokerFromHistory(c, es);
    var m := Run(c, es).value.broker.deliveries[t].msg;
    assert World(Deliver(t, m)) in es;
  }

  /**
   A delivery that enters the body runs the handler last registered for its event type before that
   moment; with no such handler, or no event type at all, it is answered for on the spot.
   */
  lemma RunsLastRegistered(c: Config, es: seq<Event>, t: nat)
    requires Run(c, es).Some? && In(Run(c, es).value, t, Holding)
    ensures exists m :: World(Deliver(t, m)) in es && World(Publish(m, BodyOf(Run(c, es).value, t))) in es
    ensures var s := Run(c, es).value;
            var s' := Next(c, s, Task(t, Enter));
            && (forall h :: In(s', t, Running(h)) <==> RegisteredLast(RegistrationsIn(es), BodyOf(s, t), h))
            && ((forall h :: !RegisteredLast(RegistrationsIn(es), BodyOf(s, t), h)) ==> In(s', t, Answered))
  {
    HandlersFromHistory(c, es);
    BodyIsPublished(c, es, t);
    var rs := RegistrationsIn(es);
    var s := Run(c, es).value;
    var body := BodyOf(s, t);
    if KeyOf(body).Some? {
      var key := KeyOf(body).value;
      LastRegistrationWins(rs, key);
      forall i: nat, j: nat | LastFor(rs, key, i) && LastFor(rs, key, j) ensures i == j {
      }
      if key in s.handlers {
        assert RegisteredLast(rs, body, s.handlers[key]);
      }
    }
  }

  // ----- reconnects

  /** The loop pauses here before it connects again, or starts over because its message stream ended. */
  ghost predicate PausesAt(c: Config, es: seq<Event>, k: nat)
    requires Run(c, es).Some?
  {
    && k < |es|
    && (es[k] == Loop(BackOffElapsed) || (es[k] == Loop(ScopeClosed) && Before(c, es, k).loop == Leaving(Exhausted)))
  }

  lemma BeforeNext(c: Config, es: seq<Event>, k: nat)
    requires k < |es| && Run(c, es).Some?
    ensures Enabled(c, Before(c, es, k), es[k]) && Before(c, es, k + 1) == Next(c, Before(c, es, k), es[k])
  {
    PrefixRuns(c, START, es, k + 1);
    assert es[..k + 1][..k] == es[..k];
  }

  lemma ConnectingStep(c: Config, s: State, e: Event)
    requires Enabled(c, s, e) && s.loop != Connecting && Next(c, s, e).loop == Connecting
    ensures e == Loop(BackOffElapsed) || (e == Loop(ScopeClosed) && s.loop == Leaving(Exhausted))
  {
  }

  lemma {:induction false} PauseBefore(c: Config, es: seq<Event>, i: nat, j: nat) returns (k: nat)
    requires i < j <= |es| && Run(c, es).Some?
    requires Before(c, es, i).loop != Connecting && Before(c, es, j).loop == Connecting
    ensures i <= k < j && PausesAt(c, es, k)
    decreases j - i
  {
    BeforeNext(c, es, j - 1);
    if Before(c, es, j - 1).loop == Connecting {
      k := PauseBefore(c, es, i, j - 1);
    } else {
      k := j - 1;
      ConnectingStep(c, Before(c, es, k), es[k]);
    }
  }

  /**
   Between two connects of a run lies a completed back-off, or the end of the message stream: neither
   an error nor a lost cancellation makes the consumer reconnect at once.
   */
  lemma ReconnectsOnlyAfterPause(c: Config, es: seq<Event>, i: nat, j: nat)
    requires Run(c, es).Some? && i < j < |es| && es[i] == es[j] == Loop(ChannelOpened)
    ensures exists k: nat :: i < k < j && PausesAt(c, es, k)
  {
    BeforeNext(c, es, i);
    BeforeNext(c, es, j);
    var k := PauseBefore(c, es, i + 1, j);
  }

  // ----- cancellations, kept and lost

  /** A cancellation is on its way to the drain, or has got there, or has ended a back-off. */
  predicate Cancelled(s: State) {
    s.loop == Leaving(Cancellation) || WoundDown(s)
  }

  predicate Cancels(e: Event) {
    e == Loop(LoopRaised(Cancellation)) || e == Loop(BackOffCancelled)
  }

  /** An error raised while the connection scope unwinds a cancellation. */
  predicate Overtakes(s: State, e: Event) {
    s.loop == Leaving(Cancellation) && e.Loop? && e.l.LoopRaised? && e.l.cause != Cancellation
  }

  ghost predicate OvertakenAt(c: Config, es: seq<Event>, j: nat)
    requires Run(c, es).Some?
  {
    j < |es| && Overtakes(Before(c, es, j), es[j])
  }

  /** Event i cancels the consumer, and no error overtakes a cancellation after it. */
  ghost predicate CancelledForGoodAt(c: Config, es: seq<Event>, i: nat)
    requires Run(c, es).Some?
  {
    i < |es| && Cancels(es[i]) && forall j: nat | i < j < |es| :: !OvertakenAt(c, es, j)
  }

  lemma CancelledStep(c: Config, s: State, e: Event)
    requires Enabled(c, s, e)
    ensures Cancelled(Next(c, s, e)) <==> Cancels(e) || (Cancelled(s) && !Overtakes(s, e))
  {
  }

  lemma OvertakenPrefix(c: Config, es: seq<Event>, j: nat)
    requires Run(c, es).Some? && es != [] && j < |es| - 1
    ensures Run(c, es[..|es| - 1]).Some?
    ensures OvertakenAt(c, es, j) <==> OvertakenAt(c, es[..|es| - 1], j)
  {
    assert es[..|es| - 1][..j] == es[..j];
  }

  /** The consumer is winding down or has stopped iff it was cancelled and no error overtook that since. */
  lemma {:induction false} WindsDownIffCancelled(c: Config, es: seq<Event>)
    requires Run(c, es).Some?
    ensures Cancelled(Run(c, es).value) <==> exists i: nat :: CancelledForGoodAt(c, es, i)
  {
    if es != [] {
      var n := |es| - 1;
      var p := es[..n];
      WindsDownIffCancelled(c, p);
      CancelledStep(c, Run(c, p).value, es[n]);
      assert Before(c, es, n) == Run(c, p).value;
      forall j: nat | j < n ensures OvertakenAt(c, es, j) <==> OvertakenAt(c, p, j) {
        OvertakenPrefix(c, es, j);
      }
      assert Cancels(es[n]) ==> CancelledForGoodAt(c, es, n);
      forall i: nat | i < n
        ensures CancelledForGoodAt(c, es, i) <==> CancelledForGoodAt(c, p, i) && !OvertakenAt(c, es, n)
      {
      }
    }
  }

  /**
   A cancellation that is not repeated is lost, the consumer going on as if it had not been made, iff
   an error is raised while the connection scope is still unwinding it.
   */
  lemma CancellationLostIff(c: Config, es: seq<Event>, i: nat)
    requires Run(c, es).Some? && i < |es| && Cancels(es[i])
    requires forall j: nat | i < j < |es| :: !Cancels(es[j])
    ensures !Cancelled(Run(c, es).value) <==> exists j: nat :: i < j && OvertakenAt(c, es, j)
  {
    WindsDownIffCancelled(c, es);
    assert forall k: nat | CancelledForGoodAt(c, es, k) :: k <= i;
    assert !CancelledForGoodAt(c, es, i) <==> exists j: nat :: i < j && OvertakenAt(c, es, j);
  }

  // ----- a run that abandons a task

  /** One message delivered and its task spawned. */
  lemma OneTaskSpawned(c: Config) returns (es: seq<Event>, s: State)
    ensures Run(c, es) == Some(s)
    ensures s.loop == Consuming && s.tasks == map[0 := Waiting] && s.cancelSent == {}
    ensures s.broker.bodies.Keys == s.broker.deliveries.Keys == {0} && s.broker.live.Some?
  {
    es, s := Extend(c, [], START, World(Publish(0, Undecodable)));
    es, s := Extend(c, es, s, Loop(ChannelOpened));
    es, s := Extend(c, es, s, Loop(ConsumeStarted));
    assert s.broker.unacked == {};
    es, s := Extend(c, es, s, World(Deliver(0, 0)));
    es, s := Extend(c, es, s, Loop(TaskSpawned));
  }

  /** Cancelling a back-off sleep stops the consumer with a live, uncancelled task behind it. */
  lemma BackOffCancelAbandonsTask(c: Config)
    ensures exists es :: Run(c, es).Some? && Run(c, es).value.loop == Stopped(None)
                         && In(Run(c, es).value, 0, Waiting) && Run(c, es).value.cancelSent == {}
  {
    var es, s := OneTaskSpawned(c);
    es, s := Extend(c, es, s, Loop(LoopRaised(ConnectionError)));
    es, s := Extend(c, es, s, Loop(ScopeClosed));
    es, s := Extend(c, es, s, Loop(BackOffCancelled));
    assert In(s, 0, Waiting);
  }

  lemma CancellationOvertaken(c: Config) returns (es: seq<Event>, s: State)
    ensures Run(c, es) == Some(s) && Loop(LoopRaised(Cancellation)) in es
    ensures s.loop == Connecting && s.buffer == [] && s.tasks.Keys == {0}
    ensures s.broker.bodies.Keys == s.broker.deliveries.Keys == {0} && s.broker.unacked == {}
  {
    es, s := OneTaskSpawned(c);
    es, s := Extend(c, es, s, Loop(LoopRaised(Cancellation)));
    assert es[|es| - 1] == Loop(LoopRaised(Cancellation));
    es, s := Extend(c, es, s, Loop(LoopRaised(OtherError)));
    es, s := Extend(c, es, s, Loop(ScopeClosed));
    es, s := Extend(c, es, s, Loop(BackOffElapsed));
  }

  /** A cancelled consumer that an unwinding error turns back: it reconnects, consumes and spawns again. */
  lemma CancellationCanBeLost(c: Config)
    ensures exists es :: Run(c, es).Some? && Loop(LoopRaised(Cancellation)) in es
                         && Run(c, es).value.loop == Consuming && In(Run(c, es).value, 1, Waiting)
  {
    var es, s := CancellationOvertaken(c);
    es, s := Extend(c, es, s, World(Publish(1, Undecodable)));
    es, s := Extend(c, es, s, Loop(ChannelOpened));
    es, s := Extend(c, es, s, Loop(ConsumeStarted));
    es, s := Extend(c, es, s, World(Deliver(1, 1)));
    es, s := Extend(c, es, s, Loop(TaskSpawned));
    assert In(s, 1, Waiting);
  }
}
