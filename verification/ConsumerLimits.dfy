/**
 What the consumer's limits do not limit: how often a failing message is requeued, how many tasks
 pile up across reconnects, and how many of them may carry the same message.
 */
module ConsumerLimits {
  import opened Wrappers
  import opened Messages
  import opened Broker
  import opened ConsumerProtocol
  import opened ConsumerInvariants
  import opened ConsumerHistories

  // ----- requeues

  /** Event e is a handler of a delivery of m failing while the nack still counts. */
  predicate FailsEffectively(s: State, e: Event, m: nat) {
    && e.Task? && e.move == HandlerEnds(RaisedException)
    && Effective(s.broker, e.task) && s.broker.deliveries[e.task].msg == m
  }

  ghost function Failures(c: Config, es: seq<Event>, m: nat): set<nat>
    requires Run(c, es).Some?
  {
    set i: nat | i < |es| && FailsEffectively(Before(c, es, i), es[i], m)
  }

  lemma WorldRequeue(c: Config, s: State, w: WorldEvent, m: nat)
    requires WorldEnabled(c, s, w)
    ensures Count(WorldNext(c, s, w).broker.log, Requeues, m) == Count(s.broker.log, Requeues, m)
  {
  }

  lemma LoopRequeue(s: State, l: LoopEvent, m: nat)
    requires LoopEnabled(s, l)
    ensures Count(LoopNext(s, l).broker.log, Requeues, m) == Count(s.broker.log, Requeues, m)
  {
  }

  lemma TaskRequeue(c: Config, s: State, t: nat, move: Move, m: nat)
    requires TaskEnabled(c, s, t, move)
    ensures Count(TaskNext(c, s, t, move).broker.log, Requeues, m) ==
              Count(s.broker.log, Requeues, m) + if FailsEffectively(s, Task(t, move), m) then 1 else 0
  {
  }

  lemma RequeueStep(c: Config, s: State, e: Event, m: nat)
    requires Enabled(c, s, e)
    ensures Count(Next(c, s, e).broker.log, Requeues, m) ==
              Count(s.broker.log, Requeues, m) + if FailsEffectively(s, e, m) then 1 else 0
  {
    match e
    case World(w) => WorldRequeue(c, s, w, m);
    case Loop(l) => LoopRequeue(s, l, m);
    case Task(t, move) => TaskRequeue(c, s, t, move, m);
  }

  lemma FailureMember(c: Config, es: seq<Event>, m: nat, i: nat)
    requires es != [] && Run(c, es).Some?
    ensures Run(c, es[..|es| - 1]).Some?
    ensures i in Failures(c, es, m) <==>
              || i in Failures(c, es[..|es| - 1], m)
              || (i == |es| - 1 && FailsEffectively(Run(c, es[..i]).value, es[i], m))
  {
    var p := es[..|es| - 1];
    if i < |p| {
      assert p[..i] == es[..i];
    }
  }

  lemma FailuresAppend(c: Config, es: seq<Event>, m: nat)
    requires es != [] && Run(c, es).Some?
    ensures Run(c, es[..|es| - 1]).Some?
    ensures var p := es[..|es| - 1];
            |Failures(c, es, m)| ==
              |Failures(c, p, m)| + if FailsEffectively(Run(c, p).value, es[|es| - 1], m) then 1 else 0
  {
    var n := |es| - 1;
    var added := if FailsEffectively(Run(c, es[..n]).value, es[n], m) then {n} else {};
    var before := Failures(c, es[..n], m);
    forall i: nat ensures i in Failures(c, es, m) <==> i in before || i in added {
      FailureMember(c, es, m, i);
    }
    assert Failures(c, es, m) == before + added;
  }

  /** A message is requeued once for every effective failure of its handlers, and there is no other limit. */
  lemma {:induction false} RequeuedPerFailure(c: Config, es: seq<Event>, m: nat)
    requires Run(c, es).Some?
    ensures Count(Run(c, es).value.broker.log, Requeues, m) == |Failures(c, es, m)|
  {
    if es == [] {
      assert Failures(c, es, m) == {};
    } else {
      var p := es[..|es| - 1];
      RequeuedPerFailure(c, p, m);
      FailuresAppend(c, es, m);
      RequeueStep(c, Run(c, p).value, es[|es| - 1], m);
    }
  }

  /** Message 0 waits in the queue, has a handler, and has been requeued n times. */
  ghost predicate ReadyAgain(c: Config, s: State, n: nat) {
    && s.loop == Consuming && s.broker.live.Some? && s.buffer == []
    && s.broker.ready == {0} && s.broker.unacked == {}
    && s.broker.bodies == map[0 := Object(Absent)] && s.handlers == map["" := 0]
    && FreeSlots(c, s) == c.slots
    && (forall t | t in s.broker.deliveries :: t < n)
    && Count(s.broker.log, Requeues, 0) == n
  }

  lemma FirstTry(c: Config) returns (s: State)
    ensures Reachable(c, s) && ReadyAgain(c, s, 0)
  {
    assert Run(c, []) == Some(START);
    s := Step(c, START, World(Publish(0, Object(Absent))));
    s := Step(c, s, World(Register("", 0)));
    s := Step(c, s, Loop(ChannelOpened));
    s := Step(c, s, Loop(ConsumeStarted));
  }

  lemma Step(c: Config, s: State, e: Event) returns (s': State)
    requires Reachable(c, s) && Enabled(c, s, e)
    ensures Reachable(c, s') && s' == Next(c, s, e)
  {
    s' := Next(c, s, e);
    ReachStep(c, s, e);
  }

  lemma Redelivered(c: Config, s: State, n: nat) returns (s': State)
    requires Reachable(c, s) && ReadyAgain(c, s, n)
    ensures Reachable(c, s')
    ensures s' == s.(broker := Push(s.broker, n, 0), tasks := s.tasks[n := Waiting], active := s.active + {n})
    ensures Count(s'.broker.log, Requeues, 0) == n
  {
    WorldRequeue(c, s, Deliver(n, 0), 0);
    s' := Step(c, s, World(Deliver(n, 0)));
    s' := Step(c, s', Loop(TaskSpawned));
  }

  lemma Entered(c: Config, s: State, n: nat) returns (s': State)
    requires Reachable(c, s) && In(s, n, Waiting) && FreeSlots(c, s) == c.slots > 0
    requires s.handlers == map["" := 0] && BodyOf(s, n) == Object(Absent)
    ensures Reachable(c, s')
    ensures s' == s.(tasks := s.tasks[n := Running(0)], semaphore := Some(c.slots - 1))
  {
    s' := Step(c, s, Task(n, Acquire));
    s' := Step(c, s', Task(n, Enter));
  }

  lemma FailOnce(c: Config, s: State, n: nat) returns (s': State)
    requires Reachable(c, s) && ReadyAgain(c, s, n) && c.slots > 0
    ensures Reachable(c, s') && ReadyAgain(c, s', n + 1)
  {
    var s0 := Redelivered(c, s, n);
    var s1 := Entered(c, s0, n);
    TaskRequeue(c, s1, n, HandlerEnds(RaisedException), 0);
    var s2 := Step(c, s1, Task(n, HandlerEnds(RaisedException)));
    assert s2.broker.ready == {0} && s2.broker.unacked == {};
    s' := Step(c, s2, Task(n, Exit));
  }

  lemma {:induction false} FailRepeatedly(c: Config, n: nat) returns (s: State)
    requires c.slots > 0
    ensures Reachable(c, s) && ReadyAgain(c, s, n)
  {
    if n == 0 {
      s := FirstTry(c);
    } else {
      s := FailRepeatedly(c, n - 1);
      s := FailOnce(c, s, n - 1);
    }
  }

  /** For every n a run requeues one message n times. */
  lemma RequeuedWithoutLimit(c: Config, n: nat)
    requires c.slots > 0
    ensures exists s :: Reachable(c, s) && Count(s.broker.log, Requeues, 0) == n
  {
    var s := FailRepeatedly(c, n);
  }

  // ----- tasks across channels

  /** Of the p messages in all, the k-th channel has pushed j; n deliveries were ever made. */
  ghost predicate PiledBroker(b: Broker, p: nat, k: nat, n: nat, j: nat) {
    && b.live.Some? && b.epochs == k && b.final == {} && |b.unacked| == j
    && (forall m: nat :: m in b.bodies <==> m < p)
    && (forall m: nat :: m in b.ready <==> j <= m < p)
    && (forall t: nat :: t in b.deliveries <==> t < n)
    && (forall t: nat :: t in b.unacked ==> t < n)
  }

  /** Every delivery has its task, and every task still waits. */
  ghost predicate Piled(s: State, p: nat, k: nat, n: nat, j: nat) {
    && s.loop == Consuming && s.buffer == []
    && s.tasks.Keys == s.broker.deliveries.Keys && |s.tasks.Keys| == n
    && (forall t | t in s.tasks :: s.tasks[t] == Waiting)
    && PiledBroker(s.broker, p, k, n, j)
  }

  predicate WithinPrefetch(c: Config, p: nat) {
    c.prefetch == 0 || p <= c.prefetch
  }

  ghost predicate CanPile(c: Config, p: nat, k: nat, n: nat, j: nat) {
    exists s :: Reachable(c, s) && Piled(s, p, k, n, j)
  }

  /** Nothing has happened but that the first p messages were accepted. */
  ghost predicate Stocked(s: State, p: nat) {
    && s.loop == Connecting && s.buffer == [] && s.tasks == map[]
    && s.broker.final == {} && s.broker.deliveries == map[] && s.broker.unacked == {}
    && s.broker.live.None? && s.broker.epochs == 0
    && (forall m: nat :: m in s.broker.bodies <==> m < p)
    && (forall m: nat :: m in s.broker.ready <==> m < p)
  }

  ghost predicate CanStock(c: Config, p: nat) {
    exists s :: Reachable(c, s) && Stocked(s, p)
  }

  lemma StockOne(c: Config, p: nat)
    requires CanStock(c, p)
    ensures CanStock(c, p + 1)
  {
    var s :| Reachable(c, s) && Stocked(s, p);
    var s' := Step(c, s, World(Publish(p, Undecodable)));
    assert Stocked(s', p + 1);
  }

  lemma {:induction false} Stock(c: Config, p: nat)
    ensures CanStock(c, p)
  {
    if p == 0 {
      assert Run(c, []) == Some(START);
      assert Stocked(START, 0);
    } else {
      Stock(c, p - 1);
      StockOne(c, p - 1);
    }
  }

  lemma PushOne(b: Broker, p: nat, k: nat, n: nat, j: nat)
    requires PiledBroker(b, p, k, n, j) && j < p
    ensures PiledBroker(Push(b, n, j), p, k, n + 1, j + 1)
  {
    assert n !in b.unacked;
  }

  lemma PileOne(c: Config, p: nat, k: nat, n: nat, j: nat)
    requires WithinPrefetch(c, p) && CanPile(c, p, k, n, j) && j < p
    ensures CanPile(c, p, k, n + 1, j + 1)
  {
    var s :| Reachable(c, s) && Piled(s, p, k, n, j);
    PushOne(s.broker, p, k, n, j);
    var s1 := Step(c, s, World(Deliver(n, j)));
    var s2 := Step(c, s1, Loop(TaskSpawned));
    assert s2.broker == Push(s.broker, n, j) && s2.tasks == s.tasks[n := Waiting];
    assert s2.tasks.Keys == s.tasks.Keys + {n};
    assert Piled(s2, p, k, n + 1, j + 1);
  }

  lemma {:induction false} PileMany(c: Config, p: nat, k: nat, n: nat, j: nat)
    requires WithinPrefetch(c, p) && CanPile(c, p, k, n, 0) && j <= p
    ensures CanPile(c, p, k, n + j, j)
  {
    if j > 0 {
      PileMany(c, p, k, n, j - 1);
      PileOne(c, p, k, n + (j - 1), j - 1);
    }
  }

  /** Losing the connection puts everything back into the queue; the tasks are not touched. */
  lemma Lose(c: Config, s: State) returns (s': State)
    requires Reachable(c, s) && s.loop == Consuming && s.broker.live.Some? && s.broker.final == {}
    ensures Reachable(c, s') && s'.loop == Connecting && s'.buffer == [] && s'.tasks == s.tasks
    ensures s'.broker == CloseChannel(s.broker) && s'.broker.ready == s.broker.bodies.Keys
  {
    s' := Step(c, s, Loop(LoopRaised(ConnectionError)));
    s' := Step(c, s', Loop(ScopeClosed));
    ReachInv(c, s');
    assert UnackedMsgs(s'.broker) == {};
    s' := Step(c, s', Loop(BackOffElapsed));
  }

  lemma Reopen(c: Config, s: State) returns (s': State)
    requires Reachable(c, s) && s.loop == Connecting
    ensures Reachable(c, s')
    ensures s' == s.(broker := OpenChannel(s.broker), channels := s.channels + 1, loop := Consuming)
  {
    s' := Step(c, s, Loop(ChannelOpened));
    s' := Step(c, s', Loop(ConsumeStarted));
  }

  lemma Reconnect(c: Config, p: nat, k: nat, n: nat, j: nat)
    requires CanPile(c, p, k, n, j)
    ensures CanPile(c, p, k + 1, n, 0)
  {
    var s :| Reachable(c, s) && Piled(s, p, k, n, j);
    var s1 := Lose(c, s);
    var s2 := Reopen(c, s1);
    assert Piled(s2, p, k + 1, n, 0);
  }

  lemma FirstChannel(c: Config, p: nat)
    ensures CanPile(c, p, 1, 0, 0)
  {
    Stock(c, p);
    var s :| Reachable(c, s) && Stocked(s, p);
    var s1 := Reopen(c, s);
    assert Piled(s1, p, 1, 0, 0);
  }

  lemma {:induction false} PileAcross(c: Config, p: nat, k: nat, n: nat)
    requires WithinPrefetch(c, p) && k > 0 && n == k * p
    ensures CanPile(c, p, k, n, p)
  {
    if k == 1 {
      FirstChannel(c, p);
      PileMany(c, p, 1, 0, p);
    } else {
      var before := (k - 1) * p;
      assert before + p == n;
      PileAcross(c, p, k - 1, before);
      Reconnect(c, p, k - 1, before, p);
      PileMany(c, p, k, before, p);
    }
  }

  /** k channels and p unanswered tasks from each: reached for every k, and for every p that the prefetch allows. */
  lemma PileReached(c: Config, p: nat, k: nat)
    requires WithinPrefetch(c, p) && k > 0
    ensures exists s :: Reachable(c, s) && s.broker.epochs == k && |s.broker.unacked| == p && |Carrying(s)| == k * p
  {
    PileAcross(c, p, k, k * p);
    var s :| Reachable(c, s) && Piled(s, p, k, k * p, p);
    assert Carrying(s) == s.tasks.Keys;
  }

  /**
   The bound of k * prefetch unanswered tasks over k channels is reached for every k: neither limit
   bounds the tasks in memory across reconnects, whatever the number of slots.
   */
  lemma TasksPileUpAcrossChannels(c: Config, k: nat)
    requires k > 0
    ensures exists s :: Reachable(c, s) && s.broker.epochs == k && |Carrying(s)| == k * c.prefetch
  {
    PileReached(c, c.prefetch, k);
  }

  /** A prefetch of zero limits nothing: one channel can have any number of unacknowledged deliveries. */
  lemma NoPrefetchNoLimit(c: Config, n: nat)
    requires c.prefetch == 0
    ensures exists s :: Reachable(c, s) && s.broker.epochs == 1 && |s.broker.unacked| == n
  {
    PileReached(c, n, 1);
  }

  // ----- one message, several tasks

  /** The unanswered tasks of a message, and the channels they came from. */
  function CarriersOf(s: State, m: nat): set<nat> {
    set t | t in s.tasks && IsCarrying(s, t) && t in s.broker.deliveries && s.broker.deliveries[t].msg == m
  }

  function ChannelsOf(s: State, ts: set<nat>): set<nat> {
    set t | t in ts && t in s.broker.deliveries :: s.broker.deliveries[t].epoch
  }

  lemma {:induction false} OnePerChannel(s: State, m: nat, ts: set<nat>)
    requires SingleInv(s) && ts <= CarriersOf(s, m)
    ensures |ts| == |ChannelsOf(s, ts)|
  {
    if ts == {} {
      assert ChannelsOf(s, ts) == {};
    } else {
      var t :| t in ts;
      var epoch := s.broker.deliveries[t].epoch;
      OnePerChannel(s, m, ts - {t});
      forall u | u in ts - {t} ensures s.broker.deliveries[u].epoch != epoch {
        assert Open(s, u) && Open(s, t);
      }
      assert epoch in ChannelsOf(s, ts) && epoch !in ChannelsOf(s, ts - {t});
      forall x | x in ChannelsOf(s, ts) && x != epoch ensures x in ChannelsOf(s, ts - {t}) {
        var u :| u in ts && s.broker.deliveries[u].epoch == x;
        assert u in ts - {t};
      }
      assert ChannelsOf(s, ts) == ChannelsOf(s, ts - {t}) + {epoch};
    }
  }

  /**
   The unanswered tasks of one message come from as many different channels as there are tasks: on
   one channel a message has one at most, and its handlers run at once at most once per channel.
   */
  lemma OneTaskPerMessageAndChannel(c: Config, es: seq<Event>, m: nat)
    requires Run(c, es).Some?
    ensures var s := Run(c, es).value;
            && |CarriersOf(s, m)| == |ChannelsOf(s, CarriersOf(s, m))|
            && |CarriersOf(s, m) * RunningTasks(s)| <= |ChannelsOf(s, CarriersOf(s, m))|
  {
    RunInv(c, es);
    var s := Run(c, es).value;
    OnePerChannel(s, m, CarriersOf(s, m));
    SubsetSize(CarriersOf(s, m) * RunningTasks(s), CarriersOf(s, m));
  }
}
