/**
 The consumer and the health checker side by side: which of the consumer's sections touch the
 shared reference and the status, and what then holds of both.
 */
module ConsumerHealth {
  import opened Wrappers
  import CP = ConsumerProtocol
  import SC = SharedChannel
  import H = Health

  datatype Joint = Joint(consumer: CP.State, checker: SC.World)

  datatype Event =
    | Consumer(e: CP.Event)
    | ProbeStarted(isClosed: bool)
    | ProbeFinished(finding: SC.Finding, now: int)

  /** What a section of the consumer does to the health module, if anything. */
  function Signal(s: CP.State, e: CP.Event): (signal: Option<SC.Event>)
    ensures signal.Some? ==> signal.value in {SC.ChannelRegistered, SC.ReferenceCleared, SC.ChannelErrorCaught}
  {
    match e
    case Loop(ChannelOpened) => Some(SC.ChannelRegistered)
    case Loop(ScopeClosed) =>
      if !s.loop.Leaving? || s.loop.cause == CP.Exhausted then None
      else if s.loop.cause == CP.ChannelError then Some(SC.ChannelErrorCaught)
      else Some(SC.ReferenceCleared)
    case _ => None
  }

  predicate Enabled(c: CP.Config, j: Joint, e: Event) {
    match e
    case Consumer(ce) => CP.Enabled(c, j.consumer, ce)
    case ProbeStarted(isClosed) => SC.Enabled(j.checker, SC.ProbeStarted(isClosed))
    case ProbeFinished(f, now) => SC.Enabled(j.checker, SC.ProbeFinished(f, now))
  }

  function Next(c: CP.Config, j: Joint, e: Event): Joint
    requires Enabled(c, j, e)
  {
    match e
    case Consumer(ce) =>
      var signal := Signal(j.consumer, ce);
      Joint(CP.Next(c, j.consumer, ce),
            if signal.Some? then SC.Next(j.checker, signal.value) else j.checker)
    case ProbeStarted(isClosed) => j.(checker := SC.Next(j.checker, SC.ProbeStarted(isClosed)))
    case ProbeFinished(f, now) => j.(checker := SC.Next(j.checker, SC.ProbeFinished(f, now)))
  }

  function Run(c: CP.Config, es: seq<Event>): Option<Joint> {
    if es == [] then Some(Joint(CP.START, SC.START))
    else
      match Run(c, es[..|es| - 1])
      case None => None
      case Some(j) => if Enabled(c, j, es[|es| - 1]) then Some(Next(c, j, es[|es| - 1])) else None
  }

  ghost predicate CheckerReachable(w: SC.World) {
    exists es :: SC.Run(es) == Some(w)
  }

  lemma CheckerStep(w: SC.World, e: SC.Event)
    requires CheckerReachable(w) && SC.Enabled(w, e)
    ensures CheckerReachable(SC.Next(w, e))
  {
    var es :| SC.Run(es) == Some(w);
    assert (es + [e])[..|es|] == es;
    assert SC.Run(es + [e]) == Some(SC.Next(w, e));
  }

  /** The loop phases in which the consumer has given up its channel. */
  predicate GaveUp(s: CP.State) {
    s.loop == CP.BackingOff || s.loop.Draining? || s.loop.Stopped?
  }

  ghost predicate Agree(j: Joint) {
    && j.checker.registered == j.consumer.channels
    && (j.checker.shared.Some? ==> j.checker.shared.value == j.consumer.channels)
    && (GaveUp(j.consumer) ==> j.checker.shared.None?)
  }

  lemma AgreeStep(c: CP.Config, j: Joint, e: Event)
    requires Agree(j) && Enabled(c, j, e)
    ensures Agree(Next(c, j, e))
  {
  }

  /**
   Both components run as they would alone, the reference names the consumer's newest channel or
   nothing, and while the consumer backs off, drains or has stopped it names nothing, whatever
   probes are under way.
   */
  lemma {:induction false} JointRun(c: CP.Config, es: seq<Event>)
    requires Run(c, es).Some?
    ensures CP.Reachable(c, Run(c, es).value.consumer)
    ensures CheckerReachable(Run(c, es).value.checker)
    ensures Agree(Run(c, es).value)
  {
    if es == [] {
      assert CP.Run(c, []) == Some(CP.START);
      assert SC.Run([]) == Some(SC.START);
    } else {
      var p, e := es[..|es| - 1], es[|es| - 1];
      JointRun(c, p);
      var j := Run(c, p).value;
      AgreeStep(c, j, e);
      match e
      case Consumer(ce) =>
        CP.ReachStep(c, j.consumer, ce);
        var signal := Signal(j.consumer, ce);
        if signal.Some? {
          CheckerStep(j.checker, signal.value);
        }
      case ProbeStarted(isClosed) => CheckerStep(j.checker, SC.ProbeStarted(isClosed));
      case ProbeFinished(f, now) => CheckerStep(j.checker, SC.ProbeFinished(f, now));
    }
  }

  // ----- what the consumer's sections do to the health module

  /** The handler of a channel error begins: the scope has closed on one. */
  predicate CatchesChannelError(s: CP.State, e: CP.Event) {
    e == CP.Loop(CP.ScopeClosed) && s.loop == CP.Leaving(CP.ChannelError)
  }

  /** Any of the four handlers begins: the scope has closed on an exception. */
  predicate CatchesSomething(s: CP.State, e: CP.Event) {
    e == CP.Loop(CP.ScopeClosed) && s.loop.Leaving? && s.loop.cause != CP.Exhausted
  }

  /**
   A consumer event writes the status iff it catches a channel error; it then writes DEGRADED and no
   other health field, and the history records that once.
   */
  lemma ConsumerFlags(c: CP.Config, es: seq<Event>, e: CP.Event)
    requires Run(c, es).Some? && CP.Enabled(c, Run(c, es).value.consumer, e)
    ensures var j := Run(c, es).value;
            var w, w' := j.checker, Next(c, j, Consumer(e)).checker;
            && (w'.history != w.history <==> CatchesChannelError(j.consumer, e))
            && (CatchesChannelError(j.consumer, e) ==>
                  w'.history == w.history + [H.ConsumerDegraded] && w'.health.status == H.Degraded)
            && (!CatchesChannelError(j.consumer, e) ==> w'.health == w.health)
            && w'.health == w.health.(status := w'.health.status)
            && w'.probe == w.probe
  {
    var h := Run(c, es).value.checker.history;
    assert |h + [H.ConsumerDegraded]| == |h| + 1;
  }

  /**
   A consumer event sets the reference iff it opens a channel, and clears it iff it catches any
   exception; it leaves it alone otherwise, also when the message stream just ends.
   */
  lemma ConsumerRefers(c: CP.Config, es: seq<Event>, e: CP.Event)
    requires Run(c, es).Some? && CP.Enabled(c, Run(c, es).value.consumer, e)
    ensures var j := Run(c, es).value;
            var j' := Next(c, j, Consumer(e));
            j'.checker.shared == if e == CP.Loop(CP.ChannelOpened) then Some(j'.consumer.channels)
                                 else if CatchesSomething(j.consumer, e) then None
                                 else j.checker.shared
  {
    JointRun(c, es);
  }

  function Flags(h: seq<H.HealthEvent>): nat {
    if h == [] then 0 else Flags(h[..|h| - 1]) + if h[|h| - 1].ConsumerDegraded? then 1 else 0
  }

  /** How often a joint run catches a channel error, and how many probes it finishes. */
  function ChannelErrors(c: CP.Config, es: seq<Event>): nat
    requires Run(c, es).Some?
  {
    if es == [] then 0
    else
      var p, e := es[..|es| - 1], es[|es| - 1];
      ChannelErrors(c, p) + if e.Consumer? && CatchesChannelError(Run(c, p).value.consumer, e.e) then 1 else 0
  }

  function Probes(es: seq<Event>): nat {
    if es == [] then 0 else Probes(es[..|es| - 1]) + if es[|es| - 1].ProbeFinished? then 1 else 0
  }

  lemma HistoryGrows(w: SC.World, e: SC.Event)
    requires SC.Enabled(w, e)
    ensures var h, h' := w.history, SC.Next(w, e).history;
            && |h'| == |h| + (if e == SC.ChannelErrorCaught || e.ProbeFinished? then 1 else 0)
            && Flags(h') == Flags(h) + if e == SC.ChannelErrorCaught then 1 else 0
  {
    var h, h' := w.history, SC.Next(w, e).history;
    if |h'| > |h| {
      assert h'[..|h|] == h;
    }
  }

  /**
   The health history is complete and holds nothing else: one consumer write for every channel error
   the consumer caught, one probe for every probe that ended.
   */
  lemma {:induction false} HistoryComplete(c: CP.Config, es: seq<Event>)
    requires Run(c, es).Some?
    ensures Flags(Run(c, es).value.checker.history) == ChannelErrors(c, es)
    ensures |Run(c, es).value.checker.history| == ChannelErrors(c, es) + Probes(es)
  {
    if es != [] {
      var p, e := es[..|es| - 1], es[|es| - 1];
      HistoryComplete(c, p);
      var j := Run(c, p).value;
      match e
      case Consumer(ce) =>
        var signal := Signal(j.consumer, ce);
        if signal.Some? {
          HistoryGrows(j.checker, signal.value);
        }
      case ProbeStarted(isClosed) => HistoryGrows(j.checker, SC.ProbeStarted(isClosed));
      case ProbeFinished(f, now) => HistoryGrows(j.checker, SC.ProbeFinished(f, now));
    }
  }
}
