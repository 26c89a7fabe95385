/** What every event of the consumer protocol keeps. */
module ConsumerInvariants {
  import opened Wrappers
  import opened Messages
  import opened Broker
  import opened ConsumerProtocol

  /** The loop's phase decides whether a channel may be live, and when tasks may be cancelled. */
  ghost predicate LoopInv(s: State) {
    && (s.loop in {Connecting, BackingOff} || s.loop.Draining? || s.loop.Stopped? ==> s.broker.live.None?)
    && (s.buffer != [] ==> s.loop == Consuming)
    && (s.cancelSent != {} ==> s.loop.Stopped?)
    && s.cancelSent <= s.tasks.Keys
    && (s.loop.Draining? ==> s.active <= s.loop.tracked <= s.tasks.Keys)
    && (s.loop.Stopped? && s.loop.drained.Some? ==>
          s.active <= s.loop.drained.value <= s.tasks.Keys
          && forall t | t in s.loop.drained.value :: Done(s, t) || t in s.cancelSent)
  }

  ghost predicate TrackInv(s: State) {
    && s.active == (set t | t in s.tasks && s.tasks[t] != Reaped)
    && s.tasks.Keys <= s.broker.deliveries.Keys
    && (forall i | 0 <= i < |s.buffer| :: s.buffer[i] in s.broker.deliveries && s.buffer[i] !in s.tasks)
    && (forall i, j | 0 <= i < j < |s.buffer| :: s.buffer[i] != s.buffer[j])
  }

  /** While the loop listens, a delivery of the live channel is buffered or has its task. */
  ghost predicate BufferInv(s: State) {
    s.loop == SettingUp || s.loop == Consuming ==>
      forall d | d in s.broker.deliveries && s.broker.live == Some(s.broker.deliveries[d].epoch) ::
        d in s.tasks || d in s.buffer
  }

  ghost predicate SlotInv(c: Config, s: State) {
    FreeSlots(c, s) + |Holders(s)| == c.slots
  }

  /** On the live channel, unacknowledged means exactly: not answered. */
  ghost predicate LinkInv(s: State) {
    forall d | d in s.broker.deliveries && s.broker.live == Some(s.broker.deliveries[d].epoch) ::
      d in s.broker.unacked <==> Open(s, d)
  }

  ghost predicate QuotaInv(c: Config, s: State) {
    c.prefetch > 0 ==> forall epoch: nat :: |OpenIn(s, epoch)| <= c.prefetch
  }

  /** On one channel, live or dead, a message has at most one unanswered delivery. */
  ghost predicate SingleInv(s: State) {
    forall d, d' | && d in s.broker.deliveries && d' in s.broker.deliveries
                   && s.broker.deliveries[d] == s.broker.deliveries[d'] && Open(s, d) && Open(s, d') :: d == d'
  }

  ghost predicate Inv(c: Config, s: State) {
    && Sound(s.broker)
    && LoopInv(s)
    && TrackInv(s)
    && BufferInv(s)
    && SlotInv(c, s)
    && LinkInv(s)
    && SingleInv(s)
    && QuotaInv(c, s)
  }

  lemma StartInv(c: Config)
    ensures Inv(c, START)
  {
  }

  // ----- the broker

  lemma BrokerStep(c: Config, s: State, e: Event)
    requires Sound(s.broker) && LoopInv(s) && Enabled(c, s, e)
    ensures Sound(Next(c, s, e).broker)
  {
    match e
    case World(w) =>
      match w {
        case Publish(m, body) => AcceptSound(s.broker, m, body);
        case Deliver(tag, m) => PushSound(s.broker, tag, m);
        case ChannelLost => CloseSound(s.broker);
        case ChannelRestored => OpenSound(s.broker);
        case Register(key, h) =>
      }
    case Loop(l) =>
      match l {
        case ScopeClosed => CloseSound(s.broker);
        case ChannelOpened => OpenSound(s.broker);
        case _ =>
      }
    case Task(t, m) =>
      SettleSound(s.broker, t, Final);
      SettleSound(s.broker, t, Requeue);
  }

  // ----- the loop

  lemma WorldLoop(c: Config, s: State, w: WorldEvent)
    requires LoopInv(s) && WorldEnabled(c, s, w)
    ensures LoopInv(WorldNext(c, s, w))
  {
  }

  lemma LoopLoop(s: State, l: LoopEvent)
    requires LoopInv(s) && TrackInv(s) && LoopEnabled(s, l)
    ensures LoopInv(LoopNext(s, l))
  {
  }

  lemma TaskLoop(c: Config, s: State, t: nat, m: Move)
    requires LoopInv(s) && TaskEnabled(c, s, t, m)
    ensures LoopInv(TaskNext(c, s, t, m))
  {
  }

  // ----- the tracker

  lemma WorldTrack(c: Config, s: State, w: WorldEvent)
    requires TrackInv(s) && WorldEnabled(c, s, w)
    ensures TrackInv(WorldNext(c, s, w))
  {
  }

  lemma LoopTrack(s: State, l: LoopEvent)
    requires TrackInv(s) && LoopEnabled(s, l)
    ensures TrackInv(LoopNext(s, l))
  {
  }

  lemma TaskTrack(c: Config, s: State, t: nat, m: Move)
    requires TrackInv(s) && TaskEnabled(c, s, t, m)
    ensures TrackInv(TaskNext(c, s, t, m))
  {
  }

  lemma BufferStep(c: Config, s: State, e: Event)
    requires Tagged(s.broker) && BufferInv(s) && Enabled(c, s, e)
    ensures BufferInv(Next(c, s, e))
  {
  }

  // ----- the semaphore

  predicate GivesBack(m: Move) {
    m == AbortHolding || m == Exit
  }

  lemma TaskHolders(c: Config, s: State, t: nat, m: Move)
    requires TaskEnabled(c, s, t, m)
    ensures m == Acquire ==> t !in Holders(s) && Holders(TaskNext(c, s, t, m)) == Holders(s) + {t}
    ensures GivesBack(m) ==> t in Holders(s) && Holders(TaskNext(c, s, t, m)) == Holders(s) - {t}
    ensures m != Acquire && !GivesBack(m) ==> Holders(TaskNext(c, s, t, m)) == Holders(s)
  {
  }

  lemma SlotStep(c: Config, s: State, e: Event)
    requires SlotInv(c, s) && TrackInv(s) && Enabled(c, s, e)
    ensures SlotInv(c, Next(c, s, e))
  {
    var s' := Next(c, s, e);
    match e
    case World(w) => assert Holders(s') == Holders(s);
    case Loop(l) =>
      assert forall t :: IsHolder(s', t) <==> IsHolder(s, t);
      assert Holders(s') == Holders(s);
    case Task(t, m) => TaskHolders(c, s, t, m);
  }

  // ----- open deliveries

  lemma WorldLink(c: Config, s: State, w: WorldEvent)
    requires Tagged(s.broker) && LinkInv(s) && TrackInv(s) && WorldEnabled(c, s, w)
    ensures LinkInv(WorldNext(c, s, w))
  {
  }

  lemma LoopLink(s: State, l: LoopEvent)
    requires Tagged(s.broker) && LinkInv(s) && LoopInv(s) && TrackInv(s) && LoopEnabled(s, l)
    ensures LinkInv(LoopNext(s, l))
  {
  }

  lemma TaskLink(c: Config, s: State, t: nat, m: Move)
    requires Tagged(s.broker) && LinkInv(s) && LoopInv(s) && TrackInv(s) && TaskEnabled(c, s, t, m)
    ensures LinkInv(TaskNext(c, s, t, m))
  {
  }

  lemma OpenInStep(c: Config, s: State, e: Event, epoch: nat)
    requires TrackInv(s) && Enabled(c, s, e)
    ensures OpenIn(Next(c, s, e), epoch) <=
              OpenIn(s, epoch)
              + if e.World? && e.w.Deliver? && s.broker.live == Some(epoch) then {e.w.tag} else {}
  {
  }

  lemma QuotaStep(c: Config, s: State, e: Event)
    requires Tagged(s.broker) && QuotaInv(c, s) && LinkInv(s) && TrackInv(s) && Enabled(c, s, e)
    ensures QuotaInv(c, Next(c, s, e))
  {
    var s' := Next(c, s, e);
    forall epoch: nat | c.prefetch > 0 ensures |OpenIn(s', epoch)| <= c.prefetch {
      assert |OpenIn(s, epoch)| <= c.prefetch;
      OpenInStep(c, s, e, epoch);
      if e.World? && e.w.Deliver? && s.broker.live == Some(epoch) {
        assert OpenIn(s, epoch) == s.broker.unacked;
        SubsetSize(OpenIn(s', epoch), OpenIn(s, epoch) + {e.w.tag});
      } else {
        SubsetSize(OpenIn(s', epoch), OpenIn(s, epoch));
      }
    }
  }

  /** What is open after an event was open before, or has just been delivered. */
  lemma OpenBefore(c: Config, s: State, e: Event, d: nat)
    requires TrackInv(s) && Enabled(c, s, e) && d in Next(c, s, e).broker.deliveries && Open(Next(c, s, e), d)
    ensures (e.World? && e.w.Deliver? && d == e.w.tag)
            || (d in s.broker.deliveries && Open(s, d)
                && s.broker.deliveries[d] == Next(c, s, e).broker.deliveries[d])
  {
  }

  lemma SingleStep(c: Config, s: State, e: Event)
    requires Sound(s.broker) && SingleInv(s) && LinkInv(s) && TrackInv(s) && Enabled(c, s, e)
    ensures SingleInv(Next(c, s, e))
  {
    var s' := Next(c, s, e);
    forall d, d' | && d in s'.broker.deliveries && d' in s'.broker.deliveries
                   && s'.broker.deliveries[d] == s'.broker.deliveries[d'] && Open(s', d) && Open(s', d')
      ensures d == d'
    {
      OpenBefore(c, s, e, d);
      OpenBefore(c, s, e, d');
    }
  }

  lemma {:induction false} SubsetSize<T>(a: set<T>, b: set<T>)
    requires a <= b
    ensures |a| <= |b|
  {
    if a != {} {
      var x :| x in a;
      SubsetSize(a - {x}, b - {x});
    }
  }

  lemma InvStep(c: Config, s: State, e: Event)
    requires Inv(c, s) && Enabled(c, s, e)
    ensures Inv(c, Next(c, s, e))
  {
    BrokerStep(c, s, e);
    BufferStep(c, s, e);
    SlotStep(c, s, e);
    QuotaStep(c, s, e);
    SingleStep(c, s, e);
    match e
    case World(w) => WorldLoop(c, s, w); WorldTrack(c, s, w); WorldLink(c, s, w);
    case Loop(l) => LoopLoop(s, l); LoopTrack(s, l); LoopLink(s, l);
    case Task(t, m) => TaskLoop(c, s, t, m); TaskTrack(c, s, t, m); TaskLink(c, s, t, m);
  }

  lemma {:induction false} ExecInv(c: Config, s: State, es: seq<Event>)
    requires Inv(c, s) && Exec(c, s, es).Some?
    ensures Inv(c, Exec(c, s, es).value)
  {
    if es != [] {
      var p := es[..|es| - 1];
      ExecInv(c, s, p);
      InvStep(c, Exec(c, s, p).value, es[|es| - 1]);
    }
  }

  /** The invariant holds in every reachable state. */
  lemma RunInv(c: Config, es: seq<Event>)
    requires Run(c, es).Some?
    ensures Inv(c, Run(c, es).value)
  {
    StartInv(c);
    ExecInv(c, START, es);
  }

  lemma ReachInv(c: Config, s: State)
    requires Reachable(c, s)
    ensures Inv(c, s)
  {
    var es :| Run(c, es) == Some(s);
    RunInv(c, es);
  }
}
