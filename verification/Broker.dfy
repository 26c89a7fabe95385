/**
 The broker's side of one queue, as far as sections 3.1.7 (quality of service) and 3.1.8
 (acknowledgements) of AMQP 0-9-1 constrain it. Channels are numbered by epoch; at most one
 is live. A settlement counts only on the channel that made the delivery, while that channel
 is live; closing a channel returns its unacknowledged messages to the queue.
 */
module Broker {
  import opened Wrappers
  import opened Messages

  datatype Delivery = Delivery(msg: nat, epoch: nat)

  datatype BrokerEvent =
    | Delivered(tag: nat, msg: nat)
    | Settled(tag: nat, msg: nat, how: Settlement)
    | ChannelClosed(returned: set<nat>)

  datatype Broker = Broker(
    bodies: map<nat, Body>,           // every message the queue ever accepted
    ready: set<nat>,
    final: set<nat>,
    deliveries: map<nat, Delivery>,   // every delivery ever made, by tag
    unacked: set<nat>,                // tags
    live: Option<nat>,                // epoch of the live channel
    epochs: nat,                      // channels opened so far
    log: seq<BrokerEvent>             // history of effective broker actions
  )

  const EMPTY := Broker(map[], {}, {}, map[], {}, None, 0, [])

  function UnackedMsgs(b: Broker): set<nat> {
    set d | d in b.unacked && d in b.deliveries :: b.deliveries[d].msg
  }

  predicate Effective(b: Broker, tag: nat) {
    tag in b.unacked && tag in b.deliveries && b.live == Some(b.deliveries[tag].epoch)
  }

  function Accept(b: Broker, msg: nat, body: Body): Broker {
    b.(bodies := b.bodies[msg := body], ready := b.ready + {msg})
  }

  function OpenChannel(b: Broker): Broker {
    b.(live := Some(b.epochs + 1), epochs := b.epochs + 1)
  }

  function Push(b: Broker, tag: nat, msg: nat): Broker
    requires b.live.Some?
  {
    b.(ready := b.ready - {msg},
       deliveries := b.deliveries[tag := Delivery(msg, b.live.value)],
       unacked := b.unacked + {tag},
       log := b.log + [Delivered(tag, msg)])
  }

  function Settle(b: Broker, tag: nat, how: Settlement): Broker {
    if !Effective(b, tag) then b
    else
      var msg := b.deliveries[tag].msg;
      var b' := b.(unacked := b.unacked - {tag}, log := b.log + [Settled(tag, msg, how)]);
      if how == Final then b'.(final := b.final + {msg}) else b'.(ready := b.ready + {msg})
  }

  function CloseChannel(b: Broker): Broker {
    if b.live.None? then b
    else
      b.(ready := b.ready + UnackedMsgs(b), unacked := {}, live := None,
         log := b.log + [ChannelClosed(UnackedMsgs(b))])
  }

  // ----- tallies over the log

  datatype Tally = Deliveries | Requeues | Finals | Returns

  function Hits(e: BrokerEvent, what: Tally, msg: nat): nat {
    match e
    case Delivered(_, m) => if what == Deliveries && m == msg then 1 else 0
    case Settled(_, m, Requeue) => if what == Requeues && m == msg then 1 else 0
    case Settled(_, m, Final) => if what == Finals && m == msg then 1 else 0
    case ChannelClosed(ms) => if what == Returns && msg in ms then 1 else 0
  }

  /** How often `what` happened to a message. */
  function Count(log: seq<BrokerEvent>, what: Tally, msg: nat): nat {
    if log == [] then 0
    else Count(log[..|log| - 1], what, msg) + Hits(log[|log| - 1], what, msg)
  }

  /** How many effective settlements of one kind a delivery had. */
  function Settlements(log: seq<BrokerEvent>, tag: nat, how: Settlement): nat {
    if log == [] then 0
    else
      Settlements(log[..|log| - 1], tag, how)
      + (match log[|log| - 1]
         case Settled(t, _, h) => if t == tag && h == how then 1 else 0
         case _ => 0)
  }

  lemma CountAppend(log: seq<BrokerEvent>, e: BrokerEvent)
    ensures forall what, msg :: Count(log + [e], what, msg) == Count(log, what, msg) + Hits(e, what, msg)
    ensures forall tag, how :: Settlements(log + [e], tag, how) == Settlements(log, tag, how)
                               + if e.Settled? && e.tag == tag && e.how == how then 1 else 0
  {
  }

  // ----- soundness

  ghost predicate Tagged(b: Broker) {
    && b.unacked <= b.deliveries.Keys
    && (forall d | d in b.unacked :: b.live == Some(b.deliveries[d].epoch))
    && (forall d | d in b.deliveries :: b.deliveries[d].epoch <= b.epochs && b.deliveries[d].msg in b.bodies)
    && (b.live.Some? ==> b.live.value == b.epochs)
    && (forall d, d' | d in b.unacked && d' in b.unacked && b.deliveries[d].msg == b.deliveries[d'].msg :: d == d')
  }

  /** The accepted messages are partitioned into ready, unacknowledged and final. */
  ghost predicate Partitioned(b: Broker) {
    && b.bodies.Keys == b.ready + UnackedMsgs(b) + b.final
    && b.ready !! b.final
    && b.ready !! UnackedMsgs(b)
    && b.final !! UnackedMsgs(b)
  }

  ghost predicate Balanced(b: Broker, msg: nat) {
    && Count(b.log, Deliveries, msg) == Count(b.log, Requeues, msg) + Count(b.log, Returns, msg)
         + Count(b.log, Finals, msg) + (if msg in UnackedMsgs(b) then 1 else 0)
    && Count(b.log, Finals, msg) == if msg in b.final then 1 else 0
  }

  /** At most one effective settlement; exactly one once the live channel has no claim left. */
  ghost predicate SettledOnce(b: Broker, tag: nat) {
    var n := Settlements(b.log, tag, Final) + Settlements(b.log, tag, Requeue);
    && n <= (if tag in b.deliveries && tag !in b.unacked then 1 else 0)
    && (tag in b.deliveries && tag !in b.unacked && b.live == Some(b.deliveries[tag].epoch) ==> n == 1)
  }

  ghost predicate Sound(b: Broker) {
    && Tagged(b)
    && Partitioned(b)
    && (forall msg :: Balanced(b, msg))
    && (forall tag :: SettledOnce(b, tag))
  }

  lemma AcceptSound(b: Broker, msg: nat, body: Body)
    requires Sound(b) && msg !in b.bodies
    ensures Sound(Accept(b, msg, body))
  {
    var b' := Accept(b, msg, body);
    assert UnackedMsgs(b') == UnackedMsgs(b);
    assert forall m :: Balanced(b, m) ==> Balanced(b', m);
    assert forall t :: SettledOnce(b, t) ==> SettledOnce(b', t);
  }

  lemma OpenSound(b: Broker)
    requires Sound(b) && b.live.None?
    ensures Sound(OpenChannel(b))
  {
    var b' := OpenChannel(b);
    assert UnackedMsgs(b') == UnackedMsgs(b);
    assert forall m :: Balanced(b, m) ==> Balanced(b', m);
    assert forall t :: SettledOnce(b, t) ==> SettledOnce(b', t);
  }

  lemma PushSound(b: Broker, tag: nat, msg: nat)
    requires Sound(b) && b.live.Some? && msg in b.ready && tag !in b.deliveries
    ensures Sound(Push(b, tag, msg))
  {
    var b' := Push(b, tag, msg);
    assert UnackedMsgs(b') == UnackedMsgs(b) + {msg} by {
      forall m | m in UnackedMsgs(b) ensures m in UnackedMsgs(b') {
        var d :| d in b.unacked && b.deliveries[d].msg == m;
        assert d in b'.unacked && b'.deliveries[d].msg == m;
      }
      assert tag in b'.unacked && b'.deliveries[tag].msg == msg;
    }
    CountAppend(b.log, Delivered(tag, msg));
    assert forall m :: Balanced(b, m) ==> Balanced(b', m);
    assert forall t :: SettledOnce(b, t) ==> SettledOnce(b', t);
  }

  lemma SettleUnacked(b: Broker, tag: nat, how: Settlement)
    requires Tagged(b) && Effective(b, tag)
    ensures UnackedMsgs(Settle(b, tag, how)) == UnackedMsgs(b) - {b.deliveries[tag].msg}
  {
  }

  lemma SettleSound(b: Broker, tag: nat, how: Settlement)
    requires Sound(b)
    ensures Sound(Settle(b, tag, how))
  {
    if Effective(b, tag) {
      var b' := Settle(b, tag, how);
      var msg := b.deliveries[tag].msg;
      SettleUnacked(b, tag, how);
      assert msg in UnackedMsgs(b);
      CountAppend(b.log, Settled(tag, msg, how));
      assert forall m :: Balanced(b, m) ==> Balanced(b', m);
      assert forall t :: SettledOnce(b, t) ==> SettledOnce(b', t);
    }
  }

  lemma CloseSound(b: Broker)
    requires Sound(b)
    ensures Sound(CloseChannel(b))
  {
    if b.live.Some? {
      var b' := CloseChannel(b);
      assert UnackedMsgs(b') == {};
      CountAppend(b.log, ChannelClosed(UnackedMsgs(b)));
      assert forall m :: Balanced(b, m) ==> Balanced(b', m);
      assert forall t :: SettledOnce(b, t) ==> SettledOnce(b', t);
    }
  }
}
