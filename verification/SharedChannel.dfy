/**
 The health checker and the consumer around the shared channel reference. The consumer registers
 and clears; a probe reads the reference, waits for the broker, and only then acts on what it read,
 so registrations and clears may fall in between.
 */
module SharedChannel {
  import opened Wrappers
  import opened Health

  datatype Probe = Idle | Passive(channel: nat) | Fresh

  datatype Finding = QueueFound | QueueAbsent | Failed

  datatype World = World(
    health: Health,
    shared: Option<nat>,            // _shared_channel
    registered: nat,                // channels are numbered in the order of registration
    probe: Probe,                   // one checker: at most one probe under way
    history: seq<HealthEvent>       // everything that has happened to `health`
  )

  const START := World(INITIAL, None, 0, Idle, [])

  datatype Event =
    | ChannelRegistered                         // consumer: a new channel
    | ReferenceCleared                          // consumer: connection error, other error, cancellation
    | ChannelErrorCaught                        // consumer: writes DEGRADED and clears
    | ProbeStarted(isClosed: bool)              // what `channel.is_closed` says of the channel read
    | ProbeFinished(finding: Finding, now: int)

  function ResultOf(probe: Probe, finding: Finding): ProbeResult
    requires probe != Idle
  {
    var how := if probe.Passive? then PassiveProbe else NewConnection;
    match finding
    case QueueFound => ProbeResult(true, Some(true), how)
    case QueueAbsent => ProbeResult(true, Some(false), how)
    case Failed => ProbeResult(false, None, how)
  }

  predicate Enabled(w: World, e: Event) {
    match e
    case ProbeStarted(_) => w.probe == Idle
    case ProbeFinished(_, _) => w.probe != Idle
    case _ => true
  }

  function Record(w: World, e: HealthEvent): World {
    w.(health := Apply(w.health, e), history := w.history + [e])
  }

  function Next(w: World, e: Event): World
    requires Enabled(w, e)
  {
    match e
    case ChannelRegistered => w.(shared := Some(w.registered + 1), registered := w.registered + 1)
    case ReferenceCleared => w.(shared := None)
    case ChannelErrorCaught => Record(w, ConsumerDegraded).(shared := None)
    case ProbeStarted(isClosed) =>
      w.(probe := if w.shared.Some? && !isClosed then Passive(w.shared.value) else Fresh)
    case ProbeFinished(finding, now) =>
      var w' := if w.probe.Passive? && finding != QueueFound then w.(shared := None) else w;
      Record(w', Probed(ResultOf(w.probe, finding), now)).(probe := Idle)
  }

  function Run(es: seq<Event>): Option<World> {
    if es == [] then Some(START)
    else
      match Run(es[..|es| - 1])
      case None => None
      case Some(w) => if Enabled(w, es[|es| - 1]) then Some(Next(w, es[|es| - 1])) else None
  }

  function Registrations(es: seq<Event>): nat {
    if es == [] then 0
    else Registrations(es[..|es| - 1]) + if es[|es| - 1] == ChannelRegistered then 1 else 0
  }

  /**
   In every interleaving the reference is unset or is the channel registered last: a late probe may
   clear it but never brings back an older channel. A probe under way looks at a channel that was
   registered, and the health fields are those of the recorded history.
   */
  lemma {:induction false} ReferenceIsLatest(es: seq<Event>)
    requires Run(es).Some?
    ensures var w := Run(es).value;
            && w.registered == Registrations(es)
            && (w.shared.Some? ==> w.shared.value == Registrations(es) > 0)
            && (w.probe.Passive? ==> 0 < w.probe.channel <= Registrations(es))
            && w.health == After(w.history)
  {
    if es != [] {
      var p := es[..|es| - 1];
      ReferenceIsLatest(p);
      var w, e := Run(p).value, es[|es| - 1];
      var h := Run(es).value.history;
      if e == ChannelErrorCaught || e.ProbeFinished? {
        assert h[..|h| - 1] == w.history;
      } else {
        assert h == w.history;
      }
    }
  }

  /**
   A failing probe costs the consumer its current registration iff it was a passive one; the
   reference it clears is not the channel it probed iff the consumer has registered again since.
   */
  lemma LateProbeClears(es: seq<Event>, finding: Finding, now: int)
    requires Run(es).Some? && Run(es).value.probe != Idle
    ensures var w := Run(es).value;
            var w' := Next(w, ProbeFinished(finding, now));
            && (w'.shared != w.shared <==> w.shared.Some? && w.probe.Passive? && finding != QueueFound)
            && (w'.shared != w.shared ==> w'.shared.None?)
            && (w'.shared != w.shared ==>
                  (w.shared != Some(w.probe.channel) <==> w.probe.channel < Registrations(es)))
  {
    ReferenceIsLatest(es);
  }

  /**
   A probe asks on the registered channel iff there is one and it is open; otherwise, also when the
   registered channel is closed, it opens a connection of its own. It touches nothing until it ends.
   */
  lemma ProbeAsksOn(es: seq<Event>, isClosed: bool)
    requires Run(es).Some? && Enabled(Run(es).value, ProbeStarted(isClosed))
    ensures var w := Run(es).value;
            var w' := Next(w, ProbeStarted(isClosed));
            && (w'.probe.Passive? <==> w.shared.Some? && !isClosed)
            && (w'.probe.Passive? ==> w'.probe.channel == Registrations(es))
            && (!w'.probe.Passive? ==> w'.probe == Fresh)
            && w' == w.(probe := w'.probe)
  {
    ReferenceIsLatest(es);
  }

  /**
   What a finding comes to, whatever went before: an absent queue degrades, a failed probe means the
   broker is down, a queue that is found is alive or recovered; the history records this and no more.
   */
  lemma FindingDecides(es: seq<Event>, finding: Finding, now: int)
    requires Run(es).Some? && Enabled(Run(es).value, ProbeFinished(finding, now))
    ensures var w := Run(es).value;
            var w' := Next(w, ProbeFinished(finding, now));
            && (w'.health.status == Degraded <==> finding == QueueAbsent)
            && (w'.health.status == Dead <==> finding == Failed)
            && (w'.health.status in {Alive, Recovered} <==> finding == QueueFound)
            && (w'.health.queueExists == Some(true) <==> finding == QueueFound)
            && (w'.health.queueExists == Some(false) <==> finding == QueueAbsent)
            && (w'.health.queueExists == None <==> finding == Failed)
            && (w'.health.how == PassiveProbe <==> w.probe.Passive?)
            && (w'.health.how == NewConnection <==> w.probe == Fresh)
            && w'.health.lastChecked == Some(now)
            && |w'.history| == |w.history| + 1 && w'.history[..|w.history|] == w.history
            && w'.history[|w.history|].Probed? && w'.history[|w.history|].now == now
            && (ClassOf(w'.history[|w.history|]) == Healthy <==> finding == QueueFound)
            && (ClassOf(w'.history[|w.history|]) == QueueMissing <==> finding == QueueAbsent)
            && w'.probe == Idle && w'.registered == w.registered
  {
    ReferenceIsLatest(es);
    StatusFromLastTwo(Run(es).value.history);
  }

  /**
   Once cleared, the reference stays unset until the consumer registers again, and every probe that
   starts in between opens a connection of its own.
   */
  lemma {:induction false} ClearedUntilRegistered(es: seq<Event>, i: nat)
    requires Run(es).Some? && i < |es| && Run(es[..i]).Some? && Run(es[..i]).value.shared.None?
    requires ChannelRegistered !in es[i..]
    ensures Run(es).value.shared.None?
    ensures es[|es| - 1].ProbeStarted? ==> Run(es).value.probe == Fresh
    decreases |es|
  {
    var n := |es| - 1;
    assert es[n] in es[i..];
    if i < n {
      var p := es[..n];
      assert p[..i] == es[..i];
      assert forall e | e in p[i..] :: e in es[i..];
      ClearedUntilRegistered(p, i);
    }
  }

  /** A probe that spans a reconnect does clear the new channel's registration. */
  lemma SpanningProbeClearsNewChannel()
    ensures exists es :: Run(es).Some? && Registrations(es) == 2 && Run(es).value.shared == Some(2)
                         && Run(es).value.probe == Passive(1)
                         && Next(Run(es).value, ProbeFinished(Failed, 0)).shared.None?
  {
    var e1 := [ChannelRegistered];
    var e2 := e1 + [ProbeStarted(false)];
    var e3 := e2 + [ReferenceCleared];
    var e4 := e3 + [ChannelRegistered];
    assert e4[..3] == e3 && e3[..2] == e2 && e2[..1] == e1 && e1[..0] == [];
    assert Run(e1) == Some(Next(START, ChannelRegistered));
    assert Run(e2).Some? && Run(e2).value.probe == Passive(1);
    assert Run(e3).Some? && Registrations(e2) == 1;
    assert Run(e4).Some? && Registrations(e4) == 2;
  }
}
