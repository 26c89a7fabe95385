/** The health module as the program has it: one state object updated field by field, one shared reference. */
module HealthChecker {
  import opened Wrappers
  import opened Health
  import SC = SharedChannel

  class Checker {
    var status: Status
    var lastChecked: Option<int>
    var lastAlive: Option<int>
    var lastDead: Option<int>
    var consecutiveFailures: nat
    var probeMethod: ProbeMethod
    var queueExists: Option<bool>
    var sharedChannel: Option<nat>
    var probe: SC.Probe
    ghost var registered: nat
    ghost var history: seq<HealthEvent>

    ghost function Fields(): Health
      reads this
    {
      Health(status, lastChecked, lastAlive, lastDead, consecutiveFailures, probeMethod, queueExists)
    }

    ghost function Snapshot(): SC.World
      reads this
    {
      SC.World(Fields(), sharedChannel, registered, probe, history)
    }

    /** The fields are in a state that some interleaving of consumer and probes reaches. */
    ghost predicate Valid()
      reads this
    {
      exists es :: SC.Run(es) == Some(Snapshot())
    }

    twostate predicate Did(e: SC.Event)
      reads this
    {
      SC.Enabled(old(Snapshot()), e) && Snapshot() == SC.Next(old(Snapshot()), e)
    }

    lemma Reached(e: SC.Event)
      requires Valid() && SC.Enabled(Snapshot(), e)
      ensures exists es :: SC.Run(es) == Some(SC.Next(Snapshot(), e))
    {
      var es :| SC.Run(es) == Some(Snapshot());
      assert (es + [e])[..|es|] == es;
      assert SC.Run(es + [e]) == Some(SC.Next(Snapshot(), e));
    }

    constructor ()
      ensures Valid() && Snapshot() == SC.START
    {
      status, lastChecked, lastAlive, lastDead := Unknown, None, None, None;
      consecutiveFailures, probeMethod, queueExists := 0, NoProbe, None;
      sharedChannel, probe, registered, history := None, SC.Idle, 0, [];
      new;
      assert SC.Run([]) == Some(Snapshot());
    }

    method SetSharedChannel(channel: Option<nat>)
      requires Valid() && (channel.Some? ==> channel.value == registered + 1)
      modifies this`sharedChannel, this`registered
      ensures Valid() && Did(if channel.Some? then SC.ChannelRegistered else SC.ReferenceCleared)
      ensures sharedChannel == channel
    {
      Reached(if channel.Some? then SC.ChannelRegistered else SC.ReferenceCleared);
      sharedChannel := channel;
      if channel.Some? {
        registered := channel.value;
      }
    }

    /** The consumer's own write on a channel error. */
    method FlagDegraded()
      requires Valid()
      modifies this`status, this`sharedChannel, this`history
      ensures Valid() && Did(SC.ChannelErrorCaught)
      ensures status == Degraded && sharedChannel == None && history == old(history) + [ConsumerDegraded]
    {
      Reached(SC.ChannelErrorCaught);
      status := Degraded;
      sharedChannel := None;
      history := history + [ConsumerDegraded];
    }

    method StartProbe(isClosed: bool)
      requires Valid() && probe == SC.Idle
      modifies this`probe
      ensures Valid() && Did(SC.ProbeStarted(isClosed))
      ensures probe == if sharedChannel.Some? && !isClosed then SC.Passive(sharedChannel.value) else SC.Fresh
    {
      Reached(SC.ProbeStarted(isClosed));
      var channel := sharedChannel;
      if channel.Some? && !isClosed {
        probe := SC.Passive(channel.value);
      } else {
        probe := SC.Fresh;
      }
    }

    /** The part of a probe after its await: turn the finding into a result, drop a channel that failed. */
    method ConcludeProbe(finding: SC.Finding) returns (result: ProbeResult)
      requires probe != SC.Idle
      modifies this`sharedChannel
      ensures result == SC.ResultOf(probe, finding)
      ensures result.brokerAlive <==> finding != SC.Failed
      ensures result.queueExists == Some(true) <==> finding == SC.QueueFound
      ensures result.queueExists == Some(false) <==> finding == SC.QueueAbsent
      ensures result.queueExists == None <==> finding == SC.Failed
      ensures result.how == if probe.Passive? then PassiveProbe else NewConnection
      ensures sharedChannel == if probe.Passive? && finding != SC.QueueFound then None else old(sharedChannel)
    {
      if probe.Passive? {
        match finding
        case QueueFound =>
          result := ProbeResult(true, Some(true), PassiveProbe);
        case QueueAbsent =>
          sharedChannel := None;
          result := ProbeResult(true, Some(false), PassiveProbe);
        case Failed =>
          sharedChannel := None;
          result := ProbeResult(false, None, PassiveProbe);
      } else {
        match finding
        case QueueFound => result := ProbeResult(true, Some(true), NewConnection);
        case QueueAbsent => result := ProbeResult(true, Some(false), NewConnection);
        case Failed => result := ProbeResult(false, None, NewConnection);
      }
    }

    /** The atomic part of a tick, from reading the previous status to writing the new one. */
    method Tick(result: ProbeResult, now: int) returns (hook: Option<Hook>)
      modifies this`status, this`lastChecked, this`lastAlive, this`lastDead
      modifies this`consecutiveFailures, this`probeMethod, this`queueExists
      ensures Fields() == AfterProbe(old(Fields()), result, now)
      ensures hook == HookOf(old(status), result)
      ensures hook == Some(OnDown) ==> lastDead == Some(now)
      ensures hook == Some(OnRecovered) ==> lastAlive == Some(now)
    {
      var previous := status;
      lastChecked := Some(now);
      probeMethod := result.how;
      queueExists := result.queueExists;
      if result.brokerAlive && result.queueExists == Some(true) {
        lastAlive := Some(now);
        consecutiveFailures := 0;
        if previous in {Dead, Unknown, Degraded} {
          status := Recovered;
          hook := Some(OnRecovered);
        } else {
          status := Alive;
          hook := Some(OnStillAlive);
        }
      } else if result.brokerAlive {
        consecutiveFailures := consecutiveFailures + 1;
        if previous != Degraded {
          status := Degraded;
          lastDead := Some(now);
          hook := Some(OnQueueMissing);
        } else {
          hook := None;
        }
      } else {
        consecutiveFailures := consecutiveFailures + 1;
        if previous != Dead {
          status := Dead;
          lastDead := Some(now);
          hook := Some(OnDown);
        } else {
          hook := Some(OnStillDead);
        }
      }
    }

    /** One pass of the checker's loop after the probe's await, up to the hook it then awaits. */
    method FinishProbe(finding: SC.Finding, now: int) returns (hook: Option<Hook>)
      requires Valid() && probe != SC.Idle
      modifies this
      ensures Valid() && Did(SC.ProbeFinished(finding, now))
      ensures hook == HookOf(old(status), SC.ResultOf(old(probe), finding))
      ensures status == Degraded <==> finding == SC.QueueAbsent
      ensures status == Dead <==> finding == SC.Failed
      ensures status in {Alive, Recovered} <==> finding == SC.QueueFound
      ensures hook == Some(OnDown) <==> finding == SC.Failed && old(status) != Dead
      ensures hook == Some(OnQueueMissing) <==> finding == SC.QueueAbsent && old(status) != Degraded
      ensures queueExists == Some(true) <==> finding == SC.QueueFound
      ensures queueExists == Some(false) <==> finding == SC.QueueAbsent
      ensures probeMethod == if old(probe).Passive? then PassiveProbe else NewConnection
      ensures |history| == |old(history)| + 1 && history[..|old(history)|] == old(history)
      ensures sharedChannel == if old(probe).Passive? && finding != SC.QueueFound then None else old(sharedChannel)
    {
      Reached(SC.ProbeFinished(finding, now));
      var result := ConcludeProbe(finding);
      hook := Tick(result, now);
      history := history + [Probed(result, now)];
      probe := SC.Idle;
    }
  }
}
