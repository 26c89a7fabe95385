/**
 The health state and its transition after each probe, against a specification over the whole
 history of probes and of the consumer's own writes. From reading the previous status to writing
 the new one there is no suspension point, so each tick is one event.
 */
module Health {
  import opened Wrappers

  datatype Status = Unknown | Alive | Dead | Recovered | Degraded

  datatype ProbeMethod = NoProbe | PassiveProbe | NewConnection

  datatype ProbeResult = ProbeResult(brokerAlive: bool, queueExists: Option<bool>, how: ProbeMethod)

  datatype Health = Health(
    status: Status,
    lastChecked: Option<int>,
    lastAlive: Option<int>,
    lastDead: Option<int>,
    failures: nat,
    how: ProbeMethod,
    queueExists: Option<bool>
  )

  const INITIAL := Health(Unknown, None, None, None, 0, NoProbe, None)

  datatype HealthEvent =
    | Probed(result: ProbeResult, now: int)
    | ConsumerDegraded                        // the consumer's write on a channel error

  datatype Hook = OnDown | OnRecovered | OnStillAlive | OnStillDead | OnQueueMissing

  function AfterProbe(h: Health, r: ProbeResult, now: int): Health {
    var seen := h.(lastChecked := Some(now), how := r.how, queueExists := r.queueExists);
    if r.brokerAlive && r.queueExists == Some(true) then
      var up := seen.(lastAlive := Some(now), failures := 0);
      if h.status in {Dead, Unknown, Degraded} then up.(status := Recovered) else up.(status := Alive)
    else if r.brokerAlive then
      var failing := seen.(failures := h.failures + 1);
      if h.status != Degraded then failing.(status := Degraded, lastDead := Some(now)) else failing
    else
      var failing := seen.(failures := h.failures + 1);
      if h.status != Dead then failing.(status := Dead, lastDead := Some(now)) else failing
  }

  /** The hook a tick awaits; a queue that is still missing only logs. */
  function HookOf(status: Status, r: ProbeResult): Option<Hook> {
    if r.brokerAlive && r.queueExists == Some(true) then
      if status in {Dead, Unknown, Degraded} then Some(OnRecovered) else Some(OnStillAlive)
    else if r.brokerAlive then
      if status != Degraded then Some(OnQueueMissing) else None
    else
      if status != Dead then Some(OnDown) else Some(OnStillDead)
  }

  function Apply(h: Health, e: HealthEvent): Health {
    match e
    case Probed(r, now) => AfterProbe(h, r, now)
    case ConsumerDegraded => h.(status := Degraded)
  }

  function After(es: seq<HealthEvent>): Health {
    if es == [] then INITIAL else Apply(After(es[..|es| - 1]), es[|es| - 1])
  }

  // ----- the specification: what the history says

  datatype Class = Healthy | QueueMissing | BrokerDown

  function ClassOf(e: HealthEvent): Class {
    match e
    case ConsumerDegraded => QueueMissing
    case Probed(r, _) =>
      if !r.brokerAlive then BrokerDown else if r.queueExists == Some(true) then Healthy else QueueMissing
  }

  predicate FailedProbe(e: HealthEvent) {
    e.Probed? && ClassOf(e) != Healthy
  }

  /** The class of the event before position i, if there is one. */
  function PreviousClass(es: seq<HealthEvent>, i: nat): Option<Class>
    requires i <= |es|
  {
    if i == 0 then None else Some(ClassOf(es[i - 1]))
  }

  /** A failing probe whose preceding event was not of the same failure class. */
  predicate StartsOutage(es: seq<HealthEvent>, i: nat)
    requires i < |es|
  {
    FailedProbe(es[i]) && PreviousClass(es, i) != Some(ClassOf(es[i]))
  }

  /** The failing probes since the last healthy one. */
  function FailuresSinceHealthy(es: seq<HealthEvent>): set<nat> {
    set i: nat | i < |es| && FailedProbe(es[i]) && forall j | i < j < |es| :: ClassOf(es[j]) != Healthy
  }

  ghost predicate LastHealthy(es: seq<HealthEvent>, i: nat) {
    i < |es| && ClassOf(es[i]) == Healthy && forall j | i < j < |es| :: ClassOf(es[j]) != Healthy
  }

  ghost predicate LastOutageStart(es: seq<HealthEvent>, i: nat) {
    i < |es| && StartsOutage(es, i) && forall j: nat | i < j < |es| :: !StartsOutage(es, j)
  }

  ghost predicate LastProbe(es: seq<HealthEvent>, i: nat) {
    i < |es| && es[i].Probed? && forall j | i < j < |es| :: !es[j].Probed?
  }

  /** Status is a function of the classes of the last two events alone. */
  function StatusBy(last: Option<Class>, previous: Option<Class>): Status {
    match last
    case None => Unknown
    case Some(BrokerDown) => Dead
    case Some(QueueMissing) => Degraded
    case Some(Healthy) => if previous == Some(Healthy) then Alive else Recovered
  }

  lemma StatusFromLastTwo(es: seq<HealthEvent>)
    ensures After(es).status ==
              StatusBy(PreviousClass(es, |es|), if es == [] then None else PreviousClass(es, |es| - 1))
  {
  }

  lemma FailuresMember(es: seq<HealthEvent>, e: HealthEvent, i: nat)
    ensures i in FailuresSinceHealthy(es + [e]) <==>
              (i in FailuresSinceHealthy(es) && ClassOf(e) != Healthy) || (i == |es| && FailedProbe(e))
  {
    var es' := es + [e];
    if i < |es| {
      assert es'[i] == es[i] && es'[|es|] == e;
      assert forall j | i < j < |es| :: es'[j] == es[j];
    }
  }

  lemma FailuresAppend(es: seq<HealthEvent>, e: HealthEvent)
    ensures |FailuresSinceHealthy(es + [e])| ==
              (if ClassOf(e) == Healthy then 0 else |FailuresSinceHealthy(es)|) + if FailedProbe(e) then 1 else 0
  {
    var es' := es + [e];
    forall i: nat ensures i in FailuresSinceHealthy(es') <==>
        (i in FailuresSinceHealthy(es) && ClassOf(e) != Healthy) || (i == |es| && FailedProbe(e))
    {
      FailuresMember(es, e, i);
    }
    assert FailuresSinceHealthy(es') ==
           (if ClassOf(e) == Healthy then {} else FailuresSinceHealthy(es)) + if FailedProbe(e) then {|es|} else {};
  }

  lemma FailuresStep(h: Health, e: HealthEvent)
    ensures Apply(h, e).failures ==
              (if ClassOf(e) == Healthy then 0 else h.failures) + if FailedProbe(e) then 1 else 0
  {
  }

  /** `consecutive_failures` counts the failing probes since the last healthy one; consumer writes do not count. */
  lemma {:induction false} FailuresCounted(es: seq<HealthEvent>)
    ensures After(es).failures == |FailuresSinceHealthy(es)|
  {
    if es == [] {
      assert FailuresSinceHealthy(es) == {};
    } else {
      var p, e := es[..|es| - 1], es[|es| - 1];
      FailuresCounted(p);
      FailuresStep(After(p), e);
      FailuresAppend(p, e);
      assert p + [e] == es;
    }
  }

  /** `last_alive` is the time of the last healthy probe, if there was one. */
  lemma {:induction false} LastAliveIsLastHealthy(es: seq<HealthEvent>)
    ensures match After(es).lastAlive
            case None => forall e | e in es :: ClassOf(e) != Healthy
            case Some(at) => exists i: nat :: LastHealthy(es, i) && es[i].now == at
  {
    if es != [] {
      var n := |es| - 1;
      LastAliveIsLastHealthy(es[..n]);
      if ClassOf(es[n]) == Healthy {
        assert LastHealthy(es, n);
      } else if After(es).lastAlive.Some? {
        var i: nat :| LastHealthy(es[..n], i) && es[..n][i].now == After(es).lastAlive.value;
        assert LastHealthy(es, i);
      }
    }
  }

  /** `last_dead` is the time of the latest failing probe that was not preceded by its own failure class. */
  lemma {:induction false} LastDeadIsLastOutageStart(es: seq<HealthEvent>)
    ensures match After(es).lastDead
            case None => forall i: nat | i < |es| :: !StartsOutage(es, i)
            case Some(at) => exists i: nat :: LastOutageStart(es, i) && es[i].now == at
  {
    if es != [] {
      var n := |es| - 1;
      var p := es[..n];
      LastDeadIsLastOutageStart(p);
      StatusFromLastTwo(p);
      assert forall i: nat | i < n :: StartsOutage(es, i) == StartsOutage(p, i);
      assert PreviousClass(p, n) == PreviousClass(es, n);
      if StartsOutage(es, n) {
        assert LastOutageStart(es, n);
      } else if After(es).lastDead.Some? {
        var i: nat :| LastOutageStart(p, i) && p[i].now == After(p).lastDead.value;
        assert LastOutageStart(es, i);
      }
    }
  }

  /** The remaining fields describe the last probe, whatever the consumer wrote since. */
  lemma {:induction false} LastProbeRecorded(es: seq<HealthEvent>)
    ensures match After(es).lastChecked
            case None => After(es).how == NoProbe && After(es).queueExists.None? && forall e | e in es :: !e.Probed?
            case Some(at) =>
              exists i: nat :: LastProbe(es, i) && es[i].now == at
                               && es[i].result.how == After(es).how && es[i].result.queueExists == After(es).queueExists
  {
    if es != [] {
      var n := |es| - 1;
      LastProbeRecorded(es[..n]);
      if es[n].Probed? {
        assert LastProbe(es, n);
      } else if After(es).lastChecked.Some? {
        var i: nat :| LastProbe(es[..n], i) && es[..n][i].now == After(es).lastChecked.value
                      && es[..n][i].result.how == After(es).how && es[..n][i].result.queueExists == After(es).queueExists;
        assert LastProbe(es, i);
      }
    }
  }

  // ----- hooks over whole runs

  /** The hook fired by event i of a run. */
  function HookAt(es: seq<HealthEvent>, i: nat): Option<Hook>
    requires i < |es|
  {
    match es[i]
    case ConsumerDegraded => None
    case Probed(r, _) => HookOf(After(es[..i]).status, r)
  }

  /** What the hook is, from the classes of the event and its predecessor. */
  function HookBy(c: Class, previous: Option<Class>): Option<Hook> {
    match c
    case Healthy => if previous == Some(Healthy) then Some(OnStillAlive) else Some(OnRecovered)
    case QueueMissing => if previous == Some(QueueMissing) then None else Some(OnQueueMissing)
    case BrokerDown => if previous == Some(BrokerDown) then Some(OnStillDead) else Some(OnDown)
  }

  /**
   A probe announces a change of class and nothing else: in particular a missing queue fires its
   hook iff the event before was not a missing queue, be it a probe's finding or the consumer's write.
   */
  lemma HookFromTwoEvents(es: seq<HealthEvent>, i: nat)
    requires i < |es|
    ensures HookAt(es, i) == if es[i].Probed? then HookBy(ClassOf(es[i]), PreviousClass(es, i)) else None
  {
  }

  /** An outage that the consumer has flagged first: the probe that finds the queue missing stays silent. */
  lemma FlaggedOutageIsSilent(now: int, how: ProbeMethod)
    ensures var es := [ConsumerDegraded, Probed(ProbeResult(true, Some(false), how), now)];
            ClassOf(es[1]) == QueueMissing && HookAt(es, 1) == None && After(es).lastDead.None?
  {
    var es := [ConsumerDegraded, Probed(ProbeResult(true, Some(false), how), now)];
    assert es[..1] == [ConsumerDegraded] && es[..1][..0] == [];
    assert After(es[..1]) == INITIAL.(status := Degraded);
  }

  predicate IsTransition(h: Hook) {
    h in {OnDown, OnRecovered, OnQueueMissing}
  }

  /** The first event after i that leaves the class of event i. */
  lemma {:induction false} FirstChange(es: seq<HealthEvent>, i: nat, j: nat) returns (k: nat)
    requires i < j < |es| && ClassOf(es[j]) != ClassOf(es[i])
    ensures i < k <= j && ClassOf(es[k]) != ClassOf(es[i]) && ClassOf(es[k - 1]) == ClassOf(es[i])
    decreases j - i
  {
    if ClassOf(es[j - 1]) == ClassOf(es[i]) {
      k := j;
    } else {
      k := FirstChange(es, i, j - 1);
    }
  }

  /** Event k fires another transition hook than `hook`, or is a consumer write that counts as a change. */
  predicate Separates(es: seq<HealthEvent>, k: nat, hook: Hook)
    requires k < |es|
  {
    || (HookAt(es, k).Some? && IsTransition(HookAt(es, k).value) && HookAt(es, k) != Some(hook))
    || (es[k].ConsumerDegraded? && hook != OnQueueMissing)
  }

  /**
   Between two calls of one transition hook there is a call of another transition hook or a write
   by the consumer; for the queue-missing hook a consumer write does not do.
   */
  lemma TransitionHooksAlternate(es: seq<HealthEvent>, i: nat, j: nat, hook: Hook)
    requires i < j < |es| && IsTransition(hook) && HookAt(es, i) == HookAt(es, j) == Some(hook)
    ensures exists k: nat :: i < k < j && Separates(es, k, hook)
  {
    HookFromTwoEvents(es, i);
    HookFromTwoEvents(es, j);
    assert ClassOf(es[j]) == ClassOf(es[i]) != ClassOf(es[j - 1]);
    var k := FirstChange(es, i, j - 1);
    HookFromTwoEvents(es, k);
    assert Separates(es, k, hook);
  }

  /** A probe of the same class as the event before it fires no transition hook. */
  lemma RepeatedProbesAreQuiet(es: seq<HealthEvent>, i: nat)
    requires 0 < i < |es| && es[i].Probed? && ClassOf(es[i]) == ClassOf(es[i - 1])
    ensures HookAt(es, i).Some? ==> !IsTransition(HookAt(es, i).value)
  {
  }

  /** The hooks that format a time find it set. */
  lemma HooksFindTheirTimes(es: seq<HealthEvent>, i: nat)
    requires i < |es|
    ensures HookAt(es, i) == Some(OnDown) ==> After(es[..i + 1]).lastDead == Some(es[i].now)
    ensures HookAt(es, i) == Some(OnRecovered) ==> After(es[..i + 1]).lastAlive == Some(es[i].now)
  {
  }
}
