/**
 Background jobs over the shared status store, on both execution paths, together with the sockets
 that a finished asynchronous job broadcasts to. Job ids are fresh on submission.
 */
module Jobs {
  import opened Wrappers
  import WS = WebSockets

  datatype Status = Pending | Running | Done | Failed

  datatype Record = Record(status: Status, result: Option<string>, startedAt: Option<int>, finishedAt: Option<int>)

  const SUBMITTED := Record(Pending, None, None, None)

  /** Where the job's code is. */
  datatype Stage =
    | Queued
    | Marked            // status written, start time not yet: a reader on another thread may see this
    | Working
    | Notifying         // asynchronous path only: inside broadcast_ws
    | Ended

  datatype Job = Job(isSync: bool, stage: Stage)

  datatype State = State(store: map<nat, Record>, jobs: map<nat, Job>, sockets: WS.State)

  const START := State(map[], map[], WS.START)

  datatype Event =
    | Submitted(id: nat, isSync: bool)
    | MarkedRunning(id: nat)
    | StartStamped(id: nat, now: int)
    | WorkDone(id: nat, result: string, now: int)
    | WorkRaised(id: nat, error: string, now: int)
    | Interrupted(id: nat)                                // CancelledError: not an Exception, nothing is recorded
    | Socket(e: WS.Event, error: string, now: int)        // `error` and `now` matter if a broadcast raises

  predicate AtStage(s: State, id: nat, stage: Stage) {
    id in s.store && id in s.jobs && s.jobs[id].stage == stage
  }

  predicate Enabled(s: State, e: Event) {
    match e
    case Submitted(id, _) => id !in s.store
    case MarkedRunning(id) => AtStage(s, id, Queued)
    case StartStamped(id, _) => AtStage(s, id, Marked)
    case WorkDone(id, _, _) => AtStage(s, id, Working) && id !in s.sockets.casts
    case WorkRaised(id, _, _) => AtStage(s, id, Working)
    case Interrupted(id) => (AtStage(s, id, Working) || AtStage(s, id, Notifying)) && !s.jobs[id].isSync
    case Socket(w, _, _) =>
      && WS.Enabled(s.sockets, w)
      && !w.CastStarted?
      && (w.SendEnded? ==> AtStage(s, w.cast, Notifying))
  }

  function Move(s: State, id: nat, stage: Stage, r: Record): State
    requires id in s.jobs
  {
    s.(jobs := s.jobs[id := s.jobs[id].(stage := stage)], store := s.store[id := r])
  }

  function FailedWith(r: Record, error: string, now: int): Record {
    r.(status := Failed, result := Some(error), finishedAt := Some(now))
  }

  /** The job's code after its broadcast has moved on: still sending, returned, or raised. */
  function AfterCast(s: State, id: nat, error: string, now: int): State
    requires id in s.jobs && id in s.store && id in s.sockets.casts
  {
    match s.sockets.casts[id]
    case Sending(_, _, _, _) => Move(s, id, Notifying, s.store[id])
    case Completed(_, _) => Move(s, id, Ended, s.store[id])
    case Raised(_, _) => Move(s, id, Ended, FailedWith(s.store[id], error, now))
  }

  function Next(s: State, e: Event): State
    requires Enabled(s, e)
  {
    match e
    case Submitted(id, isSync) =>
      s.(store := s.store[id := SUBMITTED], jobs := s.jobs[id := Job(isSync, Queued)])
    case MarkedRunning(id) => Move(s, id, Marked, s.store[id].(status := Running))
    case StartStamped(id, now) => Move(s, id, Working, s.store[id].(startedAt := Some(now)))
    case WorkDone(id, result, now) =>
      var done := s.store[id].(status := Done, result := Some(result), finishedAt := Some(now));
      if s.jobs[id].isSync then Move(s, id, Ended, done)
      else
        AfterCast(s.(store := s.store[id := done], sockets := WS.Next(s.sockets, WS.CastStarted(id))), id, "", now)
    case WorkRaised(id, error, now) => Move(s, id, Ended, FailedWith(s.store[id], error, now))
    case Interrupted(id) => Move(s, id, Ended, s.store[id])
    case Socket(w, error, now) =>
      var s' := s.(sockets := WS.Next(s.sockets, w));
      if w.SendEnded? then AfterCast(s', w.cast, error, now) else s'
  }

  function Exec(s: State, es: seq<Event>): Option<State> {
    if es == [] then Some(s)
    else
      match Exec(s, es[..|es| - 1])
      case None => None
      case Some(s') => if Enabled(s', es[|es| - 1]) then Some(Next(s', es[|es| - 1])) else None
  }

  function Run(es: seq<Event>): Option<State> {
    Exec(START, es)
  }

  // ----- what every event keeps

  function Rank(status: Status): nat {
    match status
    case Pending => 0
    case Running => 1
    case Done => 2
    case Failed => 3
  }

  predicate Terminal(r: Record) {
    r.status == Done || r.status == Failed
  }

  /** A record is consistent: no result before the end, and at the end both times. */
  predicate Consistent(r: Record) {
    && (!Terminal(r) ==> r.result.None? && r.finishedAt.None?)
    && (Terminal(r) ==> r.result.Some? && r.startedAt.Some? && r.finishedAt.Some?)
    && (r.status == Pending ==> r.startedAt.None?)
  }

  ghost predicate JobInv(s: State, id: nat) {
    && id in s.store && id in s.jobs
    && Consistent(s.store[id])
    && match s.jobs[id].stage
       case Queued => s.store[id] == SUBMITTED && id !in s.sockets.casts
       case Marked => s.store[id].status == Running && id !in s.sockets.casts
       case Working => s.store[id].status == Running && s.store[id].startedAt.Some? && id !in s.sockets.casts
       case Notifying => s.store[id].status == Done && !s.jobs[id].isSync && id in s.sockets.casts
                         && s.sockets.casts[id].Sending?
       case Ended => s.store[id].status != Pending
  }

  ghost predicate Inv(s: State) {
    && (forall id | id in s.store :: JobInv(s, id))
    && (forall id | id in s.sockets.casts :: id in s.store)
    && WS.Inv(s.sockets)
  }

  /** The job an event belongs to. */
  function Subject(e: Event): Option<nat> {
    match e
    case Socket(w, _, _) => if w.SendEnded? then Some(w.cast) else None
    case _ => Some(e.id)
  }

  lemma SocketsStep(s: State, e: Event, b: nat)
    requires Enabled(s, e) && Subject(e) != Some(b)
    ensures b in Next(s, e).sockets.casts <==> b in s.sockets.casts
    ensures b in s.sockets.casts ==> Next(s, e).sockets.casts[b] == s.sockets.casts[b]
  {
  }

  /** No event changes another job's record or stage. */
  lemma OtherJobsUntouched(s: State, e: Event, id: nat)
    requires Enabled(s, e) && Subject(e) != Some(id)
    ensures id in Next(s, e).store <==> id in s.store
    ensures id in s.store ==> Next(s, e).store[id] == s.store[id]
    ensures id in s.jobs ==> id in Next(s, e).jobs && Next(s, e).jobs[id] == s.jobs[id]
  {
  }

  lemma SubjectStep(s: State, e: Event, id: nat)
    requires Inv(s) && Enabled(s, e) && Subject(e) == Some(id)
    ensures JobInv(Next(s, e), id)
  {
  }

  lemma SocketsInv(s: State, e: Event)
    requires Inv(s) && Enabled(s, e)
    ensures WS.Inv(Next(s, e).sockets)
  {
    match e
    case WorkDone(id, _, _) =>
      if !s.jobs[id].isSync {
        WS.InvStep(s.sockets, WS.CastStarted(id));
      }
    case Socket(w, _, _) => WS.InvStep(s.sockets, w);
    case _ =>
  }

  lemma InvStep(s: State, e: Event)
    requires Inv(s) && Enabled(s, e)
    ensures Inv(Next(s, e))
  {
    var s' := Next(s, e);
    SocketsInv(s, e);
    forall id | id in s'.store ensures JobInv(s', id) {
      if Subject(e) == Some(id) {
        SubjectStep(s, e, id);
      } else {
        OtherJobsUntouched(s, e, id);
        SocketsStep(s, e, id);
        assert JobInv(s, id);
      }
    }
    forall b | b in s'.sockets.casts ensures b in s'.store {
      if Subject(e) != Some(b) {
        OtherJobsUntouched(s, e, b);
        SocketsStep(s, e, b);
      } else {
        SubjectStep(s, e, b);
      }
    }
  }

  lemma {:induction false} ExecInv(s: State, es: seq<Event>)
    requires Inv(s) && Exec(s, es).Some?
    ensures Inv(Exec(s, es).value)
  {
    if es != [] {
      ExecInv(s, es[..|es| - 1]);
      InvStep(Exec(s, es[..|es| - 1]).value, es[|es| - 1]);
    }
  }

  /** In every run, every record is consistent. */
  lemma RecordsConsistent(es: seq<Event>, id: nat)
    requires Run(es).Some? && id in Run(es).value.store
    ensures Consistent(Run(es).value.store[id])
  {
    ExecInv(START, es);
    assert JobInv(Run(es).value, id);
  }

  lemma RankStep(s: State, e: Event, id: nat)
    requires Inv(s) && Enabled(s, e) && id in s.store
    ensures id in Next(s, e).store && Rank(s.store[id].status) <= Rank(Next(s, e).store[id].status)
    ensures Terminal(s.store[id]) && Next(s, e).store[id] != s.store[id] ==>
              s.store[id].status == Done && Next(s, e).store[id].status == Failed
  {
  }

  /** Status never goes back, however jobs interleave. */
  lemma {:induction false} StatusNeverDecreases(s: State, es: seq<Event>, id: nat)
    requires Inv(s) && Exec(s, es).Some? && id in s.store
    ensures id in Exec(s, es).value.store
    ensures Rank(s.store[id].status) <= Rank(Exec(s, es).value.store[id].status)
  {
    if es != [] {
      var p := es[..|es| - 1];
      StatusNeverDecreases(s, p, id);
      ExecInv(s, p);
      RankStep(Exec(s, p).value, es[|es| - 1], id);
    }
  }

  /**
   A finished record changes again iff the job's broadcast raises: its last send has ended and a
   socket whose send failed is no longer listed. The job was asynchronous, and turns from done to
   failed.
   */
  lemma DoneTurnsFailedIff(es: seq<Event>, e: Event, id: nat)
    requires Run(es).Some? && Enabled(Run(es).value, e)
    requires id in Run(es).value.store && Run(es).value.store[id].status == Done
    ensures var s := Run(es).value;
            Next(s, e).store[id].status == Failed <==>
              && e.Socket? && e.e.SendEnded? && e.e.cast == id
              && !s.jobs[id].isSync
              && s.sockets.casts[id].next >= |s.sockets.conns|
              && exists ws :: ws in WS.DeadAfter(s.sockets.casts[id], e.e.ok) && ws !in s.sockets.conns
    ensures var s := Run(es).value;
            Next(s, e).store[id].status == Failed ==>
              Next(s, e).store[id] == Record(Failed, Some(e.error), s.store[id].startedAt, Some(e.now))
  {
    ExecInv(START, es);
    var s := Run(es).value;
    assert JobInv(s, id);
    if Subject(e) == Some(id) {
      if e.Socket? {
        var cast := s.sockets.casts[id];
        assert WS.CastInv(s.sockets, cast);
        WS.DeadAfterInv(s.sockets, cast, e.e.ok);
        WS.RaisesIff(s.sockets, id, WS.DeadAfter(cast, e.e.ok), cast.visited);
      }
    } else {
      OtherJobsUntouched(s, e, id);
    }
  }

  // ----- a broadcast that nothing leaves the list during

  /** No socket leaves the list in this event, except by the job's own broadcast. */
  predicate Harmless(s: State, e: Event, id: nat) {
    Enabled(s, e) && Subject(e) != Some(id) ==> s.sockets.conns <= Next(s, e).sockets.conns
  }

  ghost predicate HarmlessRun(s: State, es: seq<Event>, id: nat) {
    forall i: nat | i < |es| && Exec(s, es[..i]).Some? :: Harmless(Exec(s, es[..i]).value, es[i], id)
  }

  /** Done for good, or still broadcasting to a list that only it prunes. */
  ghost predicate SafelyDone(s: State, id: nat) {
    && id in s.store && id in s.jobs
    && s.store[id].status == Done
    && (s.jobs[id].stage == Ended || (s.jobs[id].stage == Notifying && WS.Undisturbed(s.sockets, id)))
  }

  lemma SafelyDoneStep(s: State, e: Event, id: nat)
    requires Inv(s) && Enabled(s, e) && SafelyDone(s, id) && Harmless(s, e, id)
    ensures SafelyDone(Next(s, e), id)
  {
    assert JobInv(s, id);
    if Subject(e) == Some(id) {
      if e.Socket? {
        WS.QuietStep(s.sockets, id, e.e);
      }
    } else {
      OtherJobsUntouched(s, e, id);
      SocketsStep(s, e, id);
      if s.jobs[id].stage == Notifying {
        WS.GrowthUndisturbed(s.sockets, Next(s, e).sockets, id);
      }
    }
  }

  lemma WorkDoneIsSafe(s: State, e: Event)
    requires Inv(s) && Enabled(s, e) && e.WorkDone?
    ensures SafelyDone(Next(s, e), e.id)
  {
  }

  lemma {:induction false} StaysDone(s: State, es: seq<Event>, id: nat)
    requires Inv(s) && SafelyDone(s, id) && Exec(s, es).Some? && HarmlessRun(s, es, id)
    ensures SafelyDone(Exec(s, es).value, id)
  {
    if es != [] {
      var n := |es| - 1;
      var p := es[..n];
      forall i: nat | i < n && Exec(s, p[..i]).Some? ensures Harmless(Exec(s, p[..i]).value, p[i], id) {
        assert p[..i] == es[..i];
      }
      StaysDone(s, p, id);
      ExecInv(s, p);
      SafelyDoneStep(Exec(s, p).value, es[n], id);
    }
  }

  /**
   Done is final on either path as long as no socket leaves the list, through its endpoint or
   another job's broadcast, while this job's broadcast runs.
   */
  lemma DoneIsFinalUndisturbed(es: seq<Event>, e: Event, more: seq<Event>)
    requires Run(es).Some? && e.WorkDone? && Enabled(Run(es).value, e)
    requires var s := Next(Run(es).value, e); Exec(s, more).Some? && HarmlessRun(s, more, e.id)
    ensures var end := Exec(Next(Run(es).value, e), more).value;
            e.id in end.store && end.store[e.id].status == Done
  {
    ExecInv(START, es);
    InvStep(Run(es).value, e);
    WorkDoneIsSafe(Run(es).value, e);
    StaysDone(Next(Run(es).value, e), more, e.id);
  }

  /** On the synchronous path done is final in every interleaving. */
  lemma {:induction false} SyncDoneIsFinal(s: State, es: seq<Event>, id: nat)
    requires Exec(s, es).Some?
    requires id in s.store && id in s.jobs && s.jobs[id] == Job(true, Ended)
    ensures var end := Exec(s, es).value;
            && id in end.store && id in end.jobs
            && end.jobs[id] == s.jobs[id] && end.store[id] == s.store[id]
  {
    if es != [] {
      var p, e := es[..|es| - 1], es[|es| - 1];
      SyncDoneIsFinal(s, p, id);
      var s' := Exec(s, p).value;
      assert Subject(e) != Some(id);
      OtherJobsUntouched(s', e, id);
    }
  }

  // ----- a done job that turns failed

  lemma Extend(es: seq<Event>, s: State, e: Event) returns (es': seq<Event>, s': State)
    requires Run(es) == Some(s) && Enabled(s, e)
    ensures es' == es + [e] && s' == Next(s, e) && Run(es') == Some(s')
  {
    es', s' := es + [e], Next(s, e);
    assert es'[..|es|] == es;
  }

  const LISTED := WS.State([7], {7}, {7}, map[])

  /** One socket is listed and one asynchronous job works. */
  lemma WorkingWithOneSocket() returns (es: seq<Event>, s: State)
    ensures Run(es) == Some(s)
    ensures s == State(map[0 := Record(Running, None, Some(0), None)], map[0 := Job(false, Working)], LISTED)
  {
    es, s := Extend([], START, Socket(WS.Connect(7), "", 0));
    assert s == State(map[], map[], LISTED);
    es, s := Extend(es, s, Submitted(0, false));
    assert s == State(map[0 := SUBMITTED], map[0 := Job(false, Queued)], LISTED);
    es, s := Extend(es, s, MarkedRunning(0));
    assert s == State(map[0 := Record(Running, None, None, None)], map[0 := Job(false, Marked)], LISTED);
    es, s := Extend(es, s, StartStamped(0, 0));
  }

  lemma FirstSend()
    ensures WS.Next(LISTED, WS.CastStarted(0)) == LISTED.(casts := map[0 := WS.Sending(7, 1, [7], [])])
  {
    var visited: seq<nat> := [];
    assert visited + [7] == [7];
  }

  /** One socket is listed and one asynchronous job is inside its broadcast's send to it. */
  lemma NotifyingOneSocket() returns (es: seq<Event>, s: State)
    ensures Run(es) == Some(s) && 0 in s.store && s.store[0].status == Done
    ensures AtStage(s, 0, Notifying) && !s.jobs[0].isSync
    ensures s.sockets.conns == [7] && 7 in s.sockets.online
    ensures 0 in s.sockets.casts && s.sockets.casts[0] == WS.Sending(7, 1, [7], [])
  {
    es, s := WorkingWithOneSocket();
    FirstSend();
    es, s := Extend(es, s, WorkDone(0, "fetched", 1));
  }

  /** The socket leaves while it is being sent to, the send fails, and the finished job turns failed. */
  lemma DoneCanTurnFailed()
    ensures exists es, e :: Run(es).Some? && Enabled(Run(es).value, e)
                            && 0 in Run(es).value.store && Run(es).value.store[0].status == Done
                            && Next(Run(es).value, e).store[0].status == Failed
  {
    var es, s := NotifyingOneSocket();
    es, s := Extend(es, s, Socket(WS.Disconnect(7), "", 2));
    assert s.sockets.conns == [];
    var e := Socket(WS.SendEnded(0, false), "remove(x): x not in list", 3);
    assert WS.Prune([], [7]) == WS.Pruned([], false);
    assert Next(s, e).store[0].status == Failed;
  }
}
