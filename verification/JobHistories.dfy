/** What a job's record says of the run that led to it, and which path the job took. */
module JobHistories {
  import opened Wrappers
  import opened Jobs
  import WS = WebSockets

  lemma InLonger(es: seq<Event>, e: Event)
    requires es != []
    ensures e in es <==> e in es[..|es| - 1] || e == es[|es| - 1]
  {
    assert es == es[..|es| - 1] + [es[|es| - 1]];
  }

  // ----- the dispatch

  /** A job takes the path that its submission asked for, and is submitted once. */
  lemma {:induction false} SubmittedAs(es: seq<Event>, id: nat, isSync: bool)
    requires Run(es).Some?
    ensures var s := Run(es).value;
            && (id in s.store <==> id in s.jobs)
            && (Submitted(id, isSync) in es <==> id in s.jobs && s.jobs[id].isSync == isSync)
  {
    if es != [] {
      var p := es[..|es| - 1];
      SubmittedAs(p, id, isSync);
      InLonger(es, Submitted(id, isSync));
    }
  }

  /** The job's work has returned in this run. */
  ghost predicate Worked(es: seq<Event>, id: nat) {
    exists result, now :: WorkDone(id, result, now) in es
  }

  lemma WorkedLonger(es: seq<Event>, id: nat)
    requires es != []
    ensures Worked(es, id) <==> Worked(es[..|es| - 1], id) || (es[|es| - 1].WorkDone? && es[|es| - 1].id == id)
  {
    var e := es[|es| - 1];
    assert es == es[..|es| - 1] + [e];
    if e.WorkDone? && e.id == id {
      assert WorkDone(id, e.result, e.now) in es;
    }
    if Worked(es[..|es| - 1], id) {
      var result, now :| WorkDone(id, result, now) in es[..|es| - 1];
      assert WorkDone(id, result, now) in es;
    }
  }

  /** A job broadcasts iff it was submitted as asynchronous and its work has returned. */
  lemma {:induction false} BroadcastsIffAsync(es: seq<Event>, id: nat)
    requires Run(es).Some?
    ensures id in Run(es).value.sockets.casts <==> Submitted(id, false) in es && Worked(es, id)
  {
    if es != [] {
      var p, e := es[..|es| - 1], es[|es| - 1];
      BroadcastsIffAsync(p, id);
      SubmittedAs(p, id, false);
      InLonger(es, Submitted(id, false));
      WorkedLonger(es, id);
      ExecInv(START, p);
      if id !in Run(p).value.store {
        NoWorkBeforeSubmission(p, id);
      }
      if Subject(e) != Some(id) {
        SocketsStep(Run(p).value, e, id);
      }
    }
  }

  /** A job submitted as synchronous never broadcasts, in no run and at no point of it. */
  lemma SyncNeverBroadcasts(es: seq<Event>, id: nat)
    requires Run(es).Some? && Submitted(id, true) in es
    ensures Submitted(id, false) !in es && id !in Run(es).value.sockets.casts
    ensures !AtStage(Run(es).value, id, Notifying)
  {
    SubmittedAs(es, id, true);
    SubmittedAs(es, id, false);
    BroadcastsIffAsync(es, id);
    ExecInv(START, es);
    assert JobInv(Run(es).value, id);
  }

  lemma {:induction false} NoWorkBeforeSubmission(es: seq<Event>, id: nat)
    requires Run(es).Some? && id !in Run(es).value.store
    ensures forall e | e in es :: Subject(e) != Some(id)
  {
    if es != [] {
      var p, e := es[..|es| - 1], es[|es| - 1];
      assert es == p + [e];
      if Subject(e) != Some(id) {
        OtherJobsUntouched(Run(p).value, e, id);
      }
      NoWorkBeforeSubmission(p, id);
    }
  }

  // ----- the record

  ghost predicate StartTold(es: seq<Event>, s: State, id: nat) {
    && id in s.store && id in s.jobs
    && (MarkedRunning(id) in es <==> s.store[id].status != Pending)
    && (forall now :: StartStamped(id, now) in es <==> s.store[id].startedAt == Some(now))
    && (s.jobs[id].stage == Marked ==> s.store[id].startedAt.None?)
  }

  lemma StartToldStep(p: seq<Event>, s: State, e: Event, id: nat)
    requires Inv(s) && Enabled(s, e) && StartTold(p, s, id)
    ensures StartTold(p + [e], Next(s, e), id)
  {
    assert JobInv(s, id);
    var es := p + [e];
    assert MarkedRunning(id) in es <==> MarkedRunning(id) in p || e == MarkedRunning(id);
    assert forall now :: StartStamped(id, now) in es <==> StartStamped(id, now) in p || e == StartStamped(id, now);
    if Subject(e) != Some(id) {
      OtherJobsUntouched(s, e, id);
    }
  }

  /** A job is past pending iff it was marked running; its start time is the one it was stamped with. */
  lemma {:induction false} StartRecorded(es: seq<Event>, id: nat)
    requires Run(es).Some? && id in Run(es).value.store
    ensures StartTold(es, Run(es).value, id)
  {
    var p, e := es[..|es| - 1], es[|es| - 1];
    assert es == p + [e];
    ExecInv(START, p);
    if id in Run(p).value.store {
      StartRecorded(p, id);
      StartToldStep(p, Run(p).value, e, id);
    } else {
      NoWorkBeforeSubmission(p, id);
      if Subject(e) != Some(id) {
        OtherJobsUntouched(Run(p).value, e, id);
      }
    }
  }

  /** Some send of the job's broadcast ends in this run, with what an exception out of it would be recorded as. */
  ghost predicate RaisedOutOfSend(es: seq<Event>, id: nat, error: string, now: int) {
    exists ok :: Socket(WS.SendEnded(id, ok), error, now) in es
  }

  /** How the record's end came about. */
  ghost predicate EndTold(es: seq<Event>, s: State, id: nat) {
    && id in s.store
    && var r := s.store[id];
       match r.status
       case Done =>
         && r.result.Some? && r.finishedAt.Some?
         && (forall result, now :: WorkDone(id, result, now) in es <==>
                                     r.result == Some(result) && r.finishedAt == Some(now))
         && (forall error, now :: WorkRaised(id, error, now) !in es)
       case Failed =>
         && r.result.Some? && r.finishedAt.Some?
         && if id in s.sockets.casts
            then s.sockets.casts[id].Raised? && RaisedOutOfSend(es, id, r.result.value, r.finishedAt.value)
                 && (forall error, now :: WorkRaised(id, error, now) !in es)
            else (forall error, now :: WorkRaised(id, error, now) in es <==>
                                         r.result == Some(error) && r.finishedAt == Some(now))
                 && (forall result, now :: WorkDone(id, result, now) !in es)
       case _ =>
         && r.result.None? && r.finishedAt.None?
         && (forall result, now :: WorkDone(id, result, now) !in es)
         && (forall error, now :: WorkRaised(id, error, now) !in es)
  }

  lemma EndToldOther(p: seq<Event>, s: State, e: Event, id: nat)
    requires Enabled(s, e) && EndTold(p, s, id) && Subject(e) != Some(id)
    ensures EndTold(p + [e], Next(s, e), id)
  {
    OtherJobsUntouched(s, e, id);
    SocketsStep(s, e, id);
    var es := p + [e];
    assert forall x :: x in es <==> x in p || x == e;
  }

  lemma EndToldQuiet(p: seq<Event>, s: State, e: Event, id: nat)
    requires Inv(s) && Enabled(s, e) && EndTold(p, s, id)
    requires e == MarkedRunning(id) || (e.StartStamped? && e.id == id) || e == Interrupted(id)
    ensures EndTold(p + [e], Next(s, e), id)
  {
    assert JobInv(s, id);
    assert forall x :: x in p + [e] <==> x in p || x == e;
    var r, r' := s.store[id], Next(s, e).store[id];
    assert r'.result == r.result && r'.finishedAt == r.finishedAt;
    assert Terminal(r') <==> Terminal(r);
    assert Terminal(r) ==> r' == r;
  }

  lemma EndToldWork(p: seq<Event>, s: State, e: Event, id: nat)
    requires Inv(s) && Enabled(s, e) && EndTold(p, s, id) && (e.WorkDone? || e.WorkRaised?) && e.id == id
    ensures EndTold(p + [e], Next(s, e), id)
  {
    assert JobInv(s, id);
    assert !Terminal(s.store[id]) && id !in s.sockets.casts;
    var es := p + [e];
    assert forall result, now :: WorkDone(id, result, now) in es <==> e == WorkDone(id, result, now);
    assert forall error, now :: WorkRaised(id, error, now) in es <==> e == WorkRaised(id, error, now);
    if e.WorkDone? {
      WorkDoneIsSafe(s, e);
      var r := Next(s, e).store[id];
      assert r.result == Some(e.result) && r.finishedAt == Some(e.now);
    }
  }

  lemma EndToldSend(p: seq<Event>, s: State, e: Event, id: nat)
    requires Inv(s) && Enabled(s, e) && EndTold(p, s, id) && e.Socket? && e.e.SendEnded? && e.e.cast == id
    ensures EndTold(p + [e], Next(s, e), id)
  {
    assert JobInv(s, id);
    var es := p + [e];
    assert forall result, now :: WorkDone(id, result, now) in es <==> WorkDone(id, result, now) in p;
    assert forall error, now :: WorkRaised(id, error, now) in es <==> WorkRaised(id, error, now) in p;
    assert Socket(WS.SendEnded(id, e.e.ok), e.error, e.now) in es;
  }

  lemma EndToldOwn(p: seq<Event>, s: State, e: Event, id: nat)
    requires Inv(s) && Enabled(s, e) && EndTold(p, s, id) && Subject(e) == Some(id)
    ensures EndTold(p + [e], Next(s, e), id)
  {
    match e
    case WorkDone(_, _, _) => EndToldWork(p, s, e, id);
    case WorkRaised(_, _, _) => EndToldWork(p, s, e, id);
    case Socket(_, _, _) => EndToldSend(p, s, e, id);
    case Submitted(_, _) => assert false;
    case _ => EndToldQuiet(p, s, e, id);
  }

  /**
   The record says how the job ended: done with what its work returned, failed with what its work
   raised, or failed with what came out of its broadcast; unfinished, also when it was cancelled at
   work, with neither result nor finish time.
   */
  lemma {:induction false} EndRecorded(es: seq<Event>, id: nat)
    requires Run(es).Some? && id in Run(es).value.store
    ensures EndTold(es, Run(es).value, id)
  {
    var p, e := es[..|es| - 1], es[|es| - 1];
    assert es == p + [e];
    ExecInv(START, p);
    if id !in Run(p).value.store {
      NoWorkBeforeSubmission(p, id);
      if Subject(e) != Some(id) {
        OtherJobsUntouched(Run(p).value, e, id);
      }
    } else {
      EndRecorded(p, id);
      if Subject(e) == Some(id) {
        EndToldOwn(p, Run(p).value, e, id);
      } else {
        EndToldOther(p, Run(p).value, e, id);
      }
    }
  }
}
