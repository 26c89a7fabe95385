/** The job functions and routes over the status store they share, field by field. */
module JobService {
  import opened Wrappers
  import J = Jobs
  import WS = WebSockets
  import CL = ConnectionList

  class Store {
    var jobStatus: map<nat, J.Record>
    var jobs: map<nat, J.Job>
    var sockets: WS.State

    ghost function Snapshot(): J.State
      reads this
    {
      J.State(jobStatus, jobs, sockets)
    }

    /** Some interleaving of jobs and sockets leads here. */
    ghost predicate Valid()
      reads this
    {
      exists es :: J.Run(es) == Some(Snapshot())
    }

    twostate predicate Did(e: J.Event)
      reads this
    {
      J.Enabled(old(Snapshot()), e) && Snapshot() == J.Next(old(Snapshot()), e)
    }

    lemma Reached(e: J.Event)
      requires Valid() && J.Enabled(Snapshot(), e)
      ensures exists es :: J.Run(es) == Some(J.Next(Snapshot(), e))
    {
      var es :| J.Run(es) == Some(Snapshot());
      var es', s := J.Extend(es, Snapshot(), e);
    }

    lemma JobInvHolds(id: nat)
      requires Valid() && id in jobStatus
      ensures J.JobInv(Snapshot(), id)
    {
      var es :| J.Run(es) == Some(Snapshot());
      J.ExecInv(J.START, es);
    }

    lemma SocketsInvHolds()
      requires Valid()
      ensures WS.Inv(sockets)
    {
      var es :| J.Run(es) == Some(Snapshot());
      J.ExecInv(J.START, es);
    }

    constructor ()
      ensures Valid() && Snapshot() == J.START
    {
      jobStatus, jobs, sockets := map[], map[], WS.START;
      new;
      assert J.Run([]) == Some(Snapshot());
    }

    /** Stores the initial record and hands back what the client polls for. */
    method SubmitJob(id: nat, isSync: bool) returns (shown: J.Record)
      requires Valid() && id !in jobStatus
      modifies this`jobStatus, this`jobs
      ensures Valid() && Did(J.Submitted(id, isSync))
      ensures jobs == old(jobs)[id := J.Job(isSync, J.Queued)]
      ensures jobStatus == old(jobStatus)[id := J.Record(J.Pending, None, None, None)]
      ensures shown == jobStatus[id] && shown.status == J.Pending
    {
      Reached(J.Submitted(id, isSync));
      jobStatus := jobStatus[id := J.Record(J.Pending, None, None, None)];
      jobs := jobs[id := J.Job(isSync, J.Queued)];
      shown := jobStatus[id];
    }

    /** None stands for the 404 answer. */
    method GetJobStatus(id: nat) returns (shown: Option<J.Record>)
      requires Valid()
      ensures shown.Some? <==> id in jobStatus
      ensures shown.Some? ==> shown.value == jobStatus[id] && J.Consistent(shown.value)
    {
      if id in jobStatus {
        JobInvHolds(id);
        shown := Some(jobStatus[id]);
      } else {
        shown := None;
      }
    }

    /** The first two statements of either path: the status, then the start time. */
    method Begin(id: nat, now: int)
      requires Valid() && J.AtStage(Snapshot(), id, J.Queued)
      modifies this`jobStatus, this`jobs
      ensures Valid() && jobStatus == old(jobStatus)[id := J.Record(J.Running, None, Some(now), None)]
      ensures jobs == old(jobs)[id := J.Job(old(jobs)[id].isSync, J.Working)]
    {
      JobInvHolds(id);
      Reached(J.MarkedRunning(id));
      jobStatus := jobStatus[id := jobStatus[id].(status := J.Running)];
      jobs := jobs[id := jobs[id].(stage := J.Marked)];
      Reached(J.StartStamped(id, now));
      jobStatus := jobStatus[id := jobStatus[id].(startedAt := Some(now))];
      jobs := jobs[id := jobs[id].(stage := J.Working)];
    }

    method RecordFailure(id: nat, error: string, now: int)
      requires Valid() && J.AtStage(Snapshot(), id, J.Working)
      modifies this`jobStatus, this`jobs
      ensures Valid()
      ensures jobStatus == old(jobStatus)[id := J.Record(J.Failed, Some(error), old(jobStatus)[id].startedAt, Some(now))]
      ensures jobs == old(jobs)[id := J.Job(old(jobs)[id].isSync, J.Ended)]
    {
      Reached(J.WorkRaised(id, error, now));
      jobStatus := jobStatus[id := jobStatus[id].(status := J.Failed, result := Some(error), finishedAt := Some(now))];
      jobs := jobs[id := jobs[id].(stage := J.Ended)];
    }

    /** The asynchronous path once its steps are gathered, up to the first send of its broadcast. */
    method FinishAsync(id: nat, result: string, now: int)
      requires Valid() && J.Enabled(Snapshot(), J.WorkDone(id, result, now)) && !jobs[id].isSync
      modifies this
      ensures Valid() && sockets == WS.Next(old(sockets), WS.CastStarted(id))
      ensures jobStatus == old(jobStatus)[id := J.Record(J.Done, Some(result), old(jobStatus)[id].startedAt, Some(now))]
      ensures jobs == old(jobs)[id := J.Job(false, if sockets.casts[id].Sending? then J.Notifying else J.Ended)]
    {
      Reached(J.WorkDone(id, result, now));
      FreshCastGoesOn(id);
      jobStatus := jobStatus[id := jobStatus[id].(status := J.Done, result := Some(result), finishedAt := Some(now))];
      sockets := WS.Next(sockets, WS.CastStarted(id));
      jobs := jobs[id := jobs[id].(stage := if sockets.casts[id].Sending? then J.Notifying else J.Ended)];
      assert Snapshot() == J.Next(old(Snapshot()), J.WorkDone(id, result, now));
    }

    /** A broadcast that starts either suspends in its first send or, with nobody listed, returns. */
    lemma FreshCastGoesOn(id: nat)
      requires WS.Enabled(sockets, WS.CastStarted(id))
      ensures var cast := WS.Next(sockets, WS.CastStarted(id)).casts[id]; cast.Sending? || cast.Completed?
    {
    }

    /** One awaited send of a job's broadcast ends, and the broadcast does not raise. */
    method SendReturns(id: nat, ok: bool)
      requires Valid() && J.AtStage(Snapshot(), id, J.Notifying) && WS.Enabled(sockets, WS.SendEnded(id, ok))
      requires !WS.Next(sockets, WS.SendEnded(id, ok)).casts[id].Raised?
      modifies this`sockets, this`jobs
      ensures Valid() && sockets == WS.Next(old(sockets), WS.SendEnded(id, ok))
      ensures jobs == old(jobs)[id := old(jobs)[id].(stage := if sockets.casts[id].Sending? then J.Notifying else J.Ended)]
    {
      var e := J.Socket(WS.SendEnded(id, ok), "", 0);
      Reached(e);
      sockets := WS.Next(sockets, WS.SendEnded(id, ok));
      jobs := jobs[id := jobs[id].(stage := if sockets.casts[id].Sending? then J.Notifying else J.Ended)];
      assert Snapshot() == J.Next(old(Snapshot()), e);
    }

    /** The sends of a job's broadcast, one after the other with nothing in between. */
    method Notify(id: nat, before: WS.State, ok: seq<bool>)
      requires Valid() && id in jobStatus && id !in before.casts && |ok| == |before.conns| && WS.Inv(before)
      requires sockets == WS.Next(before, WS.CastStarted(id))
      requires id in jobs && jobs[id] == J.Job(false, if before.conns == [] then J.Ended else J.Notifying)
      modifies this`sockets, this`jobs
      ensures Valid() && sockets == CL.Ended(before, id, ok)
      ensures jobs == old(jobs)[id := J.Job(false, J.Ended)]
    {
      CL.RoundStarts(before, id, ok);
      var i := 1;
      while i <= |before.conns|
        invariant Valid() && 1 <= i <= |before.conns| + 1
        invariant sockets == CL.InRound(before, id, i, ok)
        invariant jobs == old(jobs)[id := J.Job(false, if i > |before.conns| then J.Ended else J.Notifying)]
      {
        CL.RoundGoesOn(before, id, i, ok);
        SendReturns(id, ok[i - 1]);
        i := i + 1;
      }
    }

    /**
     The asynchronous job from start to end with nothing in between; ok[i] says whether its i-th send
     succeeds, `failure` is the exception its steps raise, if any. A job whose steps succeed stays
     done whichever sends fail: it has sent to every listed socket in order, and exactly those that
     answered stay listed, in order.
     */
    method AsyncJob(id: nat, started: int, finished: int, result: string, failure: Option<string>, ok: seq<bool>)
      requires Valid() && J.AtStage(Snapshot(), id, J.Queued) && !jobs[id].isSync && |ok| == |sockets.conns|
      modifies this
      ensures Valid() && jobs == old(jobs)[id := J.Job(false, J.Ended)]
      ensures jobStatus == old(jobStatus)[id :=
                if failure.Some? then J.Record(J.Failed, failure, Some(started), Some(finished))
                else J.Record(J.Done, Some(result), Some(started), Some(finished))]
      ensures failure.Some? ==> sockets == old(sockets)
      ensures failure.None? ==>
                && sockets.conns == CL.Survivors(old(sockets).conns, ok)
                && sockets.casts == old(sockets).casts[id :=
                     WS.Completed(old(sockets).conns, CL.Casualties(old(sockets).conns, ok))]
                && sockets.seen == old(sockets).seen && sockets.online == old(sockets).online
    {
      JobInvHolds(id);
      SocketsInvHolds();
      var before := sockets;
      Begin(id, started);
      if failure.Some? {
        RecordFailure(id, failure.value, finished);
        return;
      }
      FinishAsync(id, result, finished);
      Notify(id, before, ok);
    }

    /** The blocking job from start to end; `failure` is the exception its work raises, if any. */
    method BlockingJob(id: nat, started: int, finished: int, result: string, failure: Option<string>)
      requires Valid() && J.AtStage(Snapshot(), id, J.Queued) && jobs[id].isSync
      modifies this
      ensures Valid() && sockets == old(sockets)
      ensures jobStatus == old(jobStatus)[id :=
                if failure.Some? then J.Record(J.Failed, failure, Some(started), Some(finished))
                else J.Record(J.Done, Some(result), Some(started), Some(finished))]
      ensures jobs == old(jobs)[id := J.Job(true, J.Ended)]
    {
      JobInvHolds(id);
      Begin(id, started);
      if failure.Some? {
        RecordFailure(id, failure.value, finished);
      } else {
        Reached(J.WorkDone(id, result, finished));
        jobStatus := jobStatus[id := jobStatus[id].(status := J.Done, result := Some(result), finishedAt := Some(finished))];
        jobs := jobs[id := jobs[id].(stage := J.Ended)];
      }
    }
  }
}
