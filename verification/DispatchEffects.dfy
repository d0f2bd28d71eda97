/** The effect of one event on one job: which rows and timers it touches, and how. */
module DispatchEffects {
  import opened Protocol
  import opened Selection
  import opened Dispatch
  import opened DispatchInvariant

  // ---- Removing workers ----

  lemma DropMovesRows(s: State, i: nat, j: JobId)
    requires i < |s.workers| && j in s.jobs && !IsDemo(j)
    ensures Drop(s, i).jobs.Keys == s.jobs.Keys
    ensures Drop(s, i).jobs[j] ==
              if s.workers[i].active == Some(j) then s.jobs[j].(status := Failed(WorkerDisconnected)) else s.jobs[j]
  {
  }

  lemma DropMovesHolder(s: State, i: nat, j: JobId)
    requires NoSharedJob(s.workers) && i < |s.workers|
    ensures NoSharedJob(Drop(s, i).workers)
    ensures var h, h' := HolderOf(s.workers, j), HolderOf(Drop(s, i).workers, j);
            && (h == i || h == |s.workers| ==> h' == |Drop(s, i).workers|)
            && (h != i && h < |s.workers| ==>
                  h' < |Drop(s, i).workers| && Drop(s, i).workers[h'] == s.workers[h])
  {
    var ws, ws' := s.workers, Drop(s, i).workers;
    assert Removed(ws, ws', i);
    RemovalKeepsJobsApart(ws, ws', i);
    RemovalMovesHolder(ws, ws', i, j);
  }

  lemma RemovalMovesHolder(ws: seq<Worker>, ws': seq<Worker>, i: nat, j: JobId)
    requires NoSharedJob(ws) && NoSharedJob(ws') && Removed(ws, ws', i)
    ensures var h, h' := HolderOf(ws, j), HolderOf(ws', j);
            && (h == i || h == |ws| ==> h' == |ws'|)
            && (h != i && h < |ws| ==> h' < |ws'| && ws'[h'] == ws[h])
  {
    var h := HolderOf(ws, j);
    if h < |ws| && h != i {
      HolderSurvives(ws, ws', i, j);
    } else {
      HolderIsGone(ws, ws', i, j);
    }
  }

  lemma HolderIsGone(ws: seq<Worker>, ws': seq<Worker>, i: nat, j: JobId)
    requires NoSharedJob(ws) && Removed(ws, ws', i) && (HolderOf(ws, j) == i || HolderOf(ws, j) == |ws|)
    ensures HolderOf(ws', j) == |ws'|
  {
    forall k | 0 <= k < |ws'| ensures ws'[k].active != Some(j) {
      assert ws'[k] == ws[if k < i then k else k + 1];
      assert ws[i].active == Some(j) || forall m :: 0 <= m < |ws| ==> ws[m].active != Some(j);
    }
  }

  lemma HolderSurvives(ws: seq<Worker>, ws': seq<Worker>, i: nat, j: JobId)
    requires NoSharedJob(ws') && Removed(ws, ws', i) && HolderOf(ws, j) < |ws| && HolderOf(ws, j) != i
    ensures HolderOf(ws', j) < |ws'| && ws'[HolderOf(ws', j)] == ws[HolderOf(ws, j)]
  {
    var h := HolderOf(ws, j);
    var k := if h < i then h else h - 1;
    assert ws'[k] == ws[h];
    HolderIsUnique(ws', k, j);
  }

  /** The job is held by a worker that pruning at this instant would remove. */
  predicate HeldByStale(s: State, now: int, j: JobId) {
    var h := HolderOf(s.workers, j);
    h < |s.workers| && Stale(s.workers[h], now)
  }

  /** What pruning does to the row of a job: it fails exactly the rows held by stale workers. */
  lemma {:induction false} PruneMovesRows(s: State, now: int, i: nat, j: JobId)
    requires NoSharedJob(s.workers) && i <= |s.workers| && j in s.jobs && !IsDemo(j)
    requires forall k :: 0 <= k < i ==> !Stale(s.workers[k], now)
    ensures PruneFrom(s, now, i).jobs.Keys == s.jobs.Keys
    ensures PruneFrom(s, now, i).jobs[j] ==
              if HeldByStale(s, now, j) then s.jobs[j].(status := Failed(WorkerDisconnected)) else s.jobs[j]
    decreases |s.workers| - i
  {
    if i < |s.workers| {
      if Stale(s.workers[i], now) {
        var s' := Drop(s, i);
        DropMovesRows(s, i, j);
        DropMovesHolder(s, i, j);
        assert forall k :: 0 <= k < i ==> s'.workers[k] == s.workers[k];
        PruneMovesRows(s', now, i, j);
        if s.workers[i].active == Some(j) { HolderIsUnique(s.workers, i, j); }
      } else {
        PruneMovesRows(s, now, i + 1, j);
      }
    } else {
      assert !HeldByStale(s, now, j);
    }
  }

  lemma {:induction false} PruneInsertsNothing(s: State, now: int, i: nat)
    requires i <= |s.workers|
    ensures PruneFrom(s, now, i).jobs.Keys == s.jobs.Keys
    decreases |s.workers| - i
  {
    if i < |s.workers| {
      if Stale(s.workers[i], now) {
        assert Drop(s, i).jobs.Keys == s.jobs.Keys;
        PruneInsertsNothing(Drop(s, i), now, i);
      } else {
        PruneInsertsNothing(s, now, i + 1);
      }
    }
  }

  // ---- One event, one job ----

  /** The row and the timer of job j are the same in both states. */
  ghost predicate SameFor(s: State, s': State, j: JobId) {
    SameRow(s, s', j) && SameTimer(s, s', j)
  }

  ghost predicate SameRow(s: State, s': State, j: JobId) {
    (j in s'.jobs <==> j in s.jobs) && (j in s.jobs ==> s'.jobs[j] == s.jobs[j])
  }

  ghost predicate SameTimer(s: State, s': State, j: JobId) {
    (j in s'.timers <==> j in s.timers) && (j in s.timers ==> s'.timers[j] == s.timers[j])
  }

  /** Events by what they do to jobs: searching for a worker, or answering for one. */
  predicate Searches(e: Event) {
    e.Commit? || e.Tick?
  }

  predicate Answers(e: Event) {
    e.Complete? || e.Reject? || e.Disconnect? || e.Prune?
  }

  /** The event looks for a worker for the job. */
  predicate Attempt(e: Event, j: JobId) {
    || (e.Commit? && e.jobId == j && Validate(e.body).Some?)
    || (e.Tick? && e.jobId == j)
  }

  /** A worker's answer or departure moves the row of a job that was assigned. */
  ghost predicate Answered(s: State, s': State, e: Event, j: JobId) {
    && j in s.jobs && s.jobs[j].status == Assigned && j in s'.jobs
    && SameTimer(s, s', j)
    && (|| (e.Complete? && e.jobId == j && PayoutOf(s, e).Some?
            && s'.jobs[j] == s.jobs[j].(status := Completed(e.output)))
        || (e == Reject(j) && s'.jobs[j] == s.jobs[j].(status := Pending, worker := None))
        || ((e.Disconnect? || e.Prune?) && s'.jobs[j] == s.jobs[j].(status := Failed(WorkerDisconnected))))
  }

  /** A tick matches a pending job, gives it up after its last attempt, or counts an attempt. */
  ghost predicate Ticked(s: State, s': State, e: Event, j: JobId) {
    && e.Tick? && e.jobId == j
    && j in s.timers && j in s.jobs && s.jobs[j].status == Pending && j in s'.jobs
    && (|| (j !in s'.timers && s'.jobs[j].status == Assigned
            && s'.jobs[j] == s.jobs[j].(status := Assigned, worker := s'.jobs[j].worker))
        || (j !in s'.timers && s.timers[j].attempts == 14
            && s'.jobs[j] == s.jobs[j].(status := Failed(NoEligibleWorker)))
        || (s'.jobs[j] == s.jobs[j] && j in s'.timers
            && s'.timers[j] == s.timers[j].(attempts := s.timers[j].attempts + 1)))
  }

  /** An accepted commit creates the row, with a timer exactly if it is left pending. */
  ghost predicate Committed(s: State, s': State, e: Event, j: JobId) {
    && e.Commit? && e.jobId == j && Validate(e.body).Some?
    && j !in s.jobs && j !in s.timers && j in s'.jobs
    && s'.jobs[j].status in {Assigned, Failed(NoTrustedWorker), Pending}
    && (j in s'.timers <==> s'.jobs[j].status == Pending)
    && (j in s'.timers ==> s'.timers[j].attempts == 0)
  }

  lemma SearchLeavesOthers(s: State, e: Event, j: JobId)
    requires Enabled(s, e) && Searches(e) && e.jobId != j
    ensures SameFor(s, Step(s, e), j)
  {
    match e
    case Commit(jobId, body, policy, now) =>
      if Validate(body).Some? {
        var s' := CommitJob(s, jobId, Validate(body).value, policy, ParsePrivacy(body.privacy), body.user, now);
        assert SameFor(s, s', j);
      }
    case Tick(jobId, now) =>
      assert SameFor(s, TickStep(s, jobId, now), j);
  }

  lemma CommitEffect(s: State, e: Event)
    requires Inv(s) && Enabled(s, e) && e.Commit? && Validate(e.body).Some?
    ensures Committed(s, Step(s, e), e, e.jobId)
  {
    var s' := CommitJob(s, e.jobId, Validate(e.body).value, e.policy, ParsePrivacy(e.body.privacy), e.body.user, e.now);
    assert e.jobId !in s.timers;
    assert Committed(s, s', e, e.jobId);
  }

  lemma TickEffect(s: State, e: Event)
    requires Inv(s) && Enabled(s, e) && e.Tick?
    ensures Ticked(s, Step(s, e), e, e.jobId)
  {
    assert Ticked(s, TickStep(s, e.jobId, e.now), e, e.jobId);
  }

  lemma OthersLeaveJobs(s: State, e: Event)
    requires Enabled(s, e) && !Searches(e) && !Answers(e)
    ensures Step(s, e).jobs == s.jobs && Step(s, e).timers == s.timers
  {
  }

  /** A real job that somebody holds is assigned. */
  lemma HeldJobIsAssigned(s: State, j: JobId)
    requires Inv(s) && HolderOf(s.workers, j) < |s.workers| && !IsDemo(j)
    ensures j in s.jobs && s.jobs[j].status == Assigned
  {
  }

  lemma CompleteEffect(s: State, e: Event, j: JobId)
    requires RowsOk(s) && e.Complete?
    requires HolderOf(s.workers, e.jobId) < |s.workers| && !IsDemo(e.jobId) ==>
               e.jobId in s.jobs && s.jobs[e.jobId].status == Assigned
    ensures var s' := CompleteStep(s, e.jobId, e.output, e.receiptFor);
            SameFor(s, s', j) || Answered(s, s', e, j)
  {
  }

  lemma RejectEffect(s: State, e: Event, j: JobId)
    requires RowsOk(s) && e.Reject?
    requires HolderOf(s.workers, e.jobId) < |s.workers| && !IsDemo(e.jobId) ==>
               e.jobId in s.jobs && s.jobs[e.jobId].status == Assigned
    ensures SameFor(s, RejectStep(s, e.jobId), j) || Answered(s, RejectStep(s, e.jobId), e, j)
  {
  }

  lemma ReplyEffect(s: State, e: Event, j: JobId)
    requires Inv(s) && (e.Complete? || e.Reject?)
    ensures SameFor(s, Step(s, e), j) || Answered(s, Step(s, e), e, j)
  {
    if HolderOf(s.workers, e.jobId) < |s.workers| && !IsDemo(e.jobId) { HeldJobIsAssigned(s, e.jobId); }
    if e.Complete? {
      CompleteEffect(s, e, j);
    } else {
      RejectEffect(s, e, j);
    }
  }

  lemma DepartureEffect(s: State, e: Event, j: JobId)
    requires Inv(s) && (e.Disconnect? || e.Prune?)
    ensures SameFor(s, Step(s, e), j) || Answered(s, Step(s, e), e, j)
  {
    if e.Prune? {
      PruneTouchesNoPairing(s, e.now, 0);
      PruneInsertsNothing(s, e.now, 0);
      if j in s.jobs { PruneMovesRows(s, e.now, 0, j); }
    } else {
      var i := IndexOfId(s.workers, e.id);
      if i < |s.workers| && j in s.jobs { DropMovesRows(s, i, j); }
    }
  }

  /** Everything one event can do to the row and the timer of one job. */
  lemma JobEffect(s: State, e: Event, j: JobId)
    requires Inv(s) && Enabled(s, e)
    ensures var s' := Step(s, e);
            || (SameFor(s, s', j) && !Attempt(e, j))
            || Answered(s, s', e, j)
            || Ticked(s, s', e, j)
            || Committed(s, s', e, j)
  {
    if Searches(e) {
      if e.jobId != j {
        SearchLeavesOthers(s, e, j);
      } else if e.Tick? {
        TickEffect(s, e);
      } else if Validate(e.body).Some? {
        CommitEffect(s, e);
      }
    } else if e.Complete? || e.Reject? {
      ReplyEffect(s, e, j);
    } else if e.Disconnect? || e.Prune? {
      DepartureEffect(s, e, j);
    } else {
      OthersLeaveJobs(s, e);
    }
  }
}
