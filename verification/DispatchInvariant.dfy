/** What every event keeps: the worker map, the jobs table, the pairings table and the
    retry timers agree with one another in every reachable state. */
module DispatchInvariant {
  import opened Protocol
  import opened Selection
  import opened Dispatch

  ghost predicate UniqueIds(ws: seq<Worker>) {
    forall i, j :: 0 <= i < j < |ws| ==> ws[i].id != ws[j].id
  }

  /** A worker is busy exactly when it has an active job. */
  ghost predicate BusyMeansActive(ws: seq<Worker>) {
    forall i :: 0 <= i < |ws| ==> (ws[i].busy <==> ws[i].active.Some?)
  }

  /** No job, demo or not, is held by two workers. */
  ghost predicate NoSharedJob(ws: seq<Worker>) {
    forall i, j :: 0 <= i < j < |ws| && ws[i].active.Some? ==> ws[i].active != ws[j].active
  }

  /** Every held job that is not a demo job has an assigned row naming its holder. */
  ghost predicate HeldIsAssigned(s: State) {
    forall i :: 0 <= i < |s.workers| && s.workers[i].active.Some? && !IsDemo(s.workers[i].active.value) ==>
      var j := s.workers[i].active.value;
      j in s.jobs && s.jobs[j].status == Assigned && s.jobs[j].worker == Some(s.workers[i].pubkey)
  }

  /** Every assigned row has a holder. */
  ghost predicate AssignedIsHeld(s: State) {
    forall j :: j in s.jobs && s.jobs[j].status == Assigned ==> HolderOf(s.workers, j) < |s.workers|
  }

  /** The recorded worker follows the status. */
  ghost predicate RowOk(r: JobRow) {
    match r.status
    case Pending => r.worker.None?
    case Assigned => r.worker.Some?
    case Completed(_) => r.worker.Some?
    case Failed(reason) => r.worker.Some? <==> reason == WorkerDisconnected
  }

  ghost predicate RowsOk(s: State) {
    forall j :: j in s.jobs ==> !IsDemo(j) && RowOk(s.jobs[j])
  }

  /** A live timer belongs to a pending public job, with fewer than 15 ticks behind it
      and the arguments the row was created with. */
  ghost predicate TimersOk(s: State) {
    forall j :: j in s.timers ==>
      && j in s.jobs
      && s.jobs[j].status == Pending
      && s.timers[j].attempts < MAX_ATTEMPTS
      && s.timers[j].privacy == Public
      && s.jobs[j].privacy == Public
      && s.timers[j].jobType == s.jobs[j].jobType
      && s.timers[j].policy == s.jobs[j].policy
      && s.timers[j].user == s.jobs[j].user
  }

  /** The worker recorded for a private job is one its user has a claimed pairing with. */
  ghost predicate PrivateIsTrusted(s: State) {
    forall j :: j in s.jobs && s.jobs[j].privacy == Private && s.jobs[j].worker.Some? ==>
      s.jobs[j].worker.value in Trusted(s.pairings, s.jobs[j].user)
  }

  ghost predicate PairingsOk(s: State) {
    forall c :: c in s.pairings ==> (s.pairings[c].claimed <==> s.pairings[c].provider.Some?)
  }

  ghost predicate ReputationOk(ws: seq<Worker>) {
    forall i :: 0 <= i < |ws| && ws[i].reputation.Some? ==> 0.0 <= ws[i].reputation.value <= 100.0
  }

  /** The part of the invariant that is about workers and rows. */
  ghost predicate Agree(s: State) {
    && UniqueIds(s.workers)
    && BusyMeansActive(s.workers)
    && NoSharedJob(s.workers)
    && HeldIsAssigned(s)
    && AssignedIsHeld(s)
    && RowsOk(s)
    && ReputationOk(s.workers)
  }

  ghost predicate Inv(s: State) {
    && Agree(s)
    && TimersOk(s)
    && PrivateIsTrusted(s)
    && PairingsOk(s)
  }

  // ---- Steps on the worker list ----

  /** A worker changes nothing but its heartbeat, reputation or stake. */
  ghost predicate SameDuty(w: Worker, w': Worker) {
    w'.id == w.id && w'.pubkey == w.pubkey && w'.busy == w.busy && w'.active == w.active
  }

  lemma HolderIsUnique(ws: seq<Worker>, i: nat, j: JobId)
    requires NoSharedJob(ws) && i < |ws| && ws[i].active == Some(j)
    ensures HolderOf(ws, j) == i
  {
  }

  lemma HolderExists(ws: seq<Worker>, i: nat, j: JobId)
    requires i < |ws| && ws[i].active == Some(j)
    ensures HolderOf(ws, j) < |ws|
  {
  }

  lemma UpdateKeeps(s: State, i: nat, w': Worker)
    requires Inv(s) && i < |s.workers| && SameDuty(s.workers[i], w')
    requires w'.reputation.Some? ==> 0.0 <= w'.reputation.value <= 100.0
    ensures Inv(s.(workers := s.workers[i := w']))
  {
    var s' := s.(workers := s.workers[i := w']);
    forall j | j in s'.jobs && s'.jobs[j].status == Assigned
      ensures HolderOf(s'.workers, j) < |s'.workers|
    {
      HolderExists(s'.workers, HolderOf(s.workers, j), j);
    }
  }

  lemma RegisterKeeps(s: State, w: Worker)
    requires Inv(s) && IndexOfId(s.workers, w.id) == |s.workers|
    requires !w.busy && w.active.None? && w.reputation.None?
    ensures Inv(s.(workers := s.workers + [w]))
  {
    var s' := s.(workers := s.workers + [w]);
    forall j | j in s'.jobs && s'.jobs[j].status == Assigned
      ensures HolderOf(s'.workers, j) < |s'.workers|
    {
      HolderExists(s'.workers, HolderOf(s.workers, j), j);
    }
  }

  /** An idle worker takes a job nobody holds. */
  lemma HoldKeeps(s: State, i: nat, j: JobId)
    requires Agree(s) && i < |s.workers| && !s.workers[i].busy
    requires HolderOf(s.workers, j) == |s.workers|
    ensures var ws' := s.workers[i := Hold(s.workers[i], j)];
            && UniqueIds(ws') && BusyMeansActive(ws') && NoSharedJob(ws') && ReputationOk(ws')
            && HolderOf(ws', j) == i
            && forall k :: k != j && HolderOf(s.workers, k) < |s.workers| ==> HolderOf(ws', k) < |ws'|
  {
    var ws' := s.workers[i := Hold(s.workers[i], j)];
    HolderIsUnique(ws', i, j);
    forall k | k != j && HolderOf(s.workers, k) < |s.workers|
      ensures HolderOf(ws', k) < |ws'|
    {
      HolderExists(ws', HolderOf(s.workers, k), k);
    }
  }

  lemma InjectKeeps(s: State, i: nat, j: JobId)
    requires Inv(s) && i < |s.workers| && !s.workers[i].busy
    requires IsDemo(j) && HolderOf(s.workers, j) == |s.workers|
    ensures Inv(s.(workers := s.workers[i := Hold(s.workers[i], j)]))
  {
    HoldKeeps(s, i, j);
  }

  /** A pending row nobody holds is assigned to an idle worker. */
  lemma AssignKeeps(s: State, i: nat, j: JobId)
    requires Agree(s) && i < |s.workers| && !s.workers[i].busy
    requires j in s.jobs && s.jobs[j].status == Pending
    ensures Agree(Assign(s, j, i))
  {
    assert HolderOf(s.workers, j) == |s.workers|;
    HoldKeeps(s, i, j);
    var s' := Assign(s, j, i);
    assert HeldIsAssigned(s') by {
      forall k | 0 <= k < |s'.workers| && s'.workers[k].active.Some? && !IsDemo(s'.workers[k].active.value)
        ensures var jk := s'.workers[k].active.value;
                jk in s'.jobs && s'.jobs[jk].status == Assigned && s'.jobs[jk].worker == Some(s'.workers[k].pubkey)
      {
        if k != i {
          assert s'.workers[k] == s.workers[k];
          assert s.workers[k].active != Some(j);
        }
      }
    }
  }

  /** The holder of a job becomes idle and the row, if there is one, leaves assigned. */
  lemma FreeKeeps(s: State, i: nat, j: JobId, row: JobRow)
    requires Agree(s) && i < |s.workers| && s.workers[i].active == Some(j)
    requires !IsDemo(j) ==> row.status != Assigned && RowOk(row)
    ensures Agree(s.(workers := s.workers[i := Free(s.workers[i])],
                     jobs := if IsDemo(j) then s.jobs else s.jobs[j := row]))
  {
    var s' := s.(workers := s.workers[i := Free(s.workers[i])],
                 jobs := if IsDemo(j) then s.jobs else s.jobs[j := row]);
    forall k | k in s'.jobs && s'.jobs[k].status == Assigned
      ensures HolderOf(s'.workers, k) < |s'.workers|
    {
      HolderExists(s'.workers, HolderOf(s.workers, k), k);
    }
  }

  /** ws' is ws without the worker at position i. */
  ghost predicate Removed(ws: seq<Worker>, ws': seq<Worker>, i: nat) {
    i < |ws| == |ws'| + 1 && forall k :: 0 <= k < |ws'| ==> ws'[k] == ws[if k < i then k else k + 1]
  }

  lemma RemovalKeepsJobsApart(ws: seq<Worker>, ws': seq<Worker>, i: nat)
    requires NoSharedJob(ws) && Removed(ws, ws', i)
    ensures NoSharedJob(ws')
  {
  }

  lemma RemovalKeepsWorkers(ws: seq<Worker>, ws': seq<Worker>, i: nat)
    requires Removed(ws, ws', i) && UniqueIds(ws) && BusyMeansActive(ws) && ReputationOk(ws)
    ensures UniqueIds(ws') && BusyMeansActive(ws') && ReputationOk(ws')
  {
  }

  lemma RemovalKeepsHolders(s: State, i: nat)
    requires Agree(s) && i < |s.workers|
    ensures AssignedIsHeld(Drop(s, i))
  {
    var s' := Drop(s, i);
    var ws, ws' := s.workers, s'.workers;
    forall k | k in s'.jobs && s'.jobs[k].status == Assigned
      ensures HolderOf(ws', k) < |ws'|
    {
      var h := HolderOf(ws, k);
      assert h != i;
      HolderExists(ws', if h < i then h else h - 1, k);
    }
  }

  lemma DropKeepsAgree(s: State, i: nat)
    requires Agree(s) && i < |s.workers|
    ensures Agree(Drop(s, i))
  {
    var s' := Drop(s, i);
    assert Removed(s.workers, s'.workers, i);
    RemovalKeepsWorkers(s.workers, s'.workers, i);
    RemovalKeepsJobsApart(s.workers, s'.workers, i);
    RemovalKeepsHolders(s, i);
    forall k | 0 <= k < |s'.workers| && s'.workers[k].active.Some? && !IsDemo(s'.workers[k].active.value)
      ensures var j := s'.workers[k].active.value;
              j in s'.jobs && s'.jobs[j].status == Assigned && s'.jobs[j].worker == Some(s'.workers[k].pubkey)
    {
      assert s'.workers[k] == s.workers[if k < i then k else k + 1];
    }
  }

  lemma DropKeeps(s: State, i: nat)
    requires Inv(s) && i < |s.workers|
    ensures Inv(Drop(s, i))
  {
    DropKeepsAgree(s, i);
    var held := s.workers[i].active;
    if held.Some? && !IsDemo(held.value) {
      assert s.jobs[held.value].status == Assigned;
    }
  }

  lemma {:induction false} PruneKeeps(s: State, now: int, i: nat)
    requires Inv(s) && i <= |s.workers|
    ensures Inv(PruneFrom(s, now, i))
    decreases |s.workers| - i
  {
    if i < |s.workers| {
      if Stale(s.workers[i], now) {
        DropKeeps(s, i);
        PruneKeeps(Drop(s, i), now, i);
      } else {
        PruneKeeps(s, now, i + 1);
      }
    }
  }

  // ---- Steps on the jobs table ----

  /** Matching a pending job with an eligible worker, its timer (if any) being cleared. */
  lemma MatchKeeps(s: State, i: nat, j: JobId)
    requires Inv(s) && i < |s.workers| && !s.workers[i].busy
    requires j in s.jobs && s.jobs[j].status == Pending
    requires s.jobs[j].privacy == Private ==> s.workers[i].pubkey in Trusted(s.pairings, s.jobs[j].user)
    ensures Inv(Assign(s, j, i).(timers := s.timers - {j}))
  {
    AssignKeeps(s, i, j);
    var s' := Assign(s, j, i).(timers := s.timers - {j});
    assert Agree(s');
  }

  lemma InsertKeeps(s: State, jobId: JobId, row: JobRow)
    requires Inv(s) && jobId !in s.jobs && !IsDemo(jobId) && row.status == Pending && row.worker.None?
    ensures Inv(s.(jobs := s.jobs[jobId := row]))
    ensures jobId !in s.timers
  {
  }

  /** A pending job fails because nobody could be found for it. */
  lemma GiveUpKeeps(s: State, j: JobId, reason: Failure)
    requires Inv(s) && j in s.jobs && s.jobs[j].status == Pending && reason != WorkerDisconnected
    ensures Inv(s.(jobs := SetStatus(s.jobs, j, Failed(reason)), timers := s.timers - {j}))
  {
    var s' := s.(jobs := SetStatus(s.jobs, j, Failed(reason)), timers := s.timers - {j});
    assert Agree(s');
  }

  lemma SetTimerKeeps(s: State, j: JobId, t: Timer)
    requires Inv(s) && j in s.jobs && s.jobs[j].status == Pending && s.jobs[j].privacy == Public
    requires t.attempts < MAX_ATTEMPTS
    requires t == Timer(t.attempts, s.jobs[j].jobType, s.jobs[j].policy, Public, s.jobs[j].user)
    ensures Inv(s.(timers := s.timers[j := t]))
  {
    assert Agree(s.(timers := s.timers[j := t]));
  }

  lemma CommitJobKeeps(s: State, jobId: JobId, jobType: JobType, policy: Policy, privacy: Privacy,
                       user: string, now: int)
    requires Inv(s) && jobId !in s.jobs && !IsDemo(jobId)
    ensures Inv(CommitJob(s, jobId, jobType, policy, privacy, user, now))
  {
    var row := JobRow(jobType, policy, privacy, user, Pending, None);
    var s1 := s.(jobs := s.jobs[jobId := row]);
    InsertKeeps(s, jobId, row);
    var c := ClaimFor(s1, jobType, policy, privacy, user);
    match Best(s1.workers, c, now) {
      case Some(i) =>
        BestIsTheWinner(s1.workers, c, now);
        MatchKeeps(s1, i, jobId);
        assert s1.timers - {jobId} == s1.timers;
      case None =>
        if privacy == Private {
          GiveUpKeeps(s1, jobId, NoTrustedWorker);
          assert s1.timers - {jobId} == s1.timers;
        } else {
          SetTimerKeeps(s1, jobId, Timer(0, jobType, policy, privacy, user));
        }
    }
  }

  lemma TickKeeps(s: State, jobId: JobId, now: int)
    requires Inv(s) && jobId in s.timers
    ensures Inv(TickStep(s, jobId, now))
  {
    var t := s.timers[jobId];
    var c := ClaimFor(s, t.jobType, t.policy, t.privacy, t.user);
    match Best(s.workers, c, now) {
      case Some(i) =>
        BestIsTheWinner(s.workers, c, now);
        MatchKeeps(s, i, jobId);
      case None =>
        if t.attempts + 1 >= MAX_ATTEMPTS {
          GiveUpKeeps(s, jobId, NoEligibleWorker);
        } else {
          SetTimerKeeps(s, jobId, t.(attempts := t.attempts + 1));
        }
    }
  }

  lemma CompleteKeeps(s: State, jobId: JobId, output: string, receiptFor: Option<JobId>)
    requires Inv(s)
    ensures Inv(CompleteStep(s, jobId, output, receiptFor))
  {
    var i := HolderOf(s.workers, jobId);
    if i < |s.workers| {
      if IsDemo(jobId) {
        FreeKeeps(s, i, jobId, JobRow(Task, Fast, Public, "", Pending, None));
      } else {
        FreeKeeps(s, i, jobId, s.jobs[jobId].(status := Completed(output)));
      }
    }
  }

  lemma RejectKeeps(s: State, jobId: JobId)
    requires Inv(s)
    ensures Inv(RejectStep(s, jobId))
  {
    var i := HolderOf(s.workers, jobId);
    if i < |s.workers| {
      if IsDemo(jobId) {
        FreeKeeps(s, i, jobId, JobRow(Task, Fast, Public, "", Pending, None));
      } else {
        FreeKeeps(s, i, jobId, s.jobs[jobId].(status := Pending, worker := None));
      }
    }
  }

  // ---- Steps on the pairings table ----

  /** Trust is never taken back. */
  lemma TrustOnlyGrows(s: State, e: Event, user: string)
    requires Inv(s) && Enabled(s, e)
    ensures Trusted(s.pairings, user) <= Trusted(Step(s, e).pairings, user)
  {
    var s' := Step(s, e);
    PairingsTouchedBy(s, e);
    forall pk | pk in Trusted(s.pairings, user) ensures pk in Trusted(s'.pairings, user) {
      var code :| code in s.pairings && s.pairings[code].claimed && s.pairings[code].user == user
                  && s.pairings[code].provider.Some? && s.pairings[code].provider.value == pk;
      assert s'.pairings[code] == s.pairings[code];
    }
  }

  lemma {:induction false} PruneTouchesNoPairing(s: State, now: int, i: nat)
    requires i <= |s.workers|
    ensures PruneFrom(s, now, i).pairings == s.pairings
    ensures PruneFrom(s, now, i).timers == s.timers
    decreases |s.workers| - i
  {
    if i < |s.workers| {
      if Stale(s.workers[i], now) {
        PruneTouchesNoPairing(Drop(s, i), now, i);
      } else {
        PruneTouchesNoPairing(s, now, i + 1);
      }
    }
  }

  lemma OthersLeavePairings(s: State, e: Event)
    requires Enabled(s, e) && !e.CreatePairing? && !e.ClaimPairing?
    ensures Step(s, e).pairings == s.pairings
  {
    if e.Prune? { PruneTouchesNoPairing(s, e.now, 0); }
  }

  /** No event alters a claimed pairing, removes a pairing, or changes whose it is. */
  lemma PairingsTouchedBy(s: State, e: Event)
    requires Enabled(s, e)
    ensures forall c :: c in s.pairings ==>
              && c in Step(s, e).pairings
              && (s.pairings[c].claimed ==> Step(s, e).pairings[c] == s.pairings[c])
              && Step(s, e).pairings[c].user == s.pairings[c].user
              && Step(s, e).pairings[c].expires == s.pairings[c].expires
    ensures !e.CreatePairing? && !e.ClaimPairing? ==> Step(s, e).pairings == s.pairings
  {
    if !e.CreatePairing? && !e.ClaimPairing? { OthersLeavePairings(s, e); }
  }

  lemma PairingStepKeeps(s: State, e: Event)
    requires Inv(s) && Enabled(s, e) && (e.CreatePairing? || e.ClaimPairing?)
    ensures Inv(Step(s, e))
  {
    var s' := Step(s, e);
    forall j | j in s'.jobs && s'.jobs[j].privacy == Private && s'.jobs[j].worker.Some?
      ensures s'.jobs[j].worker.value in Trusted(s'.pairings, s'.jobs[j].user)
    {
      TrustOnlyGrows(s, e, s.jobs[j].user);
    }
  }

  // ---- The invariant ----

  lemma InitIsFine()
    ensures Inv(INIT)
  {
  }

  /** The events that only change a worker's standing. */
  lemma StandingKeeps(s: State, e: Event)
    requires Inv(s) && Enabled(s, e) && (e.Heartbeat? || e.ReputationArrived? || e.StakeArrived?)
    ensures Inv(Step(s, e))
  {
    match e
    case Heartbeat(pubkey, now) =>
      var i := IndexOfPubkey(s.workers, pubkey);
      if i < |s.workers| { UpdateKeeps(s, i, s.workers[i].(heartbeat := now)); }
    case ReputationArrived(id, score) =>
      var i := IndexOfId(s.workers, id);
      if i < |s.workers| { UpdateKeeps(s, i, s.workers[i].(reputation := Some(score))); }
    case StakeArrived(id, tier) =>
      var i := IndexOfId(s.workers, id);
      if i < |s.workers| { UpdateKeeps(s, i, s.workers[i].(stake := Some(tier))); }
  }

  /** Every event, from any socket and in any order, keeps the stores in agreement. */
  lemma StepKeepsInv(s: State, e: Event)
    requires Inv(s) && Enabled(s, e)
    ensures Inv(Step(s, e))
  {
    match e
    case Register(id, pubkey, kind, caps, now) => RegisterKeeps(s, NewWorker(id, pubkey, kind, caps, now));
    case Heartbeat(_, _) => StandingKeeps(s, e);
    case ReputationArrived(_, _) => StandingKeeps(s, e);
    case StakeArrived(_, _) => StandingKeeps(s, e);
    case Commit(jobId, body, policy, now) =>
      if Validate(body).Some? {
        CommitJobKeeps(s, jobId, Validate(body).value, policy, ParsePrivacy(body.privacy), body.user, now);
      }
    case Tick(jobId, now) => TickKeeps(s, jobId, now);
    case Complete(jobId, output, receiptFor) => CompleteKeeps(s, jobId, output, receiptFor);
    case Reject(jobId) => RejectKeeps(s, jobId);
    case Disconnect(id) =>
      var i := IndexOfId(s.workers, id);
      if i < |s.workers| { DropKeeps(s, i); }
    case Prune(now) => PruneKeeps(s, now, 0);
    case InjectDemo(id, jobId) =>
      var i := IndexOfId(s.workers, id);
      if i < |s.workers| && !s.workers[i].busy { InjectKeeps(s, i, jobId); }
    case CreatePairing(_, _, _) => PairingStepKeeps(s, e);
    case ClaimPairing(_, _, _) => PairingStepKeeps(s, e);
  }

  lemma NextKeepsInv(states: seq<State>, events: seq<Event>, n: nat)
    requires IsRun(states, events) && 0 < n < |states| && Inv(states[n - 1])
    ensures Inv(states[n])
  {
    StepKeepsInv(states[n - 1], events[n - 1]);
  }

  lemma {:induction false} RunKeepsInv(states: seq<State>, events: seq<Event>, n: nat)
    requires IsRun(states, events) && n < |states|
    ensures Inv(states[n])
  {
    if n == 0 {
      InitIsFine();
    } else {
      RunKeepsInv(states, events, n - 1);
      NextKeepsInv(states, events, n);
    }
  }
}
