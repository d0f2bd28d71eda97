/** What holds over whole runs of the coordinator: how job rows move, which jobs are
    still being retried, when a job is given up, who may see a private job, and what
    pruning removes. */
module DispatchRuns {
  import opened Protocol
  import opened Selection
  import opened Dispatch
  import opened DispatchInvariant
  import opened DispatchEffects

  /** In every reachable state a worker is busy exactly when it has an active job, and
      held non-demo jobs correspond one to one to assigned rows naming their holder. */
  lemma HubAndTableAgree(states: seq<State>, events: seq<Event>, n: nat)
    requires IsRun(states, events) && n < |states|
    ensures var s := states[n];
            && (forall i :: 0 <= i < |s.workers| ==> (s.workers[i].busy <==> s.workers[i].active.Some?))
            && (forall i, j :: 0 <= i < |s.workers| && s.workers[i].active == Some(j) ==> HolderOf(s.workers, j) == i)
            && (forall j :: !IsDemo(j) ==>
                  ((j in s.jobs && s.jobs[j].status == Assigned) <==> HolderOf(s.workers, j) < |s.workers|))
            && (forall j :: j in s.jobs && s.jobs[j].status == Assigned ==>
                  var i := HolderOf(s.workers, j);
                  i < |s.workers| && s.jobs[j].worker == Some(s.workers[i].pubkey))
  {
    RunKeepsInv(states, events, n);
    var s := states[n];
    forall i, j | 0 <= i < |s.workers| && s.workers[i].active == Some(j)
      ensures HolderOf(s.workers, j) == i
    {
      HolderIsUnique(s.workers, i, j);
    }
  }

  // ---- How job rows move ----

  predicate Terminal(st: Status) {
    st.Completed? || st.Failed?
  }

  /** The only moves a row makes. */
  predicate Moves(st: Status, st': Status) {
    || (st == Pending && st' == Assigned)
    || (st == Pending && st' == Failed(NoEligibleWorker))
    || (st == Assigned && st'.Completed?)
    || (st == Assigned && st' == Failed(WorkerDisconnected))
    || (st == Assigned && st' == Pending)
  }

  /** A row after one event: untouched, or moved along one of the permitted edges with
      the columns fixed at commit left alone. */
  predicate RowStep(r: JobRow, r': JobRow) {
    || r' == r
    || (Moves(r.status, r'.status)
        && r'.jobType == r.jobType && r'.policy == r.policy && r'.privacy == r.privacy && r'.user == r.user)
  }

  /** Every event moves a row along a permitted edge or not at all. */
  lemma StepMovesRows(s: State, e: Event, j: JobId)
    requires Inv(s) && Enabled(s, e) && j in s.jobs
    ensures j in Step(s, e).jobs && RowStep(s.jobs[j], Step(s, e).jobs[j])
  {
    JobEffect(s, e, j);
  }

  /** Rows are only ever created by an accepted commit, for the id of that commit. */
  lemma OnlyCommitsInsert(s: State, e: Event, j: JobId)
    requires Inv(s) && Enabled(s, e) && j !in s.jobs && j in Step(s, e).jobs
    ensures e.Commit? && e.jobId == j && Validate(e.body).Some?
  {
    JobEffect(s, e, j);
  }

  /** A completed or failed row never changes again, whatever arrives afterwards; in
      particular a late, repeated or reordered completion cannot replace a result. */
  lemma {:induction false} TerminalRowsAreFinal(states: seq<State>, events: seq<Event>, m: nat, n: nat, j: JobId)
    requires IsRun(states, events) && m <= n < |states|
    requires j in states[m].jobs && Terminal(states[m].jobs[j].status)
    ensures j in states[n].jobs && states[n].jobs[j] == states[m].jobs[j]
    decreases n
  {
    if m < n {
      TerminalRowsAreFinal(states, events, m, n - 1, j);
      RunKeepsInv(states, events, n - 1);
      StepMovesRows(states[n - 1], events[n - 1], j);
    }
  }

  /** A run with one more event. */
  lemma Extend(states: seq<State>, events: seq<Event>, e: Event) returns (states': seq<State>, events': seq<Event>)
    requires IsRun(states, events) && Enabled(states[|events|], e)
    ensures IsRun(states', events') && events' == events + [e]
    ensures states' == states + [Step(states[|events|], e)]
  {
    states', events' := states + [Step(states[|events|], e)], events + [e];
    forall i | 0 <= i < |events'|
      ensures Enabled(states'[i], events'[i]) && states'[i + 1] == Step(states'[i], events'[i])
    {
      if i < |events| {
        assert states'[i] == states[i] && states'[i + 1] == states[i + 1] && events'[i] == events[i];
      }
    }
  }

  // ---- Which jobs are still being retried ----

  /** The job was handed back by its worker at some point of the first n events. */
  ghost predicate Released(states: seq<State>, events: seq<Event>, n: nat, j: JobId)
    requires n <= |events| < |states|
  {
    exists i :: 0 <= i < n && ReleasedAt(states[i], events[i], j)
  }

  predicate ReleasedAt(s: State, e: Event, j: JobId) {
    e == Reject(j) && j in s.jobs && s.jobs[j].status == Assigned
  }

  /** A pending job without a timer. */
  ghost predicate Orphan(s: State, j: JobId) {
    j in s.jobs && s.jobs[j].status == Pending && j !in s.timers
  }

  /** A pending job without a timer is out of reach: no event assigns it, fails it or
      starts a timer for it. */
  lemma OrphanStaysOrphan(s: State, e: Event, j: JobId)
    requires Inv(s) && Enabled(s, e)
    requires Orphan(s, j)
    ensures Orphan(Step(s, e), j) && Step(s, e).jobs[j] == s.jobs[j]
  {
    JobEffect(s, e, j);
  }

  /** Rejecting an assigned job leaves it pending without a timer. */
  lemma RejectOrphans(s: State, j: JobId)
    requires Inv(s) && j in s.jobs && s.jobs[j].status == Assigned
    ensures var s' := Step(s, Reject(j));
            Orphan(s', j) && s'.jobs[j] == s.jobs[j].(status := Pending, worker := None)
  {
  }

  /** The documented retry never reaches a rejected job: it stays pending for ever. */
  lemma {:induction false} RejectedJobsAreStuck(states: seq<State>, events: seq<Event>, m: nat, n: nat, j: JobId)
    requires IsRun(states, events) && m < n < |states|
    requires ReleasedAt(states[m], events[m], j)
    ensures Orphan(states[n], j) && states[n].jobs[j] == states[m].jobs[j].(status := Pending, worker := None)
    decreases n
  {
    RunKeepsInv(states, events, n - 1);
    if n == m + 1 {
      RejectOrphans(states[m], j);
    } else {
      RejectedJobsAreStuck(states, events, m, n - 1, j);
      OrphanStaysOrphan(states[n - 1], events[n - 1], j);
    }
  }

  /** The smallest such run: a worker registers, gets a job and hands it back. */
  lemma RejectingRun(id: string, pubkey: Pubkey, user: string, j: JobId, now: int)
    returns (states: seq<State>, events: seq<Event>)
    requires user != "" && !IsDemo(j)
    ensures IsRun(states, events) && |events| == 3 && ReleasedAt(states[2], events[2], j)
    ensures Orphan(states[3], j)
  {
    var body := CommitBody("TASK", true, None, user);
    states, events := Extend([INIT], [], Register(id, pubkey, Desktop, [Task], now));
    OneIdleWorker(states[1], NewWorker(id, pubkey, Desktop, [Task], now), j, body, now);
    states, events := Extend(states, events, Commit(j, body, Fast, now));
    RunKeepsInv(states, events, 2);
    RejectOrphans(states[2], j);
    states, events := Extend(states, events, Reject(j));
  }

  lemma OneIdleWorker(s: State, w: Worker, j: JobId, body: CommitBody, now: int)
    requires s.workers == [w] && !w.busy && Task in w.caps && j !in s.jobs && !IsDemo(j)
    requires Validate(body) == Some(Task) && ParsePrivacy(body.privacy) == Public
    ensures var s' := Step(s, Commit(j, body, Fast, now));
            j in s'.jobs && s'.jobs[j].status == Assigned
  {
    BestIsTheWinner(s.workers, ClaimFor(s, Task, Fast, Public, body.user), now);
    assert Eligible(s.workers[0], ClaimFor(s, Task, Fast, Public, body.user));
  }

  /** A step that makes or leaves a row pending leaves its timer live, unless the step is
      a rejection or the row was an orphan already. */
  lemma PendingHasTimer(s: State, e: Event, j: JobId)
    requires Inv(s) && Enabled(s, e)
    requires Orphan(Step(s, e), j)
    ensures Orphan(s, j) || ReleasedAt(s, e, j)
  {
    JobEffect(s, e, j);
  }

  /** A pending job without a timer was handed back by some worker. */
  lemma {:induction false} OrphansWereReleased(states: seq<State>, events: seq<Event>, n: nat, j: JobId)
    requires IsRun(states, events) && n < |states|
    ensures Orphan(states[n], j) ==> Released(states, events, n, j)
  {
    if n > 0 && Orphan(states[n], j) {
      RunKeepsInv(states, events, n - 1);
      OrphansWereReleased(states, events, n - 1, j);
      PendingHasTimer(states[n - 1], events[n - 1], j);
    }
  }

  lemma TimerFacts(s: State, j: JobId)
    requires Inv(s)
    ensures j in s.timers ==>
              && j in s.jobs && s.jobs[j].status == Pending
              && s.timers[j].attempts <= 14 && HolderOf(s.workers, j) == |s.workers|
  {
  }

  /** In every reachable state a row is pending exactly when it has a live timer or was
      handed back by a reject, and never both; a live timer has made at most 14 attempts
      and its job is held by no worker. */
  lemma PendingMeansTimerOrReleased(states: seq<State>, events: seq<Event>, n: nat, j: JobId)
    requires IsRun(states, events) && n < |states|
    ensures (j in states[n].jobs && states[n].jobs[j].status == Pending)
            <==> (j in states[n].timers || Released(states, events, n, j))
    ensures !(j in states[n].timers && Released(states, events, n, j))
    ensures j in states[n].timers ==>
              states[n].timers[j].attempts <= 14 && HolderOf(states[n].workers, j) == |states[n].workers|
  {
    RunKeepsInv(states, events, n);
    TimerFacts(states[n], j);
    if Released(states, events, n, j) {
      var i :| 0 <= i < n && ReleasedAt(states[i], events[i], j);
      RejectedJobsAreStuck(states, events, i, n, j);
    } else {
      OrphansWereReleased(states, events, n, j);
    }
  }

  // ---- Counting ticks ----

  /** The n-th event is a tick of the job's timer. */
  predicate TicksAt(events: seq<Event>, n: nat, j: JobId)
    requires 0 < n <= |events|
  {
    events[n - 1].Tick? && events[n - 1].jobId == j
  }

  function CountTicks(events: seq<Event>, n: nat, j: JobId): nat
    requires n <= |events|
  {
    if n == 0 then 0
    else CountTicks(events, n - 1, j) + if TicksAt(events, n, j) then 1 else 0
  }

  /** How one event changes the timer of a job. */
  lemma TimerStep(s: State, e: Event, j: JobId)
    requires Inv(s) && Enabled(s, e)
    ensures j in Step(s, e).timers && j in s.timers ==>
              Step(s, e).timers[j].attempts == s.timers[j].attempts + if e.Tick? && e.jobId == j then 1 else 0
    ensures j in Step(s, e).timers && j !in s.timers ==>
              e.Commit? && e.jobId == j && j !in s.jobs && Step(s, e).timers[j].attempts == 0
  {
    JobEffect(s, e, j);
  }

  /** A timer has counted every tick of its job; a job gets at most 15 of them, and none
      before it is committed or if it is private. */
  lemma {:induction false} TimersCountTicks(states: seq<State>, events: seq<Event>, n: nat, j: JobId)
    requires IsRun(states, events) && n < |states|
    ensures j in states[n].timers ==> states[n].timers[j].attempts == CountTicks(events, n, j)
    ensures CountTicks(events, n, j) <= 15
    ensures CountTicks(events, n, j) > 0 ==> j in states[n].jobs && states[n].jobs[j].privacy == Public
  {
    if n > 0 {
      TimersCountTicks(states, events, n - 1, j);
      NextTimer(states, events, n, j);
    }
  }

  lemma NextTimer(states: seq<State>, events: seq<Event>, n: nat, j: JobId)
    requires IsRun(states, events) && 0 < n < |states|
    ensures var s, s' := states[n - 1], states[n];
            && (TicksAt(events, n, j) ==> j in s.timers && j in s.jobs && s.jobs[j].privacy == Public
                                          && s.timers[j].attempts <= 14)
            && (j in s.jobs ==> j in s'.jobs && s'.jobs[j].privacy == s.jobs[j].privacy)
            && (j in s'.timers && j in s.timers ==>
                  s'.timers[j].attempts == s.timers[j].attempts + if TicksAt(events, n, j) then 1 else 0)
            && (j in s'.timers && j !in s.timers ==> j !in s.jobs && s'.timers[j].attempts == 0)
  {
    var s, e := states[n - 1], events[n - 1];
    RunKeepsInv(states, events, n - 1);
    TimerStep(s, e, j);
    if j in s.jobs { StepMovesRows(s, e, j); }
  }

  /** Without a reject, a job that has had its 15 ticks is no longer pending. */
  lemma FifteenTicksDecide(states: seq<State>, events: seq<Event>, n: nat, j: JobId)
    requires IsRun(states, events) && n < |states|
    ensures CountTicks(events, n, j) == 15 && !Released(states, events, n, j) ==>
              j in states[n].jobs && states[n].jobs[j].status != Pending
  {
    RunKeepsInv(states, events, n);
    TimersCountTicks(states, events, n, j);
    PendingMeansTimerOrReleased(states, events, n, j);
  }

  // ---- Giving up ----

  /** Nobody in the map is idle and able to do this type of job. */
  ghost predicate NobodyFor(s: State, jobType: JobType) {
    forall i :: 0 <= i < |s.workers| ==> s.workers[i].busy || jobType !in s.workers[i].caps
  }

  /** Every search for a worker among the first n events came up empty. */
  ghost predicate AllSearchesEmpty(states: seq<State>, events: seq<Event>, n: nat, j: JobId, jobType: JobType)
    requires n <= |events| < |states|
  {
    forall i :: 0 <= i < n && Attempt(events[i], j) ==> NobodyFor(states[i], jobType)
  }

  lemma PublicSearch(s: State, jobType: JobType, policy: Policy, user: string, now: int)
    ensures Best(s.workers, ClaimFor(s, jobType, policy, Public, user), now).None? <==> NobodyFor(s, jobType)
  {
    BestIsTheWinner(s.workers, ClaimFor(s, jobType, policy, Public, user), now);
    if NobodyFor(s, jobType) {
      forall k: nat | k < |s.workers|
        ensures !Eligible(s.workers[k], ClaimFor(s, jobType, policy, Public, user))
      {
      }
    } else {
      var k :| 0 <= k < |s.workers| && !(s.workers[k].busy || jobType !in s.workers[k].caps);
      assert Eligible(s.workers[k], ClaimFor(s, jobType, policy, Public, user));
    }
  }

  /** Still searching, or given up. */
  predicate Unlucky(s: State, j: JobId) {
    j in s.timers || (j in s.jobs && s.jobs[j].status == Failed(NoEligibleWorker))
  }

  lemma TickSearch(s: State, j: JobId, now: int)
    requires Inv(s) && j in s.timers
    ensures j in TickStep(s, j, now).jobs
    ensures Unlucky(TickStep(s, j, now), j) <==> NobodyFor(s, s.jobs[j].jobType)
  {
    PublicSearch(s, s.timers[j].jobType, s.timers[j].policy, s.timers[j].user, now);
  }

  /** Events that do not search for the job leave its luck alone. */
  lemma NoSearch(s: State, e: Event, j: JobId)
    requires Inv(s) && Enabled(s, e) && !Attempt(e, j) && j in s.jobs
    ensures j in Step(s, e).jobs
    ensures Unlucky(Step(s, e), j) <==> Unlucky(s, j)
  {
    JobEffect(s, e, j);
  }

  /** A public job stays unlucky exactly as long as its searches come up empty. */
  lemma SearchStep(s: State, e: Event, j: JobId)
    requires Inv(s) && Enabled(s, e)
    requires j in Step(s, e).jobs && Step(s, e).jobs[j].privacy == Public
    ensures Attempt(e, j) ==> (Unlucky(Step(s, e), j) <==> NobodyFor(s, Step(s, e).jobs[j].jobType))
    ensures j in s.jobs ==> s.jobs[j].privacy == Public && s.jobs[j].jobType == Step(s, e).jobs[j].jobType
    ensures Attempt(e, j) && j in s.jobs ==> Unlucky(s, j)
    ensures !Attempt(e, j) ==> j in s.jobs && (Unlucky(Step(s, e), j) <==> Unlucky(s, j))
  {
    if j in s.jobs { StepMovesRows(s, e, j); } else { OnlyCommitsInsert(s, e, j); }
    if !Attempt(e, j) {
      NoSearch(s, e, j);
    } else if e.Tick? {
      TickSearch(s, j, e.now);
    } else {
      CommitSearch(s, j, Validate(e.body).value, e.policy, ParsePrivacy(e.body.privacy), e.body.user, e.now);
    }
  }

  lemma CommitSearch(s: State, jobId: JobId, jobType: JobType, policy: Policy, privacy: Privacy, user: string, now: int)
    requires Inv(s) && jobId !in s.jobs && privacy == Public
    ensures jobId in CommitJob(s, jobId, jobType, policy, privacy, user, now).jobs
    ensures CommitJob(s, jobId, jobType, policy, privacy, user, now).jobs[jobId].jobType == jobType
    ensures Unlucky(CommitJob(s, jobId, jobType, policy, privacy, user, now), jobId) <==> NobodyFor(s, jobType)
  {
    var s1 := s.(jobs := s.jobs[jobId := JobRow(jobType, policy, privacy, user, Pending, None)]);
    PublicSearch(s1, jobType, policy, user, now);
    assert NobodyFor(s1, jobType) <==> NobodyFor(s, jobType);
  }

  lemma {:induction false} UnluckyMeansEmptySearches(states: seq<State>, events: seq<Event>, n: nat, j: JobId)
    requires IsRun(states, events) && n < |states|
    requires j in states[n].jobs && states[n].jobs[j].privacy == Public
    ensures Unlucky(states[n], j) <==> AllSearchesEmpty(states, events, n, j, states[n].jobs[j].jobType)
  {
    var s, e := states[n - 1], events[n - 1];
    RunKeepsInv(states, events, n - 1);
    SearchStep(s, e, j);
    if j in s.jobs {
      StepMovesRows(s, e, j);
      UnluckyMeansEmptySearches(states, events, n - 1, j);
    } else {
      forall i | 0 <= i < n - 1 ensures !Attempt(events[i], j) {
        NoSearchBeforeTheRow(states, events, i, n - 1, j);
      }
    }
  }

  /** A job that is not in the table yet has not been searched for. */
  lemma {:induction false} NoSearchBeforeTheRow(states: seq<State>, events: seq<Event>, i: nat, n: nat, j: JobId)
    requires IsRun(states, events) && i < n < |states| && j !in states[n].jobs
    ensures !Attempt(events[i], j)
    decreases n
  {
    RunKeepsInv(states, events, n - 1);
    if j in states[n - 1].jobs {
      StepMovesRows(states[n - 1], events[n - 1], j);
      assert false;
    }
    if i < n - 1 {
      NoSearchBeforeTheRow(states, events, i, n - 1, j);
    } else if events[i].Commit? && Validate(events[i].body).Some? && events[i].jobId == j {
      CommitInserts(states[i], events[i]);
    }
  }

  lemma CommitInserts(s: State, e: Event)
    requires Enabled(s, e) && e.Commit? && Validate(e.body).Some?
    ensures e.jobId in Step(s, e).jobs
  {
  }

  /** A job fails with no_eligible_worker exactly when it has had all its 15 ticks and, at
      its commit and at every one of those ticks, no idle capable worker was in the map. */
  lemma GivenUpOnlyWhenNobodyWasThere(states: seq<State>, events: seq<Event>, n: nat, j: JobId)
    requires IsRun(states, events) && n < |states| && j in states[n].jobs
    ensures states[n].jobs[j].status == Failed(NoEligibleWorker)
            <==> (CountTicks(events, n, j) == 15
                  && AllSearchesEmpty(states, events, n, j, states[n].jobs[j].jobType))
  {
    RunKeepsInv(states, events, n);
    TimersCountTicks(states, events, n, j);
    GivenUpTakesAllTicks(states, events, n, j);
    if states[n].jobs[j].privacy == Public {
      UnluckyMeansEmptySearches(states, events, n, j);
    }
  }

  lemma {:induction false} GivenUpTakesAllTicks(states: seq<State>, events: seq<Event>, n: nat, j: JobId)
    requires IsRun(states, events) && n < |states| && j in states[n].jobs
    ensures states[n].jobs[j].status == Failed(NoEligibleWorker) ==>
              CountTicks(events, n, j) == 15 && states[n].jobs[j].privacy == Public
  {
    if states[n].jobs[j].status == Failed(NoEligibleWorker) {
      var s, e := states[n - 1], events[n - 1];
      GivenUpStep(states, events, n, j);
      if s.jobs[j] == states[n].jobs[j] {
        GivenUpTakesAllTicks(states, events, n - 1, j);
      }
      TimersCountTicks(states, events, n - 1, j);
      TimersCountTicks(states, events, n, j);
    }
  }

  lemma GivenUpStep(states: seq<State>, events: seq<Event>, n: nat, j: JobId)
    requires IsRun(states, events) && 0 < n < |states| && j in states[n].jobs
    requires states[n].jobs[j].status == Failed(NoEligibleWorker)
    ensures var s, e := states[n - 1], events[n - 1];
            && j in s.jobs
            && (s.jobs[j] == states[n].jobs[j]
                || (e.Tick? && e.jobId == j && j in s.timers && s.timers[j].attempts == 14))
  {
    var s, e := states[n - 1], events[n - 1];
    RunKeepsInv(states, events, n - 1);
    if j in s.jobs {
      StepMovesRows(s, e, j);
      if s.jobs[j].status == Pending { GivingUpIsATick(s, e, j); }
    } else {
      OnlyCommitsInsert(s, e, j);
    }
  }

  lemma GivingUpIsATick(s: State, e: Event, j: JobId)
    requires Inv(s) && Enabled(s, e) && j in s.jobs && s.jobs[j].status == Pending
    requires j in Step(s, e).jobs && Step(s, e).jobs[j].status == Failed(NoEligibleWorker)
    ensures e.Tick? && e.jobId == j && j in s.timers && s.timers[j].attempts == 14
  {
    JobEffect(s, e, j);
  }

  /** The guard that lets a retry timer stop because its job was handled elsewhere never fires. */
  lemma TimersOnlyWatchPendingJobs(states: seq<State>, events: seq<Event>, n: nat)
    requires IsRun(states, events) && n < |events| && events[n].Tick?
    ensures events[n].jobId in states[n].jobs && states[n].jobs[events[n].jobId].status == Pending
  {
    RunKeepsInv(states, events, n);
  }

  // ---- What a request says ----

  /** A request that is not answered with status 400: it names one of the two job types, and
      brings a payload and a user. */
  predicate WellFormed(body: CommitBody) {
    body.jobType in {"LLM_INFER", "TASK"} && body.hasPayload && body.user != ""
  }

  /** The row as it is inserted. */
  function RequestedRow(e: Event): JobRow
    requires e.Commit?
  {
    JobRow(if e.body.jobType == "TASK" then Task else LlmInfer, e.policy,
           if e.body.privacy == Some("PRIVATE") then Private else Public, e.body.user, Pending, None)
  }

  lemma RequestsAreRead(e: Event)
    requires e.Commit?
    ensures Validate(e.body).Some? <==> WellFormed(e.body)
    ensures WellFormed(e.body) ==>
              RequestedRow(e)
              == JobRow(Validate(e.body).value, e.policy, ParsePrivacy(e.body.privacy), e.body.user, Pending, None)
  {
  }

  /** The keys a user trusts are those that have claimed a pairing of that user. */
  lemma TrustedKeys(pairings: map<string, Pairing>, user: string, key: Pubkey)
    ensures key in Trusted(pairings, user) <==>
              exists code :: code in pairings
                             && pairings[code] == Pairing(user, true, Some(key), pairings[code].expires)
  {
    if key in Trusted(pairings, user) {
      var code :| code in pairings && pairings[code].claimed && pairings[code].user == user
                  && pairings[code].provider.Some? && pairings[code].provider.value == key;
      assert pairings[code] == Pairing(user, true, Some(key), pairings[code].expires);
    }
    if code :| code in pairings && pairings[code] == Pairing(user, true, Some(key), pairings[code].expires) {
      assert pairings[code].provider.value in Trusted(pairings, user);
    }
  }

  // ---- Outcomes of a search ----

  /** A request that is not well formed changes nothing. */
  lemma RefusedCommit(s: State, e: Event)
    requires Enabled(s, e) && e.Commit?
    ensures !WellFormed(e.body) ==> Step(s, e) == s
    ensures WellFormed(e.body) ==> e.jobId in Step(s, e).jobs
  {
    RequestsAreRead(e);
  }

  /** What an accepted commit does: the new row goes to the winner of the claim; without a
      winner a private job fails at once and a public one gets a fresh timer. The search is
      for the job type and policy of the request, among the trusted workers if the text of
      the request says PRIVATE and among all workers otherwise. */
  lemma CommitOutcome(s: State, e: Event)
    requires Inv(s) && Enabled(s, e) && e.Commit? && WellFormed(e.body)
    ensures var s', j, row := Step(s, e), e.jobId, RequestedRow(e);
            var trusted := if e.body.privacy == Some("PRIVATE") then Some(Trusted(s.pairings, e.body.user)) else None;
            var c := Claim(row.jobType, e.policy, trusted);
            && s'.pairings == s.pairings
            && (forall i: nat :: Wins(s.workers, c, e.now, i) ==>
                  && s'.jobs == s.jobs[j := row.(status := Assigned, worker := Some(s.workers[i].pubkey))]
                  && s'.workers == s.workers[i := s.workers[i].(busy := true, active := Some(j))]
                  && HolderOf(s'.workers, j) == i && s'.timers == s.timers)
            && ((forall i: nat :: !Wins(s.workers, c, e.now, i)) ==>
                  && s'.workers == s.workers
                  && if e.body.privacy == Some("PRIVATE") then
                       s'.jobs == s.jobs[j := row.(status := Failed(NoTrustedWorker))] && s'.timers == s.timers
                     else
                       && s'.jobs == s.jobs[j := row]
                       && s'.timers == s.timers[j := Timer(0, row.jobType, e.policy, row.privacy, e.body.user)])
  {
    RequestsAreRead(e);
    var j, jobType, privacy := e.jobId, Validate(e.body).value, ParsePrivacy(e.body.privacy);
    var c := ClaimFor(s, jobType, e.policy, privacy, e.body.user);
    BestIsTheWinner(s.workers, c, e.now);
    CommitParts(s, j, jobType, e.policy, privacy, e.body.user, e.now);
    if Best(s.workers, c, e.now).Some? {
      StepKeepsInv(s, e);
      HolderIsUnique(Step(s, e).workers, Best(s.workers, c, e.now).value, j);
    }
  }

  lemma CommitParts(s: State, j: JobId, jobType: JobType, policy: Policy, privacy: Privacy, user: string, now: int)
    requires j !in s.jobs
    ensures var s' := CommitJob(s, j, jobType, policy, privacy, user, now);
            var row := JobRow(jobType, policy, privacy, user, Pending, None);
            && s'.pairings == s.pairings
            && match Best(s.workers, ClaimFor(s, jobType, policy, privacy, user), now)
            case Some(i) =>
              && s'.jobs == s.jobs[j := row.(status := Assigned, worker := Some(s.workers[i].pubkey))]
              && s'.workers == s.workers[i := Hold(s.workers[i], j)] && s'.timers == s.timers
            case None =>
              && s'.workers == s.workers
              && if privacy == Private then
                   s'.jobs == s.jobs[j := row.(status := Failed(NoTrustedWorker))] && s'.timers == s.timers
                 else
                   s'.jobs == s.jobs[j := row] && s'.timers == s.timers[j := Timer(0, jobType, policy, privacy, user)]
  {
  }

  /** What a tick does to a job that is still pending: the winner of the claim gets it;
      without a winner the fifteenth attempt is the last. */
  lemma TickOutcome(s: State, j: JobId, now: int)
    requires Inv(s) && j in s.timers
    ensures var s', row, t := Step(s, Tick(j, now)), s.jobs[j], s.timers[j];
            var c := Claim(row.jobType, row.policy, None);
            && row.privacy == Public && s'.pairings == s.pairings
            && (forall i: nat :: Wins(s.workers, c, now, i) ==>
                  && s'.workers == s.workers[i := s.workers[i].(busy := true, active := Some(j))]
                  && s'.jobs == s.jobs[j := row.(status := Assigned, worker := Some(s.workers[i].pubkey))]
                  && s'.timers == s.timers - {j})
            && ((forall i: nat :: !Wins(s.workers, c, now, i)) ==>
                  && s'.workers == s.workers
                  && if t.attempts == 14 then
                       s'.jobs == s.jobs[j := row.(status := Failed(NoEligibleWorker))] && s'.timers == s.timers - {j}
                     else
                       s'.jobs == s.jobs && s'.timers == s.timers[j := t.(attempts := t.attempts + 1)])
  {
    var row := s.jobs[j];
    var c := ClaimFor(s, row.jobType, row.policy, row.privacy, row.user);
    BestIsTheWinner(s.workers, c, now);
  }

  // ---- Pairings and private jobs ----

  /** A new pairing can be claimed for exactly one hour. */
  lemma PairingsLiveOneHour(s: State, user: string, code: string, created: int, pubkey: Pubkey, now: int)
    requires user != "" && code != "" && pubkey != "" && code !in s.pairings
    ensures var s' := Step(Step(s, CreatePairing(user, code, created)), ClaimPairing(code, pubkey, now));
            pubkey in Trusted(s'.pairings, user)
            <==> (now <= created + 60 * 60 * 1000 || pubkey in Trusted(s.pairings, user))
  {
    var s1 := Step(s, CreatePairing(user, code, created));
    var s2 := Step(s1, ClaimPairing(code, pubkey, now));
    forall c | c in s.pairings ensures c in s2.pairings && s2.pairings[c] == s.pairings[c] {
    }
    if pubkey in Trusted(s.pairings, user) {
      var c :| c in s.pairings && s.pairings[c].claimed && s.pairings[c].user == user
               && s.pairings[c].provider.Some? && s.pairings[c].provider.value == pubkey;
      assert s2.pairings[c] == s.pairings[c];
    }
    if now <= created + 60 * 60 * 1000 {
      assert s2.pairings[code] == Pairing(user, true, Some(pubkey), created + PAIRING_LIFETIME_MS);
    } else {
      assert !s2.pairings[code].claimed;
    }
  }

  predicate ClaimsAt(s: State, e: Event, code: string) {
    && e.ClaimPairing? && e.code == code && code != "" && e.pubkey != ""
    && code in s.pairings && !s.pairings[code].claimed
    && e.now <= s.pairings[code].expires
  }

  predicate Claimed(s: State, code: string) {
    code in s.pairings && s.pairings[code].claimed
  }

  /** A pairing becomes claimed only by a timely claim of its code, and stays as it is then. */
  lemma PairingStep(s: State, e: Event, code: string)
    requires Enabled(s, e)
    ensures Claimed(s, code) ==> Claimed(Step(s, e), code) && Step(s, e).pairings[code] == s.pairings[code]
    ensures Claimed(Step(s, e), code) && !Claimed(s, code) ==> ClaimsAt(s, e, code)
    ensures ClaimsAt(s, e, code) ==>
              && Claimed(Step(s, e), code)
              && Step(s, e).pairings[code] == s.pairings[code].(claimed := true, provider := Some(e.pubkey))
  {
    PairingsTouchedBy(s, e);
  }

  lemma NextPairing(states: seq<State>, events: seq<Event>, n: nat, code: string)
    requires IsRun(states, events) && 0 < n < |states|
    ensures Claimed(states[n - 1], code) ==>
              Claimed(states[n], code) && states[n].pairings[code] == states[n - 1].pairings[code]
    ensures Claimed(states[n], code) && !Claimed(states[n - 1], code) ==> ClaimsAt(states[n - 1], events[n - 1], code)
    ensures ClaimsAt(states[n - 1], events[n - 1], code) ==> ClaimTakesEffect(states, events, n - 1, code)
  {
    PairingStep(states[n - 1], events[n - 1], code);
  }

  /** Event i is a timely claim of the code, recorded in the next state. */
  predicate ClaimTakesEffect(states: seq<State>, events: seq<Event>, i: nat, code: string) {
    && i < |events| < |states|
    && ClaimsAt(states[i], events[i], code)
    && Claimed(states[i + 1], code)
    && states[i + 1].pairings[code]
       == states[i].pairings[code].(claimed := true, provider := Some(events[i].pubkey))
  }

  lemma {:induction false} ClaimedStaysClaimed(states: seq<State>, events: seq<Event>, m: nat, n: nat, code: string)
    requires IsRun(states, events) && m <= n < |states| && Claimed(states[m], code)
    ensures Claimed(states[n], code) && states[n].pairings[code] == states[m].pairings[code]
    decreases n
  {
    if m < n {
      ClaimedStaysClaimed(states, events, m, n - 1, code);
      NextPairing(states, events, n, code);
    }
  }

  lemma {:induction false} ClaimedBySomeone(states: seq<State>, events: seq<Event>, n: nat, code: string)
    returns (i: nat)
    requires IsRun(states, events) && n < |states| && Claimed(states[n], code)
    ensures i < n && ClaimTakesEffect(states, events, i, code)
  {
    NextPairing(states, events, n, code);
    if Claimed(states[n - 1], code) {
      i := ClaimedBySomeone(states, events, n - 1, code);
    } else {
      i := n - 1;
    }
  }

  /** Once a code is claimed, no later claim of it succeeds. */
  lemma NoSecondClaim(states: seq<State>, events: seq<Event>, i: nat, k: nat, code: string)
    requires IsRun(states, events) && i < k < |events| && ClaimTakesEffect(states, events, i, code)
    ensures !ClaimsAt(states[k], events[k], code)
  {
    ClaimedStaysClaimed(states, events, i + 1, k, code);
  }

  /** A claimed pairing was claimed by exactly one event, before it expired, by the key it
      records, and has not been altered since. */
  lemma PairingsAreClaimedOnce(states: seq<State>, events: seq<Event>, n: nat, code: string) returns (i: nat)
    requires IsRun(states, events) && n < |states| && Claimed(states[n], code)
    ensures i < n && ClaimTakesEffect(states, events, i, code)
    ensures forall k :: i < k <= n ==> Claimed(states[k], code) && states[k].pairings[code] == states[n].pairings[code]
    ensures forall k :: 0 <= k < n && k != i ==> !ClaimsAt(states[k], events[k], code)
  {
    i := ClaimedBySomeone(states, events, n, code);
    forall k | i < k <= n
      ensures Claimed(states[k], code) && states[k].pairings[code] == states[n].pairings[code]
    {
      ClaimedStaysClaimed(states, events, i + 1, k, code);
      ClaimedStaysClaimed(states, events, i + 1, n, code);
    }
    forall k | 0 <= k < n && k != i ensures !ClaimsAt(states[k], events[k], code) {
      OneClaimOnly(states, events, i, k, code);
    }
  }

  lemma OneClaimOnly(states: seq<State>, events: seq<Event>, i: nat, k: nat, code: string)
    requires IsRun(states, events) && i < |events| && k < |events| && k != i
    requires ClaimTakesEffect(states, events, i, code)
    ensures !ClaimsAt(states[k], events[k], code)
  {
    if i < k {
      NoSecondClaim(states, events, i, k, code);
    } else if ClaimsAt(states[k], events[k], code) {
      NextPairing(states, events, k + 1, code);
      ClaimedStaysClaimed(states, events, k + 1, i, code);
    }
  }

  /** In every reachable state, the worker recorded for a private job is one that its user
      had paired with: there was a pairing of that user, claimed in time, by that key. */
  lemma PrivateJobsGoToPairedWorkers(states: seq<State>, events: seq<Event>, n: nat, j: JobId) returns (i: nat)
    requires IsRun(states, events) && n < |states|
    requires j in states[n].jobs && states[n].jobs[j].privacy == Private && states[n].jobs[j].worker.Some?
    ensures i < n && events[i].ClaimPairing? && ClaimsAt(states[i], events[i], events[i].code)
    ensures events[i].pubkey == states[n].jobs[j].worker.value
    ensures states[i].pairings[events[i].code].user == states[n].jobs[j].user
  {
    RunKeepsInv(states, events, n);
    var s := states[n];
    var pk, user := s.jobs[j].worker.value, s.jobs[j].user;
    var code :| code in s.pairings && s.pairings[code].claimed && s.pairings[code].user == user
                && s.pairings[code].provider.Some? && s.pairings[code].provider.value == pk;
    i := PairingsAreClaimedOnce(states, events, n, code);
    ClaimKeepsUser(states, events, i, n, code);
  }

  // ---- Rows and requests ----

  ghost predicate Records(r: JobRow, e: Event) {
    e.Commit? && WellFormed(e.body)
    && r == RequestedRow(e).(status := r.status, worker := r.worker)
  }

  lemma CommitRecords(s: State, e: Event)
    requires Inv(s) && Enabled(s, e) && e.Commit? && WellFormed(e.body)
    ensures e.jobId in Step(s, e).jobs && Records(Step(s, e).jobs[e.jobId], e)
  {
    CommitOutcome(s, e);
    var c := Claim(RequestedRow(e).jobType, e.policy,
                   if e.body.privacy == Some("PRIVATE") then Some(Trusted(s.pairings, e.body.user)) else None);
    if i: nat :| Wins(s.workers, c, e.now, i) {
      assert Step(s, e).workers == s.workers[i := s.workers[i].(busy := true, active := Some(e.jobId))];
    }
  }

  lemma NextRow(states: seq<State>, events: seq<Event>, n: nat, j: JobId)
    requires IsRun(states, events) && 0 < n < |states|
    ensures j in states[n - 1].jobs ==>
              && j in states[n].jobs
              && var r := states[n].jobs[j];
              r == states[n - 1].jobs[j].(status := r.status, worker := r.worker)
    ensures j !in states[n - 1].jobs && j in states[n].jobs ==>
              events[n - 1].Commit? && events[n - 1].jobId == j && Records(states[n].jobs[j], events[n - 1])
  {
    var s, e := states[n - 1], events[n - 1];
    RunKeepsInv(states, events, n - 1);
    if j in s.jobs {
      StepMovesRows(s, e, j);
    } else if j in states[n].jobs {
      OnlyCommitsInsert(s, e, j);
      RequestsAreRead(e);
      CommitRecords(s, e);
    }
  }

  /** Every row of every reachable state goes back to one well-formed request, and holds what
      that request said. */
  lemma {:induction false} RowsComeFromRequests(states: seq<State>, events: seq<Event>, n: nat, j: JobId)
    returns (m: nat)
    requires IsRun(states, events) && n < |states| && j in states[n].jobs
    ensures m < n && events[m].Commit? && events[m].jobId == j && Records(states[n].jobs[j], events[m])
  {
    NextRow(states, events, n, j);
    if j in states[n - 1].jobs {
      m := RowsComeFromRequests(states, events, n - 1, j);
    } else {
      m := n - 1;
    }
  }

  /** A well-formed request has its row in every later state. */
  lemma {:induction false} RequestsHaveRows(states: seq<State>, events: seq<Event>, m: nat, n: nat)
    requires IsRun(states, events) && m < n < |states| && events[m].Commit? && WellFormed(events[m].body)
    ensures events[m].jobId in states[n].jobs && Records(states[n].jobs[events[m].jobId], events[m])
    decreases n
  {
    if n == m + 1 {
      RunKeepsInv(states, events, m);
      CommitRecords(states[m], events[m]);
    } else {
      RequestsHaveRows(states, events, m, n - 1);
      NextRow(states, events, n, events[m].jobId);
    }
  }

  /** A request that says PRIVATE is only ever given to a key that had claimed, in time, a
      pairing of the user who made the request. */
  lemma PrivateRequestsGoToPairedWorkers(states: seq<State>, events: seq<Event>, m: nat, n: nat) returns (i: nat)
    requires IsRun(states, events) && m < n < |states|
    requires events[m].Commit? && WellFormed(events[m].body) && events[m].body.privacy == Some("PRIVATE")
    requires events[m].jobId in states[n].jobs ==> states[n].jobs[events[m].jobId].worker.Some?
    ensures events[m].jobId in states[n].jobs && states[n].jobs[events[m].jobId].worker.Some?
    ensures i < n && events[i].ClaimPairing? && ClaimsAt(states[i], events[i], events[i].code)
    ensures Some(events[i].pubkey) == states[n].jobs[events[m].jobId].worker
    ensures states[i].pairings[events[i].code].user == events[m].body.user
  {
    RequestsHaveRows(states, events, m, n);
    i := PrivateJobsGoToPairedWorkers(states, events, n, events[m].jobId);
  }

  /** A request that says PRIVATE is never retried: it has no timer in any state. */
  lemma PrivateRequestsAreNotRetried(states: seq<State>, events: seq<Event>, m: nat, n: nat)
    requires IsRun(states, events) && m < n < |states|
    requires events[m].Commit? && WellFormed(events[m].body) && events[m].body.privacy == Some("PRIVATE")
    ensures events[m].jobId !in states[n].timers
  {
    RequestsHaveRows(states, events, m, n);
    RunKeepsInv(states, events, n);
  }

  lemma ClaimKeepsUser(states: seq<State>, events: seq<Event>, i: nat, n: nat, code: string)
    requires IsRun(states, events) && i < n < |states| && ClaimTakesEffect(states, events, i, code)
    ensures Claimed(states[n], code) && states[n].pairings[code].user == states[i].pairings[code].user
    ensures states[n].pairings[code].provider == Some(events[i].pubkey)
  {
    ClaimedStaysClaimed(states, events, i + 1, n, code);
  }
}
