/** The coordinator's own code: worker objects updated in place, loops over the worker
    map, and handlers that rewrite table rows. Every handler is proved to take the step
    that Dispatch.Step describes. */
module CoordinatorService {
  import opened Protocol
  import opened Selection
  import opened Dispatch

  class TrackedWorker {
    const id: string
    const pubkey: Pubkey
    const kind: ProviderType
    const caps: seq<JobType>
    var busy: bool
    var lastHeartbeat: int
    var activeJobId: Option<JobId>
    var reputationScore: Option<real>
    var stakeLevel: Option<StakeTier>

    constructor (id: string, pubkey: Pubkey, kind: ProviderType, caps: seq<JobType>, now: int)
      ensures View() == NewWorker(id, pubkey, kind, caps, now)
    {
      this.id, this.pubkey, this.kind, this.caps := id, pubkey, kind, caps;
      busy, lastHeartbeat, activeJobId := false, now, None;
      reputationScore, stakeLevel := None, None;
    }

    function View(): Worker
      reads this
    {
      Worker(id, pubkey, kind, caps, busy, lastHeartbeat, activeJobId, reputationScore, stakeLevel)
    }
  }

  /** The current values of a list of worker objects. */
  function Views(ws: seq<TrackedWorker>): (vs: seq<Worker>)
    reads ws
    ensures |vs| == |ws|
    ensures forall i :: 0 <= i < |ws| ==> vs[i] == ws[i].View()
  {
    seq(|ws|, i requires 0 <= i < |ws| reads ws => ws[i].View())
  }

  ghost predicate Distinct(ws: seq<TrackedWorker>) {
    forall i, j :: 0 <= i < j < |ws| ==> ws[i] != ws[j]
  }

  /** If only worker i differs from the values recorded before, one entry has changed. */
  lemma OneWorkerChanged(ws: seq<TrackedWorker>, before: seq<Worker>, i: nat)
    requires i < |ws| == |before|
    requires forall k :: 0 <= k < |ws| && k != i ==> ws[k].View() == before[k]
    ensures Views(ws) == before[i := ws[i].View()]
  {
  }

  datatype CommitReply = BadRequest | NoTrusted(jobId: JobId) | Created(jobId: JobId)

  datatype PairReply = Paired(user: string) | MissingField | InvalidCode | AlreadyClaimed | Expired

  /** What a completion changes and pays, case by case. */
  lemma CompleteParts(s: State, jobId: JobId, output: string, receiptFor: Option<JobId>)
    ensures var e, i := Complete(jobId, output, receiptFor), HolderOf(s.workers, jobId);
            if i == |s.workers| || (!IsDemo(jobId) && TransactionFails(s, receiptFor))
            then Step(s, e) == s && PayoutOf(s, e) == None
            else && Step(s, e) == s.(
                      workers := s.workers[i := Free(s.workers[i])],
                      jobs := if IsDemo(jobId) then s.jobs else SetStatus(s.jobs, jobId, Completed(output)))
                 && PayoutOf(s, e) == Some((s.workers[i].pubkey, jobId))
  {
  }

  lemma RejectParts(s: State, jobId: JobId)
    ensures var i := HolderOf(s.workers, jobId);
            if i == |s.workers| then Step(s, Reject(jobId)) == s
            else Step(s, Reject(jobId)) == s.(
                   workers := s.workers[i := Free(s.workers[i])],
                   jobs := if IsDemo(jobId) then s.jobs else SetRow(s.jobs, jobId, Pending, None))
  {
  }

  class Coordinator {
    var workers: seq<TrackedWorker>
    var jobs: map<JobId, JobRow>
    var pairings: map<string, Pairing>
    var timers: map<JobId, Timer>

    /** The worker objects in the map are all different objects. */
    ghost predicate Valid()
      reads this
    {
      Distinct(workers)
    }

    ghost function Abs(): State
      reads this, workers
    {
      State(Views(workers), jobs, pairings, timers)
    }

    constructor ()
      ensures Valid() && Abs() == INIT
    {
      workers, jobs, pairings, timers := [], map[], map[], map[];
    }

    // ---- Lookups ----

    method FindByActiveJob(jobId: JobId) returns (w: TrackedWorker?)
      ensures w == null <==> HolderOf(Views(workers), jobId) == |workers|
      ensures w != null ==> var i := HolderOf(Views(workers), jobId); i < |workers| && w == workers[i]
    {
      var i := 0;
      while i < |workers|
        invariant 0 <= i <= |workers|
        invariant forall k :: 0 <= k < i ==> workers[k].activeJobId != Some(jobId)
      {
        if workers[i].activeJobId == Some(jobId) {
          assert Views(workers)[i].active == Some(jobId);
          return workers[i];
        }
        i := i + 1;
      }
      assert forall k :: 0 <= k < |workers| ==> Views(workers)[k].active != Some(jobId);
      w := null;
    }

    method FindByPubkey(pubkey: Pubkey) returns (w: TrackedWorker?)
      ensures w == null <==> IndexOfPubkey(Views(workers), pubkey) == |workers|
      ensures w != null ==> var i := IndexOfPubkey(Views(workers), pubkey); i < |workers| && w == workers[i]
    {
      var i := 0;
      while i < |workers|
        invariant 0 <= i <= |workers|
        invariant forall k :: 0 <= k < i ==> workers[k].pubkey != pubkey
      {
        if workers[i].pubkey == pubkey {
          assert Views(workers)[i].pubkey == pubkey;
          return workers[i];
        }
        i := i + 1;
      }
      assert forall k :: 0 <= k < |workers| ==> Views(workers)[k].pubkey != pubkey;
      w := null;
    }

    /** The position of the worker with the given id, or the size of the map. */
    method Locate(id: string) returns (i: nat)
      ensures i == IndexOfId(Views(workers), id)
    {
      i := 0;
      while i < |workers|
        invariant 0 <= i <= |workers|
        invariant forall k :: 0 <= k < i ==> workers[k].id != id
      {
        if workers[i].id == id {
          assert Views(workers)[i].id == id;
          return;
        }
        i := i + 1;
      }
      assert forall k :: 0 <= k < |workers| ==> Views(workers)[k].id != id;
    }

    /** The jobs table after one statement; nothing else changes. */
    method StoreRow(table: map<JobId, JobRow>)
      modifies this`jobs
      ensures Abs() == old(Abs()).(jobs := table)
    {
      jobs := table;
    }

    // ---- Worker messages ----

    method Register(id: string, pubkey: Pubkey, kind: ProviderType, caps: seq<JobType>, now: int)
      requires Valid() && Enabled(Abs(), Event.Register(id, pubkey, kind, caps, now))
      modifies this`workers
      ensures Valid() && Abs() == Step(old(Abs()), Event.Register(id, pubkey, kind, caps, now))
      ensures |workers| == |old(workers)| + 1 && workers[..|old(workers)|] == old(workers)
      ensures fresh(workers[|old(workers)|])
    {
      var w := new TrackedWorker(id, pubkey, kind, caps, now);
      workers := workers + [w];
      assert Views(workers) == old(Views(workers)) + [w.View()];
    }

    method Heartbeat(pubkey: Pubkey, now: int)
      requires Valid()
      modifies workers
      ensures Valid() && Abs() == Step(old(Abs()), Event.Heartbeat(pubkey, now))
    {
      var w := FindByPubkey(pubkey);
      if w != null {
        ghost var i := IndexOfPubkey(Views(workers), pubkey);
        w.lastHeartbeat := now;
        OneWorkerChanged(workers, old(Views(workers)), i);
      }
    }

    method ReputationArrived(id: string, score: real)
      requires Valid() && Enabled(Abs(), Event.ReputationArrived(id, score))
      modifies workers
      ensures Valid() && Abs() == Step(old(Abs()), Event.ReputationArrived(id, score))
    {
      var i := Locate(id);
      if i < |workers| {
        workers[i].reputationScore := Some(score);
        OneWorkerChanged(workers, old(Views(workers)), i);
      }
    }

    method StakeArrived(id: string, tier: StakeTier)
      requires Valid()
      modifies workers
      ensures Valid() && Abs() == Step(old(Abs()), Event.StakeArrived(id, tier))
    {
      var i := Locate(id);
      if i < |workers| {
        workers[i].stakeLevel := Some(tier);
        OneWorkerChanged(workers, old(Views(workers)), i);
      }
    }

    /** A worker that has answered is idle again. */
    method FreeWorker(w: TrackedWorker, ghost i: nat)
      requires Valid() && i < |workers| && w == workers[i]
      modifies w`busy, w`activeJobId
      ensures Abs() == old(Abs()).(workers := old(Abs()).workers[i := Free(old(Abs()).workers[i])])
    {
      w.busy, w.activeJobId := false, None;
      OneWorkerChanged(workers, old(Views(workers)), i);
    }

    /** The transaction that stores a result and its receipt: both rows or neither. */
    method StoreResult(jobId: JobId, output: string, receiptFor: Option<JobId>) returns (stored: bool)
      modifies this`jobs
      ensures stored == (receiptFor.None? || receiptFor.value in old(jobs))
      ensures Abs() == old(Abs()).(jobs := if stored then SetStatus(old(jobs), jobId, Completed(output)) else old(jobs))
    {
      stored := !(receiptFor.Some? && receiptFor.value !in jobs);
      if stored {
        jobs := SetStatus(jobs, jobId, Completed(output));
      }
    }

    /** Returns the payout that is queued with the token distributors. */
    method JobComplete(jobId: JobId, output: string, receiptFor: Option<JobId>)
      returns (payout: Option<(Pubkey, JobId)>)
      requires Valid()
      modifies this`jobs, workers
      ensures Valid() && Abs() == Step(old(Abs()), Complete(jobId, output, receiptFor))
      ensures payout == PayoutOf(old(Abs()), Complete(jobId, output, receiptFor))
      ensures payout.Some? <==>
                && HolderOf(old(Abs()).workers, jobId) < |old(Abs()).workers|
                && ("demo-" <= jobId || receiptFor.None? || receiptFor.value in old(jobs))
    {
      payout := None;
      ghost var s := Abs();
      ghost var i := HolderOf(s.workers, jobId);
      var w := FindByActiveJob(jobId);
      CompleteParts(s, jobId, output, receiptFor);
      if w == null {
        assert i == |s.workers|;
        return;
      }
      assert i < |s.workers| && w.pubkey == s.workers[i].pubkey;
      var done := Finish(w, jobId, output, receiptFor, i);
      if done {
        payout := Some((w.pubkey, jobId));
      }
    }

    /** Store the result of a real job and free its worker; nothing happens if storing fails. */
    method Finish(w: TrackedWorker, jobId: JobId, output: string, receiptFor: Option<JobId>, ghost i: nat)
      returns (done: bool)
      requires Valid() && i < |workers| && w == workers[i]
      modifies this`jobs, w`busy, w`activeJobId
      ensures done == (IsDemo(jobId) || !TransactionFails(old(Abs()), receiptFor))
      ensures var s := old(Abs());
              Abs() == if !done then s
                       else s.(workers := s.workers[i := Free(s.workers[i])],
                               jobs := if IsDemo(jobId) then s.jobs else SetStatus(s.jobs, jobId, Completed(output)))
    {
      done := true;
      if !IsDemo(jobId) {
        done := StoreResult(jobId, output, receiptFor);
      }
      if done {
        FreeWorker(w, i);
      }
    }

    method JobReject(jobId: JobId)
      requires Valid()
      modifies this`jobs, workers
      ensures Valid() && Abs() == Step(old(Abs()), Reject(jobId))
    {
      ghost var s := Abs();
      ghost var i := HolderOf(s.workers, jobId);
      var w := FindByActiveJob(jobId);
      RejectParts(s, jobId);
      if w == null {
        return;
      }
      if !IsDemo(jobId) {
        StoreRow(SetRow(jobs, jobId, Pending, None));
      }
      FreeWorker(w, i);
    }

    /** Forget the worker at a position of the map, failing its active job. */
    method Remove(i: nat)
      requires Valid() && i < |workers|
      modifies this`jobs, this`workers
      ensures Valid() && Abs() == Drop(old(Abs()), i)
      ensures workers == old(workers)[..i] + old(workers)[i + 1..]
    {
      var held := workers[i].activeJobId;
      if held.Some? && !IsDemo(held.value) {
        jobs := SetStatus(jobs, held.value, Failed(WorkerDisconnected));
      }
      workers := workers[..i] + workers[i + 1..];
      assert Views(workers) == old(Views(workers))[..i] + old(Views(workers))[i + 1..];
    }

    method Disconnect(id: string)
      requires Valid()
      modifies this`jobs, this`workers
      ensures Valid() && Abs() == Step(old(Abs()), Event.Disconnect(id))
      ensures var k := IndexOfId(old(Abs()).workers, id);
              workers == if k < |old(workers)| then old(workers)[..k] + old(workers)[k + 1..] else old(workers)
    {
      var i := Locate(id);
      if i < |workers| {
        Remove(i);
      }
    }

    method PruneStale(now: int)
      requires Valid()
      modifies this`jobs, this`workers
      ensures Valid() && Abs() == Step(old(Abs()), Prune(now))
    {
      var i := 0;
      while i < |workers|
        invariant Valid() && 0 <= i <= |workers|
        invariant PruneFrom(Abs(), now, i) == PruneFrom(old(Abs()), now, 0)
        decreases |workers| - i
      {
        if now - workers[i].lastHeartbeat > HEARTBEAT_TIMEOUT_MS {
          Remove(i);
        } else {
          i := i + 1;
        }
      }
    }

    // ---- Matching ----

    /** The positions of the eligible workers, in registration order. */
    method GatherCandidates(claim: Claim) returns (candidates: seq<nat>)
      ensures candidates == Candidates(Views(workers), claim, |workers|)
    {
      candidates := [];
      var i := 0;
      while i < |workers|
        invariant 0 <= i <= |workers|
        invariant candidates == Candidates(Views(workers), claim, i)
      {
        var w := workers[i];
        if !w.busy {
          if claim.jobType in w.caps {
            if claim.trusted.None? || w.pubkey in claim.trusted.value {
              candidates := candidates + [i];
            }
          }
        }
        i := i + 1;
      }
    }

    /** The candidates sorted by score, best first. */
    method RankCandidates(claim: Claim, now: int) returns (ranked: seq<nat>)
      ensures IsStableSort(Scores(Views(workers), claim, now), Candidates(Views(workers), claim, |workers|), ranked)
      ensures ranked == [] <==> Best(Views(workers), claim, now).None?
      ensures ranked != [] ==> Best(Views(workers), claim, now) == Some(ranked[0])
    {
      var candidates := GatherCandidates(claim);
      CandidatesAreEligible(Views(workers), claim, |workers|);
      ranked := SortByScore(Scores(Views(workers), claim, now), candidates);
      SortedHeadIsBest(Views(workers), claim, now, ranked);
    }

    /** Find the best eligible worker and mark it busy before anything else can run. */
    method ClaimWorker(claim: Claim, now: int) returns (best: TrackedWorker?)
      requires Valid()
      modifies workers
      ensures var b := Best(old(Views(workers)), claim, now);
              && (best == null <==> b.None?)
              && (b.None? ==> Views(workers) == old(Views(workers)))
              && (b.Some? ==> best == workers[b.value] && Views(workers) == MarkBusy(old(Views(workers)), b.value))
    {
      if claim.trusted == Some({}) {
        BestIsTheWinner(Views(workers), claim, now);
        return null;
      }
      var ranked := RankCandidates(claim, now);
      if ranked == [] {
        return null;
      }
      best := workers[ranked[0]];
      best.busy := true;
      OneWorkerChanged(workers, old(Views(workers)), ranked[0]);
    }

    /** Give a claimed worker its job and record the worker in the row. */
    method AssignJob(worker: TrackedWorker, jobId: JobId, ghost i: nat)
      requires Valid() && i < |workers| && worker == workers[i] && worker.busy
      modifies worker`activeJobId, this`jobs
      ensures Views(workers) == old(Views(workers))[i := Hold(old(Views(workers))[i], jobId)]
      ensures jobs == SetRow(old(jobs), jobId, Assigned, Some(worker.pubkey))
    {
      jobs := SetRow(jobs, jobId, Assigned, Some(worker.pubkey));
      worker.activeJobId := Some(jobId);
      OneWorkerChanged(workers, old(Views(workers)), i);
    }

    /** Claim a worker for a job and, if there is one, assign the job to it. */
    method TryMatch(jobId: JobId, claim: Claim, now: int) returns (found: bool)
      requires Valid()
      modifies workers, this`jobs
      ensures var b := Best(old(Abs()).workers, claim, now);
              && found == b.Some?
              && Abs() == if b.Some? then Assign(old(Abs()), jobId, b.value) else old(Abs())
    {
      ghost var vs := Views(workers);
      ghost var b := Best(vs, claim, now);
      var worker := ClaimWorker(claim, now);
      if worker == null {
        return false;
      }
      AssignJob(worker, jobId, b.value);
      assert Hold(MarkBusy(vs, b.value)[b.value], jobId) == Hold(vs[b.value], jobId);
      assert Views(workers) == vs[b.value := Hold(vs[b.value], jobId)];
      found := true;
    }

    /** What a search asks for; a private job brings the keys its user trusts. */
    method MakeClaim(jobType: JobType, policy: Policy, privacy: Privacy, user: string) returns (claim: Claim)
      ensures claim == ClaimFor(Abs(), jobType, policy, privacy, user)
    {
      claim := Claim(jobType, policy, if privacy == Private then Some(Trusted(pairings, user)) else None);
    }

    /** The part of a commit that follows validation. */
    method CommitValid(jobId: JobId, jobType: JobType, policy: Policy, privacy: Privacy, user: string, now: int)
      returns (reply: CommitReply)
      requires Valid()
      modifies this`jobs, this`timers, workers
      ensures Abs() == CommitJob(old(Abs()), jobId, jobType, policy, privacy, user, now)
      ensures reply == NoTrusted(jobId) || reply == Created(jobId)
      ensures reply == NoTrusted(jobId) <==> jobs[jobId].status == Failed(NoTrustedWorker)
    {
      StoreRow(jobs[jobId := JobRow(jobType, policy, privacy, user, Pending, None)]);
      var claim := MakeClaim(jobType, policy, privacy, user);
      var found := TryMatch(jobId, claim, now);
      if !found {
        reply := Unmatched(jobId, jobType, policy, privacy, user);
        return;
      }
      reply := Created(jobId);
    }

    /** Nobody takes a new job: a private one fails at once, a public one gets a timer. */
    method Unmatched(jobId: JobId, jobType: JobType, policy: Policy, privacy: Privacy, user: string)
      returns (reply: CommitReply)
      modifies this`jobs, this`timers
      ensures Abs() == if privacy == Private
                       then old(Abs()).(jobs := SetStatus(old(jobs), jobId, Failed(NoTrustedWorker)))
                       else old(Abs()).(timers := old(timers)[jobId := Timer(0, jobType, policy, privacy, user)])
      ensures reply == if privacy == Private then NoTrusted(jobId) else Created(jobId)
    {
      if privacy == Private {
        jobs := SetStatus(jobs, jobId, Failed(NoTrustedWorker));
        return NoTrusted(jobId);
      }
      timers := timers[jobId := Timer(0, jobType, policy, privacy, user)];
      reply := Created(jobId);
    }

    method Commit(jobId: JobId, body: CommitBody, policy: Policy, now: int) returns (reply: CommitReply)
      requires Valid() && Enabled(Abs(), Event.Commit(jobId, body, policy, now))
      modifies this`jobs, this`timers, workers
      ensures Valid() && Abs() == Step(old(Abs()), Event.Commit(jobId, body, policy, now))
      ensures reply == BadRequest <==>
                !(body.jobType in {"LLM_INFER", "TASK"} && body.hasPayload && body.user != "")
      ensures reply.NoTrusted? ==> body.privacy == Some("PRIVATE")
      ensures reply == NoTrusted(jobId) <==> jobId in jobs && jobs[jobId].status == Failed(NoTrustedWorker)
    {
      var valid := Validate(body);
      if valid.None? {
        return BadRequest;
      }
      reply := CommitValid(jobId, valid.value, policy, ParsePrivacy(body.privacy), body.user, now);
    }

    method StopTimer(jobId: JobId)
      modifies this`timers
      ensures Abs() == old(Abs()).(timers := old(timers) - {jobId})
    {
      timers := timers - {jobId};
    }

    /** A failed search either leaves the timer with one more attempt or gives the job up. */
    method CountAttempt(jobId: JobId)
      requires jobId in timers
      modifies this`jobs, this`timers
      ensures var s, t := old(Abs()), old(timers)[jobId];
              Abs() == if t.attempts + 1 >= MAX_ATTEMPTS
                       then s.(jobs := SetStatus(s.jobs, jobId, Failed(NoEligibleWorker)), timers := s.timers - {jobId})
                       else s.(timers := s.timers[jobId := t.(attempts := t.attempts + 1)])
    {
      var t := timers[jobId];
      var attempts := t.attempts + 1;
      if attempts >= MAX_ATTEMPTS {
        jobs := SetStatus(jobs, jobId, Failed(NoEligibleWorker));
        StopTimer(jobId);
      } else {
        timers := timers[jobId := t.(attempts := attempts)];
      }
    }

    /** One firing of a job's retry timer. */
    method RetryTick(jobId: JobId, now: int)
      requires Valid() && Enabled(Abs(), Tick(jobId, now))
      modifies this`jobs, this`timers, workers
      ensures Valid() && Abs() == Step(old(Abs()), Tick(jobId, now))
    {
      if jobId !in jobs || jobs[jobId].status != Pending {
        StopTimer(jobId);
      } else {
        SearchAgain(jobId, now);
      }
    }

    /** The search of a retry timer whose job is still pending. */
    method SearchAgain(jobId: JobId, now: int)
      requires Valid() && jobId in timers && jobId in jobs && jobs[jobId].status == Pending
      modifies this`jobs, this`timers, workers
      ensures Abs() == TickStep(old(Abs()), jobId, now)
    {
      var t := timers[jobId];
      var claim := MakeClaim(t.jobType, t.policy, t.privacy, t.user);
      var found := TryMatch(jobId, claim, now);
      if found {
        StopTimer(jobId);
      } else {
        CountAttempt(jobId);
      }
    }

    method InjectDemoJob(id: string, jobId: JobId) returns (sent: bool)
      requires Valid() && Enabled(Abs(), InjectDemo(id, jobId))
      modifies workers
      ensures Valid() && Abs() == Step(old(Abs()), InjectDemo(id, jobId))
      ensures sent <==> var i := IndexOfId(old(Views(workers)), id); i < |workers| && !old(Views(workers))[i].busy
    {
      var i := Locate(id);
      if i == |workers| || workers[i].busy {
        return false;
      }
      workers[i].busy, workers[i].activeJobId := true, Some(jobId);
      OneWorkerChanged(workers, old(Views(workers)), i);
      sent := true;
    }

    // ---- Pairing ----

    /** Returns whether a row was inserted. */
    method TrustCreate(user: string, code: string, now: int) returns (created: bool)
      requires Valid()
      modifies this`pairings
      ensures Valid() && Abs() == Step(old(Abs()), CreatePairing(user, code, now))
      ensures created <==> pairings != old(pairings)
    {
      if user == "" || code in pairings {
        return false;
      }
      pairings := pairings[code := Pairing(user, false, None, now + PAIRING_LIFETIME_MS)];
      assert code in pairings;
      created := true;
    }

    method TrustClaim(code: string, pubkey: Pubkey, now: int) returns (reply: PairReply)
      requires Valid()
      modifies this`pairings
      ensures Valid() && Abs() == Step(old(Abs()), ClaimPairing(code, pubkey, now))
      ensures reply.Paired? <==> code != "" && pubkey != "" && code in old(pairings)
                                 && !old(pairings)[code].claimed && now <= old(pairings)[code].expires
      ensures reply.Paired? ==> reply.user == old(pairings)[code].user && pairings[code].provider == Some(pubkey)
      ensures reply == MissingField <==> code == "" || pubkey == ""
      ensures reply == InvalidCode <==> code != "" && pubkey != "" && code !in old(pairings)
      ensures reply == AlreadyClaimed <==>
                code != "" && pubkey != "" && code in old(pairings) && old(pairings)[code].claimed
      ensures !reply.Paired? ==> pairings == old(pairings)
    {
      if code == "" || pubkey == "" {
        return MissingField;
      }
      if code !in pairings {
        return InvalidCode;
      }
      var row := pairings[code];
      if row.claimed {
        return AlreadyClaimed;
      }
      if row.expires < now {
        return Expired;
      }
      pairings := pairings[code := row.(claimed := true, provider := Some(pubkey))];
      reply := Paired(row.user);
    }
  }
}
