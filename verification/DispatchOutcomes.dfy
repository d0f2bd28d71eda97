/** What the messages of workers do, stated on the stores themselves: which row and which
    worker change and how, and that nothing else does. Over whole runs, who is in the worker
    map and what is known about them follow from the events alone. */
module DispatchOutcomes {
  import opened Protocol
  import opened Selection
  import opened Dispatch
  import opened DispatchInvariant
  import opened DispatchRuns
  import opened DispatchHeartbeats

  // ---- Answers ----

  /** Worker k, who was busy with a job, is idle; the other workers are as they were. */
  ghost predicate Freed(ws: seq<Worker>, ws': seq<Worker>, k: nat) {
    k < |ws| && ws' == ws[k := ws[k].(busy := false, active := None)]
  }

  /** A completion goes through exactly when its receipt, if it brings one, is for a job that
      exists. Then the row is completed, the worker recorded in it is paid and the holder is
      idle; otherwise nothing happens. */
  lemma CompletionOutcome(s: State, k: nat, j: JobId, output: string, receiptFor: Option<JobId>)
    requires Inv(s) && k < |s.workers| && s.workers[k].active == Some(j) && !("demo-" <= j)
    ensures var e := Complete(j, output, receiptFor);
            var s', stored := Step(s, e), receiptFor.None? || receiptFor.value in s.jobs;
            && j in s.jobs && s.jobs[j].status == Assigned && s.jobs[j].worker == Some(s.workers[k].pubkey)
            && (s'.jobs == s.jobs[j := s.jobs[j].(status := Completed(output))] <==> stored)
            && (PayoutOf(s, e) == Some((s.jobs[j].worker.value, j)) <==> stored)
            && (Freed(s.workers, s'.workers, k) <==> stored)
            && s'.timers == s.timers && s'.pairings == s.pairings
            && (!stored ==> s' == s && PayoutOf(s, e) == None)
  {
    HolderIsUnique(s.workers, k, j);
    assert s.jobs[j].status == Assigned;
    assert s.workers[k].busy;
    CompletionCases(s, k, j, output, receiptFor);
  }

  lemma CompletionCases(s: State, k: nat, j: JobId, output: string, receiptFor: Option<JobId>)
    requires k < |s.workers| && k == HolderOf(s.workers, j) && j in s.jobs && !("demo-" <= j)
    ensures var e := Complete(j, output, receiptFor);
            if receiptFor.None? || receiptFor.value in s.jobs
            then && Step(s, e) == s.(jobs := s.jobs[j := s.jobs[j].(status := Completed(output))],
                                     workers := s.workers[k := s.workers[k].(busy := false, active := None)])
                 && PayoutOf(s, e) == Some((s.workers[k].pubkey, j))
            else Step(s, e) == s && PayoutOf(s, e) == None
  {
  }

  /** A demo job has no row: completing it frees and pays the worker whatever the receipt
      says, and rejecting it frees the worker. */
  lemma DemoOutcome(s: State, k: nat, j: JobId, output: string, receiptFor: Option<JobId>)
    requires Inv(s) && k < |s.workers| && s.workers[k].active == Some(j) && "demo-" <= j
    ensures var e := Complete(j, output, receiptFor);
            && Freed(s.workers, Step(s, e).workers, k) && Step(s, e) == s.(workers := Step(s, e).workers)
            && PayoutOf(s, e) == Some((s.workers[k].pubkey, j))
            && Step(s, Reject(j)) == Step(s, e)
  {
    HolderIsUnique(s.workers, k, j);
  }

  /** Rejecting a real job puts its row back to pending without a worker and frees the holder. */
  lemma RejectOutcome(s: State, k: nat, j: JobId)
    requires Inv(s) && k < |s.workers| && s.workers[k].active == Some(j) && !("demo-" <= j)
    ensures var s' := Step(s, Reject(j));
            && j in s.jobs && s'.jobs == s.jobs[j := s.jobs[j].(status := Pending, worker := None)]
            && Freed(s.workers, s'.workers, k) && s'.timers == s.timers && s'.pairings == s.pairings
  {
    HolderIsUnique(s.workers, k, j);
  }

  /** An answer for a job that nobody holds changes nothing and pays nobody. */
  lemma StrayAnswer(s: State, j: JobId, output: string, receiptFor: Option<JobId>)
    requires forall k :: 0 <= k < |s.workers| ==> s.workers[k].active != Some(j)
    ensures var e := Complete(j, output, receiptFor);
            Step(s, e) == s && PayoutOf(s, e) == None && Step(s, Reject(j)) == s
  {
  }

  /** A job that is completed while assigned, with its own receipt or none, stays completed
      with that output in every later state. */
  lemma CompletionsLast(states: seq<State>, events: seq<Event>, m: nat, n: nat, j: JobId, output: string,
                        receiptFor: Option<JobId>)
    requires IsRun(states, events) && m < n < |states| && events[m] == Complete(j, output, receiptFor)
    requires j in states[m].jobs && states[m].jobs[j].status == Assigned
    requires receiptFor.None? || receiptFor == Some(j)
    ensures j in states[n].jobs && states[n].jobs[j] == states[m].jobs[j].(status := Completed(output))
  {
    RunKeepsInv(states, events, m);
    var k := HolderOf(states[m].workers, j);
    CompletionOutcome(states[m], k, j, output, receiptFor);
    TerminalRowsAreFinal(states, events, m + 1, n, j);
  }

  // ---- Departures ----

  /** A disconnect removes its worker and nobody else, and fails the real job that worker was
      holding; every other row, the timers and the pairings are as they were. */
  lemma DisconnectOutcome(s: State, k: nat)
    requires Inv(s) && k < |s.workers|
    ensures var s', held := Step(s, Disconnect(s.workers[k].id)), s.workers[k].active;
            && s'.workers == s.workers[..k] + s.workers[k + 1..] && !Present(s', s.workers[k].id)
            && s'.timers == s.timers && s'.pairings == s.pairings
            && if held.Some? && !("demo-" <= held.value)
               then held.value in s.jobs
                    && s'.jobs == s.jobs[held.value := s.jobs[held.value].(status := Failed(WorkerDisconnected))]
               else s'.jobs == s.jobs
  {
    var id := s.workers[k].id;
    IdIsUnique(s.workers, k);
    var s' := Step(s, Disconnect(id));
    assert s' == Drop(s, k);
    forall i | 0 <= i < |s'.workers| ensures s'.workers[i].id != id {
      assert s'.workers[i] == s.workers[if i < k then i else i + 1];
    }
  }

  lemma IdIsUnique(ws: seq<Worker>, k: nat)
    requires UniqueIds(ws) && k < |ws|
    ensures IndexOfId(ws, ws[k].id) == k
  {
  }

  /** The close of a socket whose worker is gone already changes nothing. */
  lemma LateDisconnect(s: State, id: string)
    requires !Present(s, id)
    ensures Step(s, Disconnect(id)) == s
  {
  }

  // ---- Demo jobs ----

  /** A demo job is given to a worker that is in the map and idle, and to no other; no table
      changes. */
  lemma InjectionOutcome(s: State, k: nat, j: JobId)
    requires Inv(s) && k < |s.workers| && Enabled(s, InjectDemo(s.workers[k].id, j))
    ensures var s' := Step(s, InjectDemo(s.workers[k].id, j));
            && "demo-" <= j
            && s' == s.(workers := if s.workers[k].busy then s.workers
                                   else s.workers[k := s.workers[k].(busy := true, active := Some(j))])
  {
    IdIsUnique(s.workers, k);
  }

  // ---- Who is in the map ----

  /** Exactly registration brings a worker into the map, and exactly its own disconnect, or a
      pruning more than 30 seconds after it was last heard from, takes it out. */
  lemma MapMembership(s: State, e: Event, id: string)
    requires Inv(s) && Enabled(s, e)
    ensures Present(Step(s, e), id) <==>
              || (e.Register? && e.id == id)
              || (Present(s, id) && e != Disconnect(id)
                  && !(e.Prune? && e.now - WorkerOf(s, id).heartbeat > 30000))
  {
    match e
    case Register(_, _, _, _, _) => RegisterAdds(s, e, id);
    case Disconnect(gone) => DisconnectRemoves(s, gone, id);
    case Prune(now) => PruneRemoves(s, now, id);
    case _ => OthersKeepIds(s, e, id);
  }

  lemma OthersKeepIds(s: State, e: Event, id: string)
    requires Enabled(s, e) && !e.Register? && !e.Disconnect? && !e.Prune?
    ensures Present(Step(s, e), id) <==> Present(s, id)
  {
    if e.Heartbeat? {
      SameIds(s.workers, HeartbeatStep(s, e.pubkey, e.now).workers, id);
    } else {
      OthersLeaveStanding(s, e);
      SameIds(s.workers, Step(s, e).workers, id);
    }
  }

  lemma SameIds(ws: seq<Worker>, ws': seq<Worker>, id: string)
    requires |ws| == |ws'| && forall i :: 0 <= i < |ws| ==> ws'[i].id == ws[i].id
    ensures IndexOfId(ws', id) < |ws'| <==> IndexOfId(ws, id) < |ws|
  {
  }

  lemma RegisterAdds(s: State, e: Event, id: string)
    requires Enabled(s, e) && e.Register?
    ensures Present(Step(s, e), id) <==> e.id == id || Present(s, id)
  {
    var ws, ws' := s.workers, Step(s, e).workers;
    assert ws'[|ws|].id == e.id && forall i :: 0 <= i < |ws| ==> ws'[i] == ws[i];
  }

  lemma DisconnectRemoves(s: State, gone: string, id: string)
    requires Inv(s)
    ensures Present(Step(s, Disconnect(gone)), id) <==> Present(s, id) && gone != id
  {
    if Present(s, gone) {
      var k := IndexOfId(s.workers, gone);
      DisconnectOutcome(s, k);
      if gone != id { RemovalOfOthers(s.workers, k, id); }
    }
  }

  lemma RemovalOfOthers(ws: seq<Worker>, k: nat, id: string)
    requires k < |ws| && ws[k].id != id
    ensures var ws' := ws[..k] + ws[k + 1..];
            IndexOfId(ws', id) < |ws'| <==> IndexOfId(ws, id) < |ws|
  {
    var ws' := ws[..k] + ws[k + 1..];
    var i := IndexOfId(ws, id);
    if i < |ws| {
      var m := if i < k then i else i - 1;
      assert ws'[m] == ws[i];
    }
    var i' := IndexOfId(ws', id);
    if i' < |ws'| { assert ws'[i'] == ws[if i' < k then i' else i' + 1]; }
  }

  lemma PruneRemoves(s: State, now: int, id: string)
    requires Inv(s)
    ensures Present(PruneFrom(s, now, 0), id) <==> Present(s, id) && now - WorkerOf(s, id).heartbeat <= 30000
  {
    if Present(s, id) {
      PruningRemovesTheStale(s, now, id);
    } else {
      PruneInventsNobody(s, now, id);
    }
  }

  lemma PruneInventsNobody(s: State, now: int, id: string)
    requires !Present(s, id)
    ensures !Present(PruneFrom(s, now, 0), id)
  {
    var s' := PruneFrom(s, now, 0);
    forall i | 0 <= i < |s'.workers| ensures s'.workers[i].id != id {
      PruneMembers(s, now, s'.workers[i]);
    }
  }

  // ---- What is known about a worker ----

  /** What the hub knows about a worker apart from its work and its heartbeat. */
  datatype Profile = Profile(pubkey: Pubkey, kind: ProviderType, caps: seq<JobType>,
                             reputation: Option<real>, stake: Option<StakeTier>)

  function ProfileOf(w: Worker): Profile {
    Profile(w.pubkey, w.kind, w.caps, w.reputation, w.stake)
  }

  /** What an event teaches about the worker with the given id. */
  function Learn(known: Option<Profile>, e: Event, id: string): Option<Profile> {
    match e
    case Register(id', pubkey, kind, caps, _) =>
      if id' == id then Some(Profile(pubkey, kind, caps, None, None)) else known
    case ReputationArrived(id', score) =>
      if id' == id && known.Some? then Some(known.value.(reputation := Some(score))) else known
    case StakeArrived(id', tier) =>
      if id' == id && known.Some? then Some(known.value.(stake := Some(tier))) else known
    case _ => known
  }

  function LearntFrom(events: seq<Event>, n: nat, id: string): Option<Profile>
    requires n <= |events|
  {
    if n == 0 then None else Learn(LearntFrom(events, n - 1, id), events[n - 1], id)
  }

  /** The worker w' of the next state was w, and e has been learnt. */
  ghost predicate Learns(s: State, e: Event, i: nat, w': Worker)
    requires i < |s.workers|
  {
    s.workers[i].id == w'.id && Learn(Some(ProfileOf(s.workers[i])), e, w'.id) == Some(ProfileOf(w'))
  }

  lemma DutyLearns(s: State, e: Event, ws': seq<Worker>, w': Worker) returns (i: nat)
    requires SameButDuty(s.workers, ws') && w' in ws'
    requires !e.Register? && !e.ReputationArrived? && !e.StakeArrived?
    ensures i < |s.workers| && Learns(s, e, i, w')
  {
    i :| 0 <= i < |ws'| && ws'[i] == w';
  }

  lemma ReputationLearnt(s: State, id: string, score: real, w': Worker) returns (i: nat)
    requires UniqueIds(s.workers) && w' in ReputationStep(s, id, score).workers
    ensures i < |s.workers| && Learns(s, ReputationArrived(id, score), i, w')
  {
    var ws' := ReputationStep(s, id, score).workers;
    i :| 0 <= i < |ws'| && ws'[i] == w';
    IdIsUnique(s.workers, i);
  }

  lemma StakeLearnt(s: State, id: string, tier: StakeTier, w': Worker) returns (i: nat)
    requires UniqueIds(s.workers) && w' in StakeStep(s, id, tier).workers
    ensures i < |s.workers| && Learns(s, StakeArrived(id, tier), i, w')
  {
    var ws' := StakeStep(s, id, tier).workers;
    i :| 0 <= i < |ws'| && ws'[i] == w';
    IdIsUnique(s.workers, i);
  }

  lemma HeartbeatLearns(s: State, e: Event, w': Worker) returns (i: nat)
    requires e.Heartbeat? && w' in HeartbeatStep(s, e.pubkey, e.now).workers
    ensures i < |s.workers| && Learns(s, e, i, w')
  {
    var ws' := HeartbeatStep(s, e.pubkey, e.now).workers;
    i :| 0 <= i < |ws'| && ws'[i] == w';
  }

  lemma RegisterLearns(s: State, e: Event, w': Worker) returns (i: nat)
    requires Enabled(s, e) && e.Register? && w' in Step(s, e).workers
    ensures i < |s.workers| ==> Learns(s, e, i, w')
    ensures i >= |s.workers| ==> e.id == w'.id && Learn(None, e, w'.id) == Some(ProfileOf(w'))
  {
    var ws' := Step(s, e).workers;
    i :| 0 <= i < |ws'| && ws'[i] == w';
    if i < |s.workers| { assert ws'[i] == s.workers[i]; }
  }

  lemma StepLearns(s: State, e: Event, w': Worker) returns (i: nat)
    requires Inv(s) && Enabled(s, e) && w' in Step(s, e).workers
    ensures i < |s.workers| ==> Learns(s, e, i, w')
    ensures i >= |s.workers| ==> e.Register? && e.id == w'.id && Learn(None, e, w'.id) == Some(ProfileOf(w'))
  {
    match e
    case Register(_, _, _, _, _) => i := RegisterLearns(s, e, w');
    case ReputationArrived(id, score) => i := ReputationLearnt(s, id, score, w');
    case StakeArrived(id, tier) => i := StakeLearnt(s, id, tier, w');
    case Heartbeat(_, _) => i := HeartbeatLearns(s, e, w');
    case Prune(now) =>
      PruneMembers(s, now, w');
      i :| 0 <= i < |s.workers| && s.workers[i] == w';
    case Disconnect(id) => i := DisconnectRemovesOne(s, id, w');
    case _ =>
      JobsLeaveProfiles(s, e);
      i := DutyLearns(s, e, Step(s, e).workers, w');
  }

  lemma NextLearns(states: seq<State>, events: seq<Event>, n: nat, w': Worker) returns (i: nat)
    requires IsRun(states, events) && 0 < n < |states| && w' in states[n].workers
    ensures var s, e := states[n - 1], events[n - 1];
            && (i < |s.workers| ==> Learns(s, e, i, w'))
            && (i >= |s.workers| ==> e.Register? && e.id == w'.id && Learn(None, e, w'.id) == Some(ProfileOf(w')))
  {
    RunKeepsInv(states, events, n - 1);
    i := StepLearns(states[n - 1], events[n - 1], w');
  }

  /** In every run, the key, kind, capabilities, reputation and stake of a worker in the map are
      those of its registration and of the scores and tiers that have arrived for it since. */
  lemma {:induction false} ProfilesFollowTheEvents(states: seq<State>, events: seq<Event>, n: nat, w: Worker)
    requires IsRun(states, events) && n < |states| && w in states[n].workers
    ensures LearntFrom(events, n, w.id) == Some(ProfileOf(w))
  {
    if n > 0 {
      var i := NextLearns(states, events, n, w);
      if i < |states[n - 1].workers| {
        ProfilesFollowTheEvents(states, events, n - 1, states[n - 1].workers[i]);
      }
    }
  }
}
