/** Heartbeats and pruning: who stays in the worker map. A heartbeat names a key, not a
    connection, and is credited to the first-registered worker with that key. */
module DispatchHeartbeats {
  import opened Protocol
  import opened Selection
  import opened Dispatch
  import opened DispatchInvariant
  import opened DispatchRuns

  /** The workers that are not stale, in their order. */
  function Fresh(ws: seq<Worker>, now: int): seq<Worker> {
    if ws == [] then []
    else if Stale(ws[0], now) then Fresh(ws[1..], now)
    else [ws[0]] + Fresh(ws[1..], now)
  }

  /** Pruning keeps exactly the workers that are not stale, in their order. */
  lemma {:induction false} PruneKeepsTheFresh(s: State, now: int, i: nat)
    requires i <= |s.workers|
    ensures PruneFrom(s, now, i).workers == s.workers[..i] + Fresh(s.workers[i..], now)
    decreases |s.workers| - i
  {
    if i < |s.workers| {
      assert s.workers[i..][1..] == s.workers[i + 1..];
      if Stale(s.workers[i], now) {
        var s' := Drop(s, i);
        PruneKeepsTheFresh(s', now, i);
        assert s'.workers[..i] == s.workers[..i] && s'.workers[i..] == s.workers[i + 1..];
      } else {
        PruneKeepsTheFresh(s, now, i + 1);
        assert s.workers[..i + 1] == s.workers[..i] + [s.workers[i]];
      }
    }
  }

  lemma {:induction false} FreshMembers(ws: seq<Worker>, now: int, w: Worker)
    ensures w in Fresh(ws, now) <==> w in ws && !Stale(w, now)
  {
    if ws != [] {
      FreshMembers(ws[1..], now, w);
      assert ws == [ws[0]] + ws[1..];
    }
  }

  // ---- One worker ----

  /** The worker with this id is in the map. */
  predicate Present(s: State, id: string) {
    IndexOfId(s.workers, id) < |s.workers|
  }

  function WorkerOf(s: State, id: string): Worker
    requires Present(s, id)
  {
    s.workers[IndexOfId(s.workers, id)]
  }

  lemma PruneMembers(s: State, now: int, w: Worker)
    ensures w in PruneFrom(s, now, 0).workers <==> w in s.workers && !Stale(w, now)
  {
    PruneKeepsTheFresh(s, now, 0);
    assert s.workers[0..] == s.workers && s.workers[..0] == [];
    FreshMembers(s.workers, now, w);
  }

  lemma MemberIsPresent(ws: seq<Worker>, w: Worker)
    requires w in ws
    ensures IndexOfId(ws, w.id) < |ws|
  {
  }

  /** Pruning removes a worker if and only if it is stale. */
  lemma PruningRemovesTheStale(s: State, now: int, id: string)
    requires UniqueIds(s.workers) && Present(s, id)
    ensures Present(PruneFrom(s, now, 0), id) <==> !Stale(WorkerOf(s, id), now)
  {
    var w, s' := WorkerOf(s, id), PruneFrom(s, now, 0);
    PruneMembers(s, now, w);
    if !Stale(w, now) {
      MemberIsPresent(s'.workers, w);
    } else if Present(s', id) {
      var v := WorkerOf(s', id);
      PruneMembers(s, now, v);
      SameIdSameWorker(s.workers, v, w);
    }
  }

  lemma SameIdSameWorker(ws: seq<Worker>, v: Worker, w: Worker)
    requires UniqueIds(ws) && v in ws && w in ws && v.id == w.id
    ensures v == w
  {
    var i :| 0 <= i < |ws| && ws[i] == v;
    var j :| 0 <= j < |ws| && ws[j] == w;
  }

  /** An earlier-registered worker in the map has the same key. */
  ghost predicate Shadowed(s: State, id: string) {
    Present(s, id) && exists k :: 0 <= k < IndexOfId(s.workers, id) && s.workers[k].pubkey == WorkerOf(s, id).pubkey
  }

  /** A heartbeat is recorded for its sender exactly when nobody shadows the sender. */
  lemma HeartbeatReachesTheFirst(s: State, id: string, now: int)
    requires UniqueIds(s.workers) && Present(s, id)
    ensures var s' := HeartbeatStep(s, WorkerOf(s, id).pubkey, now);
            && UniqueIds(s'.workers) && Present(s', id)
            && WorkerOf(s', id) == if Shadowed(s, id) then WorkerOf(s, id) else WorkerOf(s, id).(heartbeat := now)
  {
    var i, first := IndexOfId(s.workers, id), IndexOfPubkey(s.workers, WorkerOf(s, id).pubkey);
    var s' := HeartbeatStep(s, WorkerOf(s, id).pubkey, now);
    assert forall k :: 0 <= k < |s.workers| ==> s'.workers[k].id == s.workers[k].id;
    assert IndexOfId(s'.workers, id) == i;
    assert Shadowed(s, id) <==> first < i;
  }

  /** A heartbeat keeps a silent worker from the next pruning exactly when no worker that
      registered earlier uses the same key. */
  lemma HeartbeatSavesTheFirst(s: State, id: string, now: int, later: int)
    requires UniqueIds(s.workers) && Present(s, id) && now <= later <= now + HEARTBEAT_TIMEOUT_MS
    requires Stale(WorkerOf(s, id), later)
    ensures Present(Step(Step(s, Heartbeat(WorkerOf(s, id).pubkey, now)), Prune(later)), id) <==> !Shadowed(s, id)
  {
    HeartbeatReachesTheFirst(s, id, now);
    PruningRemovesTheStale(HeartbeatStep(s, WorkerOf(s, id).pubkey, now), later, id);
  }

  // ---- Whole runs ----

  /** The same workers, by id, key and last heartbeat, in the same order. */
  ghost predicate SameStanding(ws: seq<Worker>, ws': seq<Worker>) {
    && |ws| == |ws'|
    && forall i :: 0 <= i < |ws| ==>
         ws'[i].id == ws[i].id && ws'[i].pubkey == ws[i].pubkey && ws'[i].heartbeat == ws[i].heartbeat
  }

  /** The same workers in the same order, except for what they are busy with. */
  ghost predicate SameButDuty(ws: seq<Worker>, ws': seq<Worker>) {
    && |ws| == |ws'|
    && forall i :: 0 <= i < |ws| ==> ws'[i] == ws[i].(busy := ws'[i].busy, active := ws'[i].active)
  }

  lemma CommitLeavesProfiles(s: State, e: Event)
    requires Enabled(s, e) && e.Commit?
    ensures SameButDuty(s.workers, CommitStep(s, e.jobId, e.body, e.policy, e.now).workers)
  {
  }

  lemma TickLeavesProfiles(s: State, jobId: JobId, now: int)
    requires jobId in s.timers
    ensures SameButDuty(s.workers, TickStep(s, jobId, now).workers)
  {
  }

  lemma CompleteLeavesProfiles(s: State, e: Event)
    requires e.Complete?
    ensures SameButDuty(s.workers, CompleteStep(s, e.jobId, e.output, e.receiptFor).workers)
  {
  }

  lemma RejectLeavesProfiles(s: State, jobId: JobId)
    ensures SameButDuty(s.workers, RejectStep(s, jobId).workers)
  {
  }

  lemma InjectLeavesProfiles(s: State, id: string, jobId: JobId)
    ensures SameButDuty(s.workers, InjectStep(s, id, jobId).workers)
  {
  }

  /** Work changes nothing about a worker but what it is busy with. */
  lemma JobsLeaveProfiles(s: State, e: Event)
    requires Enabled(s, e) && !e.Register? && !e.Heartbeat? && !e.Disconnect? && !e.Prune?
    requires !e.ReputationArrived? && !e.StakeArrived?
    ensures SameButDuty(s.workers, Step(s, e).workers)
  {
    match e
    case Commit(_, _, _, _) => CommitLeavesProfiles(s, e);
    case Tick(jobId, now) => TickLeavesProfiles(s, jobId, now);
    case Complete(_, _, _) => CompleteLeavesProfiles(s, e);
    case Reject(jobId) => RejectLeavesProfiles(s, jobId);
    case InjectDemo(id, jobId) => InjectLeavesProfiles(s, id, jobId);
    case CreatePairing(_, _, _) =>
    case ClaimPairing(_, _, _) =>
  }

  /** Events about jobs, scores and pairings change neither who a worker is nor when it was
      heard from. */
  lemma OthersLeaveStanding(s: State, e: Event)
    requires Enabled(s, e) && !e.Register? && !e.Heartbeat? && !e.Disconnect? && !e.Prune?
    ensures SameStanding(s.workers, Step(s, e).workers)
  {
    match e
    case ReputationArrived(id, score) => assert SameStanding(s.workers, ReputationStep(s, id, score).workers);
    case StakeArrived(id, tier) => assert SameStanding(s.workers, StakeStep(s, id, tier).workers);
    case _ => JobsLeaveProfiles(s, e);
  }

  /** w' is the worker w of the state before, with the same heartbeat unless w is the first
      with the key that the event reports. */
  ghost predicate Continues(s: State, e: Event, i: nat, w': Worker)
    requires i < |s.workers|
  {
    && s.workers[i].id == w'.id && s.workers[i].pubkey == w'.pubkey
    && (w'.heartbeat == s.workers[i].heartbeat
        || (e.Heartbeat? && i == IndexOfPubkey(s.workers, s.workers[i].pubkey)))
  }

  lemma DisconnectRemovesOne(s: State, id: string, w': Worker) returns (i: nat)
    requires w' in DisconnectStep(s, id).workers
    ensures i < |s.workers| && s.workers[i] == w'
  {
    var s' := DisconnectStep(s, id);
    var d := IndexOfId(s.workers, id);
    var k :| 0 <= k < |s'.workers| && s'.workers[k] == w';
    i := if d < |s.workers| && k >= d then k + 1 else k;
  }

  lemma HeartbeatContinues(s: State, e: Event, w': Worker) returns (i: nat)
    requires e.Heartbeat? && w' in HeartbeatStep(s, e.pubkey, e.now).workers
    ensures i < |s.workers| && Continues(s, e, i, w')
  {
    var s' := HeartbeatStep(s, e.pubkey, e.now);
    i :| 0 <= i < |s'.workers| && s'.workers[i] == w';
  }

  /** Where the workers of the next state come from: a registration or the state before. */
  lemma WorkerComesFrom(s: State, e: Event, w': Worker) returns (i: nat)
    requires Enabled(s, e) && w' in Step(s, e).workers
    ensures i < |s.workers| ==> Continues(s, e, i, w')
    ensures i >= |s.workers| ==> e.Register? && w'.id == e.id
  {
    match e
    case Prune(now) =>
      PruneMembers(s, now, w');
      i :| 0 <= i < |s.workers| && s.workers[i] == w';
    case Disconnect(id) => i := DisconnectRemovesOne(s, id, w');
    case Heartbeat(_, _) => i := HeartbeatContinues(s, e, w');
    case Register(_, _, _, _, _) =>
      i :| 0 <= i < |Step(s, e).workers| && Step(s, e).workers[i] == w';
    case _ =>
      OthersLeaveStanding(s, e);
      i := StandingContinues(s, e, Step(s, e).workers, w');
  }

  lemma StandingContinues(s: State, e: Event, ws': seq<Worker>, w': Worker) returns (i: nat)
    requires SameStanding(s.workers, ws') && w' in ws'
    ensures i < |s.workers| && Continues(s, e, i, w')
  {
    i :| 0 <= i < |ws'| && ws'[i] == w';
  }

  /** A worker that is shadowed keeps its heartbeat, whatever happens. */
  lemma ShadowedKeepsHeartbeat(s: State, e: Event, id: string)
    requires Inv(s) && Enabled(s, e) && Shadowed(s, id) && Present(Step(s, e), id)
    ensures WorkerOf(Step(s, e), id).heartbeat == WorkerOf(s, id).heartbeat
  {
    var w := WorkerOf(s, id);
    var i := WorkerComesFrom(s, e, WorkerOf(Step(s, e), id));
    assert i < |s.workers|;
    SameIdSameWorker(s.workers, s.workers[i], w);
  }

  lemma NextKeepsHeartbeat(states: seq<State>, events: seq<Event>, n: nat, id: string)
    requires IsRun(states, events) && 0 < n < |states|
    requires Shadowed(states[n - 1], id) && Shadowed(states[n], id)
    ensures WorkerOf(states[n], id).heartbeat == WorkerOf(states[n - 1], id).heartbeat
  {
    RunKeepsInv(states, events, n - 1);
    ShadowedKeepsHeartbeat(states[n - 1], events[n - 1], id);
  }

  lemma RegistrationTime(states: seq<State>, events: seq<Event>, m: nat)
    requires IsRun(states, events) && m < |events| && events[m].Register?
    ensures Present(states[m + 1], events[m].id) && WorkerOf(states[m + 1], events[m].id).heartbeat == events[m].now
  {
    var e, s' := events[m], states[m + 1];
    assert s'.workers[|states[m].workers|].id == e.id;
  }

  /** As long as it is shadowed, a worker's heartbeat is the time of its registration,
      however often it reports. */
  lemma {:induction false} ShadowedStaySilent(states: seq<State>, events: seq<Event>, m: nat, n: nat, id: string)
    requires IsRun(states, events) && m < n < |states| && events[m].Register? && events[m].id == id
    requires forall k :: m < k <= n ==> Shadowed(states[k], id)
    ensures Present(states[n], id) && WorkerOf(states[n], id).heartbeat == events[m].now
    decreases n
  {
    if n == m + 1 {
      RegistrationTime(states, events, m);
    } else {
      ShadowedStaySilent(states, events, m, n - 1, id);
      NextKeepsHeartbeat(states, events, n, id);
    }
  }

  /** The first pruning more than 30 seconds after its registration removes a worker that
      has been shadowed since, and an earlier one does not. */
  lemma ShadowedArePruned(states: seq<State>, events: seq<Event>, m: nat, n: nat, id: string)
    requires IsRun(states, events) && m < n < |events| && events[m].Register? && events[m].id == id
    requires forall k :: m < k <= n ==> Shadowed(states[k], id)
    requires events[n].Prune?
    ensures Present(states[n + 1], id) <==> events[n].now <= events[m].now + 30000
  {
    ShadowedStaySilent(states, events, m, n, id);
    RunKeepsInv(states, events, n);
    PruningRemovesTheStale(states[n], events[n].now, id);
  }

  /** Two connections with one key: the heartbeat both of them send keeps the first in the
      map, and the second is pruned. */
  lemma SecondConnectionIsPruned(first: string, second: string, pubkey: Pubkey, caps: seq<JobType>)
    returns (states: seq<State>, events: seq<Event>)
    requires first != second
    ensures IsRun(states, events) && |events| == 4
    ensures events[2] == Heartbeat(pubkey, 20000) && events[3] == Prune(40000)
    ensures Present(states[3], second) && WorkerOf(states[3], second).pubkey == pubkey
    ensures Present(states[4], first) && !Present(states[4], second)
  {
    states, events := Extend([INIT], [], Register(first, pubkey, Desktop, caps, 0));
    states, events := Extend(states, events, Register(second, pubkey, Desktop, caps, 0));
    var v, w := NewWorker(first, pubkey, Desktop, caps, 0), NewWorker(second, pubkey, Desktop, caps, 0);
    assert states[2].workers == [v, w];
    SecondIsPruned(states[2], v, w, 20000, 40000);
    states, events := Extend(states, events, Heartbeat(pubkey, 20000));
    states, events := Extend(states, events, Prune(40000));
  }

  lemma SecondIsPruned(s: State, v: Worker, w: Worker, now: int, later: int)
    requires s.workers == [v, w] && v.id != w.id && v.pubkey == w.pubkey
    requires Stale(w, later) && later - now <= HEARTBEAT_TIMEOUT_MS
    ensures var s' := HeartbeatStep(s, v.pubkey, now);
            && Present(s', w.id) && WorkerOf(s', w.id) == w
            && Present(PruneFrom(s', later, 0), v.id) && !Present(PruneFrom(s', later, 0), w.id)
  {
    FirstIsCredited(s, v, w, now);
    var s' := HeartbeatStep(s, v.pubkey, now);
    PruningRemovesTheStale(s', later, v.id);
    PruningRemovesTheStale(s', later, w.id);
  }

  lemma FirstIsCredited(s: State, v: Worker, w: Worker, now: int)
    requires s.workers == [v, w] && v.id != w.id && v.pubkey == w.pubkey
    ensures var s' := HeartbeatStep(s, v.pubkey, now);
            && UniqueIds(s'.workers) && Present(s', v.id) && Present(s', w.id)
            && WorkerOf(s', v.id) == v.(heartbeat := now) && WorkerOf(s', w.id) == w
  {
    var s' := HeartbeatStep(s, v.pubkey, now);
    assert IndexOfPubkey(s.workers, v.pubkey) == 0;
    assert s'.workers == [v.(heartbeat := now), w];
    assert s'.workers[0].id == v.id && s'.workers[1].id == w.id;
  }
}
