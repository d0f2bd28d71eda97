/** The coordinator as a state machine. Every handler of the hub, of the job routes, of
    the pairing routes and of the retry timers runs to its end without yielding, so each
    event is one step on the four stores: the worker map, the jobs table, the pairings
    table and the set of live retry timers. */
module Dispatch {
  import opened Protocol
  import opened Selection

  datatype Failure = WorkerDisconnected | NoTrustedWorker | NoEligibleWorker

  datatype Status = Pending | Assigned | Completed(output: string) | Failed(reason: Failure)

  datatype JobRow = JobRow(
    jobType: JobType,
    policy: Policy,
    privacy: Privacy,
    user: string,
    status: Status,
    worker: Option<Pubkey>)

  /** A row of the pairings table, keyed by its unique code. */
  datatype Pairing = Pairing(user: string, claimed: bool, provider: Option<Pubkey>, expires: int)

  /** A live retry timer with the arguments its callback has captured. */
  datatype Timer = Timer(attempts: nat, jobType: JobType, policy: Policy, privacy: Privacy, user: string)

  /** workers is in registration order, the iteration order of the hub's map. */
  datatype State = State(
    workers: seq<Worker>,
    jobs: map<JobId, JobRow>,
    pairings: map<string, Pairing>,
    timers: map<JobId, Timer>)

  datatype Event =
    | Register(id: string, pubkey: Pubkey, kind: ProviderType, caps: seq<JobType>, now: int)
    | Heartbeat(pubkey: Pubkey, now: int)
    | ReputationArrived(id: string, score: real)
    | StakeArrived(id: string, tier: StakeTier)
    | Commit(jobId: JobId, body: CommitBody, policy: Policy, now: int)
    | Tick(jobId: JobId, now: int)
    | Complete(jobId: JobId, output: string, receiptFor: Option<JobId>)
    | Reject(jobId: JobId)
    | Disconnect(id: string)
    | Prune(now: int)
    | InjectDemo(id: string, jobId: JobId)
    | CreatePairing(user: string, code: string, now: int)
    | ClaimPairing(code: string, pubkey: Pubkey, now: int)

  const HEARTBEAT_TIMEOUT_MS := 30000
  const MAX_ATTEMPTS := 15
  const PAIRING_LIFETIME_MS := 3600000

  // ---- Looking workers up ----

  function Ids(ws: seq<Worker>): (ks: seq<string>)
    ensures |ks| == |ws|
    ensures forall i :: 0 <= i < |ws| ==> ks[i] == ws[i].id
  {
    seq(|ws|, i requires 0 <= i < |ws| => ws[i].id)
  }

  function Pubkeys(ws: seq<Worker>): (ks: seq<Pubkey>)
    ensures |ks| == |ws|
    ensures forall i :: 0 <= i < |ws| ==> ks[i] == ws[i].pubkey
  {
    seq(|ws|, i requires 0 <= i < |ws| => ws[i].pubkey)
  }

  function Actives(ws: seq<Worker>): (ks: seq<Option<JobId>>)
    ensures |ks| == |ws|
    ensures forall i :: 0 <= i < |ws| ==> ks[i] == ws[i].active
  {
    seq(|ws|, i requires 0 <= i < |ws| => ws[i].active)
  }

  /** The earliest-registered worker with the given id, or |ws|. */
  function IndexOfId(ws: seq<Worker>, id: string): (i: nat)
    ensures i <= |ws|
    ensures i < |ws| ==> ws[i].id == id
    ensures forall k :: 0 <= k < i ==> ws[k].id != id
  {
    IndexOf(Ids(ws), id)
  }

  /** The earliest-registered worker with the given key, or |ws|. */
  function IndexOfPubkey(ws: seq<Worker>, pubkey: Pubkey): (i: nat)
    ensures i <= |ws|
    ensures i < |ws| ==> ws[i].pubkey == pubkey
    ensures forall k :: 0 <= k < i ==> ws[k].pubkey != pubkey
  {
    IndexOf(Pubkeys(ws), pubkey)
  }

  /** The earliest-registered worker whose active job is the given one, or |ws|. */
  function HolderOf(ws: seq<Worker>, jobId: JobId): (i: nat)
    ensures i <= |ws|
    ensures i < |ws| ==> ws[i].active == Some(jobId)
    ensures forall k :: 0 <= k < i ==> ws[k].active != Some(jobId)
  {
    IndexOf(Actives(ws), Some(jobId))
  }

  // ---- The pieces of a step ----

  function NewWorker(id: string, pubkey: Pubkey, kind: ProviderType, caps: seq<JobType>, now: int): Worker {
    Worker(id, pubkey, kind, caps, false, now, None, None, None)
  }

  function Hold(w: Worker, jobId: JobId): Worker {
    w.(busy := true, active := Some(jobId))
  }

  function Free(w: Worker): Worker {
    w.(busy := false, active := None)
  }

  /** UPDATE jobs SET status, worker_pubkey WHERE id: no row, no change. */
  function SetRow(jobs: map<JobId, JobRow>, jobId: JobId, status: Status, worker: Option<Pubkey>): map<JobId, JobRow> {
    if jobId in jobs then jobs[jobId := jobs[jobId].(status := status, worker := worker)] else jobs
  }

  /** UPDATE jobs SET status WHERE id: no row, no change. */
  function SetStatus(jobs: map<JobId, JobRow>, jobId: JobId, status: Status): map<JobId, JobRow> {
    if jobId in jobs then jobs[jobId := jobs[jobId].(status := status)] else jobs
  }

  /** The keys a user has a claimed pairing with. */
  function Trusted(pairings: map<string, Pairing>, user: string): set<Pubkey> {
    set code | code in pairings && pairings[code].claimed && pairings[code].user == user
               && pairings[code].provider.Some? :: pairings[code].provider.value
  }

  function ClaimFor(s: State, jobType: JobType, policy: Policy, privacy: Privacy, user: string): Claim {
    Claim(jobType, policy, if privacy == Private then Some(Trusted(s.pairings, user)) else None)
  }

  /** The claimed worker takes the job and the row records the worker's key. */
  function Assign(s: State, jobId: JobId, i: nat): State
    requires i < |s.workers|
  {
    s.(workers := s.workers[i := Hold(s.workers[i], jobId)],
       jobs := SetRow(s.jobs, jobId, Assigned, Some(s.workers[i].pubkey)))
  }

  /** Remove a worker, failing the job it was holding. */
  function Drop(s: State, i: nat): State
    requires i < |s.workers|
  {
    var held := s.workers[i].active;
    s.(workers := s.workers[..i] + s.workers[i + 1..],
       jobs := if held.Some? && !IsDemo(held.value)
               then SetStatus(s.jobs, held.value, Failed(WorkerDisconnected)) else s.jobs)
  }

  predicate Stale(w: Worker, now: int) {
    now - w.heartbeat > HEARTBEAT_TIMEOUT_MS
  }

  function PruneFrom(s: State, now: int, i: nat): State
    requires i <= |s.workers|
    decreases |s.workers| - i
  {
    if i == |s.workers| then s
    else if Stale(s.workers[i], now) then PruneFrom(Drop(s, i), now, i)
    else PruneFrom(s, now, i + 1)
  }

  // ---- The step ----

  /** What the environment guarantees about an event: generated ids are fresh, demo ids
      carry their prefix, only live timers fire, and reputation is a score in 0..100. */
  predicate Enabled(s: State, e: Event) {
    match e
    case Register(id, _, _, _, _) => IndexOfId(s.workers, id) == |s.workers|
    case ReputationArrived(_, score) => 0.0 <= score <= 100.0
    case Commit(jobId, _, _, _) => jobId !in s.jobs && !IsDemo(jobId)
    case Tick(jobId, _) => jobId in s.timers
    case InjectDemo(_, jobId) => IsDemo(jobId) && HolderOf(s.workers, jobId) == |s.workers|
    case _ => true
  }

  function HeartbeatStep(s: State, pubkey: Pubkey, now: int): State {
    var i := IndexOfPubkey(s.workers, pubkey);
    if i == |s.workers| then s
    else s.(workers := s.workers[i := s.workers[i].(heartbeat := now)])
  }

  function ReputationStep(s: State, id: string, score: real): State {
    var i := IndexOfId(s.workers, id);
    if i == |s.workers| then s
    else s.(workers := s.workers[i := s.workers[i].(reputation := Some(score))])
  }

  function StakeStep(s: State, id: string, tier: StakeTier): State {
    var i := IndexOfId(s.workers, id);
    if i == |s.workers| then s
    else s.(workers := s.workers[i := s.workers[i].(stake := Some(tier))])
  }

  /** An accepted commit: insert the row, then match it, fail it or start its timer. */
  function CommitJob(s: State, jobId: JobId, jobType: JobType, policy: Policy, privacy: Privacy,
                     user: string, now: int): State
  {
    var s1 := s.(jobs := s.jobs[jobId := JobRow(jobType, policy, privacy, user, Pending, None)]);
    match Best(s1.workers, ClaimFor(s1, jobType, policy, privacy, user), now)
    case Some(i) => Assign(s1, jobId, i)
    case None =>
      if privacy == Private then s1.(jobs := SetStatus(s1.jobs, jobId, Failed(NoTrustedWorker)))
      else s1.(timers := s1.timers[jobId := Timer(0, jobType, policy, privacy, user)])
  }

  function CommitStep(s: State, jobId: JobId, body: CommitBody, policy: Policy, now: int): State {
    match Validate(body)
    case None => s
    case Some(jobType) => CommitJob(s, jobId, jobType, policy, ParsePrivacy(body.privacy), body.user, now)
  }

  function TickStep(s: State, jobId: JobId, now: int): State
    requires jobId in s.timers
  {
    var t := s.timers[jobId];
    if jobId !in s.jobs || s.jobs[jobId].status != Pending then
      s.(timers := s.timers - {jobId})
    else
      match Best(s.workers, ClaimFor(s, t.jobType, t.policy, t.privacy, t.user), now)
      case Some(i) => Assign(s, jobId, i).(timers := s.timers - {jobId})
      case None =>
        if t.attempts + 1 >= MAX_ATTEMPTS then
          s.(jobs := SetStatus(s.jobs, jobId, Failed(NoEligibleWorker)), timers := s.timers - {jobId})
        else
          s.(timers := s.timers[jobId := t.(attempts := t.attempts + 1)])
  }

  /** Storing the result and the receipt is one transaction; a receipt naming a job that
      does not exist violates the foreign key, so the whole transaction is undone. */
  predicate TransactionFails(s: State, receiptFor: Option<JobId>) {
    receiptFor.Some? && receiptFor.value !in s.jobs
  }

  function CompleteStep(s: State, jobId: JobId, output: string, receiptFor: Option<JobId>): State {
    var i := HolderOf(s.workers, jobId);
    if i == |s.workers| then s
    else if IsDemo(jobId) then s.(workers := s.workers[i := Free(s.workers[i])])
    else if TransactionFails(s, receiptFor) then s
    else s.(workers := s.workers[i := Free(s.workers[i])],
            jobs := SetStatus(s.jobs, jobId, Completed(output)))
  }

  function RejectStep(s: State, jobId: JobId): State {
    var i := HolderOf(s.workers, jobId);
    if i == |s.workers| then s
    else s.(workers := s.workers[i := Free(s.workers[i])],
            jobs := if IsDemo(jobId) then s.jobs else SetRow(s.jobs, jobId, Pending, None))
  }

  function DisconnectStep(s: State, id: string): State {
    var i := IndexOfId(s.workers, id);
    if i == |s.workers| then s else Drop(s, i)
  }

  function InjectStep(s: State, id: string, jobId: JobId): State {
    var i := IndexOfId(s.workers, id);
    if i == |s.workers| || s.workers[i].busy then s
    else s.(workers := s.workers[i := Hold(s.workers[i], jobId)])
  }

  /** The code column is unique: an insert that repeats a code throws and stores nothing. */
  function CreateStep(s: State, user: string, code: string, now: int): State {
    if user == "" || code in s.pairings then s
    else s.(pairings := s.pairings[code := Pairing(user, false, None, now + PAIRING_LIFETIME_MS)])
  }

  function ClaimStep(s: State, code: string, pubkey: Pubkey, now: int): State {
    if code == "" || pubkey == "" || code !in s.pairings then s
    else if s.pairings[code].claimed || s.pairings[code].expires < now then s
    else s.(pairings := s.pairings[code := s.pairings[code].(claimed := true, provider := Some(pubkey))])
  }

  function Step(s: State, e: Event): State
    requires Enabled(s, e)
  {
    match e
    case Register(id, pubkey, kind, caps, now) => s.(workers := s.workers + [NewWorker(id, pubkey, kind, caps, now)])
    case Heartbeat(pubkey, now) => HeartbeatStep(s, pubkey, now)
    case ReputationArrived(id, score) => ReputationStep(s, id, score)
    case StakeArrived(id, tier) => StakeStep(s, id, tier)
    case Commit(jobId, body, policy, now) => CommitStep(s, jobId, body, policy, now)
    case Tick(jobId, now) => TickStep(s, jobId, now)
    case Complete(jobId, output, receiptFor) => CompleteStep(s, jobId, output, receiptFor)
    case Reject(jobId) => RejectStep(s, jobId)
    case Disconnect(id) => DisconnectStep(s, id)
    case Prune(now) => PruneFrom(s, now, 0)
    case InjectDemo(id, jobId) => InjectStep(s, id, jobId)
    case CreatePairing(user, code, now) => CreateStep(s, user, code, now)
    case ClaimPairing(code, pubkey, now) => ClaimStep(s, code, pubkey, now)
  }

  /** The payout a step queues with the token distributors, if any. */
  function PayoutOf(s: State, e: Event): Option<(Pubkey, JobId)> {
    if e.Complete? then
      var i := HolderOf(s.workers, e.jobId);
      if i < |s.workers| && (IsDemo(e.jobId) || !TransactionFails(s, e.receiptFor))
      then Some((s.workers[i].pubkey, e.jobId)) else None
    else None
  }

  const INIT := State([], map[], map[], map[])

  /** A run: the states visited and the events between them. */
  ghost predicate IsRun(states: seq<State>, events: seq<Event>) {
    && |states| == |events| + 1
    && states[0] == INIT
    && forall i {:trigger events[i]} :: 0 <= i < |events| ==>
         Enabled(states[i], events[i]) && states[i + 1] == Step(states[i], events[i])
  }
}
