/** First come, first served. Each worker's line (its attempts in flight, oldest first, then
    what is pending) stays in queueing order exactly as long as no failed batch is queued
    again behind a younger attempt of the same worker. */
module SettlementOrder {
  import opened Protocol
  import opened Amounts
  import opened Settlement
  import opened SettlementInvariant
  import SettlementRuns

  ghost predicate Increasing(ps: seq<Payout>) {
    forall x, y :: 0 <= x < y < |ps| ==> ps[x].serial < ps[y].serial
  }

  ghost predicate AllBefore(ps: seq<Payout>, qs: seq<Payout>) {
    forall x, y :: 0 <= x < |ps| && 0 <= y < |qs| ==> ps[x].serial < qs[y].serial
  }

  ghost predicate Below(ps: seq<Payout>, n: nat) {
    forall x :: 0 <= x < |ps| ==> ps[x].serial < n
  }

  /** The batch lists payouts queued so far, in queueing order. */
  ghost predicate Sorted(b: Batch, n: nat) {
    Increasing(b.jobs) && Below(b.jobs, n)
  }

  /** What is in flight for the worker of batch b was queued before it. */
  ghost predicate AfterFlights(fs: seq<Flight>, b: Batch) {
    forall k :: 0 <= k < |fs| && fs[k].batch.worker == b.worker ==> AllBefore(fs[k].batch.jobs, b.jobs)
  }

  /** Every live batch lists its payouts in queueing order, and what is in flight for a
      worker was queued before what is pending for it. */
  ghost predicate Ordered(l: Ledger) {
    && (forall i :: 0 <= i < |l.pending| ==> Sorted(l.pending[i], |l.queued|) && AfterFlights(l.inFlight, l.pending[i]))
    && (forall k :: 0 <= k < |l.inFlight| ==> Sorted(l.inFlight[k].batch, |l.queued|))
  }

  /** Attempts of one worker were begun in the order their payouts were queued. */
  ghost predicate Line(fs: seq<Flight>) {
    forall j, k :: 0 <= j < k < |fs| && fs[j].batch.worker == fs[k].batch.worker ==>
      AllBefore(fs[j].batch.jobs, fs[k].batch.jobs)
  }

  ghost predicate InLine(l: Ledger) {
    Ordered(l) && Line(l.inFlight)
  }

  /** A younger attempt of the same worker is in flight beside attempt k. */
  ghost predicate HasYounger(fs: seq<Flight>, k: nat) {
    exists j :: k < j < |fs| && fs[j].batch.worker == fs[k].batch.worker
  }

  /** The event queues a failed batch again although a younger attempt has overtaken it. */
  ghost predicate Overtaken(l: Ledger, e: Event) {
    && e.Fail? && e.k < |l.inFlight|
    && FailedOnce(l.inFlight[e.k].batch).retries < MAX_RETRIES
    && HasYounger(l.inFlight, e.k)
  }

  lemma JoinKeepsOrder(fs: seq<Flight>, b: Batch, p: Payout)
    requires Sorted(b, p.serial) && AfterFlights(fs, b)
    requires forall k :: 0 <= k < |fs| ==> Sorted(fs[k].batch, p.serial)
    ensures Sorted(Join(b, p), p.serial + 1) && AfterFlights(fs, Join(b, p))
  {
  }

  lemma NewKeepsOrder(fs: seq<Flight>, p: Payout)
    requires forall k :: 0 <= k < |fs| ==> Sorted(fs[k].batch, p.serial)
    ensures Sorted(NewBatch(p), p.serial + 1) && AfterFlights(fs, NewBatch(p))
  {
  }

  lemma EnqueueKeepsOrder(l: Ledger, p: Payout)
    requires InLine(l) && p.serial == |l.queued|
    ensures InLine(Enqueue(l, p))
  {
    var i := IndexOfBatch(l.pending, p.worker);
    if i < |l.pending| {
      JoinKeepsOrder(l.inFlight, l.pending[i], p);
    } else {
      NewKeepsOrder(l.inFlight, p);
    }
    assert forall b: Batch :: Sorted(b, p.serial) ==> Sorted(b, p.serial + 1);
  }

  lemma BeginKeepsOrder(l: Ledger, i: nat)
    requires InLine(l) && UniqueWorkers(l.pending) && i < |l.pending|
    ensures InLine(Begin(l, i))
  {
    BeginKeepsLine(l, i);
  }

  lemma BeginKeepsLine(l: Ledger, i: nat)
    requires InLine(l) && i < |l.pending|
    ensures Line(Begin(l, i).inFlight)
  {
  }

  lemma SettleKeepsOrder(l: Ledger, w: Pubkey)
    requires InLine(l) && UniqueWorkers(l.pending)
    ensures InLine(SettleWorker(l, w))
  {
    var i := IndexOfBatch(l.pending, w);
    if i < |l.pending| { BeginKeepsOrder(l, i); }
  }

  lemma LandingKeepsOrder(l: Ledger, k: nat)
    requires InLine(l) && k < |l.inFlight|
    ensures InLine(l.(inFlight := Without(l.inFlight, k)))
  {
    LandingKeepsLine(l.inFlight, k);
  }

  lemma LandingKeepsLine(fs: seq<Flight>, k: nat)
    requires Line(fs) && k < |fs|
    ensures Line(Without(fs, k))
  {
    var fs' := Without(fs, k);
    forall i, j | 0 <= i < j < |fs'| && fs'[i].batch.worker == fs'[j].batch.worker
      ensures AllBefore(fs'[i].batch.jobs, fs'[j].batch.jobs)
    {
      var i0, j0 := if i < k then i else i + 1, if j < k then j else j + 1;
      assert fs'[i] == fs[i0] && fs'[j] == fs[j0];
    }
  }

  /** The line when a landed batch goes back in front of what is pending for its worker. */
  lemma RequeueKeepsOrder(l: Ledger, b: Batch)
    requires InLine(l) && Sorted(b, |l.queued|) && AfterFlights(l.inFlight, b)
    requires forall i :: 0 <= i < |l.pending| && l.pending[i].worker == b.worker ==>
               AllBefore(b.jobs, l.pending[i].jobs)
    ensures InLine(l.(pending := Requeue(l.pending, b)))
  {
    var i := IndexOfBatch(l.pending, b.worker);
    if i < |l.pending| {
      var m := Merge(l.pending[i], b);
      assert Sorted(m, |l.queued|) && AfterFlights(l.inFlight, m);
    }
  }

  /** The other attempts of a worker are older than its youngest one. */
  lemma OthersAreOlder(fs: seq<Flight>, k: nat)
    requires Line(fs) && k < |fs| && !HasYounger(fs, k)
    ensures AfterFlights(Without(fs, k), FailedOnce(fs[k].batch))
  {
    var fs' := Without(fs, k);
    forall j | 0 <= j < |fs'| && fs'[j].batch.worker == fs[k].batch.worker
      ensures AllBefore(fs'[j].batch.jobs, fs[k].batch.jobs)
    {
      assert fs'[j] == fs[if j < k then j else j + 1];
    }
  }

  lemma FailKeepsOrder(l: Ledger, k: nat)
    requires InLine(l) && k < |l.inFlight| && !Overtaken(l, Fail(k))
    ensures InLine(FailStep(l, k))
  {
    LandingKeepsOrder(l, k);
    FailParts(l, k);
    var b, l1 := FailedOnce(l.inFlight[k].batch), l.(inFlight := Without(l.inFlight, k));
    if b.retries < MAX_RETRIES {
      OthersAreOlder(l.inFlight, k);
      RequeueKeepsOrder(l1, b);
    }
  }

  lemma OlderBehindYounger(l: Ledger, i: nat, f: nat)
    requires i < |l.pending| && f < |l.inFlight| && l.pending[i].worker == l.inFlight[f].batch.worker
    requires l.pending[i].jobs != [] && l.inFlight[f].batch.jobs != []
    requires l.pending[i].jobs[0].serial < l.inFlight[f].batch.jobs[0].serial
    ensures !Ordered(l)
  {
    assert !AllBefore(l.inFlight[f].batch.jobs, l.pending[i].jobs);
  }

  /** A batch that goes back is at the front of its worker's pending batch. */
  lemma RequeuedInFront(bs: seq<Batch>, b: Batch)
    requires b.jobs != []
    ensures var i, bs' := IndexOfBatch(bs, b.worker), Requeue(bs, b);
            i < |bs'| && bs'[i].worker == b.worker && bs'[i].jobs != [] && bs'[i].jobs[0] == b.jobs[0]
  {
  }

  /** An attempt begun later carries a later payout in front. */
  lemma YoungerIsLater(l: Ledger, k: nat, j: nat)
    requires FlightsOk(l.inFlight, l.attempts) && Line(l.inFlight) && k < j < |l.inFlight|
    requires l.inFlight[j].batch.worker == l.inFlight[k].batch.worker
    ensures l.inFlight[k].batch.jobs != [] && l.inFlight[j].batch.jobs != []
    ensures l.inFlight[k].batch.jobs[0].serial < l.inFlight[j].batch.jobs[0].serial
  {
    assert AllBefore(l.inFlight[k].batch.jobs, l.inFlight[j].batch.jobs);
  }

  lemma BehindYounger(l: Ledger, k: nat, j: nat)
    requires k < j < |l.inFlight| && FailedOnce(l.inFlight[k].batch).retries < MAX_RETRIES
    requires l.inFlight[j].batch.worker == l.inFlight[k].batch.worker
    requires l.inFlight[k].batch.jobs != [] && l.inFlight[j].batch.jobs != []
    requires l.inFlight[k].batch.jobs[0].serial < l.inFlight[j].batch.jobs[0].serial
    ensures !Ordered(FailStep(l, k))
  {
    var b := FailedOnce(l.inFlight[k].batch);
    FailParts(l, k);
    RequeuedInFront(l.pending, b);
    OlderBehindYounger(FailStep(l, k), IndexOfBatch(l.pending, b.worker), j - 1);
  }

  /** A batch that was overtaken stands, once queued again, behind payouts queued after it. */
  lemma OvertakenBreaksOrder(l: Ledger, k: nat)
    requires FlightsOk(l.inFlight, l.attempts) && Line(l.inFlight) && Overtaken(l, Fail(k))
    ensures !InLine(FailStep(l, k))
  {
    var j :| k < j < |l.inFlight| && l.inFlight[j].batch.worker == l.inFlight[k].batch.worker;
    YoungerIsLater(l, k, j);
    BehindYounger(l, k, j);
  }

  lemma QueueKeepsOrder(l: Ledger, threshold: nat, w: Pubkey, jobId: JobId, amount: real)
    requires Shape(l) && InLine(l)
    ensures InLine(QueueStep(l, threshold, w, jobId, amount))
  {
    var p := Payout(|l.queued|, w, jobId, amount);
    EnqueueKeepsOrder(l, p);
    EnqueueKeepsShape(l, p);
    SettleKeepsOrder(Enqueue(l, p), w);
  }

  lemma AdvanceKeepsOrder(l: Ledger, i: nat)
    requires Shape(l) && InLine(l) && i < |l.sweeps|
    ensures InLine(AdvanceStep(l, i))
  {
    if l.sweeps[i].queue != [] {
      SettleKeepsOrder(l, l.sweeps[i].queue[0]);
    }
  }

  /** An event keeps every line in order if and only if it is not a re-queueing behind a
      younger attempt. */
  lemma StepKeepsOrder(l: Ledger, threshold: nat, e: Event)
    requires Shape(l) && InLine(l) && Enabled(l, e)
    ensures InLine(Step(l, threshold, e)) <==> !Overtaken(l, e)
  {
    match e
    case Queue(w, jobId, amount) => QueueKeepsOrder(l, threshold, w, jobId, amount);
    case Succeed(k) => LandingKeepsOrder(l, k);
    case Fail(k) => if Overtaken(l, e) { OvertakenBreaksOrder(l, k); } else { FailKeepsOrder(l, k); }
    case StartSweep =>
    case AdvanceSweep(i) => AdvanceKeepsOrder(l, i);
  }

  lemma NextStateInLine(ledgers: seq<Ledger>, threshold: nat, events: seq<Event>, i: nat)
    requires IsRun(ledgers, threshold, events) && i < |events| && InLine(ledgers[i])
    ensures InLine(ledgers[i + 1]) <==> !Overtaken(ledgers[i], events[i])
  {
    RunKeepsInv(ledgers, threshold, events, i);
    StepKeepsOrder(ledgers[i], threshold, events[i]);
  }

  lemma FreshInLine(l: Ledger)
    requires Fresh(l)
    ensures InLine(l)
  {
  }

  lemma {:induction false} NobodyOvertaken(ledgers: seq<Ledger>, threshold: nat, events: seq<Event>, n: nat)
    requires IsRun(ledgers, threshold, events) && n < |ledgers|
    requires forall i :: 0 <= i < n ==> !Overtaken(ledgers[i], events[i])
    ensures InLine(ledgers[n])
  {
    if n == 0 {
      FreshInLine(ledgers[n]);
    } else {
      NobodyOvertaken(ledgers, threshold, events, n - 1);
      NextStateInLine(ledgers, threshold, events, n - 1);
    }
  }

  /** Through every state of a run up to the n-th, all lines are in queueing order if and
      only if no failed batch was queued again behind a younger attempt of its worker. */
  lemma OrderIsKeptUnlessOvertaken(ledgers: seq<Ledger>, threshold: nat, events: seq<Event>, n: nat)
    requires IsRun(ledgers, threshold, events) && n < |ledgers|
    ensures (forall m :: 0 <= m <= n ==> InLine(ledgers[m]))
            <==> (forall i :: 0 <= i < n ==> !Overtaken(ledgers[i], events[i]))
  {
    if forall i :: 0 <= i < n ==> !Overtaken(ledgers[i], events[i]) {
      forall m | 0 <= m <= n ensures InLine(ledgers[m]) {
        NobodyOvertaken(ledgers, threshold, events, m);
      }
    } else {
      var i :| 0 <= i < n && Overtaken(ledgers[i], events[i]);
      if InLine(ledgers[i]) { NextStateInLine(ledgers, threshold, events, i); }
    }
  }

  /** A run that puts two payouts of one worker in flight together. */
  lemma QueueTwo(ledgers: seq<Ledger>, events: seq<Event>, w: Pubkey, amount: real)
    returns (ledgers': seq<Ledger>, events': seq<Event>)
    requires IsRun(ledgers, 1, events) && ledgers[|events|].pending == []
    ensures IsRun(ledgers', 1, events') && |events'| == |events| + 2
    ensures var l, l' := ledgers[|events|], ledgers'[|events'|];
            var a, b := Payout(|l.queued|, w, "a", amount), Payout(|l.queued| + 1, w, "b", amount);
            && l'.pending == [] && |l'.queued| == |l.queued| + 2
            && l'.inFlight == l.inFlight + [Flight(|l.attempts|, Join(NewBatch(a), b))]
            && |l'.attempts| == |l.attempts| + 1
  {
    var l := ledgers[|events|];
    FirstWaits(l, w, "a", amount);
    ledgers', events' := SettlementRuns.Extend(ledgers, 1, events, Queue(w, "a", amount));
    var l1 := ledgers'[|events'|];
    TwoMakeAnAttempt(l1, Payout(|l.queued|, w, "a", amount), "b");
    ledgers', events' := SettlementRuns.Extend(ledgers', 1, events', Queue(w, "b", amount));
  }

  /** With two attempts of one worker in flight, the older one failing first puts the newer
      payouts in front: a reachable state in which a batch is out of order. */
  lemma OverlapLosesOrder(w: Pubkey, amount: real) returns (ledgers: seq<Ledger>, events: seq<Event>)
    ensures IsRun(ledgers, 1, events) && |events| == 6
    ensures |ledgers[6].pending| == 1 && !Increasing(ledgers[6].pending[0].jobs)
  {
    var first, second;
    ledgers, events, first, second := TwoInFlight(w, amount);
    OlderFails(ledgers[4], first, second);
    ledgers, events := SettlementRuns.Extend(ledgers, 1, events, Fail(0));
    NewerGoesInFront(ledgers[5], FailedOnce(first), second);
    ledgers, events := SettlementRuns.Extend(ledgers, 1, events, Fail(0));
    var jobs := ledgers[6].pending[0].jobs;
    assert jobs[0] == second.jobs[0] && jobs[|second.jobs|] == first.jobs[0];
  }

  lemma TwoInFlight(w: Pubkey, amount: real)
    returns (ledgers: seq<Ledger>, events: seq<Event>, first: Batch, second: Batch)
    ensures IsRun(ledgers, 1, events) && |events| == 4
    ensures ledgers[4].pending == [] && ledgers[4].inFlight == [Flight(0, first), Flight(1, second)]
    ensures first.worker == second.worker == w && first.retries == second.retries == 0
    ensures |first.jobs| == |second.jobs| == 2 && first.jobs[0].serial < second.jobs[0].serial
  {
    ledgers, events := [EMPTY], [];
    ledgers, events := QueueTwo(ledgers, events, w, amount);
    first := ledgers[2].inFlight[0].batch;
    ledgers, events := QueueTwo(ledgers, events, w, amount);
    second := ledgers[4].inFlight[1].batch;
  }

  lemma FirstWaits(l: Ledger, w: Pubkey, jobId: JobId, amount: real)
    requires l.pending == []
    ensures var l', p := Step(l, 1, Queue(w, jobId, amount)), Payout(|l.queued|, w, jobId, amount);
            && l'.pending == [NewBatch(p)] && l'.queued == l.queued + [p]
            && l'.inFlight == l.inFlight && l'.attempts == l.attempts
  {
  }

  lemma OlderFails(l: Ledger, first: Batch, second: Batch)
    requires l.pending == [] && l.inFlight == [Flight(0, first), Flight(1, second)] && first.retries == 0
    ensures FailStep(l, 0).pending == [FailedOnce(first)] && FailStep(l, 0).inFlight == [Flight(1, second)]
  {
  }

  lemma NewerGoesInFront(l: Ledger, pending: Batch, second: Batch)
    requires l.pending == [pending] && l.inFlight == [Flight(1, second)] && second.retries == 0
    requires pending.worker == second.worker
    ensures |FailStep(l, 0).pending| == 1 && FailStep(l, 0).pending[0].jobs == second.jobs + pending.jobs
  {
    assert IndexOfBatch(l.pending, second.worker) == 0;
  }

  /** With threshold one, a second payout for a worker sends both off. */
  lemma TwoMakeAnAttempt(l: Ledger, p: Payout, jobId: JobId)
    requires l.pending == [NewBatch(p)]
    ensures var l', q := Step(l, 1, Queue(p.worker, jobId, p.amount)), Payout(|l.queued|, p.worker, jobId, p.amount);
            && l'.pending == [] && l'.queued == l.queued + [q]
            && l'.inFlight == l.inFlight + [Flight(|l.attempts|, Join(NewBatch(p), q))]
            && |l'.attempts| == |l.attempts| + 1
  {
    var q := Payout(|l.queued|, p.worker, jobId, p.amount);
    assert IndexOfBatch(l.pending, p.worker) == 0;
    var l1 := Enqueue(l, q);
    assert l1.pending == [Join(NewBatch(p), q)];
    assert IndexOfBatch(l1.pending, p.worker) == 0;
  }
}
