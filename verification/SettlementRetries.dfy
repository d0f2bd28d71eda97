/** How often one payout can fail. The retry count is kept by batches, and a failed batch
    takes over the count of the batch it is merged into, so three failures are no bound for
    a payout; the number of payouts queued for its worker gives the true one. */
module SettlementRetries {
  import opened Protocol
  import opened Binary64
  import opened Amounts
  import opened Settlement
  import opened SettlementInvariant
  import opened SettlementRuns
  import opened SettlementDrain
  import opened InOrderSums

  // ---- The bound ----

  /** The failures of a payout so far and those its worker's live batches can still take are
      paid for by the payouts queued for that worker. */
  ghost predicate FailuresPaid(l: Ledger, p: Payout) {
    l.failures[p] + Potential(l, Some(p.worker)) <= MAX_RETRIES * |OwnedBy(l.queued, p.worker)|
  }

  lemma {:induction false} OwnedAppend(ps: seq<Payout>, p: Payout, w: Pubkey)
    ensures OwnedBy(ps + [p], w) == OwnedBy(ps, w) + if p.worker == w then [p] else []
  {
    if ps == [] {
      assert ps + [p] == [p] && [p][1..] == [];
    } else {
      assert (ps + [p])[1..] == ps[1..] + [p];
      OwnedAppend(ps[1..], p, w);
    }
  }

  /** A payout is in a batch at most once. */
  lemma OncePerBatch(l: Ledger, k: nat, p: Payout)
    requires Conserved(l) && Numbered(l) && k < |l.inFlight|
    ensures multiset(l.inFlight[k].batch.jobs)[p] <= 1
  {
    JobsAfterLanding(l.inFlight, k);
    assert multiset(l.inFlight[k].batch.jobs)[p] <= Places(l)[p] == multiset(l.queued)[p];
    if p in l.queued {
      var y :| 0 <= y < |l.queued| && l.queued[y] == p;
      NumberedOnce(l.queued, y);
    }
  }

  lemma OnlyFailureFails(l: Ledger, threshold: nat, e: Event)
    requires Enabled(l, e) && !e.Fail?
    ensures Step(l, threshold, e).failures == l.failures
  {
  }

  lemma QueueOnlyQueues(l: Ledger, threshold: nat, e: Event)
    requires Enabled(l, e)
    ensures Step(l, threshold, e).queued
            == l.queued + if e.Queue? then [Payout(|l.queued|, e.worker, e.jobId, e.amount)] else []
  {
  }

  /** A failure counts for a payout only if it is one of its worker's. */
  lemma FailurePays(l: Ledger, k: nat, p: Payout)
    requires Conserved(l) && Shape(l) && k < |l.inFlight|
    ensures FailStep(l, k).failures[p]
            <= l.failures[p] + if Watched(Some(p.worker), l.inFlight[k].batch.worker) then 1 else 0
  {
    OncePerBatch(l, k, p);
    FailParts(l, k);
    assert FlightOk(l.inFlight[k], l.attempts);
    if p in l.inFlight[k].batch.jobs {
      var x :| 0 <= x < |l.inFlight[k].batch.jobs| && l.inFlight[k].batch.jobs[x] == p;
    } else {
      assert multiset(l.inFlight[k].batch.jobs)[p] == 0;
    }
  }

  lemma StepPaysFailures(l: Ledger, threshold: nat, e: Event, p: Payout)
    requires Conserved(l) && Shape(l) && Enabled(l, e) && FailuresPaid(l, p)
    ensures FailuresPaid(Step(l, threshold, e), p)
  {
    PotentialFalls(l, threshold, e, Some(p.worker));
    QueueOwns(l, threshold, e, p.worker);
    FailuresRise(l, threshold, e, p);
  }

  lemma QueueOwns(l: Ledger, threshold: nat, e: Event, w: Pubkey)
    requires Enabled(l, e)
    ensures |OwnedBy(Step(l, threshold, e).queued, w)|
            == |OwnedBy(l.queued, w)| + if e.Queue? && e.worker == w then 1 else 0
  {
    QueueOnlyQueues(l, threshold, e);
    if e.Queue? {
      OwnedAppend(l.queued, Payout(|l.queued|, e.worker, e.jobId, e.amount), w);
    } else {
      assert l.queued + [] == l.queued;
    }
  }

  lemma FailuresRise(l: Ledger, threshold: nat, e: Event, p: Payout)
    requires Conserved(l) && Shape(l) && Enabled(l, e)
    ensures Step(l, threshold, e).failures[p]
            <= l.failures[p] + if e.Fail? && l.inFlight[e.k].batch.worker == p.worker then 1 else 0
  {
    if e.Fail? {
      FailurePays(l, e.k, p);
    } else {
      OnlyFailureFails(l, threshold, e);
    }
  }

  lemma NextPaysFailures(ledgers: seq<Ledger>, threshold: nat, events: seq<Event>, n: nat, p: Payout)
    requires IsRun(ledgers, threshold, events) && 0 < n < |ledgers| && FailuresPaid(ledgers[n - 1], p)
    ensures FailuresPaid(ledgers[n], p)
  {
    RunConserves(ledgers, threshold, events, n - 1);
    StepPaysFailures(ledgers[n - 1], threshold, events[n - 1], p);
  }

  lemma NoFailuresYet(l: Ledger, p: Payout)
    requires Fresh(l) && l.failures == multiset{}
    ensures FailuresPaid(l, p)
  {
  }

  lemma {:induction false} RunPaysFailures(
    ledgers: seq<Ledger>, threshold: nat, events: seq<Event>, n: nat, p: Payout)
    requires IsRun(ledgers, threshold, events) && n < |ledgers|
    ensures FailuresPaid(ledgers[n], p)
  {
    if n == 0 {
      NoFailuresYet(ledgers[n], p);
    } else {
      RunPaysFailures(ledgers, threshold, events, n - 1, p);
      NextPaysFailures(ledgers, threshold, events, n, p);
    }
  }

  /** In every run, a payout takes part in at most three failed attempts for each payout
      queued for its worker so far. */
  lemma FailuresAreBounded(ledgers: seq<Ledger>, threshold: nat, events: seq<Event>, n: nat, p: Payout)
    requires IsRun(ledgers, threshold, events) && n < |ledgers|
    ensures ledgers[n].failures[p] <= 3 * |OwnedBy(ledgers[n].queued, p.worker)|
  {
    RunPaysFailures(ledgers, threshold, events, n, p);
    RunConserves(ledgers, threshold, events, n);
    var l := ledgers[n];
    forall k | 0 <= k < |l.inFlight| ensures BatchOk(Batches(l.inFlight)[k]) {
      assert FlightOk(l.inFlight[k], l.attempts);
    }
    SlackIsPositive(l.pending, Some(p.worker));
    SlackIsPositive(Batches(l.inFlight), Some(p.worker));
  }

  // ---- A payout that keeps failing ----

  /** The failed batch merged with the payout x that was queued while it was in flight. */
  function Topped(b: Batch, x: Payout): Batch {
    Merge(NewBatch(x), b)
  }

  /** Another payout for the worker starts a batch of its own beside the attempt. */
  lemma QueueBeside(l: Ledger, threshold: nat, b: Batch, jobId: JobId, amount: real) returns (l': Ledger)
    requires Visiting(l, b)
    ensures l' == Step(l, threshold, Queue(b.worker, jobId, amount))
    ensures l' == l.(pending := [NewBatch(Payout(|l.queued|, b.worker, jobId, amount))],
                     queued := l.queued + [Payout(|l.queued|, b.worker, jobId, amount)])
  {
    l' := QueueStep(l, threshold, b.worker, jobId, amount);
  }

  lemma FailBeside(l: Ledger, b: Batch, x: Payout) returns (l1: Ledger, l2: Ledger)
    requires l.pending == [NewBatch(x)] && x.worker == b.worker && FailedOnce(b).retries < MAX_RETRIES
    requires |l.inFlight| == 1 && l.inFlight[0].batch == b
    requires l.settling && |l.sweeps| == 1 && l.sweeps[0].queue == []
    ensures l1 == FailStep(l, 0) && Enabled(l1, AdvanceSweep(0)) && l2 == AdvanceStep(l1, 0)
    ensures Resting(l2, Topped(b, x)) && l2.failures == l.failures + multiset(b.jobs)
    ensures l2.queued == l.queued && l2.settled == l.settled && l2.minted == l.minted
  {
    FailParts(l, 0);
    assert IndexOfBatch(l.pending, b.worker) == 0;
    l1 := FailStep(l, 0);
    assert l1.pending == [Topped(b, x)] && l1.inFlight == [];
    l2 := AdvanceStep(l1, 0);
  }

  /** A sweep sends the batch off, a payout is queued, the attempt fails and the sweep ends:
      the batch is back, one payout longer, with the retry count of the new payout. */
  lemma SweepTopsUp(l: Ledger, threshold: nat, b: Batch, jobId: JobId, amount: real)
    returns (es: seq<Event>, ls: seq<Ledger>, l': Ledger)
    requires Resting(l, b) && b.jobs != [] && FailedOnce(b).retries < MAX_RETRIES
    ensures Leads(l, threshold, es, ls) && es != [] && l' == Last(l, ls)
    ensures var x := Payout(|l.queued|, b.worker, jobId, amount);
            && Resting(l', Topped(b, x)) && l'.failures == l.failures + multiset(b.jobs)
            && l'.queued == l.queued + [x] && l'.settled == l.settled && l'.minted == l.minted
  {
    var x := Payout(|l.queued|, b.worker, jobId, amount);
    es, ls := SweepTakesOff(l, threshold, b);
    var l2 := ls[1];
    var l3 := QueueBeside(l2, threshold, b, jobId, amount);
    LeadsOne(l2, threshold, Queue(b.worker, jobId, amount), l3);
    LeadsOn(l, threshold, es, ls, [Queue(b.worker, jobId, amount)], [l3]);
    es, ls := es + [Queue(b.worker, jobId, amount)], ls + [l3];
    var l4, l5 := FailBeside(l3, b, x);
    LeadsTwice(l3, threshold, Fail(0), l4, AdvanceSweep(0), l5);
    LeadsOn(l, threshold, es, ls, [Fail(0), AdvanceSweep(0)], [l4, l5]);
    es, ls := es + [Fail(0), AdvanceSweep(0)], ls + [l4, l5];
    l' := l5;
  }

  /** A batch of n payouts, all of one amount and never yet given up on, whose total is the
      amount added up n times in a row. */
  ghost predicate Pile(b: Batch, n: nat, amount: real) {
    && n > 0 && |b.jobs| == n && b.retries == 0
    && Eval(b.total) == Repeated(Round(amount), n)
    && forall k :: 0 <= k < |b.jobs| ==> b.jobs[k].amount == amount
  }

  lemma ToppedPile(b: Batch, n: nat, x: Payout)
    requires Pile(b, n, x.amount)
    ensures Pile(Topped(b, x), n + 1, x.amount) && b.jobs <= Topped(b, x).jobs
  {
  }

  /** Whatever the threshold, a payout can fail any number of times and still be pending. */
  lemma {:induction false} FailingForever(threshold: nat, w: Pubkey, jobIds: seq<JobId>, amount: real, n: nat)
    returns (ledgers: seq<Ledger>, events: seq<Event>, b: Batch)
    requires n < |jobIds|
    ensures IsRun(ledgers, threshold, events)
    ensures var l, p := ledgers[|events|], Payout(0, w, jobIds[0], amount);
            && Resting(l, b) && b.worker == w && Pile(b, n + 1, amount)
            && p in b.jobs && l.failures[p] >= n
            && l.settled == [] && l.minted == 0
            && (forall k :: 0 <= k < |l.queued| ==> l.queued[k].amount == amount)
            && |l.queued| == n + 1 && forall k :: 0 <= k <= n ==> l.queued[k].jobId == jobIds[k]
    decreases n
  {
    var p := Payout(0, w, jobIds[0], amount);
    if n == 0 {
      ledgers, events := Extend([EMPTY], threshold, [], Queue(w, jobIds[0], amount));
      b := NewBatch(p);
    } else {
      var b0;
      ledgers, events, b0 := FailingForever(threshold, w, jobIds, amount, n - 1);
      var x := Payout(|ledgers[|events|].queued|, w, jobIds[n], amount);
      var es, ls, l' := SweepTopsUp(ledgers[|events|], threshold, b0, jobIds[n], amount);
      ExtendAll(ledgers, threshold, events, es, ls);
      assert multiset(b0.jobs)[p] >= 1;
      b := Topped(b0, x);
      ToppedPile(b0, n, x);
      assert (ledgers + ls)[|events + es|] == l';
      ledgers, events := ledgers + ls, events + es;
    }
  }

  // ---- A payment that is off by one unit ----

  lemma SweepPays(l: Ledger, threshold: nat, b: Batch) returns (es: seq<Event>, ls: seq<Ledger>, l': Ledger)
    requires Resting(l, b) && b.jobs != []
    ensures Leads(l, threshold, es, ls) && es != [] && l' == Last(l, ls)
    ensures l'.settled == l.settled + b.jobs && l'.minted == l.minted + RawUnits(b.total)
    ensures l'.queued == l.queued
  {
    es, ls := SweepTakesOff(l, threshold, b);
    var l2 := ls[1];
    l' := SucceedStep(l2, 0);
    LeadsOne(l2, threshold, Succeed(0), l');
    LeadsOn(l, threshold, es, ls, [Succeed(0)], [l']);
    es, ls := es + [Succeed(0)], ls + [l'];
  }

  /** Whatever the threshold, 180957 jobs of one worker can be paid one raw unit too much: the
      first 180956 attempts fail, each meets one new payout, and the next one goes through. */
  lemma OverpayingRun(threshold: nat, w: Pubkey, jobIds: seq<JobId>)
    returns (ledgers: seq<Ledger>, events: seq<Event>)
    requires |jobIds| == 180957
    ensures IsRun(ledgers, threshold, events) && RewardsOnly(ledgers[|events|])
    ensures |ledgers[|events|].settled| == 180957
    ensures ledgers[|events|].minted == 1000000 * |ledgers[|events|].settled| + 1
  {
    var b;
    ledgers, events, b := FailingForever(threshold, w, jobIds, JOB_REWARD, 180956);
    var es, ls, l' := SweepPays(ledgers[|events|], threshold, b);
    ExtendAll(ledgers, threshold, events, es, ls);
    assert (ledgers + ls)[|events + es|] == l';
    InOrderConverts(180957);
    ledgers, events := ledgers + ls, events + es;
  }
}
