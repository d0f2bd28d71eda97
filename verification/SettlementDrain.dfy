/** What becomes of the backlog once no more payouts arrive: three sweeps settle or abandon
    all of it. */
module SettlementDrain {
  import opened Protocol
  import opened Amounts
  import opened Settlement
  import opened SettlementInvariant
  import opened SettlementRuns

  /** A sweep starts at event a and ends with event b. */
  ghost predicate CompleteSweep(ledgers: seq<Ledger>, events: seq<Event>, a: nat, b: nat) {
    && a < b < |events| < |ledgers|
    && events[a] == StartSweep && !ledgers[a].settling
    && (forall k :: a < k <= b ==> ledgers[k].settling)
    && !ledgers[b + 1].settling
  }

  ghost predicate NothingQueued(events: seq<Event>, from: nat, to: nat)
    requires to <= |events|
  {
    forall i :: from <= i < to ==> !events[i].Queue?
  }

  /** A stretch of a run without new payouts that has nothing in flight at either end and
      holds a complete sweep. */
  ghost predicate SweepRound(ledgers: seq<Ledger>, events: seq<Event>, from: nat, to: nat) {
    && from <= to <= |events| < |ledgers|
    && NothingQueued(events, from, to)
    && ledgers[from].inFlight == [] && ledgers[to].inFlight == []
    && exists a: nat, b: nat :: from <= a && b < to && CompleteSweep(ledgers, events, a, b)
  }

  // ---- One live batch for each worker ----

  ghost predicate OneEach(l: Ledger) {
    && (forall i, k :: 0 <= i < |l.pending| && 0 <= k < |l.inFlight| ==>
          l.pending[i].worker != l.inFlight[k].batch.worker)
    && (forall j, k :: 0 <= j < k < |l.inFlight| ==> l.inFlight[j].batch.worker != l.inFlight[k].batch.worker)
  }

  /** No payout of the batch has been tried since. */
  ghost predicate Untried(attempts: seq<seq<Payout>>, since: nat, b: Batch) {
    forall p :: p in b.jobs ==> !Tried(attempts, since, p)
  }

  /** The batch has failed more than r times, or at least r times and was left alone since. */
  ghost predicate PendingSince(attempts: seq<seq<Payout>>, since: nat, r: nat, b: Batch) {
    b.retries > r || (b.retries == r && Untried(attempts, since, b))
  }

  ghost predicate AllPendingSince(attempts: seq<seq<Payout>>, since: nat, r: nat, bs: seq<Batch>) {
    forall i :: 0 <= i < |bs| ==> PendingSince(attempts, since, r, bs[i])
  }

  /** Where a round stands that began with every batch having failed at least r times. */
  ghost predicate Progress(l: Ledger, since: nat, r: nat) {
    && OneEach(l)
    && since <= |l.attempts|
    && (forall k :: 0 <= k < |l.inFlight| ==> l.inFlight[k].id >= since && l.inFlight[k].batch.retries >= r)
    && AllPendingSince(l.attempts, since, r, l.pending)
  }

  lemma OneMoreAttempt(attempts: seq<seq<Payout>>, since: nat, jobs: seq<Payout>, p: Payout)
    requires p !in jobs
    ensures Tried(attempts + [jobs], since, p) ==> Tried(attempts, since, p)
  {
    var attempts' := attempts + [jobs];
    if Tried(attempts', since, p) {
      var a :| since <= a < |attempts'| && p in attempts'[a];
      assert attempts'[a] == attempts[a];
    }
  }

  lemma OthersLeftAlone(attempts: seq<seq<Payout>>, since: nat, r: nat, b: Batch, other: Batch)
    requires BatchOk(b) && BatchOk(other) && b.worker != other.worker
    requires PendingSince(attempts, since, r, b)
    ensures PendingSince(attempts + [other.jobs], since, r, b)
  {
    forall p | p in b.jobs && !Tried(attempts, since, p) ensures !Tried(attempts + [other.jobs], since, p) {
      assert p !in other.jobs;
      OneMoreAttempt(attempts, since, other.jobs, p);
    }
  }

  lemma BeginProgresses(l: Ledger, i: nat, since: nat, r: nat)
    requires Shape(l) && Progress(l, since, r) && i < |l.pending|
    ensures Progress(Begin(l, i), since, r)
  {
    OthersWait(l.pending, i, l.attempts, since, r);
    BeginKeepsOneEach(l, i);
    assert PendingSince(l.attempts, since, r, l.pending[i]);
  }

  lemma OthersWait(bs: seq<Batch>, i: nat, attempts: seq<seq<Payout>>, since: nat, r: nat)
    requires PendingOk(bs) && i < |bs| && AllPendingSince(attempts, since, r, bs)
    ensures AllPendingSince(attempts + [bs[i].jobs], since, r, Without(bs, i))
  {
    var bs' := Without(bs, i);
    forall k | 0 <= k < |bs'| ensures PendingSince(attempts + [bs[i].jobs], since, r, bs'[k]) {
      var j := if k < i then k else k + 1;
      assert bs'[k] == bs[j] && bs[j].worker != bs[i].worker;
      OthersLeftAlone(attempts, since, r, bs[j], bs[i]);
    }
  }

  lemma BeginKeepsOneEach(l: Ledger, i: nat)
    requires OneEach(l) && UniqueWorkers(l.pending) && i < |l.pending|
    ensures OneEach(Begin(l, i))
  {
  }

  lemma SettleProgresses(l: Ledger, w: Pubkey, since: nat, r: nat)
    requires Shape(l) && Progress(l, since, r)
    ensures Progress(SettleWorker(l, w), since, r)
  {
    var i := IndexOfBatch(l.pending, w);
    if i < |l.pending| { BeginProgresses(l, i, since, r); }
  }

  lemma LandingProgresses(l: Ledger, k: nat, since: nat, r: nat)
    requires Progress(l, since, r) && k < |l.inFlight|
    ensures Progress(l.(inFlight := Without(l.inFlight, k)), since, r)
  {
  }

  /** The only batch of its worker goes back as it is, with one more failure. */
  lemma FailProgresses(l: Ledger, k: nat, since: nat, r: nat)
    requires Progress(l, since, r) && k < |l.inFlight|
    ensures Progress(FailStep(l, k), since, r)
  {
    LandingProgresses(l, k, since, r);
    FailParts(l, k);
    var b := FailedOnce(l.inFlight[k].batch);
    var i := IndexOfBatch(l.pending, b.worker);
    assert i == |l.pending|;
    assert PendingSince(l.attempts, since, r, b);
  }

  lemma StepProgresses(l: Ledger, threshold: nat, e: Event, since: nat, r: nat)
    requires Shape(l) && Progress(l, since, r) && Enabled(l, e) && !e.Queue?
    ensures Progress(Step(l, threshold, e), since, r)
  {
    match e
    case Succeed(k) => LandingProgresses(l, k, since, r);
    case Fail(k) => FailProgresses(l, k, since, r);
    case StartSweep =>
    case AdvanceSweep(i) =>
      if l.sweeps[i].queue != [] { SettleProgresses(l, l.sweeps[i].queue[0], since, r); }
  }

  lemma NextProgresses(ledgers: seq<Ledger>, threshold: nat, events: seq<Event>,
                       from: nat, to: nat, i: nat, since: nat, r: nat)
    requires IsRun(ledgers, threshold, events) && from <= i < to <= |events|
    requires NothingQueued(events, from, to) && Progress(ledgers[i], since, r)
    ensures Progress(ledgers[i + 1], since, r)
  {
    RunConserves(ledgers, threshold, events, i);
    StepProgresses(ledgers[i], threshold, events[i], since, r);
  }

  ghost predicate FailedAtLeast(bs: seq<Batch>, r: nat) {
    forall i :: 0 <= i < |bs| ==> bs[i].retries >= r
  }

  lemma RoundBegins(l: Ledger, r: nat)
    requires l.inFlight == [] && FailedAtLeast(l.pending, r)
    ensures Progress(l, |l.attempts|, r)
  {
  }

  lemma {:induction false} RoundProgresses(
    ledgers: seq<Ledger>, threshold: nat, events: seq<Event>, from: nat, n: nat, r: nat)
    requires IsRun(ledgers, threshold, events) && from <= n <= |events|
    requires NothingQueued(events, from, n)
    requires ledgers[from].inFlight == [] && FailedAtLeast(ledgers[from].pending, r)
    ensures Progress(ledgers[n], |ledgers[from].attempts|, r)
    decreases n
  {
    if n == from {
      RoundBegins(ledgers[from], r);
    } else {
      RoundProgresses(ledgers, threshold, events, from, n - 1, r);
      NextProgresses(ledgers, threshold, events, from, n, n - 1, |ledgers[from].attempts|, r);
    }
  }

  // ---- A sweep reaches what was live when it started ----

  lemma NextHistory(ledgers: seq<Ledger>, threshold: nat, events: seq<Event>, i: nat)
    requires IsRun(ledgers, threshold, events) && i < |events|
    ensures ledgers[i].attempts <= ledgers[i + 1].attempts
    ensures ledgers[i].settled <= ledgers[i + 1].settled && ledgers[i].abandoned <= ledgers[i + 1].abandoned
  {
    HistoryOnlyGrows(ledgers[i], threshold, events[i]);
  }

  lemma {:induction false} HistoryGrows(ledgers: seq<Ledger>, threshold: nat, events: seq<Event>, m: nat, n: nat)
    requires IsRun(ledgers, threshold, events) && m <= n < |ledgers|
    ensures ledgers[m].attempts <= ledgers[n].attempts
    ensures ledgers[m].settled <= ledgers[n].settled && ledgers[m].abandoned <= ledgers[n].abandoned
    decreases n
  {
    if m < n {
      HistoryGrows(ledgers, threshold, events, m, n - 1);
      NextHistory(ledgers, threshold, events, n - 1);
    }
  }

  lemma {:induction false} QueuedStays(
    ledgers: seq<Ledger>, threshold: nat, events: seq<Event>, m: nat, n: nat)
    requires IsRun(ledgers, threshold, events) && m <= n <= |events| && NothingQueued(events, m, n)
    ensures ledgers[m].queued == ledgers[n].queued
    decreases n
  {
    if m < n {
      QueuedStays(ledgers, threshold, events, m, n - 1);
      OnlyQueueingQueues(ledgers[n - 1], threshold, events[n - 1]);
    }
  }

  lemma OnlyQueueingQueues(l: Ledger, threshold: nat, e: Event)
    requires Enabled(l, e) && !e.Queue?
    ensures Step(l, threshold, e).queued == l.queued
  {
  }

  /** A payout that is still pending later was neither settled nor abandoned before. */
  lemma WasLive(l: Ledger, l': Ledger, p: Payout)
    requires Conserved(l) && Conserved(l') && Numbered(l') && l.queued == l'.queued
    requires l.settled <= l'.settled && l.abandoned <= l'.abandoned
    requires p in JobsOf(l'.pending)
    ensures p in JobsOf(l.pending) || p in JobsOf(Batches(l.inFlight))
  {
    assert p in multiset(JobsOf(l'.pending));
    assert p in multiset(l'.queued);
    var k :| 0 <= k < |l'.queued| && l'.queued[k] == p;
    NumberedOnce(l'.queued, k);
    assert Places(l')[p] == 1;
    assert p in l.settled ==> p in multiset(l'.settled);
    assert p in l.abandoned ==> p in multiset(l'.abandoned);
    assert p in Places(l);
  }

  lemma InFlightWasTried(l: Ledger, since: nat, r: nat, p: Payout)
    requires FlightsOk(l.inFlight, l.attempts) && Progress(l, since, r) && p in JobsOf(Batches(l.inFlight))
    ensures Tried(l.attempts, since, p)
  {
    var k := FromFlatten(JobLists(Batches(l.inFlight)), p);
    assert FlightOk(l.inFlight[k], l.attempts);
    assert p in l.attempts[l.inFlight[k].id];
  }

  lemma TriedEarlier(attempts: seq<seq<Payout>>, since: nat, later: nat, p: Payout)
    requires Tried(attempts, later, p) && since <= later
    ensures Tried(attempts, since, p)
  {
  }

  /** What is pending after a round has been tried in it. */
  lemma PendingWasTried(
    ledgers: seq<Ledger>, threshold: nat, events: seq<Event>, from: nat, to: nat, a: nat, b: nat, r: nat, p: Payout)
    requires IsRun(ledgers, threshold, events) && from <= a && b < to <= |events|
    requires CompleteSweep(ledgers, events, a, b) && NothingQueued(events, from, to)
    requires ledgers[from].inFlight == []
    requires FailedAtLeast(ledgers[from].pending, r) && p in JobsOf(ledgers[to].pending)
    ensures Tried(ledgers[to].attempts, |ledgers[from].attempts|, p)
  {
    var since := |ledgers[from].attempts|;
    RunConserves(ledgers, threshold, events, a);
    RunConserves(ledgers, threshold, events, to);
    QueuedStays(ledgers, threshold, events, a, to);
    HistoryGrows(ledgers, threshold, events, from, a);
    HistoryGrows(ledgers, threshold, events, a, to);
    HistoryGrows(ledgers, threshold, events, b, to);
    WasLive(ledgers[a], ledgers[to], p);
    if p in JobsOf(ledgers[a].pending) {
      SweepTriesEverything(ledgers, threshold, events, a, b, p);
      TriedEarlier(ledgers[b].attempts, since, |ledgers[a].attempts|, p);
      TriedStaysTried(ledgers[b].attempts, ledgers[to].attempts, since, p);
    } else {
      RoundProgresses(ledgers, threshold, events, from, a, r);
      InFlightWasTried(ledgers[a], since, r, p);
      TriedStaysTried(ledgers[a].attempts, ledgers[to].attempts, since, p);
    }
  }

  /** Every batch still pending after a round has failed once more. */
  lemma RoundRaises(ledgers: seq<Ledger>, threshold: nat, events: seq<Event>, from: nat, to: nat, r: nat)
    requires IsRun(ledgers, threshold, events) && SweepRound(ledgers, events, from, to)
    requires FailedAtLeast(ledgers[from].pending, r)
    ensures FailedAtLeast(ledgers[to].pending, r + 1)
  {
    var l := ledgers[to];
    var a: nat, b: nat :| from <= a && b < to && CompleteSweep(ledgers, events, a, b);
    RoundProgresses(ledgers, threshold, events, from, to, r);
    RunConserves(ledgers, threshold, events, to);
    forall i | 0 <= i < |l.pending| ensures l.pending[i].retries >= r + 1 {
      assert BatchOk(l.pending[i]);
      var p := l.pending[i].jobs[0];
      InFlatten(JobLists(l.pending), i, p);
      PendingWasTried(ledgers, threshold, events, from, to, a, b, r, p);
      assert PendingSince(l.attempts, |ledgers[from].attempts|, r, l.pending[i]);
    }
  }

  /** Once no more payouts arrive, three sweeps empty the distributor: if each of them starts
      and ends between moments with nothing in flight, then nothing is pending afterwards and
      every payout ever queued has been settled or abandoned, once. */
  lemma ThreeSweepsDrain(ledgers: seq<Ledger>, threshold: nat, events: seq<Event>,
                         first: nat, second: nat, third: nat, end: nat)
    requires IsRun(ledgers, threshold, events)
    requires SweepRound(ledgers, events, first, second)
    requires SweepRound(ledgers, events, second, third)
    requires SweepRound(ledgers, events, third, end)
    ensures var l := ledgers[end];
            && l.pending == [] && l.inFlight == []
            && multiset(l.queued) == multiset(l.settled) + multiset(l.abandoned)
  {
    RoundRaises(ledgers, threshold, events, first, second, 0);
    RoundRaises(ledgers, threshold, events, second, third, 1);
    RoundRaises(ledgers, threshold, events, third, end, 2);
    RunConserves(ledgers, threshold, events, end);
    Drained(ledgers[end]);
  }

  lemma Drained(l: Ledger)
    requires Conserved(l) && PendingOk(l.pending) && FailedAtLeast(l.pending, 3) && l.inFlight == []
    ensures l.pending == [] && multiset(l.queued) == multiset(l.settled) + multiset(l.abandoned)
  {
    assert l.pending != [] ==> BatchOk(l.pending[0]);
    assert JobLists(Batches(l.inFlight)) == [] && JobLists(l.pending) == [];
  }

  // ---- Two sweeps are not enough ----

  /** The distributor is at rest with this one batch pending. */
  ghost predicate Resting(l: Ledger, b: Batch) {
    l.pending == [b] && l.inFlight == [] && !l.settling && l.sweeps == []
  }

  /** Event i of es leads to ledger i of ls, the first one starting from l. */
  ghost predicate LeadsTo(l: Ledger, threshold: nat, es: seq<Event>, ls: seq<Ledger>, i: nat)
    requires i < |es| == |ls|
  {
    var before := if i == 0 then l else ls[i - 1];
    Enabled(before, es[i]) && ls[i] == Step(before, threshold, es[i])
  }

  /** The events es lead from l through the ledgers ls. */
  ghost predicate Leads(l: Ledger, threshold: nat, es: seq<Event>, ls: seq<Ledger>) {
    |es| == |ls| && forall i {:trigger es[i]} :: 0 <= i < |es| ==> LeadsTo(l, threshold, es, ls, i)
  }

  lemma ExtendAll(ledgers: seq<Ledger>, threshold: nat, events: seq<Event>, es: seq<Event>, ls: seq<Ledger>)
    requires IsRun(ledgers, threshold, events) && Leads(ledgers[|events|], threshold, es, ls)
    ensures IsRun(ledgers + ls, threshold, events + es)
  {
    var ledgers', events' := ledgers + ls, events + es;
    forall k | 0 <= k < |events'|
      ensures Enabled(ledgers'[k], events'[k]) && ledgers'[k + 1] == Step(ledgers'[k], threshold, events'[k])
    {
      if k < |events| {
        assert events'[k] == events[k] && ledgers'[k] == ledgers[k] && ledgers'[k + 1] == ledgers[k + 1];
      } else {
        assert events'[k] == es[k - |events|] && LeadsTo(ledgers[|events|], threshold, es, ls, k - |events|);
      }
    }
  }

  function Last(l: Ledger, ls: seq<Ledger>): Ledger {
    if ls == [] then l else ls[|ls| - 1]
  }

  lemma LeadsOne(l: Ledger, threshold: nat, e: Event, l': Ledger)
    requires Enabled(l, e) && l' == Step(l, threshold, e)
    ensures Leads(l, threshold, [e], [l'])
  {
    assert LeadsTo(l, threshold, [e], [l'], 0);
  }

  lemma LeadsOn(l: Ledger, threshold: nat, es: seq<Event>, ls: seq<Ledger>, es': seq<Event>, ls': seq<Ledger>)
    requires Leads(l, threshold, es, ls) && Leads(Last(l, ls), threshold, es', ls')
    ensures Leads(l, threshold, es + es', ls + ls') && Last(l, ls + ls') == Last(Last(l, ls), ls')
  {
    forall i | 0 <= i < |es + es'| ensures LeadsTo(l, threshold, es + es', ls + ls', i) {
      if i < |es| {
        assert (es + es')[i] == es[i] && LeadsTo(l, threshold, es, ls, i);
      } else {
        assert (es + es')[i] == es'[i - |es|] && LeadsTo(Last(l, ls), threshold, es', ls', i - |es|);
      }
    }
  }

  lemma LeadsTwice(l: Ledger, threshold: nat, e1: Event, l1: Ledger, e2: Event, l2: Ledger)
    requires Enabled(l, e1) && l1 == Step(l, threshold, e1)
    requires Enabled(l1, e2) && l2 == Step(l1, threshold, e2)
    ensures Leads(l, threshold, [e1, e2], [l1, l2])
  {
    LeadsOne(l, threshold, e1, l1);
    LeadsOne(l1, threshold, e2, l2);
    LeadsOn(l, threshold, [e1], [l1], [e2], [l2]);
    assert [e1] + [e2] == [e1, e2] && [l1] + [l2] == [l1, l2];
  }

  /** The sweep has sent off its one batch and has nobody else to visit. */
  ghost predicate Visiting(l: Ledger, b: Batch) {
    && l.pending == [] && |l.inFlight| == 1 && l.inFlight[0].batch == b
    && l.settling && |l.sweeps| == 1 && l.sweeps[0].queue == []
  }

  lemma SweepTakesOff(l: Ledger, threshold: nat, b: Batch) returns (es: seq<Event>, ls: seq<Ledger>)
    requires Resting(l, b) && b.jobs != []
    ensures Leads(l, threshold, es, ls) && es == [StartSweep, AdvanceSweep(0)]
    ensures ls[0].settling && Visiting(ls[1], b) && Keeps(l, ls[1])
  {
    var l1 := StartStep(l);
    assert l1.sweeps[0].queue == [b.worker];
    assert IndexOfBatch(l1.pending, b.worker) == 0;
    var l2 := AdvanceStep(l1, 0);
    LeadsTwice(l, threshold, StartSweep, l1, AdvanceSweep(0), l2);
    es, ls := [StartSweep, AdvanceSweep(0)], [l1, l2];
  }

  /** Taking off changes none of these. */
  ghost predicate Keeps(l: Ledger, l': Ledger) {
    && l'.queued == l.queued && l'.settled == l.settled && l'.abandoned == l.abandoned
    && l'.failures == l.failures && l'.minted == l.minted
  }

  lemma SweepLands(l: Ledger, threshold: nat, b: Batch) returns (es: seq<Event>, ls: seq<Ledger>)
    requires Visiting(l, b) && FailedOnce(b).retries < MAX_RETRIES
    ensures Leads(l, threshold, es, ls) && es == [Fail(0), AdvanceSweep(0)]
    ensures ls[0].settling && Resting(ls[1], FailedOnce(b))
  {
    FailParts(l, 0);
    var l1 := FailStep(l, 0);
    assert l1.pending == [FailedOnce(b)] && l1.inFlight == [];
    var l2 := AdvanceStep(l1, 0);
    LeadsTwice(l, threshold, Fail(0), l1, AdvanceSweep(0), l2);
    es, ls := [Fail(0), AdvanceSweep(0)], [l1, l2];
  }

  /** A sweep whose only attempt fails. */
  lemma SweepOfOne(l: Ledger, threshold: nat, b: Batch) returns (es: seq<Event>, ls: seq<Ledger>)
    requires Resting(l, b) && b.jobs != [] && FailedOnce(b).retries < MAX_RETRIES
    ensures Leads(l, threshold, es, ls)
    ensures |es| == |ls| == 4 && es[0] == StartSweep && forall i :: 0 <= i < 4 ==> !es[i].Queue?
    ensures ls[0].settling && ls[1].settling && ls[2].settling && Resting(ls[3], FailedOnce(b))
  {
    var es1, ls1 := SweepTakesOff(l, threshold, b);
    var es2, ls2 := SweepLands(ls1[1], threshold, b);
    LeadsOn(l, threshold, es1, ls1, es2, ls2);
    es, ls := es1 + es2, ls1 + ls2;
  }

  lemma FailingRound(ledgers: seq<Ledger>, threshold: nat, events: seq<Event>, b: Batch)
    returns (ledgers': seq<Ledger>, events': seq<Event>)
    requires IsRun(ledgers, threshold, events) && Resting(ledgers[|events|], b)
    requires b.jobs != [] && FailedOnce(b).retries < MAX_RETRIES
    ensures IsRun(ledgers', threshold, events') && events <= events' && ledgers <= ledgers'
    ensures SweepRound(ledgers', events', |events|, |events'|)
    ensures Resting(ledgers'[|events'|], FailedOnce(b))
  {
    var es, ls := SweepOfOne(ledgers[|events|], threshold, b);
    ExtendAll(ledgers, threshold, events, es, ls);
    RoundOfFour(ledgers, events, ls, es);
    ledgers', events' := ledgers + ls, events + es;
  }

  lemma RoundOfFour(ledgers: seq<Ledger>, events: seq<Event>, ls: seq<Ledger>, es: seq<Event>)
    requires |ledgers| == |events| + 1 && |ls| == |es| == 4
    requires es[0] == StartSweep && forall i :: 0 <= i < 4 ==> !es[i].Queue?
    requires !ledgers[|events|].settling && ls[0].settling && ls[1].settling && ls[2].settling && !ls[3].settling
    requires ledgers[|events|].inFlight == [] && ls[3].inFlight == []
    ensures SweepRound(ledgers + ls, events + es, |events|, |events| + 4)
  {
    var m := |events|;
    assert CompleteSweep(ledgers + ls, events + es, m, m + 3);
  }

  lemma RoundStays(ledgers: seq<Ledger>, events: seq<Event>, ledgers': seq<Ledger>, events': seq<Event>,
                   from: nat, to: nat)
    requires SweepRound(ledgers, events, from, to) && ledgers <= ledgers' && events <= events'
    requires |events'| < |ledgers'|
    ensures SweepRound(ledgers', events', from, to)
  {
    var a: nat, b: nat :| from <= a && b < to && CompleteSweep(ledgers, events, a, b);
    assert CompleteSweep(ledgers', events', a, b);
  }

  /** After two failing sweeps in a row the payout is still pending. */
  lemma TwoSweepsMayNotDrain(threshold: nat, w: Pubkey, jobId: JobId, amount: real)
    returns (ledgers: seq<Ledger>, events: seq<Event>, second: nat)
    ensures IsRun(ledgers, threshold, events)
    ensures SweepRound(ledgers, events, 1, second) && SweepRound(ledgers, events, second, |events|)
    ensures ledgers[|events|].pending != []
  {
    ledgers, events := Extend([EMPTY], threshold, [], Queue(w, jobId, amount));
    var b := NewBatch(Payout(0, w, jobId, amount));
    assert Resting(ledgers[1], b);
    ledgers, events := FailingRound(ledgers, threshold, events, b);
    second := |events|;
    var ledgers', events' := FailingRound(ledgers, threshold, events, FailedOnce(b));
    RoundStays(ledgers, events, ledgers', events', 1, second);
    ledgers, events := ledgers', events';
  }
}
