/** What settlement keeps under every interleaving: no payout is lost or duplicated, the
    number of attempts is bounded by the number of payouts, balances are exact, and a
    batch is only abandoned after real failures. */
module SettlementInvariant {
  import opened Protocol
  import opened Amounts
  import opened Settlement

  // ---- Lists of lists ----

  lemma {:induction false} FlattenConcat(xs: seq<seq<Payout>>, ys: seq<seq<Payout>>)
    ensures Flatten(xs + ys) == Flatten(xs) + Flatten(ys)
  {
    if xs == [] {
      assert xs + ys == ys;
    } else {
      assert (xs + ys)[1..] == xs[1..] + ys;
      FlattenConcat(xs[1..], ys);
    }
  }

  lemma {:induction false} FlattenAppend(xs: seq<seq<Payout>>, x: seq<Payout>)
    ensures Flatten(xs + [x]) == Flatten(xs) + x
  {
    FlattenConcat(xs, [x]);
    assert Flatten([x]) == x;
  }

  lemma {:induction false} FlattenWithout(xs: seq<seq<Payout>>, i: nat)
    requires i < |xs|
    ensures multiset(Flatten(xs)) == multiset(Flatten(Without(xs, i))) + multiset(xs[i])
  {
    var a, b := xs[..i], xs[i + 1..];
    FlattenConcat(a, b);
    FlattenAppend(a, xs[i]);
    FlattenConcat(a + [xs[i]], b);
    assert xs == a + [xs[i]] + b;
  }

  lemma FlattenGrow(xs: seq<seq<Payout>>, i: nat, x: seq<Payout>, extra: multiset<Payout>)
    requires i < |xs| && multiset(x) == multiset(xs[i]) + extra
    ensures multiset(Flatten(xs[i := x])) == multiset(Flatten(xs)) + extra
  {
    FlattenWithout(xs, i);
    FlattenWithout(xs[i := x], i);
    assert Without(xs[i := x], i) == Without(xs, i);
    assert xs[i := x][i] == x;
  }

  lemma {:induction false} InFlatten(xs: seq<seq<Payout>>, i: nat, p: Payout)
    requires i < |xs| && p in xs[i]
    ensures p in Flatten(xs)
  {
    if i > 0 { InFlatten(xs[1..], i - 1, p); }
  }

  lemma {:induction false} FromFlatten(xs: seq<seq<Payout>>, p: Payout) returns (i: nat)
    requires p in Flatten(xs)
    ensures i < |xs| && p in xs[i]
  {
    if p in xs[0] {
      i := 0;
    } else {
      i := FromFlatten(xs[1..], p);
      i := i + 1;
    }
  }

  // ---- How the parts of the ledger change ----

  lemma JobsAfterAppend(bs: seq<Batch>, b: Batch)
    ensures multiset(JobsOf(bs + [b])) == multiset(JobsOf(bs)) + multiset(b.jobs)
  {
    assert JobLists(bs + [b]) == JobLists(bs) + [b.jobs];
    FlattenAppend(JobLists(bs), b.jobs);
  }

  lemma {:induction false} JobsAfterWithout(bs: seq<Batch>, i: nat)
    requires i < |bs|
    ensures multiset(JobsOf(bs)) == multiset(JobsOf(Without(bs, i))) + multiset(bs[i].jobs)
  {
    FlattenWithout(JobLists(bs), i);
    JobListsWithout(bs, i);
  }

  lemma JobListsWithout(bs: seq<Batch>, i: nat)
    requires i < |bs|
    ensures JobLists(Without(bs, i)) == Without(JobLists(bs), i)
  {
  }

  lemma JobsAfterGrow(bs: seq<Batch>, i: nat, b: Batch, extra: multiset<Payout>)
    requires i < |bs| && multiset(b.jobs) == multiset(bs[i].jobs) + extra
    ensures multiset(JobsOf(bs[i := b])) == multiset(JobsOf(bs)) + extra
  {
    assert JobLists(bs[i := b]) == JobLists(bs)[i := b.jobs];
    FlattenGrow(JobLists(bs), i, b.jobs, extra);
  }

  lemma FlightsAfterAppend(fs: seq<Flight>, f: Flight)
    ensures Batches(fs + [f]) == Batches(fs) + [f.batch]
  {
  }

  lemma FlightsAfterWithout(fs: seq<Flight>, k: nat)
    requires k < |fs|
    ensures Batches(Without(fs, k)) == Without(Batches(fs), k)
  {
  }

  lemma JobsAfterRequeue(bs: seq<Batch>, b: Batch)
    ensures multiset(JobsOf(Requeue(bs, b))) == multiset(JobsOf(bs)) + multiset(b.jobs)
  {
    var i := IndexOfBatch(bs, b.worker);
    if i == |bs| {
      JobsAfterAppend(bs, b);
    } else {
      var m := Merge(bs[i], b);
      assert multiset(m.jobs) == multiset(b.jobs) + multiset(bs[i].jobs);
      JobsAfterGrow(bs, i, m, multiset(b.jobs));
    }
  }

  lemma JobsAfterEnqueue(bs: seq<Batch>, p: Payout)
    ensures var i := IndexOfBatch(bs, p.worker);
            multiset(JobsOf(if i == |bs| then bs + [NewBatch(p)] else bs[i := Join(bs[i], p)]))
            == multiset(JobsOf(bs)) + multiset{p}
  {
    var i := IndexOfBatch(bs, p.worker);
    if i == |bs| {
      JobsAfterAppend(bs, NewBatch(p));
    } else {
      var m := Join(bs[i], p);
      assert multiset(m.jobs) == multiset(bs[i].jobs) + multiset{p};
      JobsAfterGrow(bs, i, m, multiset{p});
    }
  }

  // ---- Conservation ----

  /** Where payouts can be: pending, in flight, settled or abandoned. */
  function Places(l: Ledger): multiset<Payout> {
    multiset(JobsOf(l.pending)) + multiset(JobsOf(Batches(l.inFlight)))
    + multiset(l.settled) + multiset(l.abandoned)
  }

  /** Everything that was queued is in one of the four places. */
  ghost predicate Conserved(l: Ledger) {
    multiset(l.queued) == Places(l)
  }

  /** What a failure leaves behind when the batch may be retried, and when it may not. */
  lemma FailParts(l: Ledger, k: nat)
    requires k < |l.inFlight|
    ensures var b, l' := FailedOnce(l.inFlight[k].batch), FailStep(l, k);
            && l'.inFlight == Without(l.inFlight, k)
            && l'.pending == (if b.retries < MAX_RETRIES then Requeue(l.pending, b) else l.pending)
            && l'.abandoned == (if b.retries < MAX_RETRIES then l.abandoned else l.abandoned + b.jobs)
            && l'.queued == l.queued && l'.settled == l.settled && l'.attempts == l.attempts
            && l'.sweeps == l.sweeps && l'.settling == l.settling && l'.accounts == l.accounts
            && l'.failures == l.failures + multiset(b.jobs)
  {
  }

  lemma BeginConserves(l: Ledger, i: nat)
    requires Conserved(l) && i < |l.pending|
    ensures Conserved(Begin(l, i))
  {
    JobsAfterWithout(l.pending, i);
    var f := Flight(|l.attempts|, l.pending[i]);
    FlightsAfterAppend(l.inFlight, f);
    JobsAfterAppend(Batches(l.inFlight), f.batch);
  }

  lemma SettleConserves(l: Ledger, w: Pubkey)
    requires Conserved(l)
    ensures Conserved(SettleWorker(l, w))
  {
    var i := IndexOfBatch(l.pending, w);
    if i < |l.pending| { BeginConserves(l, i); }
  }

  lemma EnqueueConserves(l: Ledger, p: Payout)
    requires Conserved(l)
    ensures Conserved(Enqueue(l, p))
  {
    JobsAfterEnqueue(l.pending, p);
  }

  lemma JobsAfterLanding(fs: seq<Flight>, k: nat)
    requires k < |fs|
    ensures multiset(JobsOf(Batches(fs))) == multiset(JobsOf(Batches(Without(fs, k)))) + multiset(fs[k].batch.jobs)
  {
    FlightsAfterWithout(fs, k);
    JobsAfterWithout(Batches(fs), k);
  }

  lemma SucceedConserves(l: Ledger, k: nat)
    requires Conserved(l) && k < |l.inFlight|
    ensures Conserved(SucceedStep(l, k))
  {
    JobsAfterLanding(l.inFlight, k);
    var jobs := l.inFlight[k].batch.jobs;
    assert multiset(l.settled + jobs) == multiset(l.settled) + multiset(jobs);
  }

  lemma FailConserves(l: Ledger, k: nat)
    requires Conserved(l) && k < |l.inFlight|
    ensures Conserved(FailStep(l, k))
  {
    JobsAfterLanding(l.inFlight, k);
    FailParts(l, k);
    var b := FailedOnce(l.inFlight[k].batch);
    if b.retries < MAX_RETRIES {
      RetryConserves(l, FailStep(l, k), b);
    } else {
      AbandonConserves(l, FailStep(l, k), b);
    }
  }

  /** A batch goes from flight back to pending. */
  lemma RetryConserves(l: Ledger, l': Ledger, b: Batch)
    requires Conserved(l) && l'.queued == l.queued && l'.settled == l.settled && l'.abandoned == l.abandoned
    requires multiset(JobsOf(Batches(l.inFlight))) == multiset(JobsOf(Batches(l'.inFlight))) + multiset(b.jobs)
    requires l'.pending == Requeue(l.pending, b)
    ensures Conserved(l')
  {
    JobsAfterRequeue(l.pending, b);
  }

  /** A batch goes from flight to the abandoned. */
  lemma AbandonConserves(l: Ledger, l': Ledger, b: Batch)
    requires Conserved(l) && l'.queued == l.queued && l'.settled == l.settled && l'.pending == l.pending
    requires multiset(JobsOf(Batches(l.inFlight))) == multiset(JobsOf(Batches(l'.inFlight))) + multiset(b.jobs)
    requires l'.abandoned == l.abandoned + b.jobs
    ensures Conserved(l')
  {
    assert multiset(l'.abandoned) == multiset(l.abandoned) + multiset(b.jobs);
  }

  lemma StepConserves(l: Ledger, threshold: nat, e: Event)
    requires Conserved(l) && Enabled(l, e)
    ensures Conserved(Step(l, threshold, e))
  {
    match e
    case Queue(w, jobId, amount) =>
      var p := Payout(|l.queued|, w, jobId, amount);
      EnqueueConserves(l, p);
      SettleConserves(Enqueue(l, p), w);
    case Succeed(k) => SucceedConserves(l, k);
    case Fail(k) => FailConserves(l, k);
    case StartSweep =>
    case AdvanceSweep(i) =>
      if l.sweeps[i].queue != [] { SettleConserves(l, l.sweeps[i].queue[0]); }
  }

  // ---- The shape of batches ----

  /** A live batch is not empty, belongs to one worker, has failed at most twice and its
      total adds up its own jobs, each once. */
  ghost predicate BatchOk(b: Batch) {
    && b.jobs != []
    && b.retries < MAX_RETRIES
    && multiset(Leaves(b.total)) == multiset(b.jobs)
    && forall k :: 0 <= k < |b.jobs| ==> b.jobs[k].worker == b.worker
  }

  ghost predicate UniqueWorkers(bs: seq<Batch>) {
    forall i, j :: 0 <= i < j < |bs| ==> bs[i].worker != bs[j].worker
  }

  ghost predicate PendingOk(bs: seq<Batch>) {
    && UniqueWorkers(bs)
    && forall i :: 0 <= i < |bs| ==> BatchOk(bs[i])
  }

  /** An attempt in flight is logged under its number. */
  ghost predicate FlightOk(f: Flight, attempts: seq<seq<Payout>>) {
    BatchOk(f.batch) && f.id < |attempts| && attempts[f.id] == f.batch.jobs
  }

  ghost predicate DistinctNumbers(fs: seq<Flight>) {
    forall j, k :: 0 <= j < k < |fs| ==> fs[j].id != fs[k].id
  }

  ghost predicate FlightsOk(fs: seq<Flight>, attempts: seq<seq<Payout>>) {
    DistinctNumbers(fs) && forall k :: 0 <= k < |fs| ==> FlightOk(fs[k], attempts)
  }

  /** Payouts are numbered in queueing order. */
  ghost predicate Numbered(l: Ledger) {
    forall k :: 0 <= k < |l.queued| ==> l.queued[k].serial == k
  }

  ghost predicate Shape(l: Ledger) {
    PendingOk(l.pending) && FlightsOk(l.inFlight, l.attempts) && Numbered(l)
  }

  lemma JoinIsOk(b: Batch, p: Payout)
    requires BatchOk(b) && p.worker == b.worker
    ensures BatchOk(Join(b, p))
  {
  }

  lemma MergeIsOk(b: Batch, c: Batch)
    requires BatchOk(b) && BatchOk(c) && b.worker == c.worker
    ensures BatchOk(Merge(b, c))
  {
  }

  lemma TakeOffKeepsFlights(fs: seq<Flight>, attempts: seq<seq<Payout>>, b: Batch)
    requires FlightsOk(fs, attempts) && BatchOk(b)
    ensures FlightsOk(fs + [Flight(|attempts|, b)], attempts + [b.jobs])
  {
    var fs', attempts' := fs + [Flight(|attempts|, b)], attempts + [b.jobs];
    forall k | 0 <= k < |fs'| ensures FlightOk(fs'[k], attempts') {
      if k < |fs| { assert FlightOk(fs[k], attempts); }
    }
  }

  lemma BeginKeepsShape(l: Ledger, i: nat)
    requires Shape(l) && i < |l.pending|
    ensures Shape(Begin(l, i))
  {
    PendingOkWithout(l.pending, i);
    TakeOffKeepsFlights(l.inFlight, l.attempts, l.pending[i]);
  }

  lemma PendingOkWithout(bs: seq<Batch>, i: nat)
    requires PendingOk(bs) && i < |bs|
    ensures PendingOk(Without(bs, i))
  {
  }

  lemma EnqueueKeepsShape(l: Ledger, p: Payout)
    requires Shape(l) && p.serial == |l.queued|
    ensures Shape(Enqueue(l, p))
  {
    EnqueueKeepsPendingOk(l.pending, p);
    assert Numbered(Enqueue(l, p));
  }

  /** Changing a batch without changing its worker, or adding one for a new worker. */
  lemma UniqueAfterUpdate(bs: seq<Batch>, i: nat, b: Batch)
    requires PendingOk(bs) && i < |bs| && b.worker == bs[i].worker && BatchOk(b)
    ensures PendingOk(bs[i := b])
  {
    var bs' := bs[i := b];
    forall j, k | 0 <= j < k < |bs'| ensures bs'[j].worker != bs'[k].worker {
      assert bs[j].worker != bs[k].worker;
    }
  }

  lemma UniqueAfterAppend(bs: seq<Batch>, b: Batch)
    requires PendingOk(bs) && IndexOfBatch(bs, b.worker) == |bs| && BatchOk(b)
    ensures PendingOk(bs + [b])
  {
  }

  lemma EnqueueKeepsPendingOk(bs: seq<Batch>, p: Payout)
    requires PendingOk(bs)
    ensures var i := IndexOfBatch(bs, p.worker);
            PendingOk(if i == |bs| then bs + [NewBatch(p)] else bs[i := Join(bs[i], p)])
  {
    var i := IndexOfBatch(bs, p.worker);
    if i < |bs| {
      JoinIsOk(bs[i], p);
      UniqueAfterUpdate(bs, i, Join(bs[i], p));
    } else {
      assert BatchOk(NewBatch(p));
      UniqueAfterAppend(bs, NewBatch(p));
    }
  }

  lemma RequeueKeepsShape(bs: seq<Batch>, b: Batch)
    requires PendingOk(bs) && BatchOk(b)
    ensures PendingOk(Requeue(bs, b))
  {
    var i := IndexOfBatch(bs, b.worker);
    if i < |bs| {
      MergeIsOk(bs[i], b);
      UniqueAfterUpdate(bs, i, Merge(bs[i], b));
    } else {
      UniqueAfterAppend(bs, b);
    }
  }

  lemma SettleKeepsShape(l: Ledger, w: Pubkey)
    requires Shape(l)
    ensures Shape(SettleWorker(l, w))
  {
    var i := IndexOfBatch(l.pending, w);
    if i < |l.pending| { BeginKeepsShape(l, i); }
  }

  lemma LandingKeepsNumbers(fs: seq<Flight>, k: nat)
    requires DistinctNumbers(fs) && k < |fs|
    ensures DistinctNumbers(Without(fs, k))
  {
  }

  lemma LandingKeepsFlights(fs: seq<Flight>, attempts: seq<seq<Payout>>, k: nat)
    requires FlightsOk(fs, attempts) && k < |fs|
    ensures FlightsOk(Without(fs, k), attempts)
  {
    LandingKeepsNumbers(fs, k);
  }

  lemma FailKeepsShape(l: Ledger, k: nat)
    requires Shape(l) && k < |l.inFlight|
    ensures Shape(FailStep(l, k))
  {
    LandingKeepsFlights(l.inFlight, l.attempts, k);
    FailParts(l, k);
    var b := FailedOnce(l.inFlight[k].batch);
    if b.retries < MAX_RETRIES {
      assert FlightOk(l.inFlight[k], l.attempts);
      RequeueKeepsShape(l.pending, b);
    }
  }

  lemma StepKeepsShape(l: Ledger, threshold: nat, e: Event)
    requires Shape(l) && Enabled(l, e)
    ensures Shape(Step(l, threshold, e))
  {
    match e
    case Queue(w, jobId, amount) =>
      var p := Payout(|l.queued|, w, jobId, amount);
      EnqueueKeepsShape(l, p);
      SettleKeepsShape(Enqueue(l, p), w);
    case Succeed(k) => LandingKeepsFlights(l.inFlight, l.attempts, k);
    case Fail(k) => FailKeepsShape(l, k);
    case StartSweep =>
    case AdvanceSweep(i) =>
      if l.sweeps[i].queue != [] { SettleKeepsShape(l, l.sweeps[i].queue[0]); }
  }

  // ---- Bounded work ----

  /** Whether batches of a worker are watched: all of them, or those of one worker. */
  predicate Watched(who: Option<Pubkey>, w: Pubkey) {
    who.None? || who.value == w
  }

  /** How many more failures a batch could take, if it is watched. */
  function Left(b: Batch, who: Option<Pubkey>): int {
    if Watched(who, b.worker) then MAX_RETRIES - b.retries else 0
  }

  /** How many more failures the watched batches could take, added up. */
  function Slack(bs: seq<Batch>, who: Option<Pubkey>): int {
    if bs == [] then 0 else Left(bs[0], who) + Slack(bs[1..], who)
  }

  lemma {:induction false} SlackAppend(bs: seq<Batch>, b: Batch, who: Option<Pubkey>)
    ensures Slack(bs + [b], who) == Slack(bs, who) + Left(b, who)
  {
    if bs == [] {
      assert bs + [b] == [b];
    } else {
      assert (bs + [b])[1..] == bs[1..] + [b];
      SlackAppend(bs[1..], b, who);
    }
  }

  lemma {:induction false} SlackWithout(bs: seq<Batch>, i: nat, who: Option<Pubkey>)
    requires i < |bs|
    ensures Slack(bs, who) == Slack(Without(bs, i), who) + Left(bs[i], who)
  {
    if i == 0 {
      assert Without(bs, 0) == bs[1..];
    } else {
      SlackWithout(bs[1..], i - 1, who);
      assert Without(bs, i)[1..] == Without(bs[1..], i - 1);
    }
  }

  lemma {:induction false} SlackUpdate(bs: seq<Batch>, i: nat, b: Batch, who: Option<Pubkey>)
    requires i < |bs| && b.retries == bs[i].retries && b.worker == bs[i].worker
    ensures Slack(bs[i := b], who) == Slack(bs, who)
  {
    SlackWithout(bs, i, who);
    SlackWithout(bs[i := b], i, who);
    assert Without(bs[i := b], i) == Without(bs, i);
  }

  function Potential(l: Ledger, who: Option<Pubkey>): int {
    Slack(l.pending, who) + Slack(Batches(l.inFlight), who)
  }

  lemma BeginKeepsPotential(l: Ledger, i: nat, who: Option<Pubkey>)
    requires i < |l.pending|
    ensures Potential(Begin(l, i), who) == Potential(l, who)
  {
    SlackWithout(l.pending, i, who);
    FlightsAfterAppend(l.inFlight, Flight(|l.attempts|, l.pending[i]));
    SlackAppend(Batches(l.inFlight), l.pending[i], who);
  }

  lemma EnqueueRaisesPotential(l: Ledger, p: Payout, who: Option<Pubkey>)
    ensures Potential(l, who) <= Potential(Enqueue(l, p), who)
            <= Potential(l, who) + if Watched(who, p.worker) then MAX_RETRIES else 0
  {
    var i := IndexOfBatch(l.pending, p.worker);
    if i == |l.pending| {
      SlackAppend(l.pending, NewBatch(p), who);
    } else {
      SlackUpdate(l.pending, i, Join(l.pending[i], p), who);
    }
  }

  lemma RequeueSlack(bs: seq<Batch>, b: Batch, who: Option<Pubkey>)
    requires b.retries < MAX_RETRIES
    ensures Slack(bs, who) <= Slack(Requeue(bs, b), who) <= Slack(bs, who) + Left(b, who)
  {
    var i := IndexOfBatch(bs, b.worker);
    if i == |bs| {
      SlackAppend(bs, b, who);
    } else {
      SlackUpdate(bs, i, Merge(bs[i], b), who);
    }
  }

  lemma SettleKeepsPotential(l: Ledger, w: Pubkey, who: Option<Pubkey>)
    ensures Potential(SettleWorker(l, w), who) == Potential(l, who)
  {
    var i := IndexOfBatch(l.pending, w);
    if i < |l.pending| { BeginKeepsPotential(l, i, who); }
  }

  lemma LandingLowersSlack(fs: seq<Flight>, k: nat, who: Option<Pubkey>)
    requires k < |fs|
    ensures Slack(Batches(Without(fs, k)), who) == Slack(Batches(fs), who) - Left(fs[k].batch, who)
  {
    FlightsAfterWithout(fs, k);
    SlackWithout(Batches(fs), k, who);
  }

  lemma FailLowersPotential(l: Ledger, k: nat, who: Option<Pubkey>)
    requires k < |l.inFlight| && l.inFlight[k].batch.retries < MAX_RETRIES
    ensures Potential(FailStep(l, k), who)
            <= Potential(l, who) - if Watched(who, l.inFlight[k].batch.worker) then 1 else 0
  {
    LandingLowersSlack(l.inFlight, k, who);
    FailParts(l, k);
    var b := FailedOnce(l.inFlight[k].batch);
    if b.retries < MAX_RETRIES {
      RequeueSlack(l.pending, b, who);
    }
  }

  /** Every finished attempt of a watched worker lowers the potential, queueing for one
      raises it by at most three, and nothing else raises it. */
  lemma PotentialFalls(l: Ledger, threshold: nat, e: Event, who: Option<Pubkey>)
    requires Shape(l) && Enabled(l, e)
    ensures e.Succeed? || e.Fail? ==>
              Potential(Step(l, threshold, e), who)
              <= Potential(l, who) - if Watched(who, l.inFlight[e.k].batch.worker) then 1 else 0
    ensures e.Queue? ==>
              Potential(Step(l, threshold, e), who)
              <= Potential(l, who) + if Watched(who, e.worker) then MAX_RETRIES else 0
    ensures e.StartSweep? || e.AdvanceSweep? ==> Potential(Step(l, threshold, e), who) == Potential(l, who)
  {
    match e
    case Queue(w, jobId, amount) =>
      var p := Payout(|l.queued|, w, jobId, amount);
      EnqueueRaisesPotential(l, p, who);
      SettleKeepsPotential(Enqueue(l, p), w, who);
    case Succeed(k) =>
      LandingLowersSlack(l.inFlight, k, who);
      assert FlightOk(l.inFlight[k], l.attempts);
    case Fail(k) =>
      assert FlightOk(l.inFlight[k], l.attempts);
      FailLowersPotential(l, k, who);
    case StartSweep =>
    case AdvanceSweep(i) =>
      if l.sweeps[i].queue != [] { SettleKeepsPotential(l, l.sweeps[i].queue[0], who); }
  }

  ghost predicate Bounded(l: Ledger) {
    && l.finished + Potential(l, None) <= MAX_RETRIES * |l.queued|
    && |l.attempts| == l.finished + |l.inFlight|
  }

  lemma StepKeepsBounded(l: Ledger, threshold: nat, e: Event)
    requires Shape(l) && Bounded(l) && Enabled(l, e)
    ensures Bounded(Step(l, threshold, e))
  {
    PotentialFalls(l, threshold, e, None);
    CountsMove(l, threshold, e);
  }

  /** Attempts begun are in flight or finished, and only a queueing adds to the queued. */
  lemma CountsMove(l: Ledger, threshold: nat, e: Event)
    requires Enabled(l, e)
    ensures var l' := Step(l, threshold, e);
            && l'.finished == l.finished + (if e.Succeed? || e.Fail? then 1 else 0)
            && |l'.attempts| - |l'.inFlight| - l'.finished == |l.attempts| - |l.inFlight| - l.finished
            && |l'.queued| == |l.queued| + (if e.Queue? then 1 else 0)
  {
  }

  lemma {:induction false} SlackCoversBatches(bs: seq<Batch>)
    requires forall i :: 0 <= i < |bs| ==> BatchOk(bs[i])
    ensures |bs| <= Slack(bs, None)
  {
    if bs != [] { SlackCoversBatches(bs[1..]); }
  }

  lemma {:induction false} SlackIsPositive(bs: seq<Batch>, who: Option<Pubkey>)
    requires forall i :: 0 <= i < |bs| ==> BatchOk(bs[i])
    ensures 0 <= Slack(bs, who)
  {
    if bs != [] { SlackIsPositive(bs[1..], who); }
  }

  // ---- Failures behind a retry count ----

  ghost predicate Witness(failures: multiset<Payout>, b: Batch) {
    exists k :: 0 <= k < |b.jobs| && failures[b.jobs[k]] >= b.retries
  }

  /** Every live batch holds a payout that took part in at least as many failed attempts
      as the batch's retry count says. */
  ghost predicate Witnessed(l: Ledger) {
    AllWitnessed(l.failures, l.pending) && AllWitnessed(l.failures, Batches(l.inFlight))
  }

  lemma WitnessGrows(f: multiset<Payout>, f': multiset<Payout>, b: Batch)
    requires Witness(f, b) && f <= f'
    ensures Witness(f', b)
  {
    var k :| 0 <= k < |b.jobs| && f[b.jobs[k]] >= b.retries;
    assert f'[b.jobs[k]] >= b.retries;
  }

  lemma WitnessAfterFailure(f: multiset<Payout>, b: Batch)
    requires Witness(f, b)
    ensures Witness(f + multiset(b.jobs), FailedOnce(b))
  {
    var k :| 0 <= k < |b.jobs| && f[b.jobs[k]] >= b.retries;
    var b' := FailedOnce(b);
    assert b.jobs[k] in multiset(b.jobs);
    assert (f + multiset(b.jobs))[b'.jobs[k]] >= b'.retries;
  }

  lemma WitnessSurvivesMore(f: multiset<Payout>, b: Batch, b': Batch, shift: nat)
    requires Witness(f, b) && b'.retries == b.retries
    requires |b.jobs| + shift <= |b'.jobs| && b'.jobs[shift..shift + |b.jobs|] == b.jobs
    ensures Witness(f, b')
  {
    var k :| 0 <= k < |b.jobs| && f[b.jobs[k]] >= b.retries;
    assert b'.jobs[shift + k] == b.jobs[k];
  }

  lemma RequeueKeepsWitnesses(f: multiset<Payout>, bs: seq<Batch>, b: Batch)
    requires Witness(f, b) && AllWitnessed(f, bs)
    ensures AllWitnessed(f, Requeue(bs, b))
  {
    var i := IndexOfBatch(bs, b.worker);
    if i < |bs| { WitnessSurvivesMore(f, bs[i], Merge(bs[i], b), |b.jobs|); }
  }

  lemma EnqueueKeepsWitnesses(l: Ledger, p: Payout)
    requires Witnessed(l)
    ensures Witnessed(Enqueue(l, p))
  {
    var i := IndexOfBatch(l.pending, p.worker);
    if i < |l.pending| {
      WitnessSurvivesMore(l.failures, l.pending[i], Join(l.pending[i], p), 0);
    } else {
      assert NewBatch(p).jobs[0] == p && l.failures[p] >= 0;
      assert Witness(l.failures, NewBatch(p));
    }
  }

  lemma BeginKeepsWitnesses(l: Ledger, i: nat)
    requires Witnessed(l) && i < |l.pending|
    ensures Witnessed(Begin(l, i))
  {
    FlightsAfterAppend(l.inFlight, Flight(|l.attempts|, l.pending[i]));
  }

  lemma FailKeepsWitnesses(l: Ledger, k: nat)
    requires Witnessed(l) && k < |l.inFlight|
    ensures Witnessed(FailStep(l, k))
  {
    var b, f := l.inFlight[k].batch, l.failures + multiset(l.inFlight[k].batch.jobs);
    WitnessesGrow(l.failures, f, l.pending);
    WitnessesGrow(l.failures, f, Batches(l.inFlight));
    WitnessAfterFailure(l.failures, b);
    RequeueKeepsWitnesses(f, l.pending, FailedOnce(b));
    FailParts(l, k);
    FlightsAfterWithout(l.inFlight, k);
  }

  /** Every one of these batches has its witness. */
  ghost predicate AllWitnessed(f: multiset<Payout>, bs: seq<Batch>) {
    forall i :: 0 <= i < |bs| ==> Witness(f, bs[i])
  }

  lemma WitnessesGrow(f: multiset<Payout>, f': multiset<Payout>, bs: seq<Batch>)
    requires AllWitnessed(f, bs) && f <= f'
    ensures AllWitnessed(f', bs)
  {
    forall i | 0 <= i < |bs| ensures Witness(f', bs[i]) {
      WitnessGrows(f, f', bs[i]);
    }
  }

  lemma SettleKeepsWitnesses(l: Ledger, w: Pubkey)
    requires Witnessed(l)
    ensures Witnessed(SettleWorker(l, w))
  {
    var i := IndexOfBatch(l.pending, w);
    if i < |l.pending| { BeginKeepsWitnesses(l, i); }
  }

  lemma StepKeepsWitnesses(l: Ledger, threshold: nat, e: Event)
    requires Witnessed(l) && Enabled(l, e)
    ensures Witnessed(Step(l, threshold, e))
  {
    match e
    case Queue(w, jobId, amount) =>
      var p := Payout(|l.queued|, w, jobId, amount);
      EnqueueKeepsWitnesses(l, p);
      SettleKeepsWitnesses(Enqueue(l, p), w);
    case Succeed(k) => FlightsAfterWithout(l.inFlight, k);
    case Fail(k) => FailKeepsWitnesses(l, k);
    case StartSweep =>
    case AdvanceSweep(i) =>
      if l.sweeps[i].queue != [] { SettleKeepsWitnesses(l, l.sweeps[i].queue[0]); }
  }

  // ---- Balances ----

  ghost predicate UniqueAccounts(xs: seq<Account>) {
    forall i, j :: 0 <= i < j < |xs| ==> xs[i].worker != xs[j].worker
  }

  /** Each account sums payouts of its own worker. */
  ghost predicate OwnLeaves(a: Account) {
    forall k :: 0 <= k < |Leaves(a.sum)| ==> Leaves(a.sum)[k].worker == a.worker
  }

  ghost predicate Balanced(l: Ledger) {
    && UniqueAccounts(l.accounts)
    && (forall i :: 0 <= i < |l.accounts| ==> OwnLeaves(l.accounts[i]))
    && multiset(Flatten(LeafLists(l.accounts))) == multiset(l.settled)
  }

  lemma TotalBelongsToWorker(b: Batch)
    requires BatchOk(b)
    ensures OwnLeaves(Account(b.worker, b.total))
  {
    forall k | 0 <= k < |Leaves(b.total)| ensures Leaves(b.total)[k].worker == b.worker {
      assert Leaves(b.total)[k] in multiset(Leaves(b.total));
      assert Leaves(b.total)[k] in b.jobs;
    }
  }

  lemma JoinedLeavesAreOwn(w: Pubkey, s: Sum, t: Sum)
    requires OwnLeaves(Account(w, s)) && OwnLeaves(Account(w, t))
    ensures OwnLeaves(Account(w, Add(s, t)))
  {
    var ps := Leaves(Add(s, t));
    assert ps == Leaves(s) + Leaves(t);
    forall k | 0 <= k < |ps| ensures ps[k].worker == w {
      if k < |Leaves(s)| {
        assert Leaves(Account(w, s).sum)[k].worker == w;
      } else {
        assert Leaves(Account(w, t).sum)[k - |Leaves(s)|].worker == w;
      }
    }
  }

  lemma CreditKeepsOwners(xs: seq<Account>, w: Pubkey, sum: Sum)
    requires UniqueAccounts(xs) && OwnLeaves(Account(w, sum))
    requires forall i :: 0 <= i < |xs| ==> OwnLeaves(xs[i])
    ensures UniqueAccounts(Credit(xs, w, sum))
    ensures forall i :: 0 <= i < |Credit(xs, w, sum)| ==> OwnLeaves(Credit(xs, w, sum)[i])
  {
    var i := IndexOfAccount(xs, w);
    if i < |xs| {
      assert xs[i] == Account(w, xs[i].sum);
      JoinedLeavesAreOwn(w, xs[i].sum, sum);
    }
  }

  lemma LeavesAfterUpdate(xs: seq<Account>, i: nat, sum: Sum)
    requires i < |xs|
    ensures LeafLists(xs[i := Account(xs[i].worker, sum)]) == LeafLists(xs)[i := Leaves(sum)]
  {
  }

  lemma LeavesAfterAppend(xs: seq<Account>, a: Account)
    ensures LeafLists(xs + [a]) == LeafLists(xs) + [Leaves(a.sum)]
  {
  }

  lemma {:induction false} CreditAdds(xs: seq<Account>, w: Pubkey, sum: Sum)
    ensures multiset(Flatten(LeafLists(Credit(xs, w, sum)))) == multiset(Flatten(LeafLists(xs))) + multiset(Leaves(sum))
  {
    var i := IndexOfAccount(xs, w);
    if i == |xs| {
      LeavesAfterAppend(xs, Account(w, sum));
      FlattenAppend(LeafLists(xs), Leaves(sum));
    } else {
      LeavesAfterUpdate(xs, i, Add(xs[i].sum, sum));
      FlattenGrow(LeafLists(xs), i, Leaves(xs[i].sum) + Leaves(sum), multiset(Leaves(sum)));
    }
  }

  lemma StepKeepsBalances(l: Ledger, threshold: nat, e: Event)
    requires Shape(l) && Balanced(l) && Enabled(l, e)
    ensures Balanced(Step(l, threshold, e))
  {
    if e.Succeed? {
      var b := l.inFlight[e.k].batch;
      TotalBelongsToWorker(b);
      CreditKeepsOwners(l.accounts, b.worker, b.total);
      CreditAdds(l.accounts, b.worker, b.total);
    } else {
      OnlySuccessCredits(l, threshold, e);
    }
  }

  lemma OnlySuccessCredits(l: Ledger, threshold: nat, e: Event)
    requires Enabled(l, e) && !e.Succeed?
    ensures Step(l, threshold, e).accounts == l.accounts && Step(l, threshold, e).settled == l.settled
  {
  }

  // ---- The invariant ----

  ghost predicate Inv(l: Ledger) {
    Conserved(l) && Shape(l) && Bounded(l) && Witnessed(l) && Balanced(l)
  }

  lemma StepKeepsInv(l: Ledger, threshold: nat, e: Event)
    requires Inv(l) && Enabled(l, e)
    ensures Inv(Step(l, threshold, e))
  {
    StepConserves(l, threshold, e);
    StepKeepsShape(l, threshold, e);
    StepKeepsBounded(l, threshold, e);
    StepKeepsWitnesses(l, threshold, e);
    StepKeepsBalances(l, threshold, e);
  }

  ghost predicate Fresh(l: Ledger) {
    && |l.pending| == |l.inFlight| == |l.accounts| == |l.queued| == 0
    && |l.attempts| == |l.settled| == |l.abandoned| == l.finished == l.minted == 0
  }

  lemma FreshConserves(l: Ledger)
    requires Fresh(l)
    ensures Conserved(l)
  {
    assert JobLists(l.pending) == [] && JobLists(Batches(l.inFlight)) == [];
  }

  lemma FreshIsFine(l: Ledger)
    requires Fresh(l)
    ensures Inv(l)
  {
    FreshConserves(l);
    assert LeafLists(l.accounts) == [];
    assert Slack(l.pending, None) == 0 && Slack(Batches(l.inFlight), None) == 0;
  }

  lemma RunStartsFine(ledgers: seq<Ledger>, threshold: nat, events: seq<Event>)
    requires IsRun(ledgers, threshold, events)
    ensures Inv(ledgers[0])
  {
    FreshIsFine(ledgers[0]);
  }

  lemma NextKeepsInv(ledgers: seq<Ledger>, threshold: nat, events: seq<Event>, n: nat)
    requires IsRun(ledgers, threshold, events) && 0 < n < |ledgers| && Inv(ledgers[n - 1])
    ensures Inv(ledgers[n])
  {
    StepKeepsInv(ledgers[n - 1], threshold, events[n - 1]);
  }

  lemma {:induction false} RunKeepsInv(ledgers: seq<Ledger>, threshold: nat, events: seq<Event>, n: nat)
    requires IsRun(ledgers, threshold, events) && n < |ledgers|
    ensures Inv(ledgers[n])
  {
    if n == 0 {
      RunStartsFine(ledgers, threshold, events);
    } else {
      RunKeepsInv(ledgers, threshold, events, n - 1);
      NextKeepsInv(ledgers, threshold, events, n);
    }
  }
}
