/** What settlement promises over whole runs, whatever the interleaving of queueing,
    threshold settles, sweeps, successes and failures. */
module SettlementRuns {
  import opened Protocol
  import opened Amounts
  import opened Settlement
  import opened SettlementInvariant

  lemma {:induction false} NumberedOnce(ps: seq<Payout>, k: nat)
    requires k < |ps| && forall j :: 0 <= j < |ps| ==> ps[j].serial == j
    ensures multiset(ps)[ps[k]] == 1
  {
    var front, last := ps[..|ps| - 1], ps[|ps| - 1];
    assert ps == front + [last];
    if k < |ps| - 1 {
      assert front[k] == ps[k];
      NumberedOnce(front, k);
    } else {
      assert last !in front;
    }
  }

  /** No payout is lost, duplicated or invented: the payouts queued so far are exactly the
      payouts found in the four places, and each is in one place, once. */
  lemma EveryPayoutHasOnePlace(ledgers: seq<Ledger>, threshold: nat, events: seq<Event>, n: nat)
    requires IsRun(ledgers, threshold, events) && n < |ledgers|
    ensures multiset(ledgers[n].queued) == Places(ledgers[n])
    ensures forall k :: 0 <= k < |ledgers[n].queued| ==> Places(ledgers[n])[ledgers[n].queued[k]] == 1
  {
    RunKeepsInv(ledgers, threshold, events, n);
    forall k | 0 <= k < |ledgers[n].queued| ensures Places(ledgers[n])[ledgers[n].queued[k]] == 1 {
      NumberedOnce(ledgers[n].queued, k);
    }
  }

  /** A run with one more event. */
  lemma Extend(ledgers: seq<Ledger>, threshold: nat, events: seq<Event>, e: Event)
    returns (ledgers': seq<Ledger>, events': seq<Event>)
    requires IsRun(ledgers, threshold, events) && Enabled(ledgers[|events|], e)
    ensures IsRun(ledgers', threshold, events') && events' == events + [e]
    ensures ledgers' == ledgers + [Step(ledgers[|events|], threshold, e)]
  {
    var l := ledgers[|events|];
    ledgers', events' := ledgers + [Step(l, threshold, e)], events + [e];
    forall i | 0 <= i < |events'|
      ensures Enabled(ledgers'[i], events'[i]) && ledgers'[i + 1] == Step(ledgers'[i], threshold, events'[i])
    {
      if i < |events| {
        assert ledgers'[i] == ledgers[i] && ledgers'[i + 1] == ledgers[i + 1] && events'[i] == events[i];
      }
    }
  }

  // ---- Totals ----

  lemma MultisetWithout(ps: seq<Payout>, i: nat)
    requires i < |ps|
    ensures multiset(ps) == multiset(Without(ps, i)) + multiset{ps[i]}
  {
    assert ps == ps[..i] + [ps[i]] + ps[i + 1..];
  }

  lemma TotalOfCons(p: Payout, ps: seq<Payout>)
    ensures Total([p] + ps) == p.amount + Total(ps)
  {
    assert ([p] + ps)[1..] == ps;
  }

  lemma {:induction false} TotalMiddle(front: seq<Payout>, p: Payout, back: seq<Payout>)
    ensures Total(front + ([p] + back)) == Total(front + back) + p.amount
  {
    TotalOfConcat(front, [p] + back);
    TotalOfCons(p, back);
    TotalOfConcat(front, back);
  }

  lemma {:induction false} TotalWithout(ps: seq<Payout>, i: nat)
    requires i < |ps|
    ensures Total(ps) == Total(Without(ps, i)) + ps[i].amount
  {
    assert ps == ps[..i] + ([ps[i]] + ps[i + 1..]);
    TotalMiddle(ps[..i], ps[i], ps[i + 1..]);
  }

  lemma {:induction false} TotalIgnoresOrder(ps: seq<Payout>, qs: seq<Payout>)
    requires multiset(ps) == multiset(qs)
    ensures Total(ps) == Total(qs)
  {
    if ps == [] {
      assert |multiset(qs)| == 0;
    } else {
      assert ps == [ps[0]] + ps[1..];
      assert ps[0] in multiset(ps);
      assert ps[0] in multiset(qs);
      var i :| 0 <= i < |qs| && qs[i] == ps[0];
      TotalWithout(qs, i);
      MultisetWithout(qs, i);
      assert multiset(ps) == multiset{ps[0]} + multiset(ps[1..]);
      assert multiset(ps[1..]) == multiset(ps) - multiset{ps[0]};
      assert multiset(Without(qs, i)) == multiset(qs) - multiset{ps[0]};
      TotalIgnoresOrder(ps[1..], Without(qs, i));
    }
  }

  /** The total of every live batch is the sum of the amounts of its own jobs, and a batch
      holds payouts of one worker only. */
  lemma BatchTotalsAreExact(ledgers: seq<Ledger>, threshold: nat, events: seq<Event>, n: nat, b: Batch)
    requires IsRun(ledgers, threshold, events) && n < |ledgers|
    requires b in ledgers[n].pending || b in Batches(ledgers[n].inFlight)
    ensures Exact(b.total) == Total(b.jobs)
    ensures forall k :: 0 <= k < |b.jobs| ==> b.jobs[k].worker == b.worker
  {
    RunKeepsInv(ledgers, threshold, events, n);
    assert BatchOk(b);
    ExactIsTotal(b.total);
    TotalIgnoresOrder(Leaves(b.total), b.jobs);
  }

  // ---- Bounded work ----

  /** Attempts begun, finished or not, never exceed three per payout queued. */
  lemma AttemptsAreBounded(ledgers: seq<Ledger>, threshold: nat, events: seq<Event>, n: nat)
    requires IsRun(ledgers, threshold, events) && n < |ledgers|
    ensures |ledgers[n].attempts| <= 3 * |ledgers[n].queued|
  {
    RunKeepsInv(ledgers, threshold, events, n);
    SlackCoversBatches(ledgers[n].pending);
    SlackCoversBatches(Batches(ledgers[n].inFlight));
  }

  /** A batch is only given up on if one of its payouts has been through three failed attempts. */
  lemma GivenUpAfterThreeFailures(ledgers: seq<Ledger>, threshold: nat, events: seq<Event>, n: nat)
    returns (p: Payout)
    requires IsRun(ledgers, threshold, events) && n < |events|
    requires |ledgers[n + 1].abandoned| > |ledgers[n].abandoned|
    ensures events[n].Fail? && p in ledgers[n].inFlight[events[n].k].batch.jobs
    ensures p in ledgers[n + 1].abandoned && ledgers[n + 1].failures[p] >= 3
  {
    RunKeepsInv(ledgers, threshold, events, n);
    var l, e := ledgers[n], events[n];
    OnlyFailureAbandons(l, threshold, e);
    var b := l.inFlight[e.k].batch;
    WitnessAfterFailure(l.failures, b);
    var b' := b.(retries := b.retries + 1);
    var f := l.failures + multiset(b.jobs);
    var k :| 0 <= k < |b'.jobs| && f[b'.jobs[k]] >= b'.retries;
    p := b'.jobs[k];
    assert p in b.jobs;
  }

  lemma OnlyFailureAbandons(l: Ledger, threshold: nat, e: Event)
    requires Enabled(l, e) && |Step(l, threshold, e).abandoned| > |l.abandoned|
    ensures e.Fail?
    ensures l.inFlight[e.k].batch.retries + 1 >= MAX_RETRIES
  {
  }

  /** What queueing does for a worker: a first payout waits alone; a later one joins the
      pending batch, and the batch leaves for an attempt exactly when it has reached the
      threshold. */
  lemma QueueSettlesAtTheThreshold(l: Ledger, threshold: nat, w: Pubkey, jobId: JobId, amount: real)
    requires Shape(l)
    ensures var l', p := Step(l, threshold, Queue(w, jobId, amount)), Payout(|l.queued|, w, jobId, amount);
            var i := IndexOfBatch(l.pending, w);
            && (i == |l.pending| ==> l'.pending == l.pending + [NewBatch(p)] && l'.inFlight == l.inFlight)
            && (i < |l.pending| && |l.pending[i].jobs| + 1 < threshold ==>
                  l'.pending == l.pending[i := Join(l.pending[i], p)] && l'.inFlight == l.inFlight)
            && (i < |l.pending| && |l.pending[i].jobs| + 1 >= threshold ==>
                  l'.pending == Without(l.pending, i)
                  && l'.inFlight == l.inFlight + [Flight(|l.attempts|, Join(l.pending[i], p))])
  {
    var i, p := IndexOfBatch(l.pending, w), Payout(|l.queued|, w, jobId, amount);
    if i < |l.pending| { JoinKeepsPosition(l.pending, i, p); }
  }

  lemma JoinKeepsPosition(bs: seq<Batch>, i: nat, p: Payout)
    requires i < |bs| && i == IndexOfBatch(bs, p.worker)
    ensures var bs' := bs[i := Join(bs[i], p)];
            IndexOfBatch(bs', p.worker) == i && Without(bs', i) == Without(bs, i) && bs'[i].jobs != []
  {
    var bs' := bs[i := Join(bs[i], p)];
    assert forall k :: 0 <= k < |bs| ==> bs'[k].worker == bs[k].worker;
  }

  // ---- Balances ----

  /** The sum of all balances, read exactly. */
  function TotalBalance(xs: seq<Account>): real {
    if xs == [] then 0.0 else Exact(xs[0].sum) + TotalBalance(xs[1..])
  }

  lemma {:induction false} BalancesAddUp(xs: seq<Account>)
    ensures TotalBalance(xs) == Total(Flatten(LeafLists(xs)))
  {
    if xs != [] {
      assert LeafLists(xs)[1..] == LeafLists(xs[1..]);
      BalancesAddUp(xs[1..]);
      ExactIsTotal(xs[0].sum);
      TotalOfConcat(Leaves(xs[0].sum), Flatten(LeafLists(xs[1..])));
    }
  }

  lemma {:induction false} NotInFlatten(xs: seq<seq<Payout>>, p: Payout)
    requires forall k :: 0 <= k < |xs| ==> p !in xs[k]
    ensures p !in Flatten(xs)
  {
    if xs != [] { NotInFlatten(xs[1..], p); }
  }

  /** Counting a payout over all accounts finds it only in its own worker's account. */
  lemma OnlyInOwnAccount(xs: seq<Account>, i: nat, p: Payout)
    requires UniqueAccounts(xs) && i < |xs| && xs[i].worker == p.worker
    requires forall j :: 0 <= j < |xs| ==> OwnLeaves(xs[j])
    ensures multiset(Flatten(LeafLists(xs)))[p] == multiset(Leaves(xs[i].sum))[p]
  {
    FlattenWithout(LeafLists(xs), i);
    var rest := Without(LeafLists(xs), i);
    forall k | 0 <= k < |rest| ensures p !in rest[k] {
      var j := if k < i then k else k + 1;
      assert OwnLeaves(xs[j]) && xs[j].worker != p.worker && rest[k] == Leaves(xs[j].sum);
    }
    NotInFlatten(rest, p);
  }

  /** No update is lost: a worker's balance adds up exactly that worker's settled payouts,
      each once, and all balances together are the total of everything settled. */
  lemma BalancesAreExact(ledgers: seq<Ledger>, threshold: nat, events: seq<Event>, n: nat)
    requires IsRun(ledgers, threshold, events) && n < |ledgers|
    ensures var l := ledgers[n];
            && (forall i, p: Payout :: 0 <= i < |l.accounts| && p.worker == l.accounts[i].worker ==>
                  multiset(Leaves(l.accounts[i].sum))[p] == multiset(l.settled)[p])
            && (forall i, p :: 0 <= i < |l.accounts| && p in Leaves(l.accounts[i].sum) ==>
                  p.worker == l.accounts[i].worker)
            && (forall p :: p in l.settled ==> IndexOfAccount(l.accounts, p.worker) < |l.accounts|)
            && TotalBalance(l.accounts) == Total(l.settled)
  {
    var l := ledgers[n];
    RunKeepsInv(ledgers, threshold, events, n);
    forall i, p: Payout | 0 <= i < |l.accounts| && p.worker == l.accounts[i].worker
      ensures multiset(Leaves(l.accounts[i].sum))[p] == multiset(l.settled)[p]
    {
      OnlyInOwnAccount(l.accounts, i, p);
    }
    forall i, p | 0 <= i < |l.accounts| && p in Leaves(l.accounts[i].sum)
      ensures p.worker == l.accounts[i].worker
    {
      assert OwnLeaves(l.accounts[i]);
    }
    forall p | p in l.settled ensures IndexOfAccount(l.accounts, p.worker) < |l.accounts| {
      SettledHasAccount(l, p);
    }
    BalancesAddUp(l.accounts);
    TotalIgnoresOrder(Flatten(LeafLists(l.accounts)), l.settled);
  }

  lemma SettledHasAccount(l: Ledger, p: Payout)
    requires Balanced(l) && p in l.settled
    ensures IndexOfAccount(l.accounts, p.worker) < |l.accounts|
  {
    assert p in multiset(l.settled);
    assert p in Flatten(LeafLists(l.accounts));
    var i := FromFlatten(LeafLists(l.accounts), p);
    assert OwnLeaves(l.accounts[i]);
    assert l.accounts[i].worker == p.worker;
  }

  /** The payouts of one worker, in their order. */
  function OwnedBy(ps: seq<Payout>, w: Pubkey): seq<Payout> {
    if ps == [] then []
    else if ps[0].worker == w then [ps[0]] + OwnedBy(ps[1..], w)
    else OwnedBy(ps[1..], w)
  }

  lemma {:induction false} OwnedCount(ps: seq<Payout>, w: Pubkey, p: Payout)
    ensures multiset(OwnedBy(ps, w))[p] == if p.worker == w then multiset(ps)[p] else 0
  {
    if ps != [] {
      OwnedCount(ps[1..], w, p);
      assert ps == [ps[0]] + ps[1..];
    }
  }

  /** An account adds up exactly the settled payouts of its worker, each once. */
  lemma AccountHoldsOwn(l: Ledger, i: nat)
    requires Balanced(l) && i < |l.accounts|
    ensures multiset(Leaves(l.accounts[i].sum)) == multiset(OwnedBy(l.settled, l.accounts[i].worker))
  {
    var w, leaves := l.accounts[i].worker, Leaves(l.accounts[i].sum);
    forall p: Payout ensures multiset(leaves)[p] == multiset(OwnedBy(l.settled, w))[p] {
      OwnedCount(l.settled, w, p);
      if p.worker == w {
        OnlyInOwnAccount(l.accounts, i, p);
      } else {
        assert OwnLeaves(l.accounts[i]);
        assert p !in leaves;
      }
    }
  }

  /** Without an account a worker has no settled payouts. */
  lemma {:induction false} NothingOwned(ps: seq<Payout>, w: Pubkey)
    requires forall p :: p in ps ==> p.worker != w
    ensures OwnedBy(ps, w) == []
  {
    if ps != [] { NothingOwned(ps[1..], w); }
  }

  // ---- Raw token units ----

  ghost predicate RewardsOnly(l: Ledger) {
    forall k :: 0 <= k < |l.queued| ==> l.queued[k].amount == JOB_REWARD
  }

  ghost predicate SmallAttempts(l: Ledger) {
    forall a :: 0 <= a < |l.attempts| ==> |l.attempts[a]| <= 67000
  }

  ghost predicate MintedOk(l: Ledger) {
    RewardsOnly(l) && SmallAttempts(l) ==> l.minted == 1000000 * |l.settled|
  }

  lemma HistoryOnlyGrows(l: Ledger, threshold: nat, e: Event)
    requires Enabled(l, e)
    ensures l.queued <= Step(l, threshold, e).queued
    ensures l.attempts <= Step(l, threshold, e).attempts
    ensures l.settled <= Step(l, threshold, e).settled
    ensures l.abandoned <= Step(l, threshold, e).abandoned
  {
  }

  lemma BatchHoldsRewards(l: Ledger, k: nat)
    requires Conserved(l) && Shape(l) && RewardsOnly(l) && k < |l.inFlight|
    ensures AllRewards(l.inFlight[k].batch.total)
    ensures |Leaves(l.inFlight[k].batch.total)| == |l.inFlight[k].batch.jobs|
  {
    var b := l.inFlight[k].batch;
    var ps := Leaves(b.total);
    assert |multiset(ps)| == |multiset(b.jobs)|;
    forall x | 0 <= x < |ps| ensures ps[x].amount == JOB_REWARD {
      assert ps[x] in multiset(ps);
      assert ps[x] in b.jobs;
      InFlatten(JobLists(Batches(l.inFlight)), k, ps[x]);
      assert ps[x] in multiset(JobsOf(Batches(l.inFlight)));
      assert ps[x] in multiset(l.queued);
      var y :| 0 <= y < |l.queued| && l.queued[y] == ps[x];
    }
  }

  lemma HypothesesPersist(l: Ledger, threshold: nat, e: Event)
    requires Enabled(l, e) && RewardsOnly(Step(l, threshold, e)) && SmallAttempts(Step(l, threshold, e))
    ensures RewardsOnly(l) && SmallAttempts(l)
  {
    var l' := Step(l, threshold, e);
    HistoryOnlyGrows(l, threshold, e);
    assert forall k :: 0 <= k < |l.queued| ==> l'.queued[k] == l.queued[k];
    assert forall a :: 0 <= a < |l.attempts| ==> l'.attempts[a] == l.attempts[a];
  }

  lemma FlightPaysExactly(l: Ledger, k: nat)
    requires Conserved(l) && Shape(l) && RewardsOnly(l) && SmallAttempts(l) && k < |l.inFlight|
    ensures RawUnits(l.inFlight[k].batch.total) == 1000000 * |l.inFlight[k].batch.jobs|
  {
    BatchHoldsRewards(l, k);
    var f := l.inFlight[k];
    assert l.attempts[f.id] == f.batch.jobs;
    RawUnitsAreExact(f.batch.total);
  }

  lemma OnlySuccessMints(l: Ledger, threshold: nat, e: Event)
    requires Enabled(l, e) && !e.Succeed?
    ensures Step(l, threshold, e).minted == l.minted && Step(l, threshold, e).settled == l.settled
  {
  }

  lemma StepKeepsMinted(l: Ledger, threshold: nat, e: Event)
    requires Conserved(l) && Shape(l) && MintedOk(l) && Enabled(l, e)
    ensures MintedOk(Step(l, threshold, e))
  {
    var l' := Step(l, threshold, e);
    if RewardsOnly(l') && SmallAttempts(l') {
      HypothesesPersist(l, threshold, e);
      if e.Succeed? {
        FlightPaysExactly(l, e.k);
      } else {
        OnlySuccessMints(l, threshold, e);
      }
    }
  }

  /** As long as every payout is the fixed reward and no attempt holds more than 67000 of
      them, the raw units moved on chain are exactly one million per settled job, whatever
      binary64 rounding happened while totals were accumulated and merged. */
  lemma RawUnitsPaidAreExact(ledgers: seq<Ledger>, threshold: nat, events: seq<Event>, n: nat)
    requires IsRun(ledgers, threshold, events) && n < |ledgers|
    ensures RewardsOnly(ledgers[n]) && SmallAttempts(ledgers[n]) ==>
              ledgers[n].minted == 1000000 * |ledgers[n].settled|
  {
    RunKeepsMinted(ledgers, threshold, events, n);
  }

  /** A confirmed attempt of n rewards pays n million raw units up to the rounding error of
      its sum. */
  lemma AttemptsPayClosely(ledgers: seq<Ledger>, threshold: nat, events: seq<Event>, n: nat)
    requires IsRun(ledgers, threshold, events) && n < |events| && events[n].Succeed? && RewardsOnly(ledgers[n])
    requires |ledgers[n].inFlight[events[n].k].batch.jobs| <= 1000000000000
    ensures AboutRight(ledgers[n + 1].minted - ledgers[n].minted, |ledgers[n].inFlight[events[n].k].batch.jobs|)
  {
    RunConserves(ledgers, threshold, events, n);
    BatchHoldsRewards(ledgers[n], events[n].k);
    RawUnitsAreClose(ledgers[n].inFlight[events[n].k].batch.total);
  }

  /** The payouts settled for a worker of single rewards are rewards. */
  lemma OwnedAreRewards(l: Ledger, i: nat)
    requires Conserved(l) && Balanced(l) && RewardsOnly(l) && i < |l.accounts|
    ensures AllRewards(l.accounts[i].sum)
  {
    var leaves := Leaves(l.accounts[i].sum);
    AccountHoldsOwn(l, i);
    forall k | 0 <= k < |leaves| ensures leaves[k].amount == JOB_REWARD {
      OwnedCount(l.settled, l.accounts[i].worker, leaves[k]);
      assert leaves[k] in multiset(leaves);
      assert leaves[k] in multiset(l.settled);
      assert leaves[k] in multiset(l.queued);
      var y :| 0 <= y < |l.queued| && l.queued[y] == leaves[k];
    }
  }

  lemma BalanceConverts(l: Ledger, w: Pubkey)
    requires Conserved(l) && Balanced(l) && RewardsOnly(l)
    ensures var u, n := ToUnits(Balance(l.accounts, w)), |OwnedBy(l.settled, w)|;
            (n <= 67000 ==> u == 1000000 * n) && (0 < n <= 1000000000000 ==> AboutRight(u, n))
  {
    var i := IndexOfAccount(l.accounts, w);
    if i < |l.accounts| {
      AccountHoldsOwn(l, i);
      assert |multiset(Leaves(l.accounts[i].sum))| == |multiset(OwnedBy(l.settled, w))|;
      OwnedAreRewards(l, i);
      if |OwnedBy(l.settled, w)| <= 67000 { RawUnitsAreExact(l.accounts[i].sum); }
      if |OwnedBy(l.settled, w)| <= 1000000000000 { RawUnitsAreClose(l.accounts[i].sum); }
    } else {
      forall p | p in l.settled ensures p.worker != w {
        SettledHasAccount(l, p);
      }
      NothingOwned(l.settled, w);
    }
  }

  /** Without rounding a balance is the sum of the worker's settled payouts. With single
      rewards, up to 67000 of them, the balance a caller is given converts to exactly one
      million raw units for each, whatever was rounded on the way; beyond that it is off by
      no more than the rounding error of the sum. */
  lemma BalancesConvertExactly(ledgers: seq<Ledger>, threshold: nat, events: seq<Event>, n: nat, w: Pubkey)
    requires IsRun(ledgers, threshold, events) && n < |ledgers|
    ensures var l := ledgers[n];
            var i, own := IndexOfAccount(l.accounts, w), OwnedBy(l.settled, w);
            && (if i < |l.accounts| then Exact(l.accounts[i].sum) == Total(own) else own == [])
            && (RewardsOnly(l) && |own| <= 67000 ==>
                  ToUnits(Balance(l.accounts, w)) == 1000000 * |own|)
            && (RewardsOnly(l) && 0 < |own| <= 1000000000000 ==>
                  AboutRight(ToUnits(Balance(l.accounts, w)), |own|))
  {
    RunKeepsInv(ledgers, threshold, events, n);
    AccountTotals(ledgers[n], w);
    if RewardsOnly(ledgers[n]) { BalanceConverts(ledgers[n], w); }
  }

  lemma AccountTotals(l: Ledger, w: Pubkey)
    requires Balanced(l)
    ensures var i, own := IndexOfAccount(l.accounts, w), OwnedBy(l.settled, w);
            if i < |l.accounts| then Exact(l.accounts[i].sum) == Total(own) else own == []
  {
    var i := IndexOfAccount(l.accounts, w);
    if i < |l.accounts| {
      AccountHoldsOwn(l, i);
      ExactIsTotal(l.accounts[i].sum);
      TotalIgnoresOrder(Leaves(l.accounts[i].sum), OwnedBy(l.settled, w));
    } else {
      forall p | p in l.settled ensures p.worker != w {
        SettledHasAccount(l, p);
      }
      NothingOwned(l.settled, w);
    }
  }

  lemma RunConserves(ledgers: seq<Ledger>, threshold: nat, events: seq<Event>, n: nat)
    requires IsRun(ledgers, threshold, events) && n < |ledgers|
    ensures Conserved(ledgers[n]) && Shape(ledgers[n])
  {
    RunKeepsInv(ledgers, threshold, events, n);
  }

  lemma {:induction false} RunKeepsMinted(ledgers: seq<Ledger>, threshold: nat, events: seq<Event>, n: nat)
    requires IsRun(ledgers, threshold, events) && n < |ledgers|
    ensures MintedOk(ledgers[n])
  {
    if n == 0 {
      FreshMinted(ledgers[n]);
    } else {
      RunKeepsMinted(ledgers, threshold, events, n - 1);
      NextMinted(ledgers, threshold, events, n - 1);
    }
  }

  lemma FreshMinted(l: Ledger)
    requires Fresh(l)
    ensures MintedOk(l)
  {
  }

  lemma NextMinted(ledgers: seq<Ledger>, threshold: nat, events: seq<Event>, i: nat)
    requires IsRun(ledgers, threshold, events) && i < |events| && MintedOk(ledgers[i])
    ensures MintedOk(ledgers[i + 1])
  {
    RunConserves(ledgers, threshold, events, i);
    StepKeepsMinted(ledgers[i], threshold, events[i]);
  }

  // ---- Sweeps ----

  ghost predicate InPending(bs: seq<Batch>, p: Payout) {
    exists i :: 0 <= i < |bs| && bs[i].worker == p.worker && p in bs[i].jobs
  }

  /** The payout took part in an attempt numbered since or later. */
  ghost predicate Tried(attempts: seq<seq<Payout>>, since: nat, p: Payout) {
    exists a :: since <= a < |attempts| && p in attempts[a]
  }

  /** The sweep has dealt with the payout, or will. */
  ghost predicate Covered(l: Ledger, sw: Sweep, p: Payout) {
    Tried(l.attempts, sw.since, p) || (p.worker in sw.queue && InPending(l.pending, p))
  }

  ghost predicate SweepOk(l: Ledger, sw: Sweep) {
    && sw.since <= |l.attempts|
    && forall p :: p in sw.targets ==> Covered(l, sw, p)
  }

  /** At most one sweep is under way, and the flag says whether there is one. */
  ghost predicate SweepsOk(l: Ledger) {
    && |l.sweeps| == (if l.settling then 1 else 0)
    && forall i :: 0 <= i < |l.sweeps| ==> SweepOk(l, l.sweeps[i])
  }

  lemma TriedStaysTried(attempts: seq<seq<Payout>>, attempts': seq<seq<Payout>>, since: nat, p: Payout)
    requires Tried(attempts, since, p) && attempts <= attempts'
    ensures Tried(attempts', since, p)
  {
    var a :| since <= a < |attempts| && p in attempts[a];
    assert attempts'[a] == attempts[a];
  }

  lemma BeginMoves(l: Ledger, i: nat, k: nat, since: nat, p: Payout)
    requires i < |l.pending| && k < |l.pending| && since <= |l.attempts|
    requires l.pending[k].worker == p.worker && p in l.pending[k].jobs
    ensures k == i ==> Tried(Begin(l, i).attempts, since, p)
    ensures k != i ==> InPending(Begin(l, i).pending, p)
  {
    var l' := Begin(l, i);
    if k == i {
      assert l'.attempts[|l.attempts|] == l.pending[i].jobs;
    } else {
      var k' := if k < i then k else k - 1;
      assert l'.pending[k'] == l.pending[k];
    }
  }

  /** After settling a worker, its pending payouts are in a new attempt and everybody
      else's are where they were. */
  lemma SettleMoves(l: Ledger, w: Pubkey, since: nat, p: Payout)
    requires PendingOk(l.pending) && since <= |l.attempts| && InPending(l.pending, p)
    ensures var l' := SettleWorker(l, w);
            Tried(l'.attempts, since, p) || (p.worker != w && InPending(l'.pending, p))
  {
    var k :| 0 <= k < |l.pending| && l.pending[k].worker == p.worker && p in l.pending[k].jobs;
    var i := IndexOfBatch(l.pending, w);
    if i < |l.pending| {
      assert BatchOk(l.pending[i]);
      BeginMoves(l, i, k, since, p);
      assert SettleWorker(l, w) == Begin(l, i);
    } else {
      assert SettleWorker(l, w) == l && l.pending[k].worker != w;
    }
  }

  lemma EnqueueKeepsPending(l: Ledger, q: Payout, p: Payout)
    requires InPending(l.pending, p)
    ensures InPending(Enqueue(l, q).pending, p)
  {
    var k :| 0 <= k < |l.pending| && l.pending[k].worker == p.worker && p in l.pending[k].jobs;
    var bs := Enqueue(l, q).pending;
    assert bs[k].worker == p.worker && p in bs[k].jobs;
  }

  lemma RequeueKeepsPending(bs: seq<Batch>, b: Batch, p: Payout)
    requires InPending(bs, p)
    ensures InPending(Requeue(bs, b), p)
  {
    var k :| 0 <= k < |bs| && bs[k].worker == p.worker && p in bs[k].jobs;
    var bs' := Requeue(bs, b);
    assert bs'[k].worker == p.worker && p in bs'[k].jobs;
  }

  lemma FailKeepsPending(l: Ledger, k: nat, p: Payout)
    requires k < |l.inFlight| && InPending(l.pending, p)
    ensures InPending(FailStep(l, k).pending, p)
  {
    var b := l.inFlight[k].batch;
    if b.retries + 1 < MAX_RETRIES {
      RequeueKeepsPending(l.pending, b.(retries := b.retries + 1), p);
    }
  }

  lemma QueueKeepsPending(l: Ledger, threshold: nat, w: Pubkey, jobId: JobId, amount: real, since: nat, p: Payout)
    requires Shape(l) && since <= |l.attempts| && InPending(l.pending, p)
    ensures var l' := QueueStep(l, threshold, w, jobId, amount);
            Tried(l'.attempts, since, p) || InPending(l'.pending, p)
  {
    var q := Payout(|l.queued|, w, jobId, amount);
    EnqueueKeepsPending(l, q, p);
    EnqueueKeepsShape(l, q);
    SettleMoves(Enqueue(l, q), w, since, p);
  }

  /** A pending payout stays pending or is tried, whatever happens outside the sweep. */
  lemma PendingOrTried(l: Ledger, threshold: nat, e: Event, since: nat, p: Payout)
    requires Shape(l) && Enabled(l, e) && since <= |l.attempts| && InPending(l.pending, p)
    requires !e.AdvanceSweep?
    ensures Tried(Step(l, threshold, e).attempts, since, p) || InPending(Step(l, threshold, e).pending, p)
  {
    match e
    case Queue(w, jobId, amount) => QueueKeepsPending(l, threshold, w, jobId, amount, since, p);
    case Fail(k) => FailKeepsPending(l, k, p);
    case Succeed(k) => assert SucceedStep(l, k).pending == l.pending;
    case StartSweep => assert StartStep(l).pending == l.pending;
  }

  lemma StartCovers(l: Ledger)
    requires Shape(l) && SweepsOk(l)
    ensures SweepsOk(StartStep(l))
  {
    if !l.settling {
      var l' := StartStep(l);
      var sw := l'.sweeps[0];
      forall p | p in sw.targets ensures Covered(l', sw, p) {
        var i := FromFlatten(JobLists(l.pending), p);
        assert BatchOk(l.pending[i]);
        assert l.pending[i].worker == p.worker;
        assert sw.queue[i] == p.worker;
      }
    }
  }

  lemma OutsideKeepsSweep(l: Ledger, threshold: nat, e: Event, sw: Sweep)
    requires Shape(l) && Enabled(l, e) && !e.AdvanceSweep? && SweepOk(l, sw)
    ensures SweepOk(Step(l, threshold, e), sw)
  {
    var l' := Step(l, threshold, e);
    HistoryOnlyGrows(l, threshold, e);
    forall p | p in sw.targets ensures Covered(l', sw, p) {
      if Tried(l.attempts, sw.since, p) {
        TriedStaysTried(l.attempts, l'.attempts, sw.since, p);
      } else {
        PendingOrTried(l, threshold, e, sw.since, p);
      }
    }
  }

  lemma AdvanceKeepsSweeps(l: Ledger, i: nat)
    requires Shape(l) && SweepsOk(l) && i < |l.sweeps|
    ensures SweepsOk(AdvanceStep(l, i))
  {
    var sw, l' := l.sweeps[i], AdvanceStep(l, i);
    if sw.queue != [] {
      var sw' := l'.sweeps[i];
      assert l.attempts <= l'.attempts;
      forall p | p in sw'.targets ensures Covered(l', sw', p) {
        if Tried(l.attempts, sw.since, p) {
          TriedStaysTried(l.attempts, l'.attempts, sw.since, p);
        } else {
          SettleMoves(l, sw.queue[0], sw.since, p);
        }
      }
    }
  }

  lemma SweepsUntouched(l: Ledger, threshold: nat, e: Event)
    requires Enabled(l, e) && !e.AdvanceSweep? && !e.StartSweep?
    ensures Step(l, threshold, e).sweeps == l.sweeps && Step(l, threshold, e).settling == l.settling
  {
  }

  lemma StepKeepsSweeps(l: Ledger, threshold: nat, e: Event)
    requires Shape(l) && SweepsOk(l) && Enabled(l, e)
    ensures SweepsOk(Step(l, threshold, e))
  {
    if e.AdvanceSweep? {
      AdvanceKeepsSweeps(l, e.i);
    } else if e.StartSweep? {
      StartCovers(l);
    } else {
      SweepsUntouched(l, threshold, e);
      forall i | 0 <= i < |l.sweeps| ensures SweepOk(Step(l, threshold, e), l.sweeps[i]) {
        OutsideKeepsSweep(l, threshold, e, l.sweeps[i]);
      }
    }
  }

  /** Sweeps never overlap: at most one is under way in every reachable state. */
  lemma {:induction false} SweepsNeverOverlap(ledgers: seq<Ledger>, threshold: nat, events: seq<Event>, n: nat)
    requires IsRun(ledgers, threshold, events) && n < |ledgers|
    ensures SweepsOk(ledgers[n])
    ensures |ledgers[n].sweeps| <= 1
  {
    if n > 0 {
      SweepsNeverOverlap(ledgers, threshold, events, n - 1);
      RunKeepsInv(ledgers, threshold, events, n - 1);
      StepKeepsSweeps(ledgers[n - 1], threshold, events[n - 1]);
    }
  }

  lemma OneSweepWhileSettling(ledgers: seq<Ledger>, threshold: nat, events: seq<Event>, n: nat)
    requires IsRun(ledgers, threshold, events) && n < |ledgers|
    ensures |ledgers[n].sweeps| == if ledgers[n].settling then 1 else 0
  {
    SweepsNeverOverlap(ledgers, threshold, events, n);
  }

  /** The only sweep under way started from these batches, when this many attempts had
      begun, and the workers it has still to visit are the last ones on the list it read. */
  ghost predicate SweepFrom(l: Ledger, bs: seq<Batch>, since: nat) {
    && |l.sweeps| == 1
    && l.sweeps[0].targets == JobsOf(bs) && l.sweeps[0].since == since
    && IsEndOf(l.sweeps[0].queue, Keys(bs))
  }

  ghost predicate IsEndOf(ws: seq<Pubkey>, all: seq<Pubkey>) {
    |ws| <= |all| && ws == all[|all| - |ws|..]
  }

  lemma SweepBegins(l: Ledger, l': Ledger, threshold: nat)
    requires !l.settling && l.sweeps == [] && l' == Step(l, threshold, StartSweep)
    ensures SweepFrom(l', l.pending, |l.attempts|)
  {
  }

  /** A sweep that goes on keeps its record and works its list off from the front. */
  lemma SweepGoesOn(l: Ledger, l': Ledger, threshold: nat, e: Event, bs: seq<Batch>, since: nat)
    requires Enabled(l, e) && l' == Step(l, threshold, e)
    requires l.settling && l'.settling && SweepFrom(l, bs, since)
    ensures SweepFrom(l', bs, since)
  {
    var queue := l.sweeps[0].queue;
    if !e.AdvanceSweep? && !e.StartSweep? {
      SweepsUntouched(l, threshold, e);
    } else {
      assert l'.sweeps[0].targets == l.sweeps[0].targets && l'.sweeps[0].since == l.sweeps[0].since;
      assert l'.sweeps[0].queue == queue || (queue != [] && l'.sweeps[0].queue == queue[1..]);
    }
  }

  lemma FirstRecord(ledgers: seq<Ledger>, threshold: nat, events: seq<Event>, a: nat)
    requires IsRun(ledgers, threshold, events) && a < |events|
    requires events[a] == StartSweep && !ledgers[a].settling
    ensures SweepFrom(ledgers[a + 1], ledgers[a].pending, |ledgers[a].attempts|)
  {
    OneSweepWhileSettling(ledgers, threshold, events, a);
    SweepBegins(ledgers[a], ledgers[a + 1], threshold);
  }

  /** While a sweep that started at event a is under way, it remembers what was pending and
      goes on with the list of workers it read then. */
  lemma {:induction false} SweepRemembersItsStart(
    ledgers: seq<Ledger>, threshold: nat, events: seq<Event>, a: nat, n: nat)
    requires IsRun(ledgers, threshold, events) && a < n < |ledgers|
    requires events[a] == StartSweep && !ledgers[a].settling
    requires forall k :: a < k <= n ==> ledgers[k].settling
    ensures SweepFrom(ledgers[n], ledgers[a].pending, |ledgers[a].attempts|)
    decreases n
  {
    FirstRecord(ledgers, threshold, events, a);
    if n > a + 1 {
      SweepRemembersItsStart(ledgers, threshold, events, a, n - 1);
      SweepGoesOn(ledgers[n - 1], ledgers[n], threshold, events[n - 1], ledgers[a].pending, |ledgers[a].attempts|);
    }
  }

  /** By the time a sweep ends, every payout that was pending when it started has been part
      of an attempt begun since, despite threshold settles and re-queues in between. */
  lemma SweepTriesEverything(ledgers: seq<Ledger>, threshold: nat, events: seq<Event>, a: nat, b: nat, p: Payout)
    requires IsRun(ledgers, threshold, events) && a < b < |events|
    requires events[a] == StartSweep && !ledgers[a].settling
    requires forall k :: a < k <= b ==> ledgers[k].settling
    requires !ledgers[b + 1].settling
    requires p in JobsOf(ledgers[a].pending)
    ensures Tried(ledgers[b].attempts, |ledgers[a].attempts|, p)
  {
    SweepRemembersItsStart(ledgers, threshold, events, a, b);
    SweepsNeverOverlap(ledgers, threshold, events, b);
    var l, e := ledgers[b], events[b];
    assert ledgers[b + 1] == Step(l, threshold, e);
    assert e.AdvanceSweep? && l.sweeps[0].queue == [];
    assert Covered(l, l.sweeps[0], p);
  }

  // ---- One attempt at a time ----

  /** The sweep is waiting for the attempt with this number. */
  ghost predicate AwaitsOne(l: Ledger, id: nat) {
    l.settling && |l.sweeps| == 1 && l.sweeps[0].awaiting == Some(id)
  }

  /** An attempt that has landed never flies again. */
  lemma FlightsAreNew(l: Ledger, threshold: nat, e: Event, id: nat)
    requires Enabled(l, e) && id < |l.attempts| && Flying(Step(l, threshold, e).inFlight, id)
    ensures Flying(l.inFlight, id)
  {
    if e.Succeed? || e.Fail? {
      LandedOne(l, threshold, e);
      FlewBeforeLanding(l.inFlight, e.k, id);
    } else {
      OnlyOneTakesOff(l, threshold, e);
      FlewBeforeTakeOff(l.inFlight, Step(l, threshold, e).inFlight, |l.attempts|, id);
    }
  }

  lemma FlewBeforeLanding(fs: seq<Flight>, k: nat, id: nat)
    requires k < |fs| && Flying(Without(fs, k), id)
    ensures Flying(fs, id)
  {
    var j :| 0 <= j < |Without(fs, k)| && Without(fs, k)[j].id == id;
    assert fs[if j < k then j else j + 1].id == id;
  }

  lemma FlewBeforeTakeOff(fs: seq<Flight>, fs': seq<Flight>, newest: nat, id: nat)
    requires |fs| <= |fs'| <= |fs| + 1 && (forall k :: 0 <= k < |fs| ==> fs'[k] == fs[k])
    requires (|fs'| > |fs| ==> fs'[|fs|].id == newest) && id < newest && Flying(fs', id)
    ensures Flying(fs, id)
  {
    var k :| 0 <= k < |fs'| && fs'[k].id == id;
    assert k < |fs| && fs[k].id == id;
  }

  lemma LandedOne(l: Ledger, threshold: nat, e: Event)
    requires Enabled(l, e) && (e.Succeed? || e.Fail?)
    ensures Step(l, threshold, e).inFlight == Without(l.inFlight, e.k)
  {
    FailParts(l, e.k);
  }

  lemma OnlyOneTakesOff(l: Ledger, threshold: nat, e: Event)
    requires Enabled(l, e) && !e.Succeed? && !e.Fail?
    ensures var fs, fs' := l.inFlight, Step(l, threshold, e).inFlight;
            && |fs| <= |fs'| <= |fs| + 1 && (forall k :: 0 <= k < |fs| ==> fs'[k] == fs[k])
            && (|fs'| > |fs| ==> fs'[|fs|].id == |l.attempts|)
  {
  }

  /** A turn that begins an attempt leaves the sweep waiting for it. */
  lemma TurnAwaits(l: Ledger, threshold: nat)
    requires Enabled(l, AdvanceSweep(0)) && |l.sweeps| == 1 && l.settling
    ensures var l' := Step(l, threshold, AdvanceSweep(0));
            |l'.attempts| > |l.attempts| ==>
              AwaitsOne(l', |l.attempts|) && Flying(l'.inFlight, |l.attempts|) && |l'.attempts| == |l.attempts| + 1
  {
    var l' := Step(l, threshold, AdvanceSweep(0));
    if |l'.attempts| > |l.attempts| { assert l'.inFlight[|l.inFlight|].id == |l.attempts|; }
  }

  lemma StillAwaits(l: Ledger, threshold: nat, e: Event, id: nat)
    requires Enabled(l, e) && AwaitsOne(l, id) && Flying(l.inFlight, id)
    ensures AwaitsOne(Step(l, threshold, e), id) && !Enabled(l, AdvanceSweep(0))
  {
    if !e.AdvanceSweep? && !e.StartSweep? { SweepsUntouched(l, threshold, e); }
  }

  lemma NextStillAwaits(ledgers: seq<Ledger>, threshold: nat, events: seq<Event>, n: nat, id: nat)
    requires IsRun(ledgers, threshold, events) && 0 < n < |ledgers| && AwaitsOne(ledgers[n - 1], id)
    requires Flying(ledgers[n - 1].inFlight, id)
    ensures AwaitsOne(ledgers[n], id)
  {
    StillAwaits(ledgers[n - 1], threshold, events[n - 1], id);
  }

  lemma NextFlewBefore(ledgers: seq<Ledger>, threshold: nat, events: seq<Event>, n: nat, id: nat)
    requires IsRun(ledgers, threshold, events) && 0 < n < |ledgers|
    requires id < |ledgers[n - 1].attempts| && Flying(ledgers[n].inFlight, id)
    ensures Flying(ledgers[n - 1].inFlight, id)
  {
    FlightsAreNew(ledgers[n - 1], threshold, events[n - 1], id);
  }

  lemma {:induction false} AttemptsStay(ledgers: seq<Ledger>, threshold: nat, events: seq<Event>, m: nat, n: nat)
    requires IsRun(ledgers, threshold, events) && m <= n < |ledgers|
    ensures |ledgers[m].attempts| <= |ledgers[n].attempts|
    decreases n
  {
    if m < n {
      AttemptsStay(ledgers, threshold, events, m, n - 1);
      HistoryOnlyGrows(ledgers[n - 1], threshold, events[n - 1]);
    }
  }

  /** A sweep settles one worker at a time: after a turn that begins an attempt there is no
      further turn, and no end of the sweep, until that attempt has finished. */
  lemma {:induction false} SweepsWaitForTheirAttempts(
    ledgers: seq<Ledger>, threshold: nat, events: seq<Event>, a: nat, n: nat)
    requires IsRun(ledgers, threshold, events) && a < n < |ledgers|
    requires events[a] == AdvanceSweep(0) && |ledgers[a + 1].attempts| > |ledgers[a].attempts|
    requires Flying(ledgers[n].inFlight, |ledgers[a].attempts|)
    ensures AwaitsOne(ledgers[n], |ledgers[a].attempts|) && forall i :: !Enabled(ledgers[n], AdvanceSweep(i))
    decreases n
  {
    var id := |ledgers[a].attempts|;
    if n == a + 1 {
      OneSweepWhileSettling(ledgers, threshold, events, a);
      FirstTurnAwaits(ledgers, threshold, events, a);
    } else {
      AttemptsStay(ledgers, threshold, events, a + 1, n - 1);
      NextFlewBefore(ledgers, threshold, events, n, id);
      SweepsWaitForTheirAttempts(ledgers, threshold, events, a, n - 1);
      NextStillAwaits(ledgers, threshold, events, n, id);
    }
  }

  lemma FirstTurnAwaits(ledgers: seq<Ledger>, threshold: nat, events: seq<Event>, a: nat)
    requires IsRun(ledgers, threshold, events) && a < |events| && events[a] == AdvanceSweep(0)
    requires |ledgers[a].sweeps| == if ledgers[a].settling then 1 else 0
    requires |ledgers[a + 1].attempts| > |ledgers[a].attempts|
    ensures AwaitsOne(ledgers[a + 1], |ledgers[a].attempts|)
  {
    TurnAwaits(ledgers[a], threshold);
  }
}
